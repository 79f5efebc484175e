/** Draining a demuxed output stream: files get every byte, memory keeps the
    last bytes only, trimmed as chunks arrive. */
module StreamTail {
  import opened Common

  type Bytes = seq<bv8>

  /** One item of the stream: a stdout part and a stderr part, either may be missing. */
  datatype Chunk = Chunk(stdout: Option<Bytes>, stderr: Option<Bytes>)

  const MAX_LOG_BYTES: nat := 10_000_000

  function Last(s: Bytes, n: nat): (r: Bytes)
    ensures |r| == (if |s| <= n then |s| else n) && s == s[..|s| - |r|] + r
  {
    if |s| <= n then s else s[|s| - n..]
  }

  /** A missing part is like an empty one. */
  function Part(part: Option<Bytes>): Bytes {
    if part.Some? then part.value else []
  }

  /** What one chunk adds to a target that takes its stdout part, its stderr part, or both. */
  function Piece(chunk: Chunk, out: bool, err: bool): Bytes {
    (if out then Part(chunk.stdout) else []) + (if err then Part(chunk.stderr) else [])
  }

  function Written(chunks: seq<Chunk>, out: bool, err: bool): Bytes {
    if |chunks| == 0 then [] else Written(chunks[..|chunks| - 1], out, err) + Piece(chunks[|chunks| - 1], out, err)
  }

  function Stdout(chunks: seq<Chunk>): Bytes { Written(chunks, true, false) }

  function Stderr(chunks: seq<Chunk>): Bytes { Written(chunks, false, true) }

  lemma WrittenNext(chunks: seq<Chunk>, i: nat, out: bool, err: bool)
    requires i < |chunks|
    ensures Written(chunks[..i + 1], out, err) == Written(chunks[..i], out, err) + Piece(chunks[i], out, err)
  {
    assert chunks[..i + 1][..i] == chunks[..i];
  }

  /** Trimming early loses nothing that trimming late would keep. */
  lemma TrimAsYouGo(s: Bytes, t: Bytes, n: nat)
    ensures Last(Last(s, n) + t, n) == Last(s + t, n)
  {
    var early, late := Last(Last(s, n) + t, n), Last(s + t, n);
    assert |early| == |late|;
    forall k | 0 <= k < |late|
      ensures early[k] == late[k]
    {
    }
  }

  class LogFile {
    var contents: Bytes

    constructor (contents: Bytes)
      ensures this.contents == contents
    {
      this.contents := contents;
    }

    method Write(bytes: Bytes)
      modifies this
      ensures contents == old(contents) + bytes
    {
      contents := contents + bytes;
    }
  }

  ghost function Target(file: LogFile?): set<object> { if file == null then {} else {file} }

  /** One part of one chunk: extend, trim, and append to the file if there is one. */
  method Take(acc: Bytes, part: Option<Bytes>, file: LogFile?, ghost whole: Bytes) returns (r: Bytes)
    requires acc == Last(whole, MAX_LOG_BYTES)
    modifies Target(file)
    ensures r == Last(whole + Part(part), MAX_LOG_BYTES)
    ensures file != null ==> file.contents == old(file.contents) + Part(part)
  {
    if part.None? || part.value == [] {
      assert whole + Part(part) == whole;
      return acc;
    }
    r := acc + part.value;
    TrimAsYouGo(whole, part.value, MAX_LOG_BYTES);
    if |r| > MAX_LOG_BYTES {
      r := r[|r| - MAX_LOG_BYTES..];
    }
    if file != null {
      file.Write(part.value);
    }
  }

  /** The kept bytes are the last of each whole stream, however it was cut into
      chunks; each file is appended every byte in order, and one file given for
      both streams gets both, chunk by chunk. */
  method DrainExecStream(chunks: seq<Chunk>, stdoutFile: LogFile?, stderrFile: LogFile?)
    returns (stdoutAcc: Bytes, stderrAcc: Bytes)
    modifies Target(stdoutFile) + Target(stderrFile)
    ensures stdoutAcc == Last(Stdout(chunks), MAX_LOG_BYTES) && stderrAcc == Last(Stderr(chunks), MAX_LOG_BYTES)
    ensures stdoutFile != null ==>
      stdoutFile.contents == old(stdoutFile.contents) + Written(chunks, true, stdoutFile == stderrFile)
    ensures stderrFile != null ==>
      stderrFile.contents == old(stderrFile.contents) + Written(chunks, stdoutFile == stderrFile, true)
  {
    hide Written, Last, Part, Piece, Stdout, Stderr;
    ghost var same := stdoutFile == stderrFile;
    stdoutAcc, stderrAcc := [], [];
    NothingYet(chunks);
    for i := 0 to |chunks|
      invariant stdoutAcc == Last(Written(chunks[..i], true, false), MAX_LOG_BYTES)
      invariant stderrAcc == Last(Written(chunks[..i], false, true), MAX_LOG_BYTES)
      invariant stdoutFile != null ==> stdoutFile.contents == old(stdoutFile.contents) + Written(chunks[..i], true, same)
      invariant stderrFile != null ==> stderrFile.contents == old(stderrFile.contents) + Written(chunks[..i], same, true)
    {
      Grow(chunks, i, same);
      stdoutAcc := Take(stdoutAcc, chunks[i].stdout, stdoutFile, Written(chunks[..i], true, false));
      stderrAcc := Take(stderrAcc, chunks[i].stderr, stderrFile, Written(chunks[..i], false, true));
      Regroup(if stdoutFile == null then [] else old(stdoutFile.contents), chunks, i, true, same);
      Regroup(if stderrFile == null then [] else old(stderrFile.contents), chunks, i, same, true);
    }
    StreamNames(chunks);
  }

  lemma NothingYet(chunks: seq<Chunk>)
    ensures forall out, err :: Written(chunks[..0], out, err) == []
    ensures Last([], MAX_LOG_BYTES) == []
  {
  }

  lemma StreamNames(chunks: seq<Chunk>)
    ensures chunks[..|chunks|] == chunks
    ensures Stdout(chunks) == Written(chunks, true, false) && Stderr(chunks) == Written(chunks, false, true)
  {
  }

  lemma Grow(chunks: seq<Chunk>, i: nat, same: bool)
    requires i < |chunks|
    ensures Written(chunks[..i + 1], true, false) == Written(chunks[..i], true, false) + Part(chunks[i].stdout)
    ensures Written(chunks[..i + 1], false, true) == Written(chunks[..i], false, true) + Part(chunks[i].stderr)
  {
    WrittenNext(chunks, i, true, false);
    WrittenNext(chunks, i, false, true);
    assert Part(chunks[i].stdout) + [] == Part(chunks[i].stdout);
    assert [] + Part(chunks[i].stderr) == Part(chunks[i].stderr);
  }

  lemma Regroup(start: Bytes, chunks: seq<Chunk>, i: nat, out: bool, err: bool)
    requires i < |chunks|
    ensures start + Written(chunks[..i + 1], out, err) == start + Written(chunks[..i], out, err) + Piece(chunks[i], out, err)
    ensures out && !err ==> Piece(chunks[i], out, err) == Part(chunks[i].stdout)
    ensures err && !out ==> Piece(chunks[i], out, err) == Part(chunks[i].stderr)
    ensures out && err ==> start + Written(chunks[..i], out, err) + Piece(chunks[i], out, err)
                           == start + Written(chunks[..i], out, err) + Part(chunks[i].stdout) + Part(chunks[i].stderr)
  {
    WrittenNext(chunks, i, out, err);
  }

  /** The stream of two runs of chunks is the concatenation of their streams. */
  lemma {:induction false} StreamsConcatenate(a: seq<Chunk>, b: seq<Chunk>, out: bool, err: bool)
    ensures Written(a + b, out, err) == Written(a, out, err) + Written(b, out, err)
  {
    hide Piece;
    if |b| == 0 {
      assert a + b == a;
    } else {
      var front, last := b[..|b| - 1], b[|b| - 1];
      assert (a + b)[..|a + b| - 1] == a + front && (a + b)[|a + b| - 1] == last;
      StreamsConcatenate(a, front, out, err);
    }
  }

  /** `whole` carries what `first` and `second` carry one after the other. */
  predicate Joins(whole: Chunk, first: Chunk, second: Chunk) {
    && Part(whole.stdout) == Part(first.stdout) + Part(second.stdout)
    && Part(whole.stderr) == Part(first.stderr) + Part(second.stderr)
  }

  /** Cutting a chunk in two anywhere in each part, or two into one, keeps both
      streams; in a file that takes both streams it shows exactly when the bytes
      it moves past each other differ. */
  lemma ChunkingIsInvisible(a: seq<Chunk>, first: Chunk, second: Chunk, whole: Chunk, b: seq<Chunk>)
    requires Joins(whole, first, second)
    ensures Stdout(a + [first, second] + b) == Stdout(a + [whole] + b)
    ensures Stderr(a + [first, second] + b) == Stderr(a + [whole] + b)
    ensures Written(a + [first, second] + b, true, true) == Written(a + [whole] + b, true, true)
            <==> Part(first.stderr) + Part(second.stdout) == Part(second.stdout) + Part(first.stderr)
  {
    hide Part, Stdout, Stderr, Written;
    var two, one := [first, second], [whole];
    forall out, err
      ensures Written(a + two + b, out, err)
              == Written(a, out, err) + Piece(first, out, err) + Piece(second, out, err) + Written(b, out, err)
      ensures Written(a + one + b, out, err) == Written(a, out, err) + Piece(whole, out, err) + Written(b, out, err)
    {
      OneChunk(first, out, err);
      OneChunk(second, out, err);
      OneChunk(whole, out, err);
      StreamsConcatenate([first], [second], out, err);
      assert [first] + [second] == two;
      StreamsConcatenate(a + two, b, out, err);
      StreamsConcatenate(a, two, out, err);
      StreamsConcatenate(a + one, b, out, err);
      StreamsConcatenate(a, one, out, err);
    }
    StreamNames(a + two + b);
    StreamNames(a + one + b);
    assert Piece(first, true, false) + Piece(second, true, false) == Piece(whole, true, false);
    assert Piece(first, false, true) + Piece(second, false, true) == Piece(whole, false, true);
    var s, e, t, f := Part(first.stdout), Part(first.stderr), Part(second.stdout), Part(second.stderr);
    var left, right := Written(a, true, true), Written(b, true, true);
    assert left + (s + e) + (t + f) + right == (left + s) + (e + t) + (f + right);
    assert left + ((s + t) + (e + f)) + right == (left + s) + (t + e) + (f + right);
    Cancels(left + s, e + t, t + e, f + right);
  }

  lemma OneChunk(c: Chunk, out: bool, err: bool)
    ensures Written([c], out, err) == Piece(c, out, err)
  {
    hide Piece;
    assert [c][..0] == [];
    assert Written([], out, err) + Piece(c, out, err) == Piece(c, out, err);
  }

  lemma Cancels(left: Bytes, x: Bytes, y: Bytes, right: Bytes)
    requires |x| == |y|
    ensures left + x + right == left + y + right <==> x == y
  {
    if left + x + right == left + y + right {
      assert x == (left + x + right)[|left|..|left| + |x|];
      assert y == (left + y + right)[|left|..|left| + |y|];
    }
  }
}
