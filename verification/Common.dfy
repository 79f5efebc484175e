/** Values shared by every part of the model: optional values, results that
    carry an error, replayable results, and injective content digests. */
module Common {

  type Id = nat
  type Time = int

  datatype Option<+T> = None | Some(value: T)

  /** The exception classes the gateways raise. */
  datatype Error =
    | VersionConflict
    | IdempotencyConflict
    | AuthorityStateConflict
    | AuthorityPermissionDenied
    | AuthorityProjectionUnavailable
    | InternalAuthorityRetired
    | DomainValidation
    | DomainConflict
    | PortContract
    | PayloadMalformed
    | ConstraintViolation

  /** A returned value or a raised exception. */
  datatype Result<+T> = Ok(value: T) | Err(error: Error) {
    predicate IsFailure() { Err? }

    function PropagateFailure<U>(): Result<U>
      requires Err?
    {
      Err(error)
    }

    function Extract(): T
      requires Ok?
    {
      value
    }
  }

  /** A check that either lets the caller go on or raises. */
  datatype Check = Pass | Fail(error: Error) {
    predicate IsFailure() { Fail? }

    function PropagateFailure<U>(): Result<U>
      requires Fail?
    {
      Err(error)
    }
  }

  function Need(condition: bool, error: Error): Check {
    if condition then Pass else Fail(error)
  }

  /** The result of a publication: first write, or exact replay of a stored one. */
  datatype Replay<+T> = Replay(value: T, replayed: bool)

  /** The digest of content this model does not look into. Digests of modelled
      content are records holding that content, so that two digests are equal
      exactly when the digested contents are. */
  datatype Digest = Digest(content: nat)

  lemma SubsetIsSmaller<T>(a: set<T>, b: set<T>)
    requires a <= b
    ensures |a| <= |b|
  {
    assert b == a + (b - a);
  }
}
