/** The committed tables, as the gateway objects share them. */
module Database {
  import opened Common
  import opened RunTables
  import opened AssignmentSql
  import opened RunFinalizationSql
  import opened BatchTables

  class Tables {
    var runs: map<Id, RunRows>
    var batches: map<Id, BatchRows>
    var evidence: map<Id, Evidence>

    constructor (runs: map<Id, RunRows>, batches: map<Id, BatchRows>, evidence: map<Id, Evidence>)
      ensures this.runs == runs && this.batches == batches && this.evidence == evidence
    {
      this.runs := runs;
      this.batches := batches;
      this.evidence := evidence;
    }

    /** Unique keys in the committed rows of the other Runs. */
    function TakenBy(r: Id): Taken
      reads this
    {
      Taken(set o, k | o in runs && o != r && k in runs[o].assignments :: k,
            set o, i | o in runs && o != r && 0 <= i < |runs[o].attempts| :: runs[o].attempts[i].id,
            set o, i | o in runs && o != r && 0 <= i < |runs[o].attempts| :: runs[o].attempts[i].startKey)
    }
  }
}
