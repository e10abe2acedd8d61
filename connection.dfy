/**
 * A stand-in for `SimpleConnection`: it records every batch handed to
 * `batch_execute` and answers each with the same, configured outcome.
 */
module Connections {
  import opened Results

  /** The connection's answer to a batch: success, or the given rejection. */
  function BatchAnswer(rejection: Option<string>): (r: Result<(), string>)
    ensures r.Err? <==> rejection.Some?
    ensures r.Err? ==> r.error == rejection.value
  {
    match rejection
    case None => Ok(())
    case Some(cause) => Err(cause)
  }

  class RecordingConnection {
    /** Every batch received, oldest first. */
    var batches: seq<string>
    /** The failure every batch ends in, if any. */
    const rejection: Option<string>

    constructor (rejection: Option<string>)
      ensures batches == [] && this.rejection == rejection
    {
      batches := [];
      this.rejection := rejection;
    }

    /** `SimpleConnection::batch_execute`. */
    method BatchExecute(sql: string) returns (r: Result<(), string>)
      modifies this
      ensures batches == old(batches) + [sql]
      ensures r == BatchAnswer(rejection)
    {
      batches := batches + [sql];
      r := BatchAnswer(rejection);
    }
  }
}
