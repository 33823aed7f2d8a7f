/** The overall status of an ingestion, aggregated from its batches' statuses. */
module Status {
  import opened Batches

  /** Whether every status is COMPLETED (true of the empty list). */
  function AllCompleted(ss: seq<BatchStatus>): (r: bool)
    ensures r <==> forall i :: 0 <= i < |ss| ==> ss[i] == Completed
    decreases |ss|
  {
    |ss| == 0 || (ss[0] == Completed && AllCompleted(ss[1..]))
  }

  /** Whether some status is TRIGGERED. */
  function AnyTriggered(ss: seq<BatchStatus>): (r: bool)
    ensures r <==> exists i :: 0 <= i < |ss| && ss[i] == Triggered
    decreases |ss|
  {
    |ss| > 0 && (ss[0] == Triggered || AnyTriggered(ss[1..]))
  }

  /**
    COMPLETED when every batch is, otherwise TRIGGERED when some batch is,
    otherwise YET_TO_START.
  */
  function Aggregate(ss: seq<BatchStatus>): (r: BatchStatus)
    ensures r == Completed <==> forall i :: 0 <= i < |ss| ==> ss[i] == Completed
    ensures r == Triggered <==> exists i :: 0 <= i < |ss| && ss[i] == Triggered
    ensures r == YetToStart <==>
      (exists i :: 0 <= i < |ss| && ss[i] == YetToStart) && (forall i :: 0 <= i < |ss| ==> ss[i] != Triggered)
  {
    if AllCompleted(ss) then Completed
    else if AnyTriggered(ss) then Triggered
    else YetToStart
  }
}
