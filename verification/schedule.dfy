/**
  Runs of the service: interleavings of scheduler iterations and submissions,
  and the global rate limit on batch starts across any such run.
*/
module Schedule {
  import opened Outcome
  import opened Batches
  import opened Service
  import opened Invariants

  /** Something that happens to the service: a scheduler iteration at time `now`, or a submission. */
  datatype Event = Tick(now: int) | Ingest(ids: seq<int>, priority: Priority, now: int)

  /** Applies one event; also returns the start time of the batch a tick served, if any. */
  function Apply(s: State, e: Event): (State, Option<int>)
  {
    match e
    case Tick(now) =>
      var (s', served) := Step(s, now);
      (s', if served.Some? then Some(now) else None)
    case Ingest(ids, priority, now) =>
      (Submit(s, ids, priority, now).0, None)
  }

  /** Applies events in order; returns the final state and the start times of the batches served. */
  function Run(s: State, events: seq<Event>): (r: (State, seq<int>))
    ensures |r.1| <= |events|
    ensures s.store.Keys <= r.0.store.Keys
    decreases |events|
  {
    if |events| == 0 then (s, [])
    else
      var (s1, start) := Apply(s, events[0]);
      var (sf, starts) := Run(s1, events[1..]);
      ((sf, (if start.Some? then [start.value] else []) + starts))
  }

  /** Consecutive starts are at least the rate-limit interval apart. */
  ghost predicate Spaced(starts: seq<int>)
  {
    forall i :: 0 <= i < |starts| - 1 ==> starts[i + 1] - starts[i] >= RATE_LIMIT_SECONDS
  }

  /**
    The first start of a run is at least the interval after the last start
    before it, consecutive starts are at least the interval apart, and the
    final last-batch time is the last start of the run.
  */
  lemma {:induction false} RunSpacing(s: State, events: seq<Event>)
    ensures var (sf, starts) := Run(s, events);
      && (|starts| > 0 ==> starts[0] - s.lastBatchTime >= RATE_LIMIT_SECONDS)
      && Spaced(starts)
      && sf.lastBatchTime == (if |starts| == 0 then s.lastBatchTime else starts[|starts| - 1])
    decreases |events|
  {
    if |events| > 0 {
      var (s1, start) := Apply(s, events[0]);
      ApplyStart(s, events[0]);
      RunSpacing(s1, events[1..]);
      var rest := Run(s1, events[1..]).1;
      var starts := Run(s, events).1;
      assert starts == (if start.Some? then [start.value] else []) + rest;
      if start.Some? {
        assert forall i :: 0 < i < |starts| ==> starts[i] == rest[i - 1];
      }
    }
  }

  /** One event either starts a batch, at least the interval after the last start, or leaves the last start alone. */
  lemma ApplyStart(s: State, e: Event)
    ensures var (s1, start) := Apply(s, e);
      && (start.Some? ==> start.value - s.lastBatchTime >= RATE_LIMIT_SECONDS && s1.lastBatchTime == start.value)
      && (start.None? ==> s1.lastBatchTime == s.lastBatchTime)
  {
  }

  /** In a spaced sequence any two starts, not only neighbours, are the interval apart. */
  lemma {:induction false} SpacedPairs(starts: seq<int>)
    requires Spaced(starts)
    ensures forall i, j :: 0 <= i < j < |starts| ==> starts[j] - starts[i] >= RATE_LIMIT_SECONDS
    decreases |starts|
  {
    if |starts| > 1 {
      var init := starts[..|starts| - 1];
      assert Spaced(init);
      SpacedPairs(init);
      forall i | 0 <= i < |starts| - 1
        ensures starts[|starts| - 1] - starts[i] >= RATE_LIMIT_SECONDS
      {
        if i < |starts| - 2 {
          assert starts[|starts| - 2] - starts[i] >= RATE_LIMIT_SECONDS;
        }
      }
    }
  }

  /**
    The rate limit: whatever submissions are interleaved and however the
    clock moves, any two batch starts of a run are at least the interval apart.
  */
  lemma {:induction false} RateLimit(s: State, events: seq<Event>)
    ensures var starts := Run(s, events).1;
      forall i, j :: 0 <= i < j < |starts| ==> starts[j] - starts[i] >= RATE_LIMIT_SECONDS
  {
    RunSpacing(s, events);
    SpacedPairs(Run(s, events).1);
  }

  /** At most one batch of a run starts within any window shorter than the interval. */
  lemma {:induction false} AtMostOneStartPerWindow(s: State, events: seq<Event>, t: int)
    ensures var starts := Run(s, events).1;
      forall i, j ::
        (0 <= i < |starts| && 0 <= j < |starts| &&
         t <= starts[i] < t + RATE_LIMIT_SECONDS && t <= starts[j] < t + RATE_LIMIT_SECONDS) ==> i == j
  {
    RateLimit(s, events);
  }

  /** Every state a run reaches from a valid state is valid. */
  lemma {:induction false} RunPreservesValid(s: State, events: seq<Event>)
    requires Valid(s)
    ensures Valid(Run(s, events).0)
    decreases |events|
  {
    if |events| > 0 {
      match events[0] {
        case Tick(now) => StepPreservesValid(s, now);
        case Ingest(ids, priority, now) => SubmitPreservesValid(s, ids, priority, now);
      }
      RunPreservesValid(Apply(s, events[0]).0, events[1..]);
    }
  }
}
