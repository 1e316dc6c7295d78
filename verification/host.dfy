/** Everything outside the supervisor: its answers are arbitrary, only the clock never runs backwards. */
module Hosts {
  import opened Types

  lemma UnusedExists(used: seq<Id>)
    ensures exists id :: id !in used
  {
    var n := LongerThan(used);
    var id: Id := seq(n, i => 'a');
    assert id !in used;
  }

  lemma {:induction false} LongerThan(used: seq<Id>) returns (n: nat)
    ensures forall id :: id in used ==> |id| < n
  {
    n := 0;
    if used != [] {
      var last := used[|used| - 1];
      n := LongerThan(used[..|used| - 1]);
      n := n + |last| + 1;
      assert used == used[..|used| - 1] + [last];
    }
  }

  /** A process was looked at, and had exited or not. */
  datatype Sighting = Sighting(process: Id, exit: Option<Exit>)

  class Host {
    var now: Time
    ghost var sightings: seq<Sighting>
    ghost var checks: seq<bool>

    constructor ()
    {
      now := 0;
      sightings, checks := [], [];
    }

    method Boottime() returns (t: Time)
      modifies this`now
      ensures old(now) <= t == now
    {
      var later: Time :| now <= later;
      now := later;
      t := later;
    }

    /** A random event id; one that the journal already holds would fail the commit. */
    method EventId(used: seq<Id>) returns (id: Id)
      ensures id !in used
    {
      UnusedExists(used);
      id :| id !in used;
    }

    /** A new identifier, or None when no unused one was found. */
    method FreshId(taken: set<Id>) returns (id: Option<Id>)
      ensures id.Some? ==> id.value !in taken
    {
      var drawn: Id := *;
      id := if drawn in taken then None else Some(drawn);
    }

    /** Whether a call succeeded, or a condition was observed. */
    method Holds() returns (b: bool)
    {
      b := *;
    }

    /** Whether the control group is seen to hold no process. */
    method Unpopulated() returns (b: bool)
      modifies this`checks
      ensures checks == old(checks) + [b]
    {
      b := *;
      checks := checks + [b];
    }

    method ExitObserved(process: Id) returns (e: Option<Exit>)
      modifies this`sightings
      ensures sightings == old(sightings) + [Sighting(process, e)]
    {
      e := *;
      sightings := sightings + [Sighting(process, e)];
    }

    /** One pass over the counters of the metered domains; a failed read is None. */
    method ReadCounters(n: nat) returns (shown: seq<Option<Reading>>)
      ensures |shown| == n
    {
      shown := [];
      while |shown| < n
        invariant |shown| <= n
      {
        var r: Option<Reading> := *;
        shown := shown + [r];
      }
    }

    method CpuUsage() returns (us: Option<int>)
    {
      us := *;
    }

    /** The probes before the workload starts: the baseline sample, or the code of what failed. */
    method Probe() returns (r: Result<Sample, Code>)
    {
      r := *;
    }

    method Fetch() returns (r: Option<ActionResult>)
      ensures r.Some? ==> r.value.HttpResult?
    {
      var answered := *;
      if answered {
        var status: int := *;
        var body: Hash := *;
        return Some(HttpResult(status, body));
      }
      return None;
    }
  }
}
