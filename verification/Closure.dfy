/** Which release jobs wait, directly or through other jobs, for a given job. */
module Closure {
  import opened Prelude
  import Seqs

  /** What each job `needs`; a job that is not a mapping has none and is never reached. */
  type Jobs = map<string, Option<seq<string>>>

  predicate Needs(jobs: Jobs, job: string, other: string) {
    job in jobs && jobs[job].Some? && other in jobs[job].value
  }

  /** The chain starts at `start`, and each further job in it needs the one before. */
  ghost predicate IsChain(jobs: Jobs, start: string, chain: seq<string>) {
    chain != [] && chain[0] == start && forall i :: 0 < i < |chain| ==> Needs(jobs, chain[i], chain[i - 1])
  }

  ghost predicate Waits(jobs: Jobs, start: string, job: string) {
    exists chain :: IsChain(jobs, start, chain) && chain[|chain| - 1] == job
  }

  lemma WaitsExtends(jobs: Jobs, start: string, job: string, other: string)
    requires Waits(jobs, start, other) && Needs(jobs, job, other)
    ensures Waits(jobs, start, job)
  {
    var chain :| IsChain(jobs, start, chain) && chain[|chain| - 1] == other;
    assert IsChain(jobs, start, chain + [job]) && (chain + [job])[|chain|] == job;
  }

  predicate Closed(jobs: Jobs, reached: set<string>) {
    forall job, other :: job in jobs && Needs(jobs, job, other) && other in reached ==> job in reached
  }

  /** A closed set that contains the start contains every chain from it. */
  lemma {:induction false} ClosedHoldsChains(jobs: Jobs, reached: set<string>, start: string, chain: seq<string>)
    requires start in reached && Closed(jobs, reached) && IsChain(jobs, start, chain)
    ensures chain[|chain| - 1] in reached
  {
    if |chain| > 1 {
      ClosedHoldsChains(jobs, reached, start, chain[..|chain| - 1]);
      assert Needs(jobs, chain[|chain| - 1], chain[|chain| - 2]);
    }
  }

  /** One pass over the jobs, in the order in which the map lists them. */
  method Pass(jobs: Jobs, order: seq<string>, start: string, was: set<string>) returns (reached: set<string>, changed: bool)
    requires forall job :: job in order <==> job in jobs
    requires forall job :: job in was ==> Waits(jobs, start, job)
    ensures was <= reached <= was + jobs.Keys
    ensures forall job :: job in reached ==> Waits(jobs, start, job)
    ensures changed <==> reached != was
    ensures !changed ==> Closed(jobs, reached)
  {
    reached, changed := was, false;
    for i := 0 to |order|
      invariant was <= reached <= was + jobs.Keys
      invariant forall job :: job in reached ==> Waits(jobs, start, job)
      invariant changed <==> reached != was
      invariant !changed ==> forall k, other ::
                  0 <= k < i && Needs(jobs, order[k], other) && other in reached ==> order[k] in reached
    {
      var name := order[i];
      if name !in reached && jobs[name].Some? {
        var needs := jobs[name].value;
        if exists other :: other in needs && other in reached {
          var other :| other in needs && other in reached;
          WaitsExtends(jobs, start, name, other);
          reached := reached + {name};
          changed := true;
        }
      }
    }
  }

  lemma StrictlyFewer(jobs: Jobs, small: set<string>, big: set<string>)
    requires small < big <= small + jobs.Keys
    ensures |jobs.Keys - big| < |jobs.Keys - small|
  {
    var x :| x in big && x !in small;
    assert jobs.Keys - big <= jobs.Keys - small - {x};
    Seqs.SubsetSize(jobs.Keys - big, jobs.Keys - small - {x});
  }

  /** Passes are made until one changes nothing; the result is exactly the jobs with a chain of needs to the start. */
  method Reachable(jobs: Jobs, order: seq<string>, start: string) returns (reached: set<string>)
    requires forall job :: job in order <==> job in jobs
    ensures forall job :: job in reached <==> Waits(jobs, start, job)
  {
    reached := {start};
    assert IsChain(jobs, start, [start]) && [start][0] == start;
    var changed := true;
    while changed
      invariant start in reached && forall job :: job in reached ==> Waits(jobs, start, job)
      invariant !changed ==> Closed(jobs, reached)
      decreases |jobs.Keys - reached|, changed
    {
      ghost var was := reached;
      reached, changed := Pass(jobs, order, start, reached);
      if changed { StrictlyFewer(jobs, was, reached); }
    }
    forall job | Waits(jobs, start, job) ensures job in reached {
      var chain :| IsChain(jobs, start, chain) && chain[|chain| - 1] == job;
      ClosedHoldsChains(jobs, reached, start, chain);
    }
  }

  /** It is the least set that holds the start and is closed under needing; no order of the jobs can change it. */
  lemma LeastClosure(jobs: Jobs, start: string, a: set<string>, b: set<string>)
    requires forall job :: job in a <==> Waits(jobs, start, job)
    requires start in b && Closed(jobs, b)
    ensures a <= b
  {
    forall job | job in a ensures job in b {
      var chain :| IsChain(jobs, start, chain) && chain[|chain| - 1] == job;
      ClosedHoldsChains(jobs, b, start, chain);
    }
  }
}
