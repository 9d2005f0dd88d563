/** Joining the coordinator thread: at most once, with the same verdict for every close caller. */
module Close {
  import opened EngineTypes
  import opened Collections
  import opened Workers
  import opened EngineSystem
  import opened EngineTheorems

  /** What a close caller reports, given the coordinator's answer and how its thread ended. */
  function AfterJoin(result: Result<()>, panicked: bool): Result<()> {
    if panicked then Err(ShutdownFailure) else result
  }

  class CoordinatorJoin {
    /** How the thread will have ended when it is joined. */
    const threadPanics: bool
    var handle: bool
    var outcome: Option<bool>
    var joins: nat

    ghost predicate Valid()
      reads this
    {
      && (handle <==> outcome.None?)
      && joins == (if handle then 0 else 1)
      && (outcome.Some? ==> outcome.value == threadPanics)
    }

    constructor (threadPanics: bool)
      ensures Valid() && handle && this.threadPanics == threadPanics
    {
      this.threadPanics := threadPanics;
      handle, outcome, joins := true, None, 0;
    }

    /** The first caller joins the thread; later callers reuse the outcome. */
    method Finish(result: Result<()>) returns (r: Result<()>)
      requires Valid()
      modifies this
      ensures Valid() && !handle && joins == 1
      ensures r == AfterJoin(result, threadPanics)
    {
      var panicked: bool;
      if outcome.Some? {
        panicked := outcome.value;
      } else {
        handle := false;
        joins := joins + 1;
        panicked := threadPanics;
        outcome := Some(panicked);
      }
      r := if panicked then Err(ShutdownFailure) else result;
    }
  }

  /** Any two close callers, early, queued or late, return the same value after the one join, whatever each of them had
      been told: success exactly if the store has closed and its coordinator did not panic. */
  lemma CallersAgree(env: Env, s: System, i: nat, j: nat, panicked: bool)
    requires ValidEnv(env) && Reachable(env, s)
    requires i < |s.c.replies| && s.c.replies[i].CloseReply? && j < |s.c.replies| && s.c.replies[j].CloseReply?
    ensures AfterJoin(s.c.replies[i].closed, panicked) == AfterJoin(s.c.replies[j].closed, panicked)
    ensures AfterJoin(s.c.replies[i].closed, panicked).Ok? <==> s.c.lifecycle == Closed && !panicked
  {
    hide Reachable;
    CloseAgreement(env, s);
  }

  /** Two callers share one handle: whoever comes first joins, and both return what the verdict and the join say. */
  method FinishBoth(join: CoordinatorJoin, verdict: Result<()>) returns (first: Result<()>, second: Result<()>)
    requires join.Valid() && join.handle
    modifies join
    ensures join.Valid() && join.joins == old(join.joins) + 1
    ensures first == second == AfterJoin(verdict, join.threadPanics)
  {
    first := join.Finish(verdict);
    second := join.Finish(verdict);
  }
}
