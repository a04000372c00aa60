/**
 * Properties of the hook's operations over several calls: sequences of
 * checkouts, a whole run from `before_pipeline_run` to
 * `after_pipeline_run`, and runs in which some or all connections fail.
 */
module DoltHookProperties {
  import opened Wrappers
  import opened DoltEngine
  import opened DoltHookModel

  /** The database after checking out each of `bs` in turn, every connection succeeding. */
  function CheckoutAll(e: Engine, bs: seq<string>): Engine
    decreases |bs|
  {
    if bs == [] then e else CheckoutAll(Checkout(e, bs[0], true), bs[1..])
  }

  /** What `_active_branch` reports after each checkout of `bs` in turn. */
  function ActiveTrace(e: Engine, bs: seq<string>): seq<Option<string>>
    decreases |bs|
  {
    if bs == [] then []
    else
      var next := Checkout(e, bs[0], true);
      [ActiveBranchOf(next, true)] + ActiveTrace(next, bs[1..])
  }

  /** After every checkout in a sequence (names repeated or new alike) the active branch is the one just requested. */
  lemma {:induction false} CheckoutTraceFollowsRequests(e: Engine, bs: seq<string>)
    ensures |ActiveTrace(e, bs)| == |bs|
    ensures forall i :: 0 <= i < |bs| ==> ActiveTrace(e, bs)[i] == Some(bs[i])
    decreases |bs|
  {
    if bs != [] {
      var next := Checkout(e, bs[0], true);
      CheckoutTraceFollowsRequests(next, bs[1..]);
      forall i | 0 <= i < |bs|
        ensures ActiveTrace(e, bs)[i] == Some(bs[i])
      {
        if i > 0 {
          assert ActiveTrace(e, bs)[i] == ActiveTrace(next, bs[1..])[i - 1];
        }
      }
    }
  }

  /**
   * A sequence of checkouts adds exactly the requested names that were
   * missing, never moves an existing head, keeps the engine consistent and
   * ends on the last name requested.
   */
  lemma {:induction false} CheckoutAllBranches(e: Engine, bs: seq<string>)
    ensures CheckoutAll(e, bs).branches.Keys == e.branches.Keys + (set b | b in bs)
    ensures forall x :: x in e.branches ==> CheckoutAll(e, bs).branches[x] == e.branches[x]
    ensures bs != [] ==> CheckoutAll(e, bs).active == bs[|bs| - 1]
    ensures Valid(e) ==> Valid(CheckoutAll(e, bs))
    decreases |bs|
  {
    if bs != [] {
      var next := Checkout(e, bs[0], true);
      CheckoutAllBranches(next, bs[1..]);
      assert (set b | b in bs) == {bs[0]} + (set b | b in bs[1..]) by {
        forall b | b in bs ensures b == bs[0] || b in bs[1..] {
          var k :| 0 <= k < |bs| && bs[k] == b;
          if k > 0 { assert bs[1..][k - 1] == b; }
        }
      }
      if |bs| > 1 {
        assert bs[1..][|bs[1..]| - 1] == bs[|bs| - 1];
      }
    }
  }

  /**
   * Checking out the same branch twice is the same as checking it out once:
   * the second checkout adds nothing, whichever of the two connections failed.
   */
  lemma CheckoutIdempotent(e: Engine, b: string, up1: bool, up2: bool)
    ensures Checkout(Checkout(e, b, up1), b, up2) == Checkout(e, b, up1 || up2)
  {
  }

  /**
   * A commit on a consistent database with pending changes yields an id
   * different from the previous head, and a fresh connection observes it
   * as the head of the active branch.
   */
  lemma CommitObservedByFreshConnection(e: Engine, msg: string)
    requires Valid(e) && e.dirty
    ensures CommitChanges(e, msg, true).commit.Some?
    ensures CommitChanges(e, msg, true).commit.value != e.sessionHead
    ensures ObservedHead(CommitChanges(e, msg, true).db) == CommitChanges(e, msg, true).commit.value
  {
  }

  /**
   * `after_pipeline_run` with an original branch that does not exist yet
   * and a pending write: the returned commit differs from the starting
   * head, the original branch is created at it and is active, and a fresh
   * connection observes the commit as the head.
   */
  lemma AfterRunCommitObservedByFreshConnection(w: World, runId: string)
    requires Valid(w.db) && w.db.dirty
    requires w.hook.original.Some? && w.hook.original.value !in w.db.branches
    ensures
      var end := AfterRun(w, runId, true, true);
      && end.commit.Some?
      && end.commit.value != w.db.sessionHead
      && end.world.db.active == w.hook.original.value
      && ObservedHead(end.world.db) == end.commit.value
  {
  }

  /**
   * A whole run with a requested branch `b` in which every connection
   * succeeds: the run's commit (if any) lands on `b`, the branch active
   * before the run is active again afterwards, and no branch other than `b`
   * has moved. `wrote` says whether the pipeline changed anything in between.
   */
  lemma RunRestoresBranch(w: World, b: string, wrote: bool, runId: string)
    requires Valid(w.db)
    ensures
      var mid := BeforeRun(w, Some(b), true, true);
      var run := World(mid.hook, if wrote then Write(mid.db) else mid.db);
      var end := AfterRun(run, runId, true, true);
      && end.world.hook == HookFields(b, Some(w.db.active))
      && end.world.db.active == w.db.active
      && Valid(end.world.db)
      && (end.commit.Some? <==> wrote || w.db.dirty)
      && (end.commit.Some? ==> end.world.db.branches[b] == end.commit.value)
      && (forall x :: x in w.db.branches && x != b ==> end.world.db.branches[x] == w.db.branches[x])
  {
  }

  /**
   * The end-to-end run: start on a branch with head H0, run on another
   * branch, write, finish. The returned commit C differs from H0, the
   * starting branch is active again with head H0, and the run branch's head is C.
   */
  lemma EndToEndRun(w: World, feature: string, runId: string)
    requires Valid(w.db) && feature != w.db.active
    ensures
      var mid := BeforeRun(w, Some(feature), true, true);
      var end := AfterRun(World(mid.hook, Write(mid.db)), runId, true, true);
      && mid.db.active == feature
      && mid.hook.original == Some(w.db.active)
      && end.commit.Some?
      && end.commit.value != w.db.sessionHead
      && end.world.db.active == w.db.active
      && ObservedHead(end.world.db) == w.db.sessionHead
      && end.world.db.branches[feature] == end.commit.value
  {
  }

  /**
   * The read of the active branch fails but the checkout succeeds: the
   * original branch is recorded as `None`, so even a run whose every later
   * connection succeeds ends on the run branch instead of switching back.
   */
  lemma FailedReadStrandsRunBranch(w: World, b: string, runId: string, restoreUp: bool)
    requires Valid(w.db) && b != w.db.active
    ensures
      var mid := BeforeRun(w, Some(b), false, true);
      var end := AfterRun(World(mid.hook, Write(mid.db)), runId, true, restoreUp);
      && mid.hook.original == None
      && mid.db.active == b
      && end.commit.Some?
      && end.world.db.active == b
      && end.world.db.branches[b] == end.commit.value
  {
  }

  /**
   * The commit succeeds but the switch back fails: the commit stays on the
   * run branch, the database is left there, and the original branch is
   * still recorded; nothing retries or undoes the commit.
   */
  lemma FailedRestoreLeavesRunBranch(w: World, b: string, runId: string)
    requires Valid(w.db) && b != w.db.active
    ensures
      var mid := BeforeRun(w, Some(b), true, true);
      var end := AfterRun(World(mid.hook, Write(mid.db)), runId, true, false);
      && end.commit.Some?
      && end.world.db.active == b
      && end.world.db.branches[b] == end.commit.value
      && end.world.db.branches[w.db.active] == w.db.sessionHead
      && end.world.hook.original == Some(w.db.active)
  {
  }

  /**
   * When no connection succeeds, a whole run changes nothing in the
   * database and returns no commit; a requested branch still becomes
   * `_branch`, and the original branch is recorded as `None`.
   */
  lemma UnreachableRunIsInert(w: World, requested: Option<string>, runId: string)
    ensures
      var mid := BeforeRun(w, requested, false, false);
      var end := AfterRun(mid, runId, false, false);
      && end.commit.None?
      && end.world.db == w.db
      && (requested.Some? ==> end.world.hook == HookFields(requested.value, None))
  {
  }

  /**
   * `after_pipeline_run` does not clear the original branch, so a later
   * run on the same hook that requests no branch still switches back to the
   * branch recorded by the earlier run, wherever the database is by then.
   */
  lemma BranchlessRunRestoresRecordedOriginal(w0: World, b: string, runId: string, db: Engine, laterRunId: string, commitUp: bool)
    ensures
      var first := AfterRun(BeforeRun(w0, Some(b), true, true), runId, true, true).world;
      var later := BeforeRun(World(first.hook, db), None, false, false);
      AfterRun(later, laterRunId, commitUp, true).world.db.active == w0.db.active
  {
  }
}
