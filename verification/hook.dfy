/**
 * The kedro hook that versions a pipeline run in Dolt: before the run it may
 * switch to a requested branch, after the run it commits pending changes and
 * switches back. Every database access is best effort and opens its own
 * connection: when that connection fails the access yields `None` and leaves
 * the database as it was, and the hook carries on with its next access.
 *
 * The functions below state what each operation does to the hook's fields
 * and to the engine; the methods of `DoltHook` perform the same operation one
 * SQL statement at a time and are proved to agree with them.
 */
module DoltHookModel {
  import opened Wrappers
  import opened DoltEngine

  /** The fields of the hook that change: `_branch` and `_original_branch`. */
  datatype HookFields = HookFields(branch: string, original: Option<string>)

  /** The hook together with the database it drives. */
  datatype World = World(hook: HookFields, db: Engine)

  /** What `_commit` returns and the database afterwards. */
  datatype CommitStep = CommitStep(commit: Option<CommitId>, db: Engine)

  /** What `after_pipeline_run` returns and the state afterwards. */
  datatype RunEnd = RunEnd(commit: Option<CommitId>, world: World)

  const CommitPrefix: string := "Update from kedro run: "

  /** `_commit_message`: the run id, recoverable after a fixed prefix. */
  function CommitMessage(runId: string): (msg: string)
    ensures |msg| == |CommitPrefix| + |runId|
    ensures msg[..|CommitPrefix|] == CommitPrefix
    ensures msg[|CommitPrefix|..] == runId
  {
    CommitPrefix + runId
  }

  /**
   * `_active_branch`, given whether its connection `up` succeeds: the
   * session's branch, or `None` when the connection fails.
   */
  function ActiveBranchOf(e: Engine, up: bool): (r: Option<string>)
    ensures r.Some? <==> up
    ensures r.Some? ==> r.value == e.active
  {
    if up then Some(e.active) else None
  }

  /**
   * `_checkout_branch(b)`, given whether its connection `up` succeeds:
   * afterwards `b` is active; it is created (at the session head) only when
   * no branch of that name exists, and no existing branch head moves. A
   * failed connection changes nothing.
   */
  function Checkout(e: Engine, b: string, up: bool): (r: Engine)
    ensures !up ==> r == e
    ensures up ==> r.active == b
    ensures up ==> r.branches.Keys == e.branches.Keys + {b}
    ensures forall x :: x in e.branches ==> x in r.branches && r.branches[x] == e.branches[x]
    ensures up && b !in e.branches ==> r.branches[b] == e.sessionHead
    ensures r.dirty == e.dirty && r.messages == e.messages && r.nextId == e.nextId
    ensures Valid(e) ==> Valid(r)
  {
    if !up then e
    else if b in e.branches then SwitchTo(e, b)
    else CreateAndSwitch(e, b)
  }

  /**
   * `_commit(msg)`, given whether its connection `up` succeeds: a commit is
   * made only when the connection succeeds and there are pending changes.
   * The new id is fresh, becomes the head of the active branch and is
   * recorded in the session head variable; nothing else moves and earlier
   * commit messages are kept.
   */
  function CommitChanges(e: Engine, msg: string, up: bool): (r: CommitStep)
    ensures r.commit.None? <==> !up || !e.dirty
    ensures r.commit.None? ==> r.db == e
    ensures r.commit.Some? ==>
      var c := r.commit.value;
      && r.db.sessionHead == c
      && r.db.active == e.active
      && r.db.active in r.db.branches && r.db.branches[r.db.active] == c
      && (forall x :: x in e.branches && x != e.active ==> x in r.db.branches && r.db.branches[x] == e.branches[x])
      && r.db.branches.Keys == e.branches.Keys + {e.active}
      && c in r.db.messages && r.db.messages[c] == msg
      && (forall m :: m in e.messages && m != c ==> m in r.db.messages && r.db.messages[m] == e.messages[m])
      && !r.db.dirty
    ensures r.commit.Some? && Valid(e) ==>
      && r.commit.value !in e.messages
      && (forall x :: x in e.branches ==> e.branches[x] != r.commit.value)
    ensures Valid(e) ==> Valid(r.db)
  {
    if !up || !e.dirty then CommitStep(None, e)
    else
      var c := e.nextId;
      CommitStep(Some(c), SetHead(CommitAll(e, msg), c))
  }

  /**
   * `before_pipeline_run`, given the outcomes of its two connections (the
   * read of the active branch, then the checkout): with no requested branch
   * nothing changes. With a requested branch `b`, `_branch` becomes `b`,
   * `_original_branch` is the branch that was active before the switch
   * (`None` if that read failed), and `b` is checked out if the second
   * connection succeeds, whatever became of the first.
   */
  function BeforeRun(w: World, requested: Option<string>, readUp: bool, checkoutUp: bool): (r: World)
    ensures requested.None? ==> r == w
    ensures requested.Some? ==> r.hook.branch == requested.value
    ensures requested.Some? ==> r.hook.original == if readUp then Some(w.db.active) else None
    ensures requested.Some? && checkoutUp ==> r.db.active == requested.value
    ensures requested.Some? ==> r.db == Checkout(w.db, requested.value, checkoutUp)
    ensures Valid(w.db) ==> Valid(r.db)
  {
    match requested
    case None => w
    case Some(b) => World(HookFields(b, ActiveBranchOf(w.db, readUp)), Checkout(w.db, b, checkoutUp))
  }

  /**
   * `after_pipeline_run`, given the outcomes of its connections (the
   * commit, then the switch back): always commits with the run's message
   * and returns that result; then, if an original branch is recorded,
   * checks it out. The hook's fields are left as they were (the original
   * branch is not cleared). A failed switch back leaves the database on the
   * branch it was on, with the commit already made.
   */
  function AfterRun(w: World, runId: string, commitUp: bool, restoreUp: bool): (r: RunEnd)
    ensures r.world.hook == w.hook
    ensures r.commit == CommitChanges(w.db, CommitMessage(runId), commitUp).commit
    ensures r.commit.Some? ==>
      && r.commit.value in r.world.db.messages
      && r.world.db.messages[r.commit.value] == CommitMessage(runId)
      && w.db.active in r.world.db.branches
      && r.world.db.branches[w.db.active] == r.commit.value
    ensures forall x :: x in w.db.branches && x != w.db.active ==>
      x in r.world.db.branches && r.world.db.branches[x] == w.db.branches[x]
    ensures restoreUp && w.hook.original.Some? ==> r.world.db.active == w.hook.original.value
    ensures !restoreUp || w.hook.original.None? ==> r.world.db.active == w.db.active
    ensures !commitUp && !restoreUp ==> r.commit.None? && r.world == w
    ensures Valid(w.db) ==> Valid(r.world.db)
  {
    var step := CommitChanges(w.db, CommitMessage(runId), commitUp);
    var db := if w.hook.original.Some? then Checkout(step.db, w.hook.original.value, restoreUp) else step.db;
    RunEnd(step.commit, World(w.hook, db))
  }

  /**
   * The hook object. The connection settings are fixed at construction;
   * `server` is the database they reach, and whether they reach it at all
   * (a running server, an existing database of that name) is the server's
   * `net`. The session variable `@@<database>_head` is the engine's
   * `sessionHead`.
   */
  class DoltHook {
    const database: string
    const port: int
    const host: string
    const user: string
    const password: string
    const server: DoltServer

    var branch: string
    var originalBranch: Option<string>

    /** The hook's fields and the database, as one value. */
    function Snapshot(): World
      reads this, server
    {
      World(HookFields(branch, originalBranch), server.db)
    }

    constructor (server: DoltServer, database: string, branch: string := "master",
                 port: int := 3306, host: string := "localhost", user: string := "root",
                 password: string := "")
      ensures this.server == server && this.database == database
      ensures this.port == port && this.host == host && this.user == user && this.password == password
      ensures this.branch == branch && originalBranch == None
    {
      this.server := server;
      this.database := database;
      this.port := port;
      this.host := host;
      this.user := user;
      this.password := password;
      this.branch := branch;
      this.originalBranch := None;
    }

    method ActiveBranch() returns (r: Option<string>)
      modifies server
      ensures r == ActiveBranchOf(old(server.db), Up(old(server.net)))
      ensures server.db == old(server.db) && server.net == Next(old(server.net))
    {
      var ok := server.Connect();
      if !ok {
        return None;
      }
      var name := server.SelectActiveBranch();
      r := Some(name);
    }

    method CheckoutBranch(b: string)
      modifies server
      ensures server.db == Checkout(old(server.db), b, Up(old(server.net)))
      ensures server.net == Next(old(server.net))
    {
      var ok := server.Connect();
      if !ok {
        return;
      }
      var found := server.SelectBranchRow(b);
      if !found {
        server.DoltCheckoutCreate(b);
      } else {
        server.DoltCheckout(b);
      }
    }

    method Commit(message: string) returns (r: Option<CommitId>)
      modifies server
      ensures CommitStep(r, server.db) == CommitChanges(old(server.db), message, Up(old(server.net)))
      ensures server.net == Next(old(server.net))
    {
      r := None;
      var ok := server.Connect();
      if !ok {
        return;
      }
      var pending := server.SelectStatusRow();
      if pending {
        var c := server.DoltCommitAll(message);
        server.SetSessionHead(c);
        r := Some(c);
      }
    }

    /** `requested` is the `branch` entry of the run's extra parameters, `None` when absent. */
    method BeforePipelineRun(requested: Option<string>)
      modifies this, server
      ensures Snapshot() == BeforeRun(old(Snapshot()), requested, Up(old(server.net)), Up(Next(old(server.net))))
      ensures server.net == if requested.Some? then Next(Next(old(server.net))) else old(server.net)
    {
      if requested.Some? {
        branch := requested.value;
        originalBranch := ActiveBranch();
        CheckoutBranch(branch);
      }
    }

    method AfterPipelineRun(runId: string) returns (commit: Option<CommitId>)
      modifies server
      ensures RunEnd(commit, Snapshot()) == AfterRun(old(Snapshot()), runId, Up(old(server.net)), Up(Next(old(server.net))))
      ensures server.net == if originalBranch.Some? then Next(Next(old(server.net))) else Next(old(server.net))
    {
      var message := CommitMessage(runId);
      commit := Commit(message);
      if originalBranch.Some? {
        CheckoutBranch(originalBranch.value);
      }
    }
  }
}
