/**
 * The Dolt SQL server seen as a black box: the few pieces of its state that
 * the hook's statements read or change, and one transition per statement.
 * Nothing here is Dolt's own implementation; each function states the
 * behaviour the hook relies on when it issues that statement.
 */
module DoltEngine {

  /** Commit hashes are opaque; the engine hands out fresh ones from a counter. */
  type CommitId = nat

  /**
   * branches    -- the rows of `dolt_branches`: branch name to head commit
   * active      -- what `active_branch()` returns for the session
   * dirty       -- `dolt_status` has at least one row (pending changes)
   * sessionHead -- the session variable `@@<database>_head`
   * messages    -- commit messages of the commits made through `dolt_commit`
   * nextId      -- the next commit id the engine will hand out
   */
  datatype Engine = Engine(
    branches: map<string, CommitId>,
    active: string,
    dirty: bool,
    sessionHead: CommitId,
    messages: map<CommitId, string>,
    nextId: nat)

  /**
   * What a consistent engine looks like: the active branch exists, the
   * session head is that branch's head, and every commit id in use was
   * handed out before `nextId`.
   */
  predicate Valid(e: Engine) {
    && e.active in e.branches
    && e.sessionHead == e.branches[e.active]
    && (forall b :: b in e.branches ==> e.branches[b] < e.nextId)
    && (forall c :: c in e.messages ==> c < e.nextId)
  }

  /** The head a fresh connection observes: that of the active branch. */
  function ObservedHead(e: Engine): CommitId
    requires e.active in e.branches
  {
    e.branches[e.active]
  }

  /** `select dolt_checkout('<b>')`: switch to an existing branch. */
  function SwitchTo(e: Engine, b: string): Engine
    requires b in e.branches
  {
    e.(active := b, sessionHead := e.branches[b])
  }

  /** `select dolt_checkout('-b', '<b>')`: create a branch at the session head and switch to it. */
  function CreateAndSwitch(e: Engine, b: string): Engine
    requires b !in e.branches
  {
    e.(branches := e.branches[b := e.sessionHead], active := b)
  }

  /** `select dolt_commit('-am', '<msg>')`: commit every pending change on the active branch. */
  function CommitAll(e: Engine, msg: string): Engine
    requires e.dirty
  {
    e.(branches := e.branches[e.active := e.nextId],
       dirty := false,
       messages := e.messages[e.nextId := msg],
       nextId := e.nextId + 1)
  }

  /** `set @@<database>_head = '<id>'`. */
  function SetHead(e: Engine, id: CommitId): Engine {
    e.(sessionHead := id)
  }

  /** A write made by the pipeline between the hook's calls (a new table, a changed row). */
  function Write(e: Engine): Engine {
    e.(dirty := true)
  }

  /**
   * Whether connections to the configured database succeed: `scripted` gives
   * the outcomes of the next attempts in order; once it is used up, every
   * attempt succeeds exactly when `reachable` holds. Each attempt is
   * independent of the others, so one call of the hook may fail while the
   * next succeeds.
   */
  datatype Network = Network(scripted: seq<bool>, reachable: bool)

  /** Whether the next connection attempt succeeds. */
  function Up(n: Network): bool {
    if n.scripted == [] then n.reachable else n.scripted[0]
  }

  /** The network after one connection attempt. */
  function Next(n: Network): (r: Network)
    ensures r.reachable == n.reachable
    ensures n.scripted != [] ==> |r.scripted| == |n.scripted| - 1
  {
    if n.scripted == [] then n else n.(scripted := n.scripted[1..])
  }

  /**
   * The server reached through a connection. Each method is one SQL
   * statement; the ones that only read change nothing. A statement can only
   * be issued on a connection that was opened successfully.
   */
  class DoltServer {
    var db: Engine
    var net: Network

    constructor (initial: Engine, net: Network)
      ensures db == initial && this.net == net
    {
      db := initial;
      this.net := net;
    }

    /** Opens a connection: uses up one attempt and leaves the database as it is. */
    method Connect() returns (ok: bool)
      modifies this
      ensures ok == Up(old(net))
      ensures net == Next(old(net)) && db == old(db)
    {
      ok := Up(net);
      net := Next(net);
    }

    /** `select active_branch() as br`. */
    method SelectActiveBranch() returns (name: string)
      ensures name == db.active
    {
      name := db.active;
    }

    /** `select * from dolt_branches where name = '<b>'`: whether a row comes back. */
    method SelectBranchRow(b: string) returns (found: bool)
      ensures found <==> b in db.branches
    {
      found := b in db.branches;
    }

    /** `select * from dolt_status`: whether a row comes back. */
    method SelectStatusRow() returns (pending: bool)
      ensures pending <==> db.dirty
    {
      pending := db.dirty;
    }

    method DoltCheckoutCreate(b: string)
      requires b !in db.branches
      modifies this
      ensures db == CreateAndSwitch(old(db), b) && net == old(net)
    {
      db := CreateAndSwitch(db, b);
    }

    method DoltCheckout(b: string)
      requires b in db.branches
      modifies this
      ensures db == SwitchTo(old(db), b) && net == old(net)
    {
      db := SwitchTo(db, b);
    }

    /** Returns the id of the new commit, the `c` column of the result row. */
    method DoltCommitAll(msg: string) returns (id: CommitId)
      requires db.dirty
      modifies this
      ensures id == old(db).nextId
      ensures db == CommitAll(old(db), msg) && net == old(net)
    {
      id := db.nextId;
      db := CommitAll(db, msg);
    }

    method SetSessionHead(id: CommitId)
      modifies this
      ensures db == SetHead(old(db), id) && net == old(net)
    {
      db := SetHead(db, id);
    }
  }
}
