# kedro-dolt hook, modelled in Dafny

This project models `DoltHook`, the kedro hook that versions each pipeline run
in a Dolt database. Before a run it may switch the database to a requested
branch, after remembering the branch that was active. After the run it commits
all pending changes with the message `Update from kedro run: <run_id>` and,
when an original branch was remembered, switches back to it. Every database
access is best effort: a `pymysql` `OperationalError` is logged and the
operation returns `None`.

Modules:

- `Wrappers` (`wrappers.dfy`): `Option`, standing for Python's `None`.
- `DoltEngine` (`engine.dfy`): the Dolt server as a black box. The `Engine`
  record holds the following:
  - the branch table (`dolt_branches`)
  - the active branch
  - whether `dolt_status` has rows
  - the session variable `@@<database>_head`
  - the messages of commits made
  - a commit-id counter

  `Valid` is the consistency invariant every operation keeps. A `Network`
  value says whether each connection attempt succeeds. It holds a script of
  outcomes for the next attempts, then a fixed outcome for all later ones.
  The class `DoltServer` holds both and has one method per SQL statement.
- `DoltHookModel` (`hook.dfy`): one function per hook operation. Each one
  states the whole effect on the hook's fields and on the engine. It takes
  one connection outcome per wrapped call the operation makes. The class
  `DoltHook` has the hook's fields and methods that issue the statements one
  at a time. Each method is proved equal to its function, with the outcomes
  taken in turn from the server's network.
- `DoltHookProperties` (`properties.dfy`): lemmas about the following:
  - sequences of checkouts
  - whole runs
  - runs in which some or all connections fail

Assumptions about the engine are the contracts of the `DoltServer` methods
and of the functions they use:

- Opening a connection uses up one attempt. It succeeds exactly when the
  network says so, and it changes nothing in the database (`Connect`).
- `active_branch()` returns the active branch (`SelectActiveBranch`).
- A `dolt_branches` row comes back exactly when the branch exists
  (`SelectBranchRow`). A `dolt_status` row comes back exactly when there are
  pending changes (`SelectStatusRow`).
- `dolt_checkout('-b', b)` creates `b` at the session head and makes it
  active (`DoltCheckoutCreate`).
- `dolt_checkout(b)` makes the existing `b` active and loads its head into
  the session (`DoltCheckout`). Pending changes survive a checkout.
- `dolt_commit('-am', msg)` hands out a fresh id and moves the active
  branch's head to it. It records the message and clears the pending changes
  (`DoltCommitAll`).
- `set @@<database>_head` sets the session head variable (`SetSessionHead`).
- A fresh connection observes the head of the active branch (`ObservedHead`).

Two details of the code that the model keeps:

- The commit message prefix is `Update from kedro run: `.
- `after_pipeline_run` never clears `_original_branch`. A later run on the
  same hook that requests no branch therefore still switches back to the
  branch recorded earlier (`BranchlessRunRestoresRecordedOriginal`).

## Model

| member | source | states |
|---|---|---|
| `DoltHookModel.DoltHook.constructor` | kedro_dolt/hook.py:26-42 | stores the connection settings and the branch (default `master`), and starts with no original branch |
| `DoltHookModel.CommitMessage` | kedro_dolt/hook.py:72-73 | the message is the fixed prefix `Update from kedro run: ` followed by the run id, which can be read back from it |
| `DoltHookModel.ActiveBranchOf` | kedro_dolt/hook.py:89-95 | returns the active branch exactly when its connection succeeds, and `None` otherwise |
| `DoltHookModel.DoltHook.ActiveBranch` | kedro_dolt/hook.py:14-22 | connects, then queries. It returns what `ActiveBranchOf` specifies for that connection's outcome, and a failed connection yields `None` without raising |
| `DoltHookModel.Checkout` | kedro_dolt/hook.py:97-107 | afterwards the requested branch is active. The branch set gains that name only if it was missing, and a new branch starts at the session head. No existing head moves, and `Valid` is kept. A failed connection leaves the database unchanged |
| `DoltHookModel.DoltHook.CheckoutBranch` | kedro_dolt/hook.py:98-106 | looking up the branch row, then create-and-switch or switch, has exactly the effect `Checkout` specifies |
| `DoltHookModel.CommitChanges` | kedro_dolt/hook.py:75-87 | returns `None` and changes nothing if the connection fails or there are no pending changes. Otherwise it returns a never-used id. That id becomes the active branch's head and `@@<db>_head`, and is recorded with the message. Other heads and earlier messages are kept, and so is `Valid` |
| `DoltHookModel.DoltHook.Commit` | kedro_dolt/hook.py:76-87 | status query, then commit and set the head variable only when a status row exists, has exactly the effect `CommitChanges` specifies |
| `DoltHookModel.BeforeRun` | kedro_dolt/hook.py:45-52 | with no requested branch nothing changes. Otherwise `_branch` becomes the request and `_original_branch` becomes the branch active before the switch (`None` if that read's connection failed). The requested branch is checked out if the checkout's own connection succeeds, independently of the read |
| `DoltHookModel.DoltHook.BeforePipelineRun` | kedro_dolt/hook.py:45-52 | the method's fields and database afterwards are those `BeforeRun` specifies. Its two connection outcomes are the server's next two attempts, used only when a branch is requested |
| `DoltHookModel.AfterRun` | kedro_dolt/hook.py:55-60 | always commits with `CommitMessage(run_id)` and returns that result; the commit lands on the branch active at call time. A recorded original branch is active afterwards if the switch-back connection succeeds. Otherwise the active branch is untouched, even after a successful commit. No other existing branch head moves, and the hook's fields are not cleared |
| `DoltHookModel.DoltHook.AfterPipelineRun` | kedro_dolt/hook.py:55-60 | the method's return value, fields and database afterwards are those `AfterRun` specifies. Its connection outcomes are the server's next attempts: one for the commit, and one more for the switch back when an original branch is recorded |
| `DoltHookProperties.CheckoutTraceFollowsRequests` | tests/test_hook.py:76-82 | for any sequence of checkouts, including repeated and revisited names, the active branch after each one is the name just requested |
| `DoltHookProperties.CheckoutAllBranches` | kedro_dolt/hook.py:101-106 | a sequence of checkouts adds exactly the missing requested names and never moves an existing head. It keeps `Valid` and ends on the last name |
| `DoltHookProperties.CheckoutIdempotent` | kedro_dolt/hook.py:101-106 | checking out a branch twice is the same as checking it out once, for every engine and whichever connection failed |
| `DoltHookProperties.CommitObservedByFreshConnection` | tests/test_hook.py:105-119 | a commit with pending changes returns an id different from the previous head, and a fresh connection observes it as the head |
| `DoltHookProperties.AfterRunCommitObservedByFreshConnection` | tests/test_hook.py:149-163 | with a pending write and an original branch that does not exist yet, `after_pipeline_run` returns a commit different from the starting head. The original branch is created at it and made active, and a fresh connection observes the commit |
| `DoltHookProperties.RunRestoresBranch` | kedro_dolt/hook.py:45-60 | over a whole run with a requested branch and every connection succeeding, the commit lands on that branch and the starting branch is active again. No other branch moves and `Valid` is kept |
| `DoltHookProperties.EndToEndRun` | tests/test_hook.py:166-192 | starting on a branch at head H0 and running on another branch with a write: the commit C differs from H0, the starting branch is active again at H0, and the run branch's head is C |
| `DoltHookProperties.FailedReadStrandsRunBranch` | kedro_dolt/hook.py:50-52 | if reading the active branch fails but the checkout succeeds, the original branch is `None`. The run's commit lands on the run branch, and the database stays there after `after_pipeline_run` |
| `DoltHookProperties.FailedRestoreLeavesRunBranch` | kedro_dolt/hook.py:57-59 | if the commit succeeds but the switch back fails, the database is left on the run branch holding the commit. The starting branch's head is unchanged and the original branch stays recorded |
| `DoltHookProperties.UnreachableRunIsInert` | kedro_dolt/hook.py:14-22 | when no connection succeeds, a whole run returns no commit and changes nothing in the database. When a branch is requested, `_branch` becomes it and the original branch is recorded as `None` |
| `DoltHookProperties.BranchlessRunRestoresRecordedOriginal` | kedro_dolt/hook.py:55-60 | the original branch is not cleared, so a later run that requests no branch still switches back to it |

## Left out

- Connection handling (`connection()`, the `with` blocks, cursors, `connection.commit()`): each wrapped call opens one connection. That connection either fails when opened, so the call returns `None` with nothing changed, or it succeeds for all of the call's statements. A failure between two statements of one call is not modelled.
- Exceptions other than `OperationalError` propagate out of `log_pymysql_error`. The model has no such exceptions, because the statements never fail once connected.
- The SQL text and its string interpolation: branch names and messages are passed as values. The injection risk of the interpolation is not modelled.
- The connection settings (`database`, `host`, `port`, `user`, `password`) are stored but not interpreted. Whether they reach an existing database is the server's network outcome; the database name is implicit in `@@<database>_head`.
- `register_config_loader` and `register_catalog` are pass-throughs to kedro's `ConfigLoader` and `DataCatalog`, which are not part of this model.
- `@hook_impl` registration and the warning log line are framework and logging concerns.
- `run_params` is reduced to what the hook reads: the `branch` entry of `extra_params` (absent and `None` are both `None`) and `run_id` (a string).
- Dolt's internals (hash computation, merges, what a checkout does to the working set beyond keeping pending changes) are not modelled. Commit ids come from a counter.
- The test fixtures that start a `dolt sql-server` process are process setup, not behaviour.
