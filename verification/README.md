# Proofs about fair-share accounting

This project models the parts of flux-accounting that decide who runs next and proves what they
promise: the fairshare of users, the counters behind job limits, the accounting of usage, the share
tree and the schema update. `dafny verify dfyconfig.toml` checks all of it.

**Fairshare.** `WeightPath` says what fairshare is: users are ranked by the weights met on the way from
the root down to them, heavier first, a user before a bank of the same weight, ties sharing a rank.
`WeightedTree` holds the nodes with their weights and sorted children, `WeightedWalk` the walk that
merges tied banks into virtual nodes (`VirtualNode`, `TieAwareList`, `StandIn`, `Adoption`,
`TieAwareEntries`, `VisitOrder`) and counts the rank down. `Dominance` is the promise users are given.
`DataReader` (with `Planting`) loads the tree from the tables, `TreeBuilding` adds nodes in any other order,
`FairShareUpdate` joins loading and walking. `Emulator` is the second implementation, `EmulatorRefinement`
says exactly when it agrees with the first, and `EmulatorTies` has trees on which it does not.

**Job limits.** `JobRecords` are the jobs and what they add up to, `UsageLimits` the limit predicates,
`ReleasePass` and `ReleaseBounds` one pass over held jobs, `PluginWorld` the callbacks as a state machine
over the workload manager's events, `Ledger` and `PluginInvariant` the exactness of counters, `PluginRuns`,
`ActiveRuns`, `SingleLimit` and `PluginReload` what holds over whole runs. `PriorityPlugin` is the plugin
itself, a class whose callbacks update counters and held jobs in place, proved against that state machine;
`PluginLifecycle` runs and reloads it. The workload manager is free: when the last dependency of a job goes,
the job may stay in DEPEND, move to PRIORITY, or reach SCHED before the call returns.

**Usage.** `BankUsage` has the recompute and the incremental update of the bank table, `UsageDecay`,
`JobUsage` and `UsageTables` the half-life bins, the watermarks, the charging of job records and the
clearing of banks; `UsageUpdate` joins the two. `ShareTree` normalizes shares and usage of the tree that
`ShareTreeBuilding` builds from the tables, `SchemaMigration` brings an older database up to date.

**Conventions.** Weights are exact: shares and usages are natural numbers, quotients exact reals, and two
weights are equal if they are equal. The sums over siblings are required to fit 64 bits where the code
computes them in 64 bits. Tables are sequences or maps of rows in the order a query returns them; bank names
are unique and no bank lies above itself. Counters are unbounded integers. A real association is never the
placeholder for unknown users, and its limits are not the special values 999 and -1.

Where the code and its comments differ the code is followed: the comment before the check of SCHED nodes in
`check_and_release_held_jobs` says that no pending offset is needed there, and the code uses one; the
description of the migration gives each usage column the period it is named for, and the code the place it
has in the table (`OwnPeriodExactly`); the comment on clearing a bank says that jobs older than right now are
no longer considered, and the code cuts off at the whole second (`ClearedNow`).

## Model

| member | source | states |
|---|---|---|
| WeightedWalk.Walk.Run | src/fairness/weighted_tree/weighted_walk.cpp:224-251 | Every user under the root ends with the share (number of users less those strictly ahead by weight path) over the number of users, in every tree and through ties on any level; rank and stride are used up, the user list is a permutation of all users sorted by share, and the tree is sound for another run. |
| WeightPath.WalkRanks | src/fairness/weighted_tree/weighted_walk.cpp:42-62 | If visits go best path first and each tie flag tells whether somebody still waiting has the same path, then counting the rank down past tie groups is standard competition ranking. |
| WeightPath.RankedExactlyIfWalk | src/fairness/weighted_tree/weighted_walk.cpp:42-62 | The converse as well: counting the rank down past tie groups ranks a log of all users rightly exactly if the log, apart from its last flag, visits best path first with exact flags. |
| WeightPath.StaysInStep | src/fairness/weighted_tree/weighted_walk.cpp:42-62 | Before every visit the rank is positive and an untied visit subtracts no more than there is: the out-of-range exit and the unsigned wrap are unreachable; rank stays the number of users less those before the tie group. |
| WeightPath.FairShareFollowsPaths | src/fairness/weighted_tree/weighted_walk.cpp:42-62 | One user has strictly more fairshare than another exactly if its weight path is ahead, and the same exactly if the paths are equal. |
| WeightedWalk.Walk.HandleLeaf | src/fairness/weighted_tree/weighted_walk.cpp:42-62 | Visiting a user keeps rank, stride, log and written shares in step; the error exit is never taken; the tie flag is lowered. |
| WeightedWalk.Walk.BuildTieAwareChildren | src/fairness/weighted_tree/weighted_walk.cpp:91-132 | The list built from marked and sorted children stands for the children: users with exact tie flags, single banks, and one virtual bank for each run of tied banks with all their grandchildren. |
| WeightedWalk.Walk.HandleInternal | src/fairness/weighted_tree/weighted_walk.cpp:134-157 | Visiting a bank appends a right walk of exactly its users, and leaves all flags below it down. |
| WeightedWalk.Walk.WeightedDepthFirstVisit | src/fairness/weighted_tree/weighted_walk.cpp:174-183 | The same for any node, real or virtual; recursion through virtual nodes ends because heights go down. |
| VisitOrder.LiftPick | src/fairness/weighted_tree/weighted_walk.cpp:134-157 | A right choice inside one entry of the list is a right choice for the whole bank, tie flag included. |
| VisitOrder.WalkOneMore | src/fairness/weighted_tree/weighted_walk.cpp:134-157 | Visiting the entries one after the other extends a right walk of the bank. |
| WeightedTree.Node.CalcSetChildrenWeight | src/fairness/weighted_tree/weighted_tree.cpp:46-91 | Every child gets the weight its share of shares over its share of usage gives it: zero without shares, above every other weight with shares but no usage. |
| WeightedTree.Node.SortWeightedChildren | src/fairness/weighted_tree/weighted_tree.cpp:222-235 | The children are a reordering of what they were, heavier first and users before banks of the same weight. |
| UserOrder.SortByShare | src/fairness/weighted_tree/weighted_walk.cpp:245-250 | The users are the same, by falling share. |
| Dominance.HeavierDeservesMore | src/fairness/weighted_tree/weighted_tree.cpp:46-72 | Among siblings whose sums fit 64 bits one is heavier than another exactly if it has shares and the other none, or both have and it is unused while the other is not, or its shares times the other's usage is the larger product. |
| Dominance.Dominance | src/fairness/weighted_tree/weighted_tree.cpp:46-91 | Anywhere in a sound tree, if one sibling deserves more than another, every user below it has strictly more fairshare than every user below the other. |
| DataReader.GetSubBanks | src/fairness/reader/data_reader_db.cpp:156-333 | Loads a bank's tree: every bank has exactly the children the tables give it, in row order, with their shares; every bank carries the usage of what is active below it; every user stands for an active association of its bank; ancestors gain the usage and the users; nothing is loaded for a bank without a row. |
| DataReader.AddAssocs | src/fairness/reader/data_reader_db.cpp:231-277 | The active associations of a bank become its users, in row order, and their usage is summed. |
| DataReader.AggregateJobUsage | src/fairness/reader/data_reader_db.cpp:89-101 | A bank's usage is added to it and to each ancestor once. |
| DataReader.AddChild | src/fairness/weighted_tree/weighted_tree.cpp:186-205 | The child is appended, every ancestor's subtree grows by one node, and by one user exactly if the child is one. |
| TreeBuilding.AddAll | src/fairness/weighted_tree/weighted_tree.cpp:186-205 | Whatever the order in which nodes are added, parents before children or after, in the end each node counts itself, all nodes below it and the users among them, and has its children in the order they were added. |
| TreeBuilding.LeavesAreCounted | src/fairness/weighted_tree/weighted_tree.cpp:186-205 | So the user count of the root is the number of users of the tree, as the walk needs, for any order of additions. |
| DataReader.AggregatorsAgree | src/bindings/python/fluxacct/accounting/job_usage_calculation.py:300-321 | With all rows active, the usage pushed up while the tree is loaded equals, bank by bank, the usage of the bottom-up recompute. |
| DataReader.KidsTotal | src/fairness/reader/data_reader_db.cpp:231-333 | The shares of the children a bank should have add up to the active shares below it, the sum the 64-bit bound is about. |
| FairShareUpdate.UpdateFairShare | src/cmd/flux_account_update_fshare.cpp:63-78 | Loading and walking together: nothing active is missing from the ranking and nobody is made up, every user holds the share of its weight path, users below the sibling that deserves more end above all users below the other, and with all rows active every bank carries what a recompute would store. |
| FairShareUpdate.LoadedIsComplete | src/fairness/reader/data_reader_db.cpp:156-333 | In a loaded tree each active sub-bank of a bank in the tree is in the tree, each active association of a bank without sub-banks is ranked, and each user is an active association with its usage. |
| Emulator.Calculator.Calculate | src/bindings/python/fluxacct/accounting/fairshare_emulator.py:93-114 | On every tree each user is visited once, in the order and with the flags of the specified traversal, and its share is its place in it counted in groups of tied users, above zero and up to one; on trees whose banks hold only users, or only sub-banks of different weights, it is that of the weight path. |
| Emulator.FairExactly | src/bindings/python/fluxacct/accounting/fairshare_emulator.py:93-230 | On any tree the emulator gives all users the fairshares of their weight paths exactly if its traversal, apart from the last flag, goes best path first with exact flags. |
| Emulator.Calculator.Traverse | src/bindings/python/fluxacct/accounting/fairshare_emulator.py:195-230 | Visits exactly the users below the node, keeps rank, stride and shares in step, and without tied banks goes in plain depth-first order. |
| Emulator.BuildTieAwareChildren | src/bindings/python/fluxacct/accounting/fairshare_emulator.py:147-193 | Each run of neighbouring tied banks is replaced, in place, by all their children, sorted by weight in a stable way and with flags up exactly where the next one is as heavy, user or bank; everything else stays. |
| Emulator.PrepareTree | src/bindings/python/fluxacct/accounting/fairshare_emulator.py:129-144 | The prepared tree has the same users on the same weight paths, children sorted by weight and flags up exactly on ties with the next node of the same kind. |
| Emulator.SortByWeight | src/bindings/python/fluxacct/accounting/fairshare_emulator.py:62-64 | The same nodes, heaviest first, equally heavy ones in the order they had. |
| Emulator.PlainWalk | src/bindings/python/fluxacct/accounting/fairshare_emulator.py:195-230 | In a prepared simple tree the plain depth-first traversal visits the users best path first with exact tie flags. |
| EmulatorRefinement.MirrorsPaths | src/bindings/python/fluxacct/accounting/fairshare_emulator.py:36-60 | The emulator's weights put every user of a mirrored tree on the weight path it has in the walk's tree. |
| EmulatorRefinement.EmulateAndWalk | src/bindings/python/fluxacct/accounting/fairshare_emulator.py:93-230 | Run on any common tree, the emulator and the walk give every user one and the same fairshare exactly if the emulator's traversal goes best path first with exact flags; so they do on simple trees. |
| EmulatorTies.TwoDeepDisagree | src/bindings/python/fluxacct/accounting/fairshare_emulator.py:147-193 | Two tied banks, each over a bank with one user: the users' weight paths are equal and the walk gives both the whole share, the emulator gives one of them half. |
| EmulatorTies.BankFirstDisagree | src/bindings/python/fluxacct/accounting/fairshare_emulator.py:62-75 | A bank and a user of equal weight, the bank listed first: the walk has the user first, the emulator the one inside the bank, though no two banks tie. |
| PriorityPlugin.Plugin.CheckAndReleaseHeldJobs | src/plugins/mf_priority.cpp:317-518 | The in-place loop over eight limits, with its local counters and with released jobs possibly reaching SCHED inside it, leaves counters, held jobs and job states as one pass over the held jobs says. |
| PriorityPlugin.Plugin.ReviewHeldJob | src/plugins/mf_priority.cpp:344-515 | One iteration: exactly the dependencies whose limits leave room go, the job is erased exactly if none is left, and only then do its amounts become pending. |
| ReleasePass.PassSorts | src/plugins/mf_priority.cpp:344-518 | A pass splits the held jobs in order into those kept, each with fewer or the same dependencies but some, and those released. |
| ReleaseBounds.UnderIsRoom | src/plugins/accounting.cpp:301-502 | The limit predicates, each with its own comparison, say the same thing: the job's weight fits on top of what is taken and pending. |
| ReleaseBounds.NoOverRelease | src/plugins/mf_priority.cpp:337-511 | For each run-count, sched-count, sched-node and sched-core limit: the counter at the start of the pass plus all that was released in it while carrying that dependency is within the limit, or no such job was released, whichever of them reached SCHED meanwhile. |
| ReleaseBounds.PassIsMaximal | src/plugins/mf_priority.cpp:344-518 | Every dependency still carried after a pass is over its limit under the counters and pending amounts at the end of the pass. |
| ReleaseBounds.PassKeepsLimit | src/plugins/mf_priority.cpp:317-518 | If one limit alone holds the jobs and released jobs reach SCHED at once, a pass keeps that limit. |
| SingleLimit.LimitHoldsThroughout | src/plugins/mf_priority.cpp:1403-1530 | In every state reachable by submissions, arrivals, starts, ends and reprioritizations, with one limit binding, the jobs themselves keep it: SCHED jobs, SCHED nodes, SCHED cores, SCHED plus running nodes per queue, SCHED jobs per association. |
| SingleLimit.TwoLimitsFail | src/plugins/mf_priority.cpp:344-518 | With two limits the theorem is false: from a sound state within both, two running jobs end, each lets go a held job that carries only the dependency on running jobs, and two jobs are in SCHED where one is allowed. |
| SingleLimit.MoveIsRun | src/plugins/mf_priority.cpp:1403-1606 | Each of those moves is a run of the plugin's events. |
| PluginInvariant.StepIsSound | src/plugins/mf_priority.cpp:249-300 | Every event keeps every counter equal to the total over the jobs, and held jobs distinct, in DEPEND, with something to wait for. |
| PluginInvariant.StartCounts | src/plugins/mf_priority.cpp:249-276 | When a scheduled job starts, each counter of its association, per queue or not, changes by exactly the difference between what the job means for it in RUN and in SCHED. |
| PluginInvariant.EndCounts | src/plugins/mf_priority.cpp:2010-2035 | When a running job ends, each counter changes by exactly what the job meant for it in RUN, provided the queue's count of running jobs is positive. |
| PluginRuns.CountersStayExact | src/plugins/mf_priority.cpp:1403-2042 | So over every interleaving of submission, depend, priority, sched, run, inactive, reprioritize, reloads of limits, queues and projects, and bank updates, up to the first bank update that harms them. |
| PluginRuns.BankUpdateExactly | src/plugins/mf_priority.cpp:1751-1787 | A bank update leaves counters and held jobs right exactly if it changes nothing, or the job is neither held nor scheduled nor running. |
| PluginRuns.SoundExactly | src/plugins/mf_priority.cpp:1403-2042 | So the events after which counters and held jobs are still right are exactly those admitted by the theorem on runs, and those that change nothing. |
| PluginInvariant.GuardHolds | src/plugins/mf_priority.cpp:2030-2034 | While a job of a queue runs, the queue's count of running jobs is positive: the guard never fails. |
| PluginInvariant.RevisitIsSound | src/plugins/mf_priority.cpp:819-845 | A reprioritize request, which looks at the held jobs of every association, keeps all counters exact and held jobs right. |
| PriorityPlugin.Plugin.RepriorCb | src/plugins/mf_priority.cpp:819-845 | The loop over all associations does one pass for each that has held jobs. |
| PriorityPlugin.Plugin.Submit | src/plugins/mf_priority.cpp:1056-1163 | A job is accepted exactly if all checks pass, bank, queue, project and sizes among them, and then counted as active, and only then. |
| PriorityPlugin.Plugin.DependCb | src/plugins/mf_priority.cpp:1403-1530 | The job is held with exactly the dependencies whose limits leave no room, or not held if there are none. |
| PriorityPlugin.Plugin.SchedCb | src/plugins/mf_priority.cpp:1546-1603 | The job enters all SCHED counters, per association and per queue. |
| PriorityPlugin.Plugin.RunCb | src/plugins/mf_priority.cpp:1609-1705 | The job's amounts move from the SCHED to the running counters, then held jobs are looked at. |
| PriorityPlugin.Plugin.InactiveCb | src/plugins/mf_priority.cpp:1916-2042 | A running job gives back its resources, a scheduled one its place, any other is no longer held; the first two let held jobs be looked at. |
| PriorityPlugin.Plugin.LoadAssociation | src/plugins/accounting.cpp:562-634 | New limits replace the old ones; counters and held jobs stay. |
| PriorityPlugin.Plugin.UpdateBank | src/plugins/mf_priority.cpp:1751-1787 | The count of active jobs moves from the old to the new bank, unless the new one is at a limit. |
| PriorityPlugin.Plugin.Handle | src/plugins/mf_priority.cpp:2056-2071 | Each event leaves the plugin in the state the transition function gives. |
| PluginLifecycle.Execute | src/plugins/mf_priority.cpp:2056-2071 | Any possible run of events leaves the plugin in the state the run leads to, counters exact. |
| ActiveRuns.ActiveConserved | src/plugins/mf_priority.cpp:1751-1787 | Over every run, with bank updates of any live job, held or not, and with passes that end at the stale entry of a job that has ended elsewhere, each association's count of active jobs is the number of its live jobs, and the counts add up to all live jobs. |
| ActiveRuns.ActiveLimitHolds | src/plugins/mf_priority.cpp:1156-1163 | With fixed limits no association ever exceeds a positive limit on active jobs, whatever is submitted, moved or ended, stale entries included. |
| ActiveRuns.StaleEntryEndsPass | src/plugins/mf_priority.cpp:344-518 | A stale entry that would lose a dependency ends every pass at the place where it stands: nothing held after it is looked at. |
| ActiveRuns.PossibleUnfolds | src/plugins/mf_priority.cpp:1751-1787 | The runs in which all counters stay exact are among these runs and lead to the same state. |
| PluginReload.ReloadRebuilds | src/plugins/mf_priority.cpp:1283-1397 | Presenting the active jobs to a fresh plugin in any order gives every counter the value the callbacks had given it, and turns nobody away. |
| PluginLifecycle.NewCb | src/plugins/mf_priority.cpp:1283-1397 | One presented job is counted where it is, unless the active limit turns it away. |
| PluginLifecycle.Restart | src/plugins/mf_priority.cpp:2106-2114 | A reload of the plugin rebuilds all counters. |
| BankUsage.Database.CalcBankUsage | src/bindings/python/fluxacct/accounting/job_usage_calculation.py:275-297 | A leaf bank stores the sum of its associations' usage, and nothing else changes. |
| BankUsage.Database.CalcParentBankUsage | src/bindings/python/fluxacct/accounting/job_usage_calculation.py:300-321 | The recursion stores, on the bank and on every bank below it, what has been used there, and touches nothing else. |
| BankUsage.Database.CalcAll | src/bindings/python/fluxacct/accounting/job_usage_calculation.py:407-414 | From the root it makes every bank row right. |
| BankUsage.Database.UpdateParentBankUsage | src/bindings/python/fluxacct/accounting/util.py:116-154 | The path from a bank to the root is recomputed from stored rows, and nothing else changes. |
| BankUsage.Database.ClearUsage | src/bindings/python/fluxacct/accounting/job_usage_calculation.py:663-678 | Clearing any list of leaf banks and updating only the paths to the root leaves a consistent table consistent; exactly the associations of the banks have used nothing. |
| BankUsage.ClearLeaf | src/bindings/python/fluxacct/accounting/job_usage_calculation.py:663-678 | Clearing one leaf bank incrementally gives what a recompute would give. |
| BankUsage.ClearAny | src/bindings/python/fluxacct/accounting/job_usage_calculation.py:663-678 | For an arbitrary bank it does so exactly if the bank has no sub-banks or they have used nothing. |
| BankUsage.ClearRootFails | src/bindings/python/fluxacct/accounting/job_usage_calculation.py:663-678 | A root with one used sub-bank is an input on which it does not. |
| UsageTables.UsageDb.ClearUsage | src/bindings/python/fluxacct/accounting/job_usage_calculation.py:636-697 | Clearing banks one after the other, each with the given cutoff or the whole second of its time, starts all their associations over: bins, job usage and watermark at nothing, fairshare at one half, and the bank's cutoff set. |
| UsageUpdate.Accounting.UpdateJobUsage | src/bindings/python/fluxacct/accounting/job_usage_calculation.py:324-419 | The whole update: every association gets the outcome of its new jobs, every bank row is then what its associations have used, and the half-life ends one period later exactly if a period has passed. |
| UsageUpdate.Accounting.ClearUsage | src/bindings/python/fluxacct/accounting/job_usage_calculation.py:653-702 | Clearing banks keeps the usage of associations and of banks in agreement: a consistent table stays consistent if the banks are leaves. |
| UsageUpdate.KeepsUp | src/bindings/python/fluxacct/accounting/job_usage_calculation.py:250-272 | With an update at least once a period the end of the half-life never falls behind by more than one. |
| UsageTables.UsageDb.UpdateJobUsage | src/bindings/python/fluxacct/accounting/job_usage_calculation.py:365-405 | One update brings every association to the outcome its own new jobs give. |
| UsageTables.UsageDb.CalcUsageFactor | src/bindings/python/fluxacct/accounting/job_usage_calculation.py:163-247 | The four cases of an update, told apart by two looks at the clock, leave bins, job usage and watermark as stated for each, with every charge rounded to five decimals. |
| UsageTables.UsageDb.ApplyDecayFactor | src/bindings/python/fluxacct/accounting/job_usage_calculation.py:117-160 | Bins move on by one and decay, the oldest is dropped, the current one is emptied, and the sum of the older ones is returned. |
| JobUsage.ChargedAtMostOnce | src/bindings/python/fluxacct/accounting/job_usage_calculation.py:365-405 | Over any interleaving of inserts, updates and clearings no job record is charged twice, unless its bank was cleared in between. |
| JobUsage.InsertedIsCharged | src/bindings/python/fluxacct/accounting/job_usage_calculation.py:365-405 | A record just inserted ends up charged, once, exactly if there is an update after the last clearing of its bank and the record is readable, not filtered, of a known association and past its watermark then, all of which can be read off the run. |
| JobUsage.ClearedNow | src/bindings/python/fluxacct/accounting/job_usage_calculation.py:688-697 | Clearing without a cutoff is meant to ignore all jobs that have ended; a job that had ended is charged again exactly if it ended within the current second. |
| JobUsage.UsageGrowsByCharges | src/bindings/python/fluxacct/accounting/job_usage_calculation.py:195-237 | Without decay an association's job usage is what it was, or nothing if its bank was cleared meanwhile, and exactly the rounded charges of its records, each as often as it is charged since; it stays the sum of the bins. |
| JobUsage.RoundingIsSmall | src/bindings/python/fluxacct/accounting/job_usage_calculation.py:192-208 | Rounding each charge to five decimals moves the sum by no more than half a unit of the fifth decimal per job. |
| JobUsage.GrownAfterDecayState | src/bindings/python/fluxacct/accounting/job_usage_calculation.py:238-245 | New jobs in a new half-life: the job usage is charges plus decayed past, all of it is written to the current bin, and the bins sum to more by the decayed past. |
| JobUsage.GrownAfterDecayInStep | src/bindings/python/fluxacct/accounting/job_usage_calculation.py:238-245 | The job usage is then the sum of the bins exactly if nothing is left of the past. |
| JobUsage.GrownAfterDecayOutOfStep | src/bindings/python/fluxacct/accounting/job_usage_calculation.py:238-245 | Concrete bins for which it is not. |
| JobUsage.BoundaryCase | src/bindings/python/fluxacct/accounting/job_usage_calculation.py:209-237 | An update without new jobs falls into the branch for new jobs exactly if one period after the end of the half-life lies between the second look at the clock and the first, and then only brings the job usage in line with the bins. |
| JobUsage.IdleClosedForm | src/bindings/python/fluxacct/accounting/job_usage_calculation.py:117-160 | After k half-lives without jobs bin i holds decay to the k of bin i minus k, the first k bins are empty, the job usage is the sum, and nothing is left once k reaches the number of bins. |
| JobUsage.IdleRunClosedForm | src/bindings/python/fluxacct/accounting/job_usage_calculation.py:216-228 | The same for a run of updates that each find a half-life passed without new jobs of the association, with records of others inserted and other banks cleared in between. |
| ShareTree.Tree.NormalizeShares | src/bindings/python/fluxacct/accounting/bank_subcommands.py:178-192 | One pass in depth order gives every node its share among siblings of its kind, of its parent's part. |
| ShareTree.Tree.ByDepth | src/bindings/python/fluxacct/accounting/bank_subcommands.py:179 | All nodes, each after its parent. |
| ShareTree.Tree.NormalizeUsage | src/bindings/python/fluxacct/accounting/bank_subcommands.py:194-197 | Every usage is divided by the root's, if that is positive. |
| ShareTree.ChildrenPartition | src/bindings/python/fluxacct/accounting/bank_subcommands.py:178-192 | The children's parts add up to the parent's exactly if one kind of them has shares, or the parent has no part. |
| ShareTree.OneKindHasShares | src/bindings/python/fluxacct/accounting/bank_subcommands.py:178-192 | With positive shares and only users or only banks below a bank, one kind has. |
| ShareTree.LeavesAreOne | src/bindings/python/fluxacct/accounting/bank_subcommands.py:178-192 | Then the parts of all leaves of the tree add up to one. |
| ShareTree.UsageIsOne | src/bindings/python/fluxacct/accounting/bank_subcommands.py:194-197 | If stored usages add up in the tree, normalized ones do, and those of the leaves add up to one. |
| ShareTreeBuilding.BuildShareTree | src/bindings/python/fluxacct/accounting/bank_subcommands.py:93-199 | Built from the tables, every node is a row below its parent's row, every bank has all its children, and shares and usages are normalized; if no bank has both sub-banks and associations, the leaves' shares add up to one when all shares are positive, and their usages when the bank table is consistent. |
| ShareTreeBuilding.StoredAddsUp | src/bindings/python/fluxacct/accounting/bank_subcommands.py:121-176 | In the built tree the stored usages add up at every bank if the bank table is consistent and no bank has both sub-banks and associations. |
| SchemaMigration.Database.UpdateDb | src/cmd/flux-account-update-db.py:380-386 | The update succeeds exactly if every table can be brought to its new columns; then no row is lost, shared columns keep their values, tables outside the schema are untouched, the usage of each association in each usage column is in a row of its own, that of the column's number if the columns are in the order of their numbers, and nothing is left to update; on a settled database it changes nothing. |
| SchemaMigration.UpdateTwice | src/cmd/flux-account-update-db.py:355-396 | If an update succeeds so does a second one, and it changes nothing. |
| SchemaMigration.UpdateTable | src/cmd/flux-account-update-db.py:204-251 | Succeeds exactly if the table can be brought: rebuilt or extended, it ends with the new columns, every row with its old values and with defaults in new columns; an empty table can always be; an unchanged set of columns leaves it as it was. |
| SchemaMigration.GetColsList | src/cmd/flux-account-update-db.py:57-69 | The list of columns to keep and to add is the new table's list of columns. |
| SchemaMigration.Rebuild | src/cmd/flux-account-update-db.py:91-138 | Copying rows into a new version keeps shared columns; it fails exactly if a row has no value where one is needed, or two rows clash in the new primary key. |
| SchemaMigration.MigrateRows | src/cmd/flux-account-update-db.py:330-351 | Each usage column becomes a row of its place with its value, of its number if the columns are in order, unless there was a row for it before; old rows stay, no other rows appear. |
| SchemaMigration.OwnPeriodExactly | src/cmd/flux-account-update-db.py:330-351 | Whatever associations have used, each column's usage ends in the row of the column's number exactly if the numbered usage columns stand in the order of their numbers. |
| SchemaMigration.UpdateSwaps | src/cmd/flux-account-update-db.py:330-351 | A table that lists the column of period 1 before that of period 0 is an input on which the usage of period 1 ends in the row of period 0, and the whole update keeps it there. |
| SchemaMigration.NothingLeftToMigrate | src/cmd/flux-account-update-db.py:380-383 | Had columns been brought up to date first, there would be nothing left to migrate. |

## Left out

- Tolerant comparison of weights: `is_equal` in the tree and in the emulator compares up to an epsilon, which is not transitive and no usable order; equality is exact here.
- Fractional usage: usages are integers in the tree, the reader and the emulator, so the truncation of sibling sums to 64-bit integers does not show.
- Overflow of sibling sums and of counters: sums are required to fit, counters are unbounded.
- PriorityPlugin.Plugin.DependencyRemove: does not model a failing removal of a dependency: the class is proved for rightly held jobs, where it cannot fail. PluginWorld and ActiveRuns model the failure, after a held job was moved to another bank and has ended there: the pass stops at its entry.
- PluginRuns.CountersStayExact: excludes exactly the bank updates of BankUpdateExactly that harm counters or held jobs, because the code moves only the count of active jobs; ActiveRuns covers them for active jobs.
- SingleLimit.LimitHoldsThroughout: is about one binding limit and jobs that reach SCHED at once; with two limits it is false, as TwoLimitsFail shows. Running jobs are capped by no such theorem, since those checks count only jobs already running; the bound of a single pass is NoOverRelease.
- Queue updates of jobs, queue priorities, urgency, the priority formula, memos, JSON and RPC: plumbing around the counters.
- The placeholder association for unknown users and the special limits 999 and -1: these paths reset or re-increment counters.
- Jobs in CLEANUP while the plugin is reloaded.
- UserOrder.SortByShare: an insertion sort stands for the library's sort, of which only order and contents are promised.
- SQL, transactions and locking: statements succeed, except where a new column allows no default; a failed schema update is not rolled back in the model.
- Emulator.Calculator.Calculate: works on tree values with weights, flags and order computed into new values, not on nodes updated in place, so aliasing between nodes is not captured; rank, stride and results are fields updated in place.
- ShareTreeBuilding.BuildShareTree: addresses nodes by their place in a list, not by path names; two nodes of one path name, a sub-bank and a user of the same name under one bank, would be one in the code.
- SchemaMigration.UpdateTwice: relies on a current schema without usage columns, as it is; a schema that added some would have more rows to migrate the second time.
- SchemaMigration.Rebuild: does not model that an integer primary key without a value is filled in, nor the order of tables and columns.
- Resource counting of job specifications in `src/plugins/jj.cpp`, formatters, reports, queue, project and configuration commands: easy or presentational.
