# Verified model of the D&D assistant backend

The backend keeps live battle tables. A table is a websocket session in which up to four players and one
admin edit a shared JSON document by sending patches. This project models, in Dafny, the parts of that
backend whose behaviour spans several calls or several goroutines, and proves what they keep:

- **the JSON merger** (`Decimal`, `Merger`, `MergerCode`, `MergeLaws`, `MergeTwice`, `MergeOrder`, `MergePaths`).
  JSON values are trees with opaque scalars; `Merger.Merge` says what a merge is and `MergerCode` holds the
  looping code, with map keys visited in any order;
- **the live table session** (`TableState`, `TableInvariants`, `TableSession`, `TableConnections`, `TableTimeout`,
  `TableService`, and the laws of one section, one join and one run in `TableSteps`, `TableJoins` and `TimeoutRuns`).
  Every mutex-protected section is a function on `TableState.State`; the class methods are
  proved to compute these functions, and runs of the functions are the interleavings of all goroutines. The
  set of socket writes that fail is an arbitrary argument of each section. A section that returns without
  unlocking sets `locked`, and no section runs while it is set;
- **identities** (`IdentityDb`, `IdentityFlow`, `IdentityLaws`, `IdentityStores`). Login, link and unlink are automata that make one
  repository call per step, interleaved arbitrarily over the two tables with their constraints; the class methods
  are proved to run these automata;
- **the generation jobs** (`LlmJobs`, `LlmStore`). Workers write a job object they share with the store, one write per step;
- **the map validator** (`MapValidator`, `MapValidatorLaws`, `MapValidatorErrors`).

`dafny verify dfyconfig.toml` checks everything.

## How to read the main results

- A *patch* is merged by `Merge(data, patch)`; `None` is the error return. `MergeAll` folds a message list.
- `TableState.Run(Opened(admin, data), sections)` is any run of one session: any sections of any goroutines in any
  order. `TableConnections.Play` adds how far `AddNewConnection` and its reader got for every connection.
  `TableTimeout.Run` adds session ids, the timer watcher and concurrent calls of `stopTimer`.
- `State.history` is what an observer would record: messages merged, data last delivered to each connection,
  connections closed, and slots lost (slots that `playersNum` counts although no entry accounts for them).
- `IdentityFlow.Run` interleaves any number of login, link and unlink calls. A `Fault` makes a repository call fail
  without effect, or take effect with its answer lost; a faulty lookup reports "not found" although the row is
  there, as internal/pkg/auth/repository/identity_storage.go:52-55 does for any error.

## What fails, and exactly when

- The comment on `Merge` (internal/pkg/utils/merger/merger.go:14) says existing fields always survive. They do unless
  the patch replaces a scalar or an array on the way by a value that lacks the rest of the path:
  `MergePaths.SurvivesUnlessSevered` is the exact condition, on the patch alone, and `MergePaths.FieldCanBeLost` gives
  an input that loses a field. The model follows the code.
- Merging two patches in turn is not always merging their merge. `MergeLaws.CompositionCanFail` gives an input,
  `MergeLaws.MergeComposes` the exact condition, and `MergeLaws.PatchesCompose` one on the patches alone.
- `AddNewConnection` asks whether the user has an entry and registers later, under another lock. Connections are lost in
  exactly the runs in which a registration overwrites an entry (`TableConnections.LostExactlyByOverwriting`);
  `TableConnections.OverlapLosesConnection` is such a run.
- `stopTimer` panics if and only if another call for its session was there before (`TableTimeout.CrashesExactly`);
  `TableTimeout.SecondFiringCrashes` is such a run, with the reset that lets the timer fire again.
- A session can be saved unless its mutex is left held before the data is fetched (`TableTimeout.SavedUnlessStuck`);
  `TableTimeout.StuckIsReal` is a run of three actions after which it never is.
- A player dropped by a failed write keeps a slot. A player is refused in exactly the states of
  `TableSteps.RefusedExactly`; after the run of `TableSteps.EmptyTableRefuses` the table is empty and refuses everybody.
- A reader asks whether its user is registered and removes the user later. `TableJoins.LeaveLocksExactly` says when that
  leaves the mutex held; `TableJoins.RemovedTwiceFreezes` is such a run.
- `UnlinkIdentity` counts a user's identities and deletes later. A user is left without any in exactly the runs of
  `IdentityFlow.StrandedExactly`; `IdentityFlow.OverlapIsReal` is one.

## Model

| member | source | states |
|---|---|---|
| Decimal.ItoaRoundTrip | internal/pkg/utils/merger/merger.go:61 | printed indices are canonical decimals and read back to the same number |
| Decimal.ValueRoundTrip | internal/pkg/utils/merger/merger.go:61 | every canonical decimal is the print of its value |
| Decimal.ItoaInjective | internal/pkg/utils/merger/merger.go:61 | different indices print differently |
| MergerCode.MergeObjects | internal/pkg/utils/merger/merger.go:53-92 | for every visiting order of the keys the loops return the merge, or fail exactly when it fails, reporting a path at which data and patch conflict |
| MergerCode.MergeElements | internal/pkg/utils/merger/merger.go:57-67 | the same for an array, whose elements are visited in order |
| MergerCode.MergeMembers | internal/pkg/utils/merger/merger.go:68-87 | the same for an object, whose keys are visited in any order |
| MergerCode.MergeValueAt | internal/pkg/utils/merger/merger.go:94-122 | the merged member, or an error whose path extends the current one by the key and a conflict below it |
| Merger.MergeSelf | internal/pkg/utils/merger/merger.go:53-122 | merging any tree with itself gives that tree |
| MergeLaws.MergeIdempotent | internal/pkg/utils/merger/merger.go:53-122 | after a successful merge the same patch merges again and changes nothing |
| MergeLaws.ValueIdempotent | internal/pkg/utils/merger/merger.go:94-122 | the same for one member |
| MergeLaws.MergeComposes | internal/pkg/utils/merger/merger.go:53-122 | merging p1 then p2 equals merging their merge if and only if data and p2 conflict at a path p1 does not reach (then both fail), or p1 nowhere puts a scalar over an array that p2 addresses by an object |
| MergeLaws.ClashFails | internal/pkg/utils/merger/merger.go:107-112 | a conflict of data and p2 at a path p1 does not reach makes the second step fail |
| MergeLaws.FailureClashes | internal/pkg/utils/merger/merger.go:107-112 | when the patches merge, a failing second step comes from such a conflict |
| MergeLaws.PatchesCompose | internal/pkg/utils/merger/merger.go:53-122 | a condition on the patches alone: if p1 holds no scalar where p2 holds an object, their merge stands for both |
| MergeLaws.CompositionCanFail | internal/pkg/utils/merger/merger.go:117-121 | a concrete data and two patches for which the two ways differ |
| MergeOrder.DisjointUnion | internal/pkg/utils/merger/merger.go:72-87 | disjoint patches merge into one another without failure and symmetrically |
| MergeOrder.MergeCommutes | internal/pkg/utils/merger/merger.go:53-122 | two disjoint patches may be merged in either order, with the same value or the same failure |
| MergeOrder.Postpone | internal/pkg/table/repository/session.go:43-52 | a message may be moved behind all later messages it is disjoint from |
| MergeOrder.OrderIndependent | internal/pkg/table/repository/session.go:43-52 | folding pairwise disjoint messages gives the same result, or failure, in every order |
| MergeOrder.RepeatedMessage | internal/pkg/table/repository/session.go:43-52 | a message posted twice in a row has the effect of one |
| MergePaths.MergedChild | internal/pkg/utils/merger/merger.go:56-82 | each member of the data, array elements under their decimal index, becomes its merged member |
| MergePaths.FailsExactlyOnConflict | internal/pkg/utils/merger/merger.go:94-122 | a merge fails if and only if some path below the root has an object in the data and a present non-object in the patch |
| MergePaths.FailureHasConflict | internal/pkg/utils/merger/merger.go:107-112 | every failure has such a path |
| MergePaths.UntouchedKept | internal/pkg/utils/merger/merger.go:98-100 | a data path on which the patch's objects run out of keys keeps its value |
| MergePaths.PatchWins | internal/pkg/utils/merger/merger.go:81-121 | a non-object of the patch is found in the result at its path if and only if, walking down that path, the data holds something at every step, or stops at a scalar below the root or at an object without the next key |
| MergePaths.TakenWhole | internal/pkg/utils/merger/merger.go:81-121 | where the data ends at a scalar, or at an object without the next key, whatever the patch has there is taken over whole |
| MergePaths.NothingInvented | internal/pkg/utils/merger/merger.go:53-122 | every path of the result exists in the data or the patch, and a scalar found there is one of theirs |
| MergePaths.SkeletonKept | internal/pkg/utils/merger/merger.go:107-115 | along a path of object keys of the data the result has objects where the data has them |
| MergePaths.SurvivesUnlessSevered | internal/pkg/utils/merger/merger.go:14-16 | an existing path of the data survives the merge if and only if the patch does not replace something on it by a value that lacks the rest of the path |
| MergePaths.FieldCanBeLost | internal/pkg/utils/merger/merger.go:117-121 | a concrete data, patch and path for which an existing field is lost |
| MergePaths.ArrayPatchLocal | internal/pkg/utils/merger/merger.go:57-67 | keys that are not the canonical decimal of an index in range do not matter to an array |
| MergePaths.ArrayPatchElement | internal/pkg/utils/merger/merger.go:57-67 | changing the key of index i changes element i and nothing else |
| TableInvariants.StepAgrees | internal/pkg/table/repository/session.go:43-68 | every section keeps the data equal to the fold of the messages and every delivered copy current |
| TableInvariants.ReplicasAgree | internal/pkg/table/repository/session.go:38-88 | in every run, while the mutex is free, the data is the fold of all posted messages and each registered connection that got data last got exactly it |
| TableInvariants.SessionsConverge | internal/pkg/table/repository/session.go:38-70 | two sessions that receive the same pairwise disjoint messages in any orders end with the same data |
| TableInvariants.StepSlots | internal/pkg/table/repository/participants.go:13-103 | every section keeps playersNum equal to player entries plus lost slots, at most four, entries under their own id and roles right; lost slots never decrease |
| TableInvariants.RunSlots | internal/pkg/table/repository/participants.go:13-103 | the same for every run, at most four slots and five entries, and the entry with the admin's role is that of the user who opened the session |
| TableInvariants.LockedExactly | internal/pkg/table/repository/session.go:44-52 | the mutex is left held after a run if and only if one of its sections met a full table, failed to merge, or removed an absent user while the mutex was free; then nothing changes the session any more |
| TableSteps.DroppedExactly | internal/pkg/table/repository/participants.go:95-102 | an announcement, or a round whose message merges, keeps exactly the entries whose write works, unchanged, closes exactly the others' connections, and frees no slot |
| TableSteps.RoundDelivers | internal/pkg/table/repository/session.go:43-65 | a message that merges reaches everybody who stays with the merged data, and nobody else |
| TableSteps.GreetingExactly | internal/pkg/table/repository/session.go:72-88 | the first message delivers the data to the user's connection, or closes and drops it exactly when the write fails; an absent user changes nothing |
| TableSteps.RefusedExactly | internal/pkg/table/repository/participants.go:16-18 | in every run a player is refused if and only if the players registered and the slots lost to failed writes make four |
| TableSteps.JoinsLoseSlots | internal/pkg/table/repository/participants.go:95-102 | each player who joins and is dropped by a failed write leaves a slot taken |
| TableSteps.EmptyTableRefuses | internal/pkg/table/repository/participants.go:16-18 | a run after which nobody is at the table and every player is refused |
| TableSession.Session.constructor | internal/pkg/table/repository/table_manager.go:36-47 | a new session holds the encounter's data and nobody |
| TableSession.Session.SendParticipantsInfo | internal/pkg/table/repository/participants.go:80-103 | in every visiting order exactly the entries with failing writes are dropped and closed |
| TableSession.Session.BroadcastRound | internal/pkg/table/repository/session.go:43-68 | merges, delivers to all, drops failures; on a failed merge stops with the mutex held |
| TableSession.Session.WriteFirstMsg | internal/pkg/table/repository/session.go:72-88 | delivers the data or drops the user; panics for an absent user with the mutex released |
| TableSession.Session.AddParticipant | internal/pkg/table/repository/participants.go:13-36 | refuses a full table with the mutex held, else counts, registers and announces |
| TableSession.Session.AddAdmin | internal/pkg/table/repository/participants.go:38-54 | registers the admin without counting a slot and announces |
| TableSession.Session.RemoveParticipant | internal/pkg/table/repository/participants.go:56-78 | frees a player's slot, closes, deletes, announces; for an absent user only the mutex stays held |
| TableConnections.TableIsSession | internal/pkg/table/repository/table_manager.go:114-181 | every interleaving of connections is a run of session sections with new connections only |
| TableConnections.TableInvariantsHold | internal/pkg/table/repository/table_manager.go:114-181 | replica agreement and slot conservation hold in every interleaving of connections |
| TableConnections.StepEntries | internal/pkg/table/repository/participants.go:13-103 | an entry stays, has its connection closed, or is replaced by its own user's new entry |
| TableConnections.NextTidy | internal/pkg/table/repository/table_manager.go:114-181 | every event keeps each entry's connection registered by its own user, open, and never refused |
| TableConnections.NoNewLoss | internal/pkg/table/repository/table_manager.go:133-145 | an event that overwrites no entry loses no connection |
| TableConnections.OverwriteLoses | internal/pkg/table/repository/table_manager.go:141-145 | an event that registers a user over an entry leaves the entry's connection neither registered nor closed |
| TableConnections.LostForever | internal/pkg/table/repository/table_manager.go:160-180 | a lost connection is never closed or registered again |
| TableConnections.LostExactlyByOverwriting | internal/pkg/table/repository/table_manager.go:114-181 | in every run, all connections past CheckUser are registered or closed if and only if no registration overwrote an entry |
| TableConnections.NextWaiting | internal/pkg/table/repository/table_manager.go:133-145 | while a user connects once at a time, a connection past CheckUser finds no entry of its user when it registers |
| TableConnections.NoLostConnection | internal/pkg/table/repository/table_manager.go:114-181 | hence in runs where no user connects twice at once every connection past CheckUser is registered or closed |
| TableConnections.NextServes | internal/pkg/table/repository/session.go:72-88 | every event keeps each joined and still registered connection served with the data |
| TableConnections.JoinedShowsData | internal/pkg/table/repository/table_manager.go:141-156 | in every interleaving, while the mutex is free, a connection that joined and is still registered shows exactly the session's data |
| TableConnections.OverlapLosesConnection | internal/pkg/table/repository/table_manager.go:133-145 | two overlapping connects of one user leave the first connection neither registered nor closed |
| TableJoins.EndedReadersAreGone | internal/pkg/table/repository/table_manager.go:160-167 | in every run a connection whose reader has ended is not its user's entry |
| TableJoins.ReaderRemoves | internal/pkg/table/repository/table_manager.go:160-173 | a read error of a registered connection removes its user, closes it, and frees a player's slot |
| TableJoins.JoinSucceeds | internal/pkg/table/repository/table_manager.go:133-158 | a new user for whom there is room is registered under the connection with the right role, takes a slot if a player, and is shown the data |
| TableJoins.TellDropsExactly | internal/pkg/table/repository/participants.go:95-102 | the announcement of a join drops exactly the entries whose writes fail, the new one included |
| TableJoins.GreetReturnsExactly | internal/pkg/table/repository/table_manager.go:155-156 | a join returns if and only if the timer stands and the user still has an entry |
| TableJoins.JoinedShowsPosted | internal/pkg/table/repository/session.go:43-88 | in every interleaving, while the mutex is free, a joined and registered connection shows the fold of every message posted to the table |
| TableJoins.LeaveLocksExactly | internal/pkg/table/repository/participants.go:66-73 | a reader that removes its user leaves the mutex held if and only if the user went after the reader asked |
| TableJoins.RemovedTwiceFreezes | internal/pkg/table/repository/table_manager.go:161-166 | a concrete run in which it does |
| TableTimeout.NextSafe | internal/pkg/table/usecases/table.go:61-102 | every step keeps watched sessions live, what a call fetched equal to the fold of exactly the messages merged by then, and at most one call past the watcher for each session, one if the timer is gone |
| TableTimeout.NextSavedOnce | internal/pkg/table/usecases/table.go:92-102 | no step saves a session a second time, and what is saved is what a call for that session fetched |
| TableTimeout.TimeoutSafety | internal/pkg/table/usecases/table.go:92-102 | in every run only watched timers run, watched ids are live, no session is saved twice, and each save is the fold of the session's record as it stood when its call fetched, at least as long as when the timer fired |
| TableTimeout.CrashesExactly | internal/pkg/table/usecases/table.go:95-98 | in every reachable state forgetting the timer panics if and only if another call for the session did it before; otherwise the session is still live |
| TableTimeout.CrashedHasTwin | internal/pkg/table/usecases/table.go:95-98 | every panicked call has such another call, so a timer that fires once does not panic |
| TableTimeout.SecondFiringCrashes | internal/pkg/table/usecases/table.go:84-98 | a concrete run in which a timer fires, is reset, fires again, and the second call panics |
| TableTimeout.SavedUnlessStuck | internal/pkg/table/usecases/table.go:92-102 | a session of a reachable state is or can still be saved if and only if its mutex was not left held before any call fetched |
| TableTimeout.NeverStored | internal/pkg/table/repository/session.go:103-108 | a session whose mutex was left held with no call past the fetch is saved in no continuation |
| TableTimeout.StuckIsReal | internal/pkg/table/repository/session.go:43-52 | a concrete run, with a message that does not parse, after which the session is never saved |
| TimeoutRuns.ObjectsAreRuns | internal/pkg/table/usecases/table.go:45-61 | in every run the sessions are those created, and each is what its own sections make of the data it was created with |
| TimeoutRuns.SavesWhatWasPosted | internal/pkg/table/usecases/table.go:92-100 | in every run, what is saved for a session is the fold, over the data it was created with, of exactly the messages posted to it before a call that had fired for it fetched them |
| TimeoutRuns.NoResetNoCrash | internal/pkg/table/usecases/table.go:84-98 | a timer that is never reset fires at most once, and its call does not panic |
| TableService.TableManager.CreateSession | internal/pkg/table/repository/table_manager.go:33-57 | adds one fresh session and keeps the others |
| TableService.TableManager.RemoveSession | internal/pkg/table/repository/table_manager.go:59-82 | terminates with no participants, everybody closed, no slot held but the lost ones, although announcements drop users on the way |
| TableService.TableManager.AddNewConnection | internal/pkg/table/repository/table_manager.go:114-181 | runs the events arrive, enter, tell, greet of the interleaved model; the connection is closed at once exactly for an unknown session, a user with an entry, or a full table |
| TableService.TableUsecases.CreateSession | internal/pkg/table/usecases/table.go:45-73 | a session and a timer, for the encounter's owner only |
| TableService.TableUsecases.AddNewConnection | internal/pkg/table/usecases/table.go:79-90 | the join of the manager, and a reset of the session's timer exactly when the join is not refused and the timer still stands; without the timer a join that is not refused panics |
| TableService.TableUsecases.StopTimer | internal/pkg/table/usecases/table.go:92-102 | runs the actions fetch, unwatch, save, finish of the interleaved model, for known and unknown ids; a session taken away is left torn down, and a panic changes nothing |
| IdentityDb.CreateUserKeeps | internal/pkg/auth/repository/auth_storage.go:116-163 | the transaction keeps the constraints and all rows, and on success the new user owns exactly the new identity |
| IdentityDb.CreateIdentityKeeps | internal/pkg/auth/repository/identity_storage.go:60-83 | the insert keeps the constraints and all rows |
| IdentityDb.DeleteKeeps | internal/pkg/auth/repository/identity_storage.go:140-157 | the delete keeps the constraints and takes at most one row, of that user and provider |
| IdentityDb.DeleteTakes | db/migrations/009_user_identity.up.sql:11 | unless the store breaks, deleting an existing row's user and provider removes exactly that row |
| IdentityFlow.OwnerChangesOnlyByUnlink | internal/pkg/auth/usecases/auth.go:176-245 | an identity keeps its owner over every step except its owner's unlink of that provider |
| IdentityFlow.AlwaysValid | db/migrations/009_user_identity.up.sql:1-11 | both unique constraints and the foreign key hold in every interleaving |
| IdentityFlow.LoginAgrees | internal/pkg/auth/usecases/auth.go:52-126 | the user a login works with owns the key it logs in with |
| IdentityFlow.ConcurrentFirstLogins | internal/pkg/auth/usecases/auth.go:52-126 | without unlinks, in every interleaving and with wrong "not found" answers, logins create at most one user per key, none for a key that had an owner, and all that succeed return the same user |
| IdentityFlow.LoginsOwnedOnce | internal/pkg/auth/usecases/auth.go:52-151 | with unlinks and faults too, the user a login holds or returns owned its key at some moment of the run |
| IdentityFlow.StrandsExactly | internal/pkg/auth/usecases/auth.go:233-237 | a step takes a user's last identity if and only if it is an unlink's delete that meets one identity where its listing counted more |
| IdentityFlow.StrandedExactly | internal/pkg/auth/usecases/auth.go:224-245 | in every run, a user created by a login has an identity at every moment if and only if no such delete happens |
| IdentityFlow.NextSpares | internal/pkg/auth/usecases/auth.go:224-245 | while a user's unlinks do not overlap, the one about to delete leaves an identity |
| IdentityFlow.LastIdentityKept | internal/pkg/auth/usecases/auth.go:224-245 | if a user's own unlinks do not overlap, that user keeps an identity from creation on, whatever other users do |
| IdentityFlow.OverlapStrands | internal/pkg/auth/usecases/auth.go:227-237 | from every system, two unlinks of a user's only two identities that both list before either deletes take both |
| IdentityFlow.OverlapIsReal | internal/pkg/auth/usecases/auth.go:224-245 | such a run exists from empty tables: a login, a link, and the two unlinks |
| IdentityLaws.LoginOfOwner | internal/pkg/auth/usecases/auth.go:49-151 | for every fault sequence: a login with an owned key is answered with the owner exactly when none of its calls goes wrong, and writes the reported profile and nothing else |
| IdentityLaws.LoginOfNewcomer | internal/pkg/auth/usecases/auth.go:88-125 | for every fault sequence: a login with a free key adds exactly the user and the identity, and is answered with that user |
| IdentityLaws.LoginAfterWrongLookup | internal/pkg/auth/usecases/auth.go:101-119 | for every fault sequence: a lookup that wrongly finds nothing writes no row, and the login goes on with the key's owner |
| IdentityLaws.LinkExactly | internal/pkg/auth/usecases/auth.go:193-222 | for every fault sequence: a link succeeds if and only if the user owns the key, or the key is free and the user exists without an identity of that provider; then exactly that row is added |
| IdentityLaws.UnlinkExactly | internal/pkg/auth/usecases/auth.go:224-245 | for every fault sequence: an unlink of a provider's identity succeeds if and only if the user has more than one, and takes exactly that row |
| IdentityLaws.UnlinkOfNothing | internal/pkg/auth/usecases/auth.go:237-240 | an unlink of a provider the user has no identity of fails and changes nothing |
| IdentityLaws.LinkedOwnedOnce | internal/pkg/auth/usecases/auth.go:176-222 | in every run with unlinks and faults, a link that reports success had its user own the key at some moment |
| IdentityLaws.UnlinkedTakenOnce | internal/pkg/auth/usecases/auth.go:224-245 | in every run, an unlink that reports success had some step take that identity |
| IdentityLaws.BothFirstLoginsSucceed | internal/pkg/auth/usecases/auth.go:101-119 | two first logins with one key that both find nothing create one user and are both answered with it |
| IdentityStores.AuthStorage.UpdateUser | internal/pkg/auth/repository/auth_storage.go:84-114 | the profile is replaced, or nothing changes |
| IdentityStores.AuthStorage.CreateUserWithIdentity | internal/pkg/auth/repository/auth_storage.go:116-163 | both rows, or neither after a conflict or error |
| IdentityStores.IdentityStorage.FindByProvider | internal/pkg/auth/repository/identity_storage.go:31-58 | the owner of the key, or nothing |
| IdentityStores.IdentityStorage.CreateIdentity | internal/pkg/auth/repository/identity_storage.go:60-83 | the row, or the error of the constraint in the way |
| IdentityStores.IdentityStorage.ListByUserID | internal/pkg/auth/repository/identity_storage.go:100-138 | each row of the user exactly once, or the error |
| IdentityStores.IdentityStorage.DeleteByUserAndProvider | internal/pkg/auth/repository/identity_storage.go:140-157 | removes the matching rows, or reports that there are none |
| IdentityStores.AuthUsecases.Login | internal/pkg/auth/usecases/auth.go:32-151 | runs the login automaton to its end |
| IdentityStores.AuthUsecases.LinkIdentity | internal/pkg/auth/usecases/auth.go:176-222 | runs the link automaton to its end |
| IdentityStores.AuthUsecases.UnlinkIdentity | internal/pkg/auth/usecases/auth.go:224-245 | runs the unlink automaton to its end |
| LlmJobs.WorkInOrder | internal/pkg/bestiary/usecases/llm.go:76-142 | each step of a worker leaves the stored job where its stage says, moving along pending, step 1, step 2, done or error |
| LlmJobs.JobAutomaton | internal/pkg/bestiary/usecases/llm.go:34-142 | in every interleaving a job moves only along the automaton, only by its own worker, and a result implies done |
| LlmJobs.SameOutcome | internal/pkg/bestiary/repository/llm_storage.go:39-71 | a finished worker leaves its job done or in error, and the same job whether the store hands out its object or a copy |
| LlmJobs.TrailAlong | internal/pkg/bestiary/usecases/llm.go:76-142 | these values are what the worker's automaton shows step by step, up to its end |
| LlmJobs.AfterInOrder | internal/pkg/bestiary/usecases/llm.go:76-142 | from its submission a job moves only along the automaton and is done or in error after at most eight steps, under both stores |
| LlmJobs.JobEnds | internal/pkg/bestiary/usecases/llm.go:34-142 | in every run, a submitted job whose worker takes its eight steps ends done with the processed creature if no foreign call failed, and in error otherwise |
| LlmStore.JobStorage.Update | internal/pkg/bestiary/repository/llm_storage.go:53-71 | copies status and result into the stored job, or reports it missing |
| LlmStore.LLMUsecase.SubmitText | internal/pkg/bestiary/usecases/llm.go:34-51 | a new pending job with the description; other jobs stay |
| LlmStore.LLMUsecase.SubmitImage | internal/pkg/bestiary/usecases/llm.go:53-70 | a new pending job with the image; other jobs stay |
| LlmStore.LLMUsecase.Process | internal/pkg/bestiary/usecases/llm.go:76-142 | the stored job takes exactly the listed values, one after each write and storage call, and ends with the outcome of the foreign calls; no other job is written |
| MapValidatorLaws.AcceptedExactlyWhenAllRulesHold | internal/pkg/maps/usecases/validator.go:19-122 | the error list is empty if and only if every rule holds, for any number of placements |
| MapValidatorLaws.PrefixInjective | internal/pkg/maps/usecases/validator.go:74 | a field belongs to one placement only |
| MapValidatorLaws.FieldsNameBrokenRules | internal/pkg/maps/usecases/validator.go:19-122 | a field is named by an error if and only if its rule is broken |
| MapValidatorLaws.NoFieldTwice | internal/pkg/maps/usecases/validator.go:19-122 | no two errors of one request name the same field |
| MapValidatorLaws.HighestBrokenClass | internal/pkg/maps/usecases/validator.go:124-139 | the category is the highest broken class: schema, dimensions, placements, else a bad request |
| MapValidatorErrors.ErrorsExactly | internal/pkg/maps/usecases/validator.go:19-122 | an error with a field and a message is in the list if and only if that field breaks that message's rule |
| MapValidatorErrors.ErrorsInOrder | internal/pkg/maps/usecases/validator.go:19-122 | the errors come in the order of the request's fields: name, schema version, width, height, then id, tile, x, y, rotation of each placement |
| MapValidator.ValidatePlacement | internal/pkg/maps/usecases/validator.go:72-122 | the errors of one placement in order |
| MapValidator.ValidateMapRequest | internal/pkg/maps/usecases/validator.go:19-70 | the errors of the whole request in order |
| MapValidator.CategorizeValidationErrors | internal/pkg/maps/usecases/validator.go:124-139 | the class of the first error that has one |

## Left out

- JSON text: `encoding/json` decoding and printing, number formats and key sorting (merger.go:19-51) are library code; a message that does not parse is the message `None`, and the initial encounter data is taken to be valid JSON.
- The error text of a merge joins the path with dots; the model keeps the path as a list of keys.
- What an announcement says (status, id and the list of participants, participants.go:84-93); the model keeps whose writes worked.
- Websocket frames, HTTP handlers, logging, metrics and clocks; a socket write is delivered or fails, a timer fires or not.
- A `stopTimer` call before its own watcher entry exists, or after the entry was removed: the timer runs for 15 minutes, the entry is set under the lock it was made under, and `Stop` and `delete` share one lock, so a timer fires only while its entry stands.
- What makes a reader reset the timer (table_manager.go:176): `Refresh` may happen at any time while the timer stands.
- A panic of `stopTimer` or of `refreshSession` ends the program outside an HTTP handler; in the model the other calls go on.
- Go's behaviour for a map that is changed by another goroutine while `RemoveSession` ranges over it: interleaved, `RemoveSession` is the removal of arbitrary user ids at arbitrary times.
- TableService.TableManager.AddNewConnection: requires a free mutex, because with the mutex held the call blocks for ever.
- TableService.TableManager.RemoveSession: states the uninterrupted run of a session whose mutex is free and whose slots are in order, as they are in every reachable state (TableInvariants.RunSlots); interleaved removals are sections of TableState.Run.
- TableService.TableUsecases.StopTimer: states the uninterrupted run, with the message counts of its call at zero, and, like RemoveSession, takes the slot invariant that every reachable session has (TableInvariants.RunSlots).
- OAuth providers, provider lookup and the Redis session store (auth.go:36-47, 138-142): foreign calls, an arbitrary failure where the outcome matters. `UpdateLastUsed` and `UpdateLastLoginAt` are best effort and touch nothing the model holds.
- The `created_at` column of `ListByUserID`. It is a TIMESTAMPTZ (db/migrations/009_user_identity.up.sql:7) scanned into a `*string` (internal/pkg/auth/repository/identity_storage.go:114-116), for which the vendored driver offers no scan in its default binary format (vendor/github.com/jackc/pgx/v5/pgtype/timestamptz.go:227-243). By this reading the listing fails for every user who has a row; the model has that failure as a fault and takes the scan as working otherwise.
- Identity emails, timestamps and the order of `ListByUserID`; which of two violated constraints Postgres reports first (the provider key is taken).
- `CreateUser` of auth_storage.go is called by none of the modelled use cases; the getters of table data copy fields and change nothing; the validator's texts are fixed by the rule they report, so one value stands for each.
- The Gemini call, JSON conversions and creature processing of a job: one arbitrary outcome each. Memory-model effects of unlocked reads of a job's fields are left out; writes are atomic and ordered.
- The validator's name is a list of bytes, since its length is counted in bytes; the `layer` of a placement is carried and never checked.
- Timestamps of jobs, and of everything else.
- Integers are unbounded; no modelled counter can come near a machine limit except generated row ids.
