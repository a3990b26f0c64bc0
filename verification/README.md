# SAMS backend: models and proofs

A Dafny model of the parts of the SAMS backend that hold state machines, concurrent or cached
reads, planning and merging, and proofs of what they promise. Tables and process state are
fields of classes whose methods follow the code branch by branch; each method is proved to take
the step of a specification function, and the theorems are about runs of those steps.

| file | what it models |
|---|---|
| `PoolManager.dfy` | connection pools per tenant: double-checked locking, interleaved at every await |
| `RefreshTokens.dfy` | refresh-token families: rotation and reuse detection |
| `Login.dfy` | match-all login, school selection challenges, sessions |
| `RolloverPlan.dfy`, `RolloverRuns.dfy`, `RolloverCommit.dfy` | the year rollover: plan, overrides and preview gate, commit |
| `Membership.dfy` | the membership edge under two keys, its lifecycle, and the migrations that made it |
| `MembershipCache.dfy` | the 30-second membership cache, interleaved with writers |
| `TenantResolution.dfy` | which tenant and which roles a request gets |
| `TripLifecycle.dfy` | the trip state machine and the publication notices |
| `EnrollmentLedger.dfy` | enrollments, decisions and payments, jointly with the trips |
| `EventFeed.dfy` | the event list, with the parent's merge over shared lists |
| `AuditPaging.dfy` | keyset pagination of the audit log |
| `Resources.dfy` | resource lines and their costs |

`dafny verify dfyconfig.toml` checks everything.

## Assumptions

Repository calls are atomic. A request is atomic except in `PoolManager.dfy` and
`MembershipCache.dfy`, which interleave at the awaits, and in the full replacement of resource
lines, which may stop half-way. Emails are compared as CITEXT does, so case plays no part.
Password verification is an arbitrary predicate; tokens are fresh and unique. Clocks, iteration
orders of sets and answers of queries are inputs. Identifiers of one table are handed out in
increasing order. The steps with which `create_event` and `update_event_full` insert and
reprice mappings are taken separately, which allows more runs than the code has.

## Where the code and its documentation differ

The model follows the code. These are the places where that shows.

- `payments.currency` is NOT NULL without a default (app/core/database.py:1119-1130, alembic
  tenant_0007), but `create_payment` names no currency (app/domains/tenant/tenant_repository.py:1877-1887).
  On such a database enrolling on a priced trip fails after the enrollment row is committed and
  succeeds without a payment when repeated (`FailedButEnrolled`, `NobodyIsBilled`,
  `WhenPricedMeansBilled`).
- Deleting a class or level is refused once there are enrollments, so that it never removes
  payment history; deleting a trip has no such guard and removes paid payments
  (`WhenMoneyIsLost`, `ClassDeletionKeepsHistory`).
- A teacher's decision by someone who also holds the parent role overwrites the recorded parent
  (`WhenTheParentIsOverwritten`). A teacher's direct enrollment is not limited to the teacher's
  own roster, although the comment says so: `WhenEnrollingIsApproval` is the guard, and
  `AnyTeacherEnrolls` has for every teacher a run in which they enroll a student.
- The transition ("approved", "submit") publishes without stamping `published_at`; no route
  sends it (`OnlySubmitSkipsTheStamp`, `NoRouteSendsSubmit`). It would not tell the families
  either (`WhenPublishingAnnounces`).
- Rollover capacity comes from the first grouped line whose own proposal is promote, even when
  an override moved that line there; the comment describes a slightly different rule
  (`CapacityIsOfFirst`). ADR 0003 lists regrouping by effective target as not done; the
  code does it.
- Deleting a level after an override to promote into it lets preview pass a promotion without a
  level: a run is `DeletedLevelSlipsThrough`; `WhenLevelsAreLost` says which requests do it, and
  `PreviewGate` when a preview is affected. Overriding to
  hold, or generating again, after a preview leaves held students in the closed year at commit
  (`EverybodyMovedOn` gives the exact condition).
- Target class names do not always identify the target. Two section labels collide under some
  level names exactly when the longer is "- " followed by the shorter, or ends in " - " followed
  by the shorter (`WhenSectionsCollide`). Such a label holds a space
  (`ExtendedLabelsHoldASpace`), which the pattern for labels derived from class names excludes,
  so this takes a label entered by hand.
- Beyond eight candidate schools the unnamed login looks at eight of them in set order
  (`CutIsTheOnlyDisagreement`). A legacy account cannot log in by naming its school until one
  unnamed login has registered it (`LegacyLoginHeals`).
- `set_default_membership` clears the defaults even when it returns false (`SetDefaultIsExact`).
  Deleting a revoked membership and upserting it again re-activates it (`RemovalForgetsRevocation`).
- A membership load reads three tables one after the other, so its list need not have been true
  at any moment. It was, whatever is written, exactly when the writes meanwhile touch one of the
  tables only, or at most one of them falls between the first and the last read of the tables they touch
  (`WhenALoadIsTrue`; `DisturbedLoadMayBeFalse` has the runs). A writer that has invalidated the
  cache is seen by every later request exactly when no load of that address is then past its
  first read and younger than 30 seconds (`WriterIsSeen`).
- After a switch of schools an unrecognised role in the `users` row keeps the token's role
  (`SwitchForgetsTokenRoles` is an equivalence).
- An audit query with limit 0 passes validation and indexes an empty page (`WhenQueriesSucceed`);
  the CSV export is one page (`WhenTheExportIsComplete`).
- `Database.connect` publishes the pool before its initialiser has finished, so nothing is
  claimed about a returned pool being initialised.

## Model

| member | source | states |
|---|---|---|
| `PoolSteps.OnePoolPerTenant` | app/core/database.py:1305-1404 | Over every interleaving at the awaits of any number of calls, with failures: each slot got at most one lock, one Database and one connection pool, and every call that returned for a slot returned the pool the manager still holds |
| `PoolSteps.PublishedPoolStays` | app/core/database.py:1324-1326 | A pool once published is the one returned for that slot for the rest of the run (the fast path never goes stale) |
| `PoolSteps.WaitChainsAreShort` | app/core/database.py:1329-1335 | Hence no wait-for chain is longer than the three lock levels; in particular none is a cycle |
| `PoolSteps.SomeoneCanRun` | app/core/database.py:1305-1404 | While some call is unfinished, some task can take a step: no deadlock |
| `PoolSteps.StuckMeansFinished` | app/core/database.py:1305-1404 | A reachable state in which nobody can run has only finished calls |
| `PoolSteps.EveryCallIsShort` | app/core/database.py:1305-1404 | Whatever the scheduler does, a call takes at most 14 steps of its own |
| `PoolSteps.EveryRunIsShort` | app/core/database.py:1305-1404 | Without new calls every run ends, whatever the scheduler does, after at most 14 steps for each call there is |
| `PoolSteps.EveryRunCanFinish` | app/core/database.py:1305-1404 | Every run, wherever it stops, can be continued by the steps of its calls alone, at most 14 for each, until every call has finished; then every call made, for a school or the control plane, that no failure hit has returned the pool of the slot it asked for |
| `PoolSteps.OnlyFailuresFail` | app/core/database.py:1284-1404 | Over every run, a call ends in failure only if one of its own awaits raised |
| `PoolSteps.TasksAreTheCalls` | app/core/database.py:1319-1326 | The tasks of a run are exactly the calls made, each for the slot it asked for |
| `PoolSteps.PublishedPoolIsServedAtOnce` | app/core/database.py:1321-1326 | A call for a slot whose pool is published returns it in its first step, whoever holds which lock, and changes nothing else |
| `PoolSteps.SchoolsFollowTheControlPlane` | app/core/database.py:1333-1390 | Over every run, no school has a Database before the control plane has its pool |
| `PoolSteps.PoolIsTheOneCreated` | app/core/database.py:1256-1284 | Over every run, the pool a slot hands out is the one pool ever created for it, and conversely |
| `PoolSteps.StepKeepsInv` | app/core/database.py:1298-1404 | Lock ownership, what each suspended call has established about the dictionaries, and the uniqueness of everything ever registered are kept by every step of every task |
| `PoolManager.DatabaseManager.EnterGetPool` | app/core/database.py:1321-1326 | The lock-free fast path; the objects updated in place move exactly as the step system says |
| `PoolManager.DatabaseManager.AcquireGuard` | app/core/database.py:1329 | Taking `_locks_guard`; the objects updated in place move exactly as the step system says |
| `PoolManager.DatabaseManager.RegisterLock` | app/core/database.py:1330 | `setdefault` under the guard, then the guard is released; the objects updated in place move exactly as the step system says |
| `PoolManager.DatabaseManager.AcquireTenantLock` | app/core/database.py:1332 | Taking the tenant lock; the objects updated in place move exactly as the step system says |
| `PoolManager.DatabaseManager.CheckRegistered` | app/core/database.py:1333-1335 | The second check under the lock: provision, connect, or return the pool; the objects updated in place move exactly as the step system says |
| `PoolManager.DatabaseManager.RegisterDatabase` | app/core/database.py:1390 | Storing the Database once the schema exists; the objects updated in place move exactly as the step system says |
| `PoolManager.DatabaseManager.PublishPool` | app/core/database.py:1259-1282 | `self.pool` is assigned before the initialiser runs; the objects updated in place move exactly as the step system says |
| `PoolManager.DatabaseManager.FinishGetPool` | app/core/database.py:1283-1284 | Return and lock release; the objects updated in place move exactly as the step system says |
| `PoolManager.DatabaseManager.EnterControlPlane` | app/core/database.py:1307-1308 | Fast path of the control plane; the objects updated in place move exactly as the step system says |
| `PoolManager.DatabaseManager.AcquireControlPlaneLock` | app/core/database.py:1310 | Taking the control-plane lock; the objects updated in place move exactly as the step system says |
| `PoolManager.DatabaseManager.CheckControlPlane` | app/core/database.py:1311-1314 | Second check under the control-plane lock; the objects updated in place move exactly as the step system says |
| `PoolManager.DatabaseManager.RegisterControlPlane` | app/core/database.py:1312-1313 | Storing the control-plane Database; the objects updated in place move exactly as the step system says |
| `PoolManager.DatabaseManager.PublishControlPlanePool` | app/core/database.py:1259-1282 | Its pool is assigned before the tables are initialised; the objects updated in place move exactly as the step system says |
| `PoolManager.DatabaseManager.FinishControlPlane` | app/core/database.py:1314-1319 | Return from the control-plane call, direct or nested; the objects updated in place move exactly as the step system says |
| `PoolManager.DatabaseManager.Abandon` | app/core/database.py:1310-1404 | An exception at an await releases every lock held and leaves the registered objects; the objects updated in place move exactly as the step system says |
| `RefreshTokens.RotationIsSafe` | app/domains/auth/service.py:178-292 | Over every run of issue, rotate and replay: each family has at most one unrevoked token, all its tokens share owner and tenant, and each was redeemed at most once |
| `RefreshTokens.LinksAreAcyclic` | app/domains/tenant/control_plane_repository.py:752-757 | `replaced_by` links lead strictly forward: a path along them never returns |
| `RefreshTokens.ReuseKillsFamily` | app/domains/auth/service.py:260-262 | After a revoked token is presented, no token of its family is accepted or unrevoked again, in any continuation |
| `RefreshTokens.RevokedStaysRevoked` | app/domains/tenant/control_plane_repository.py:759-769 | No request un-revokes a token |
| `RefreshTokens.RedeemedTokenIsSpent` | app/domains/auth/service.py:242-292 | A redeemed token is refused in every later state |
| `RefreshTokens.FreshTokenWorks` | app/domains/auth/service.py:264-292 | The token a rotation returns is accepted exactly until its lifetime is over and while the account exists |
| `RefreshTokens.WhatIsStored` | app/domains/auth/service.py:178-292 | Row by row: what an issue stores for whom, what a rotation stores with the account's role of now, that the old row is revoked and linked, what reuse revokes, and that no other row changes |
| `RefreshTokens.WhatIsAnswered` | app/domains/auth/service.py:242-292 | Unknown and revoked tokens are invalid, then comes expiry, then a missing account; otherwise a new token |
| `RefreshTokens.RunKeepsInv` | app/domains/auth/service.py:178-292 | Each family is one chain whose only live member, if any, is its youngest |
| `RefreshTokenStore.Store.IssueRefreshToken` | app/domains/auth/service.py:178-194 | Opens a new family with one live token |
| `RefreshTokenStore.Store.RotateRefreshToken` | app/domains/auth/service.py:242-292 | Unknown, reused, expired and orphaned tokens are refused in that order, reuse revoking the family; otherwise one row is added and the old one revoked and linked |
| `RefreshTokenStore.Store.CreateRefreshToken` | app/domains/tenant/control_plane_repository.py:719-742 | Adds exactly the one row |
| `LoginModel.SessionsAreEarned` | app/domains/auth/service.py:843-983 | In every reachable state each session rests on a login attempt whose password verified against the store that decides its tenant; a redeemed one also on an unexpired challenge of that attempt listing the tenant |
| `LoginModel.ChallengeIsSpent` | app/domains/tenant/control_plane_repository.py:701-714 | A redeemed challenge is refused ever after: at most one session per challenge |
| `LoginModel.NamedAgreesWithUnnamed` | app/domains/auth/service.py:864-930 | With at most eight candidate schools, naming a school succeeds exactly when the unnamed login would have listed it |
| `LoginModel.CutIsTheOnlyDisagreement` | app/domains/auth/service.py:905-911 | For every iteration order they agree if and only if at most eight schools are candidates or the named login fails |
| `LoginModel.SomeOrderCutsIt` | app/domains/auth/service.py:905-911 | Above eight candidates some set order drops any given school |
| `LoginModel.MatchedTenants` | app/domains/auth/service.py:903-913 | A school is matched exactly when it was among those looked at and the password opens it |
| `LoginModel.UnnamedLoginNeverGuesses` | app/domains/auth/service.py:913-930 | An unnamed login opens a session only for the single school that matched |
| `LoginModel.LegacyAgreesWithFetch` | app/domains/auth/service.py:646-673 | The legacy scan checks the very store the candidate lookup would have picked |
| `LoginModel.LegacyLoginHeals` | app/domains/auth/service.py:883-898 | An account found only by the scan is refused when it names its school; after one unnamed login naming the school finds its candidate |
| `LoginModel.RedeemedRoleIsLive` | app/domains/auth/service.py:197-240 | A redemption opens a session exactly if the school is a choice of the challenge and the account is still there, and the session carries the role the account has at that moment |
| `LoginModel.RunKeepsInv` | app/domains/auth/service.py:843-983 | Every session and challenge stays backed by its attempt |
| `LoginModel.NamedLogin` | app/domains/auth/service.py:864-885 | Naming a school: a parent linked to it is let in exactly by the parent's password, as a parent; anybody else exactly with a membership there and a row whose own non-empty hash verifies, with the row's role; everything else is refused and writes nothing |
| `LoginModel.SessionIsOfItsStore` | app/domains/auth/service.py:597-644 | However a login opens a session, its password verified against the super admin's hash for the empty tenant, else the linked parent's, else the school row's, and the role is that store's |
| `LoginModel.LegacyLogin` | app/domains/auth/service.py:646-673 | Without any membership an unnamed login opens a session exactly for the first school in the list with a usable row, if that row's password verifies |
| `LoginModel.LoginWrites` | app/domains/auth/service.py:726-808 | What a session leaves behind: an identity, the school's membership with the session's role outside the super-admin store, a linked parent's local account if there was none; nothing else |
| `LoginModel.ChallengeIsTheOffer` | app/domains/auth/service.py:811-840 | The challenge behind a request to choose is unused, for that address, valid two minutes, and lists the very schools shown |
| `LoginModel.PresentingSpends` | app/domains/tenant/control_plane_repository.py:701-714 | Presenting a challenge in time spends it, whatever comes of it, and touches no other |
| `LoginService.VerifyCandidatesPadded` | app/domains/auth/service.py:676-693 | Padding to three comparisons never adds or drops a candidate |
| `LoginService.AuthService.EnumerateLoginTenants` | app/domains/auth/service.py:558-595 | The set built from memberships, parent links and the super-admin row |
| `LoginService.AuthService.LegacyScanForCandidate` | app/domains/auth/service.py:646-673 | The first tenant with a usable local account |
| `LoginService.AuthService.GatherCandidates` | app/domains/auth/service.py:903-912 | The candidates of the first eight ids in iteration order |
| `LoginService.AuthService.CompleteLogin` | app/domains/auth/service.py:726-808 | Per-kind side effects; a parent without a link is refused |
| `LoginService.AuthService.LoginUser` | app/domains/auth/service.py:843-930 | The whole login, as the specified step |
| `LoginService.AuthService.IssueSelectionChallenge` | app/domains/auth/service.py:811-840 | A two-minute challenge naming exactly the matched schools |
| `LoginService.AuthService.RedeemSelectionChallenge` | app/domains/tenant/control_plane_repository.py:701-714 | Hits only an unconsumed, unexpired row, and consumes it |
| `LoginService.AuthService.LoginRedeem` | app/domains/auth/service.py:933-983 | The whole redemption, as the specified step; a wrong tenant still burns the challenge |
| `RolloverPlan.RecomputeLines` | app/domains/tenant/service.py:2112-2187 | The four loops over lines, groups and capacities compute exactly the plan specified per fact |
| `RolloverPlan.ClassifyAll` | app/domains/tenant/service.py:2134-2152 | The classification loop |
| `RolloverPlan.GroupByTarget` | app/domains/tenant/service.py:2163-2178 | `groups` holds, per effective target, the joining lines in order; `capacity_by_key` the capacity of the first that is promoted on its own |
| `RolloverPlan.FlagGroup` | app/domains/tenant/service.py:2180-2184 | One group is flagged as a whole, other lines untouched |
| `RolloverPlan.SharersExact` | app/domains/tenant/service.py:2163-2176 | A group lists each joining line once and nothing else |
| `RolloverPlan.HeadcountExact` | app/domains/tenant/service.py:2180-2182 | Its length is the projected headcount |
| `RolloverPlan.CapacityIsOfFirst` | app/domains/tenant/service.py:2177-2178 | Capacity is that of the first joining line whose own proposal is promote, even if an override moved it there; without one it is 25 |
| `RolloverPlan.RecomputedRows` | app/domains/tenant/tenant_repository.py:2431-2479 | After the upsert there is exactly one row per fact, merged from the plan and what was stored |
| `RolloverPlan.UpsertRolloverLines` | app/domains/tenant/tenant_repository.py:2431-2479 | Delete, then insert-or-update row by row |
| `RolloverPlan.OverridesSurvive` | app/domains/tenant/tenant_repository.py:2454-2470 | Recomputation keeps every override, its frozen target and its id |
| `RolloverPlan.CodesAreExact` | app/domains/tenant/service.py:2134-2184 | A row is over capacity iff its effective action is promote and more students join its effective target than fit; every other code is the classification's |
| `RolloverPlan.RowFollowsFact` | app/domains/tenant/service.py:2134-2152 | Of the stored row, in terms of the fact alone: graduate exactly without a next level, promote exactly if the class is active and labelled, hold otherwise, never withdraw; the base code of each case; and without an override the target is the next level and the same section, or none |
| `RolloverPlan.OverCapacityByRows` | app/domains/tenant/service.py:2163-2184 | In terms of the stored rows alone: a row is flagged over capacity exactly if it leads to a class for which more rows are bound than that class will hold |
| `RolloverPlan.PlanReadsOverridesOnly` | app/domains/tenant/service.py:2124-2176 | The plan depends on the stored rows only through their overrides and frozen targets |
| `RolloverPlan.RecomputeIsIdempotent` | app/domains/tenant/service.py:2112-2189 | Recomputing twice with the same facts is recomputing once |
| `RolloverRuns.PreviewGate` | app/domains/tenant/service.py:2249-2275 | Preview succeeds exactly when the plan is open and recomputing leaves nobody held; it then settles every student of the facts if and only if, before the call, none of them had a stored override to promote without a level |
| `RolloverRuns.WhenLevelsAreLost` | app/domains/tenant/tenant_repository.py:1064-1100 | A request takes the level from an overridden promotion if and only if it deletes the level one of them leads to |
| `RolloverRuns.PreviewSettlesEveryone` | app/domains/tenant/service.py:2212-2275 | Over every run of generate, override, preview and level deletions in which no deleted level is one an overridden promotion leads to: a successful preview leaves every student of the facts graduating, withdrawing, or promoted with level and section resolved |
| `RolloverRuns.DeletedLevelSlipsThrough` | app/domains/tenant/tenant_repository.py:1064-1100 | A concrete run in which a level is deleted after an override and preview passes a promotion without a level |
| `RolloverRuns.OrphansComeFromDeletion` | app/domains/tenant/tenant_repository.py:1064-1100 | Over runs: without such a deletion no overridden promotion loses its level; other levels may be deleted freely |
| `RolloverRuns.StepKeepsInv` | app/domains/tenant/service.py:2082-2275 | Every step keeps the section of an overridden promotion and refers only to existing levels |
| `RolloverRuns.OverrideIsExact` | app/domains/tenant/service.py:2212-2246 | An override column by column: which are refused and why, what the line then holds, and that nothing else changes |
| `RolloverService.Rollover.RecomputeRolloverLines` | app/domains/tenant/service.py:2112-2189 | The stored rows become the recomputed ones |
| `RolloverService.Rollover.OverrideRolloverLine` | app/domains/tenant/service.py:2212-2246 | Every refusal and the updated row |
| `RolloverService.Rollover.GenerateRolloverPlan` | app/domains/tenant/service.py:2082-2109 | Only from an active to a planned year |
| `RolloverService.Rollover.PreviewRollover` | app/domains/tenant/service.py:2249-2275 | Recompute first, then the gate |
| `RolloverCommit.EnsureClasses` | app/domains/tenant/tenant_repository.py:2571-2608 | A to-year class for exactly the targets that still have a source class; classes are only added, with a source's capacity |
| `RolloverCommit.FindOrClone` | app/domains/tenant/tenant_repository.py:2587-2607 | ON CONFLICT DO NOTHING, then the select |
| `RolloverCommit.ApplyLines` | app/domains/tenant/tenant_repository.py:2619-2671 | Students and lines after the loop; fails on the first promotion without a class |
| `RolloverCommit.FlipYears` | app/domains/tenant/tenant_repository.py:2672-2682 | Closing before activating never has two active years; refused exactly if a third year is active |
| `RolloverCommit.Transact` | app/domains/tenant/tenant_repository.py:2538-2702 | All or nothing; succeeds exactly when every level exists, every promotion is resolvable and no third year is active |
| `RolloverCommit.SchoolStore.CommitYearRollover` | app/domains/tenant/tenant_repository.py:2528-2702 | State checks, re-entrance, rollback and the full effect |
| `RolloverCommit.TargetNameInjective` | app/domains/tenant/tenant_repository.py:2586 | Unless one section label extends the other, equal class names mean equal level name and section |
| `RolloverCommit.WhenSectionsCollide` | app/domains/tenant/tenant_repository.py:2586-2607 | Two different sections give one class name under some level names if and only if, a missing one printed as None, the labels are the same, or one is "- " and then the other, or ends in " - " and then the other |
| `RolloverCommit.ExtendedLabelsHoldASpace` | app/domains/tenant/tenant_repository.py:17-31 | A label that extends another holds a space, which the pattern of derived labels excludes |
| `RolloverCommit.SummaryAddsUp` | app/domains/tenant/tenant_repository.py:2684-2696 | The four counts add up to the lines |
| `RolloverCommit.CountIsExact` | app/domains/tenant/tenant_repository.py:2684-2696 | Each count is the number of outstanding lines whose override, or else proposal, is that action |
| `RolloverCommit.OutcomeOfLine` | app/domains/tenant/tenant_repository.py:2619-2671 | What a commit does to one student: the override decides, or else the proposal, between a class of the target's name in the new year, graduation, withdrawal and no change |
| `RolloverCommit.ClassmatesStayTogether` | app/domains/tenant/tenant_repository.py:2576-2647 | Students bound for the same target end up in the same class |
| `RolloverCommit.WhoIsLeftBehind` | app/domains/tenant/tenant_repository.py:2615-2664 | After a commit a student sits in the closed year exactly if they sat there before and had no outstanding line, or a held one |
| `RolloverCommit.EverybodyMovedOn` | app/domains/tenant/tenant_repository.py:2528-2702 | Nobody is left in the closed year exactly if everybody sitting there had an outstanding line that was not held |
| `RolloverCommit.PreviewMakesCommitResolvable` | app/domains/tenant/service.py:2249-2275 | What preview passes, commit can resolve, and holds nobody back, if before the preview no student of the facts had a stored override to promote without a level |
| `RolloverCommit.PreviewThenCommitMovesEveryone` | app/domains/tenant/service.py:2249-2285 | A preview immediately followed by a commit empties the closed year |
| `MembershipModel.WritesNeverCollide` | app/domains/tenant/control_plane_repository.py:377-390 | An upsert that conflicts on one key never violates the other |
| `MembershipModel.RunKeepsInv` | app/domains/tenant/control_plane_repository.py:362-602 | One identity per email, each row's identity is its email's, at most one default, over every run of membership writes |
| `MembershipModel.RowAfterWrite` | app/domains/tenant/control_plane_repository.py:362-602 | What each write does to a row that is there: nothing unless it names the row, else exactly the change of role or status it stands for |
| `MembershipModel.NewRowsOfWrite` | app/domains/tenant/control_plane_repository.py:377-523 | Rows come only by an upsert, active, or an invitation, invited, under the address's own identity; identities never change |
| `MembershipModel.WritesReport` | app/domains/tenant/control_plane_repository.py:525-602 | What accept, decline, suspend, restore and revoke return |
| `MembershipModel.InviteNeedsMatching` | app/domains/tenant/control_plane_repository.py:500-523 | Inviting keeps the invariant exactly when identity and email match or no row is inserted, that is, a key is taken or the identity does not exist (its foreign key); a row is inserted or the existing one updated in exactly the cases that are not refused |
| `MembershipModel.SetDefaultIsExact` | app/domains/tenant/control_plane_repository.py:548-564 | Leaves exactly the target as default when it returns true, and none when it returns false |
| `MembershipModel.AtMostOneDefault` | alembic/versions/cp_0004_membership_lifecycle.py:125-129 | At most one default row per identity in every reachable state |
| `MembershipModel.RevokedNeedsInvitation` | app/domains/tenant/control_plane_repository.py:500-602 | While a row is not deleted, it goes from revoked to active only through an invitation followed by an acceptance, however many upserts happen in between |
| `MembershipModel.RemovalForgetsRevocation` | app/domains/tenant/control_plane_repository.py:418-426 | Deleting a revoked row and upserting again re-activates it: the proviso is needed |
| `MembershipRepository.Repository.GetOrCreateIdentity` | app/domains/tenant/control_plane_repository.py:448-463 | Returns the email's identity, new or old |
| `MembershipRepository.Repository.UpsertUserTenantMap` | app/domains/invitations/repository.py:55-91 | Both writers of the table: only the role changes on conflict |
| `MembershipRepository.Repository.CreateInvitedMembership` | app/domains/tenant/control_plane_repository.py:500-523 | Inserts, or re-invites a revoked row, or changes nothing |
| `MembershipRepository.Repository.AcceptMembership` | app/domains/tenant/control_plane_repository.py:525-535 | Only an invited row |
| `MembershipRepository.Repository.DeclineMembership` | app/domains/tenant/control_plane_repository.py:537-546 | Deletes only an invited row |
| `MembershipRepository.Repository.SetDefaultMembership` | app/domains/tenant/control_plane_repository.py:548-564 | Clears, then sets, in that order |
| `MembershipRepository.Repository.SuspendMembership` | app/domains/tenant/control_plane_repository.py:574-583 | Active to suspended |
| `MembershipRepository.Repository.RestoreMembership` | app/domains/tenant/control_plane_repository.py:585-592 | Suspended to active |
| `MembershipRepository.Repository.RevokeMembership` | app/domains/tenant/control_plane_repository.py:594-602 | Anything to revoked |
| `MembershipRepository.Repository.RemoveUserTenantMap` | app/domains/tenant/control_plane_repository.py:418-426 | Deletes the one row |
| `IdentityMigration.Gate` | alembic/versions/cp_0003_identities.py:84-102 | Reports exactly the colliding emails without a decision |
| `IdentityMigration.BackfillIdentities` | alembic/versions/cp_0003_identities.py:119-129 | One identity per distinct email of the three stores |
| `IdentityMigration.Rekey` | alembic/versions/cp_0004_membership_lifecycle.py:49-58 | Every row gets its email's identity; none collide |
| `IdentityMigration.FoldLinks` | alembic/versions/cp_0004_membership_lifecycle.py:137-146 | Parent links become rows unless one is there |
| `IdentityMigration.Migrate` | alembic/versions/cp_0004_membership_lifecycle.py:49-146 | The two migrations together establish the membership invariant |
| `IdentityMigration.RolePreserved` | alembic/versions/cp_0004_membership_lifecycle.py:49-146 | Everyone's effective role at every school is the one before the migration |
| `IdentityMigration.FoldingAgainIsANoOp` | alembic/versions/cp_0004_membership_lifecycle.py:137-146 | Re-running the fold changes nothing |
| `CacheSteps.EveryListIsRecent` | app/core/dependencies.py:305-334 | However reads and writers interleave, each of the three reads behind a returned list saw the stores less than 30 seconds plus the load time ago |
| `CacheSteps.TruthIsExact` | app/core/dependencies.py:320-333 | Which schools are on a membership map, and with which role |
| `CacheSteps.StoredListIsServed` | app/core/dependencies.py:308-334 | A stored list is served unread and unchanged exactly until its load began 30 seconds ago, or it is invalidated; other addresses' invalidations do not matter |
| `CacheSteps.FailedLoadStoresNothing` | app/core/dependencies.py:335-336 | A failed load stores nothing and affects no other request |
| `CacheSteps.WhenALoadIsTrue` | app/core/dependencies.py:312-334 | Writers that change one of the given tables per statement: the list of a load was the true membership map at some moment of the load, whatever they write, if and only if only one table may be written, or at most one statement falls between the reads of the two tables concerned (of the outer two, if all may be) |
| `CacheSteps.WhenALoadIsTrueAmongTransactions` | app/core/dependencies.py:312-334 | Writers that change several tables at once: if and only if no write falls between the first and the last read |
| `CacheSteps.SafeLoadIsTrue` | app/core/dependencies.py:312-334 | So in every run a list served from a safe load was true at some moment of that load |
| `CacheSteps.DisturbedLoadMayBeFalse` | app/core/dependencies.py:320-333 | The other half in runs: wherever the reads of an unsafe load fall among the writes, there is a run of single-table statements whose served list was true at no moment at all |
| `CacheSteps.WriterIsSeen` | app/domains/tenant/control_plane_repository.py:391-396 | After a writer has written and invalidated, in every continuation every later request for that address is served from reads that saw the write, if and only if at the write no load of the address is past its first read and younger than 30 seconds |
| `CacheSteps.LateStoreHidesTheWrite` | app/core/dependencies.py:334 | Every such load can hide the write: a continuation that serves a later request from it |
| `CacheSteps.AtomicReadersSeeTheWrite` | app/domains/tenant/control_plane_repository.py:391-396 | With atomic requests, in any order, every request after the write sees it |
| `CacheSteps.RunKeepsInv` | app/core/dependencies.py:305-334 | Every cached or served list is justified by three timed reads |
| `MembershipCache.Cache.Read` | app/core/dependencies.py:308-310 | Hit exactly while younger than 30 seconds, returning a fresh copy |
| `MembershipCache.Cache.Store` | app/core/dependencies.py:334 | Stores a copy under the time the load started |
| `MembershipCache.Cache.Invalidate` | app/core/dependencies.py:24-29 | Drops one address, or all |
| `MembershipCache.BuildMembershipMap` | app/core/dependencies.py:320-333 | Stored roles win over parent links |
| `MembershipCache.MutatingTheReturnedList` | app/core/dependencies.py:310 | Writing to a returned list leaves the cached one as it was |
| `ResolutionModel.HeaderSelectsAMembership` | app/core/dependencies.py:486-675 | A caller's header, for anyone but a super admin: 403 if it names no stored membership, leads to another school without an account there, or to one where access was withdrawn; 400 if and only if the membership found carries an unusable tenant; otherwise that very membership, in its stored casing |
| `ResolutionModel.AmbiguousCallerIsNeverPlaced` | app/core/dependencies.py:380-433 | With several organization aliases and no tenant claim: without a header the result is the choice of schools or an error, with one it is a membership the caller named or an error |
| `ResolutionModel.PlacedMeansUsableAndLive` | app/core/dependencies.py:631-675 | Whoever is placed is at a usable tenant and not suspended or revoked there |
| `ResolutionModel.SwitchForgetsTokenRoles` | app/core/dependencies.py:711-754 | After a genuine switch the final roles are a function of the users row exactly if that row has a recognised (or no usable) role |
| `ResolutionModel.SwitchIsNonInterfering` | app/core/dependencies.py:563-565 | Two requests differing only in token role claims agree after a switch to a school whose own users row is recognised, whatever the other rows hold |
| `ResolutionModel.SwitchedAnswer` | app/core/dependencies.py:711-754 | After a genuine switch: with an assigned, known role in the school's row the answer has that role, and as roles exactly it, the known roles the row lists and its permissions, unfolded; an unassigned row leaves the caller pending and nothing else |
| `ResolutionModel.ClaimedSchool` | app/core/dependencies.py:338-342 | A request without a header whose token names a school and an established role: it acts there, with the token's role and roles and what the school's row adds, or is refused if access was withdrawn |
| `ResolutionModel.MappedSchool` | app/core/dependencies.py:418-443 | Where the token names no usable school or no role, the stored membership gives the school, and the role if the token has none |
| `ResolutionModel.InvitedSchool` | app/core/dependencies.py:445-464 | Without a membership, an invitation gives both |
| `ResolutionModel.ScannedSchool` | app/core/dependencies.py:575-619 | With neither, the first school with a row for the address, and its role if one is assigned |
| `ResolutionModel.SchoolOfToken` | app/core/dependencies.py:338-410 | The school a token names: claim, single organization, attribute, first group part named tenant_, unshared realm, in that order; none for several organizations |
| `ResolutionModel.RolesOfToken` | app/core/dependencies.py:227-261 | The role a token claims, and exactly the roles it brings along |
| `ResolutionModel.KnownNames` | app/core/dependencies.py:128-163 | The names the system knows |
| `ResolutionModel.WhoIsSuper` | app/core/dependencies.py:265-291 | Who is treated as super admin, and the roles a caller starts with |
| `ResolutionModel.NamingTheOwnSchool` | app/core/dependencies.py:551-557 | A header naming the caller's own school changes nothing |
| `ResolutionModel.SuperAdminNamesAnySchool` | app/core/dependencies.py:486-520 | A super admin is never refused, and acts in the school named, or in none if that is a reserved name |
| `TenantResolution.TenantFromToken` | app/core/dependencies.py:338-410 | Claims in their order of precedence |
| `TenantResolution.SettleTenant` | app/core/dependencies.py:338-675 | Everything up to the fail-closed check |
| `TenantResolution.RolesFromRow` | app/core/dependencies.py:700-754 | Role and role set after the users row |
| `TenantResolution.GetCurrentUser` | app/core/dependencies.py:190-1062 | The whole decision equals the specified outcome |
| `TripModel.TripHistory` | app/domains/tenant/service.py:1512-1752 | Over every run of router requests on a new trip with a non-decreasing clock: timestamps are set exactly as the status says and in order, and the history is rejected rounds, then a submit by the creator or an administrator, an authorised approval, an authorised publication, as far as the status goes |
| `TripModel.EverybodyWasAuthorised` | app/domains/tenant/service.py:1577-1588 | Over every run of router requests on a new trip: whoever submitted, approved, rejected or published held one of the literal roles for it; the columns hold the times of the last submission, the approval and the publication, and the approver; creator and classes never change |
| `TripModel.WhoMayAct` | app/domains/tenant/service.py:1527-1610 | The whole table in literal statuses, actions and role sets: which transitions exist, who is refused as not authorised, what else each demands, and where it leads |
| `TripModel.ManagersDecide` | app/domains/events/router.py:794-806 | A manager's decision moves a trip exactly if it is proposed and the caller holds a reviewing role; a rejection also needs a reason |
| `TripModel.SubmittingMoves` | app/domains/events/service.py:63-75 | When a submission proposes a draft, when it publishes an approved trip, and that it does nothing else |
| `TripModel.PublishingMoves` | app/domains/events/service.py:77-79 | When a publication publishes; the event teacher's decision does nothing |
| `TripModel.OnlySubmitSkipsTheStamp` | app/domains/tenant/service.py:1548 | Of the whole transition table exactly ("approved", "submit") breaks the timestamps |
| `TripModel.PublishedIsTerminal` | app/domains/tenant/service.py:1528-1554 | Nothing about a published trip's row changes any more |
| `TripModel.RejectionKeepsAReason` | app/domains/tenant/service.py:1607-1652 | A rejection stores the reason given without the blanks around it, and that is not empty |
| `TripModel.StepKeepsInv` | app/domains/tenant/service.py:1528-1750 | The timestamp and history invariant is kept by every request |
| `TripService.Trip.TransitionEvent` | app/domains/tenant/service.py:1512-1752 | Checks in order, fields collected first, one COALESCE update last; the notices created on the way are exactly those of the branch taken, and none on a refusal |
| `TripService.TellOfTeacherPublish` | app/domains/tenant/service.py:1660-1687 | The loops of the teacher's publication: each student of a mapped class, then each linked parent |
| `TripService.TellOfManagerPublish` | app/domains/tenant/service.py:1689-1713 | The manager's own copy of the loops, with its own titles |
| `TripService.WhoIsTold` | app/domains/tenant/service.py:1625-1713 | teacher_publish, publish and manager_publish announce to exactly the families of the mapped classes; a submit tells exactly the managers; approval and rejection tell the creator; nothing else tells anybody anything |
| `TripService.BothBranchesTellTheSame` | app/domains/tenant/service.py:1660-1713 | The two written-out fan-outs reach the same people, in the same order |
| `TripService.WhenPublishingAnnounces` | app/domains/tenant/service.py:1528-1713 | A successful transition into published tells the families if and only if the action is not "submit", or there is nobody to tell |
| `TripService.AnnouncedExactlyOnce` | app/domains/tenant/service.py:1512-1752 | Over every run of router requests on a new trip, a published trip has been announced by exactly its last transition, any other by none |
| `TripService.FanOutIsExact` | app/domains/tenant/service.py:1660-1713 | As a multiset: one notice per student of a mapped class plus one per pair of such a student and a linked parent |
| `TripService.RepeatedMappingsDoNotMatter` | app/domains/tenant/service.py:1664-1669 | Repeated or reordered class mappings reach the same people |
| `LedgerModel.ReachableLedgers` | app/domains/tenant/service.py:843-1043 | Over every run of trip requests, mappings, repricing, class moves, enrollments, decisions, payments, cancellations and deletions: one enrollment per student and trip, only on published trips, exactly one payment of the price at creation if it was billable and none otherwise, and lawful decision histories |
| `LedgerModel.WhenPricedMeansBilled` | app/core/database.py:1119-1130 | "A payment exists iff the price was positive" holds of an enrollment if and only if its price was not positive or `payments.currency` was still optional when it was made |
| `LedgerModel.FailedButEnrolled` | app/domains/tenant/tenant_repository.py:1877-1887 | Once the currency is required, enrolling on a priced trip fails, leaves the student enrolled, and succeeds without a payment when repeated |
| `LedgerModel.NobodyIsBilled` | app/core/database.py:1119-1130 | On a database that requires it from the start no payment is ever made |
| `LedgerModel.PaidNeverDecreases` | app/domains/tenant/service.py:966-1043 | Over every run without a trip deletion no paid payment is removed or changed and the total paid never decreases |
| `LedgerModel.WhenMoneyIsLost` | app/domains/events/service.py:215-222 | The total paid drops exactly when a trip with a paid enrollment is deleted (that route has no guard) |
| `LedgerModel.CancelUndoesEnroll` | app/domains/tenant/service.py:966-1020 | Cancelling a fresh enrollment puts every table back as it was |
| `LedgerModel.AtMostTwoDecisions` | app/domains/students/router.py:749-810 | The rank of the stage rises at each decision: at most two |
| `LedgerModel.TeacherApprovalProvenance` | app/domains/students/router.py:662-810 | A teacher's approval is a direct enrollment by a teacher, or the trip's creator confirming what a parent allowed to approve had approved |
| `LedgerModel.WhenEnrollingIsApproval` | app/domains/students/router.py:662-711 | A new enrollment lands on a teacher's approval if and only if the caller holds the teacher role and is not, as a parent, linked to the student; no roster plays a part |
| `LedgerModel.AnyTeacherEnrolls` | app/domains/students/router.py:665-697 | So any teacher can: for every teacher a run in which they enroll a student of class 10 with a teacher's approval |
| `LedgerModel.WhenTheParentIsOverwritten` | app/domains/students/router.py:753-810 | A teacher's decision keeps the recorded parent exactly if the teacher does not also hold the parent role, or is that parent |
| `LedgerModel.RunKeepsLedger` | app/domains/tenant/service.py:843-1043 | The joint invariant over every run |
| `LedgerModel.FirstStage` | app/domains/students/router.py:662-697 | Stage and recorded deciders of a new enrollment by the caller's roles and link |
| `LedgerModel.EnrollingIsExact` | app/domains/tenant/service.py:843-905 | Table by table: one new row exactly if the trip is published, the student sits in the mapped class and is not on the trip yet, and the deciders exist; its unpaid payment of the price if there is one; what the request answers; and that nothing else changes |
| `LedgerModel.DecidingIsExact` | app/domains/students/router.py:749-810 | Column by column: an entitled parent answers a request, the trip's own teacher what a parent approved; anything else changes nothing |
| `LedgerModel.PayingIsExact` | app/domains/tenant/service.py:1032-1043 | Paying marks exactly the payments of that enrollment paid, for a parent |
| `LedgerModel.CancellingIsExact` | app/domains/tenant/service.py:966-1020 | Cancelling removes exactly the enrollment and its payments, for whoever has the say, unless something of it is paid |
| `LedgerModel.DeletingIsExact` | app/domains/tenant/tenant_repository.py:1693-1695 | Deleting a trip removes exactly its mappings, their enrollments and their payments |
| `LedgerModel.UsedClassStays` | app/domains/tenant/tenant_repository.py:1013-1036 | A class with an enrollment cannot be deleted |
| `LedgerModel.DeletingAClassIsExact` | app/domains/tenant/tenant_repository.py:1037-1062 | Any other goes with its mappings and its place on trips, and its students are left without a class |
| `LedgerModel.ArrangingIsExact` | app/domains/tenant/tenant_repository.py:1449-1680 | A new trip is its creator's draft, a mapping adds one class at one price, a new price changes that mapping and no enrollment or payment |
| `LedgerService.Tables.EnrollStudent` | app/domains/students/router.py:662-711 | Initial stage and recorded deciders, then the service |
| `LedgerService.Tables.Insert` | app/domains/tenant/service.py:843-905 | The checks in order; an existing enrollment on the same mapping is returned |
| `LedgerService.Tables.Create` | app/domains/tenant/tenant_repository.py:1720-1735 | The row first, the payment second, as separate statements |
| `LedgerService.Tables.SameMapping` | app/domains/tenant/service.py:876-881 | The loop over the student's enrollments on the trip |
| `LedgerService.Tables.UpdateEnrollmentApproval` | app/domains/students/router.py:735-814 | The decision handler with every refusal |
| `LedgerService.Tables.CancelEnrollment` | app/domains/tenant/service.py:966-1020 | Authority, the paid check, the deletion |
| `LedgerService.Tables.MayCancel` | app/domains/tenant/service.py:980-998 | Who may cancel |
| `LedgerService.Tables.PaymentOf` | app/domains/tenant/tenant_repository.py:1889-1894 | Some row, of which the invariant says there is at most one |
| `LedgerService.Tables.PayEnrollment` | app/domains/tenant/service.py:1032-1043 | Marks the payment paid, if there is one |
| `FeedModel.FeedIsOrdered` | app/domains/tenant/service.py:773-835 | Whoever is not an overseer gets each event once, ascending by date |
| `FeedModel.WhoMayRead` | app/domains/tenant/service.py:1446-1475 | Who may read an event: holders of an override, the owner of a draft, staff once it is none, parents and students once it is published, and nobody else |
| `FeedModel.OverseersSeeAll` | app/domains/tenant/service.py:764-766 | An overseer gets exactly the events they may read |
| `FeedModel.OnlyFourOversee` | app/domains/tenant/service.py:764 | The four roles that oversee |
| `FeedModel.SortIsStable` | app/domains/tenant/service.py:831-835 | Date by date the very same rows in the same order |
| `FeedModel.ParentSeesTheChildrensEvents` | app/domains/tenant/service.py:798-835 | A parent-only caller gets exactly the readable events of any linked child; each entry is the first such row of its event in everything but the mappings, which are mappings of those rows only, and of every id one of them has |
| `FeedModel.ParentSeesNoMappingTwice` | app/domains/tenant/service.py:809-814 | And no mapping twice |
| `FeedModel.EveryoneSeesTheirEvents` | app/domains/tenant/service.py:748-835 | For whatever roles short of an overseer: an event is listed if and only if, as a teacher, the caller may read it or heads a class of it, or, as a student, their own list has a readable row of it, or, as a parent, the list of a linked child has; each entry is such a row, or the children's rows of its event merged |
| `FeedModel.TeacherSeesOwnClassesToo` | app/domains/tenant/service.py:775-787 | A teacher gets what they may read plus every event mapped to a class they head, drafts of others included |
| `FeedModel.MergeIsFaithful` | app/domains/tenant/service.py:800-814 | The dictionary holds one entry per event: its first row, with the mappings of all its rows |
| `FeedModel.AppendNewIsExact` | app/domains/tenant/service.py:772-818 | The `already_added` guard keeps ids distinct and loses none |
| `FeedService.MergeChildren` | app/domains/tenant/service.py:800-814 | The merge over mutable lists; it changes no list it was given |
| `FeedService.MergeOne` | app/domains/tenant/service.py:805-814 | One row: a copied list for a new event, appended mappings for a known one |
| `FeedService.AddTeacherRows` | app/domains/tenant/service.py:775-787 | The teacher loop |
| `FeedService.AddReadableRows` | app/domains/tenant/service.py:789-796 | The student loop |
| `FeedService.GetEventsForUser` | app/domains/tenant/service.py:748-835 | The whole list equals the specification, inputs unchanged |
| `AuditModel.PagingIsFiltering` | app/domains/audit/router.py:20-46 | Following the cursor from the first page, with any limit from 1 to 200, returns exactly the filtered log in strictly descending id order |
| `AuditModel.NothingMissed` | app/domains/audit/repository.py:64-110 | However the log grows between pages, nothing that was there at the first page is missed |
| `AuditModel.NothingRepeated` | app/domains/audit/repository.py:64-110 | Nor is anything returned twice, and everything returned was there at some page |
| `AuditModel.WhatPagesReturn` | app/domains/audit/router.py:20-46 | However the log changes between all the pages, an id is returned if and only if it matched, below the cursor, when the page covering it was read: so late commits appear exactly if their id is below the cursor of a page still to come |
| `AuditModel.LargerIdsChangeNothing` | app/domains/audit/router.py:42 | Entries appended with larger ids change nothing after the first page |
| `AuditModel.LateEntries` | app/domains/audit/router.py:42 | In particular, if it changes once, after the first page, the rest returned is what it then holds below the cursor |
| `AuditService.AuditLog.Record` | app/domains/audit/repository.py:26-62 | Adds one row under a larger id and changes no other |
| `AuditService.AuditLog.Where` | app/domains/audit/repository.py:76-98 | The conditions appended are exactly those asked for |
| `AuditService.WhereMeansTheFilter` | app/domains/audit/repository.py:76-98 | Their conjunction is the filter and the cursor |
| `AuditService.AuditLog.ListEntries` | app/domains/audit/repository.py:64-118 | The rows of the page, in order |
| `AuditService.AuditLog.QueryPage` | app/domains/audit/router.py:20-46 | Page, cursor and refusals |
| `ResourceModel.TotalsFollowQuantities` | app/domains/events/service.py:85-177 | Through pricing, quantity edits, additions, removals and (even interrupted) replacements, a priced line's total is its unit price times its quantity |
| `ResourceModel.PublishedPricesAreFrozen` | app/domains/tenant/service.py:1363-1366 | From publication on, over every run, a line that is still there has the unit price it had, or none as before, and its total is that price times its quantity |
| `ResourceModel.RunKeepsInv` | app/domains/tenant/service.py:1325-1377 | The total invariant over every run |
| `ResourceModel.PricingIsExact` | app/domains/tenant/service.py:1353-1377 | Pricing stores the unit price and currency given and the total at the stored quantity, on an unpublished event only, and changes no other cost |
| `ResourceModel.EditingIsExact` | app/domains/events/service.py:85-133 | Editing changes what is given, keeps the rest, and re-prices on a given quantity |
| `ResourceModel.AddingAndRemovingAreExact` | app/domains/events/service.py:136-177 | Adding makes one line, removing takes one and its cost |
| `ResourceModel.ReplacingIsExact` | app/domains/tenant/service.py:1325-1350 | A full replacement of a draft's lines leaves exactly the new ones, in order, up to the first refused, and other events' lines and costs as they were |
| `ResourceService.EventBudget.UpdateResourceLine` | app/domains/events/service.py:85-133 | Merge, write, re-price on a new quantity |
| `ResourceService.EventBudget.SetResourceCost` | app/domains/tenant/service.py:1353-1377 | Priced at the stored quantity; refused once published |
| `ResourceService.EventBudget.AddResourcesToEvent` | app/domains/tenant/service.py:1325-1350 | Delete all, insert until one fails; what was done before stays |
| `ResourceService.EventBudget.GetResourcesForEvent` | app/domains/tenant/tenant_repository.py:2197-2210 | Every line of the event, once |
| `ResourceService.EventBudget.GetResourceSummary` | app/domains/tenant/service.py:1380-1433 | Shows every stored line of the event exactly once; the reported total is the sum of the entries and what the unit prices and quantities stored for the event come to, in whatever order the rows came |

## Left out

- Statement-level races inside one token rotation, login or enrollment request: those invariants are about atomic requests.
- `disconnect_all` and the closing of pools.
- Keycloak, JWKS, SMTP, OPA calls, hashing, bcrypt and JWT encoding, and all timing claims (the number of padded comparisons is modelled, their duration is not).
- Audit writes on tenant override or denial, and the branches of `get_current_user` that fail open on infrastructure errors.
- Just-in-time provisioning of users and parents, and the seed, backfill and live-data scripts.
- Deletion of user accounts, which cascades to students, enrollments and the account's own events.
- Event statuses outside draft, proposed, approved and published; predicted attendance; the texts of notices, and the notices of other operations than transitions.
- Non-unique level ordinals: the facts of a rollover are assumed to name each student once.
- Unicode case folding and whitespace other than spaces; conversion of prices through floating point (prices are integers counting ten-thousandths).
- Head teachers in `check_event_permission`: the mappings the repository selects carry none, so that branch never applies; permission actions other than "read" there.
- School setup, analytics, financial masking, profile CRUD, and set-membership checks of roles and permissions: single-branch facts that would only add easy members.
- Creation of accounts, classes and levels: people and classes appear as inputs or by a registration step.
