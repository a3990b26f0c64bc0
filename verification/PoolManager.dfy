/** The per-tenant and control-plane connection pools of `app/core/database.py`.

    Every `await` is a point where another task may run, so the manager is modelled
    as a step system: one step runs a task from one await to the next.  Locks, Database
    objects and pools are identities drawn from one counter, so two objects made at
    different moments are different, and `made` records every one ever registered. */
module PoolSteps {
  import opened Wrappers

  type TaskId = nat
  type Id = nat

  /** What a caller asks for: `get_control_plane_pool()` or `get_pool(tenant)`. */
  datatype Slot = ControlPlane | School(tenant: string)

  /** Where a task is suspended.  `outer` is the tenant lock held by a `get_pool` call
      that is currently inside `get_control_plane_pool`; it is `None` for a direct caller. */
  datatype Pc =
    | Start                                  // get_pool entered, nothing read yet
    | GuardWait                              // awaiting _locks_guard
    | GuardHeld                              // holding _locks_guard
    | LockWait(lock: Id)                     // awaiting the tenant lock
    | Locked(lock: Id)                       // tenant lock just acquired
    | CpCheck(outer: Option<Id>)             // fast path of get_control_plane_pool
    | CpWait(outer: Option<Id>)              // awaiting _control_plane_lock
    | CpLocked(outer: Option<Id>)            // _control_plane_lock just acquired
    | CpEnsure(outer: Option<Id>)            // awaiting _ensure_database_exists
    | CpConnect(outer: Option<Id>, db: Id)   // awaiting asyncpg.create_pool
    | CpInit(outer: Option<Id>, db: Id)      // awaiting _initialize_control_plane_tables
    | Provision(lock: Id)                    // awaiting discovery and schema creation
    | Connect(lock: Id, db: Id)              // awaiting asyncpg.create_pool
    | Init(lock: Id, db: Id)                 // awaiting _initialize_tenant_tables
    | Done(pool: Id)
    | Failed

  datatype Task = Task(want: Slot, pc: Pc)

  datatype Made = LockMade(slot: Slot, id: Id) | DbMade(slot: Slot, id: Id) | PoolMade(slot: Slot, id: Id)

  datatype State = State(
    tasks: map<TaskId, Task>,
    guard: Option<TaskId>,       // holder of _locks_guard
    cpHolder: Option<TaskId>,    // holder of _control_plane_lock
    locks: map<string, Id>,      // _locks
    holders: map<Id, TaskId>,    // holder of each tenant lock
    dbs: map<Slot, Id>,          // _databases, and _control_plane_db at ControlPlane
    pools: map<Id, Id>,          // Database.pool of each Database that has one
    nextId: Id,
    made: seq<Made>)             // history: everything registered so far

  datatype Action = Spawn(k: TaskId, want: Slot) | Go(k: TaskId) | Fail(k: TaskId)

  function Initial(): State {
    State(map[], None, None, map[], map[], map[], map[], 0, [])
  }

  /** `self._databases[slot].pool`, when both exist. */
  function PoolAt(dbs: map<Slot, Id>, pools: map<Id, Id>, slot: Slot): Option<Id> {
    if slot in dbs && dbs[slot] in pools then Some(pools[dbs[slot]]) else None
  }

  function PoolOf(s: State, slot: Slot): Option<Id> { PoolAt(s.dbs, s.pools, slot) }

  predicate Finished(pc: Pc) { pc.Done? || pc.Failed? }

  /** The tenant lock a task holds at `pc`, if any. */
  function HeldLock(pc: Pc): Option<Id> {
    match pc
    case Locked(l) => Some(l)
    case CpCheck(o) => o
    case CpWait(o) => o
    case CpLocked(o) => o
    case CpEnsure(o) => o
    case CpConnect(o, _) => o
    case CpInit(o, _) => o
    case Provision(l) => Some(l)
    case Connect(l, _) => Some(l)
    case Init(l, _) => Some(l)
    case _ => None
  }

  /** The `outer` argument of a program counter inside `get_control_plane_pool`. */
  function Outer(pc: Pc): Option<Option<Id>> {
    match pc
    case CpCheck(o) => Some(o)
    case CpWait(o) => Some(o)
    case CpLocked(o) => Some(o)
    case CpEnsure(o) => Some(o)
    case CpConnect(o, _) => Some(o)
    case CpInit(o, _) => Some(o)
    case _ => None
  }

  predicate HoldsControlPlane(pc: Pc) { pc.CpLocked? || pc.CpEnsure? || pc.CpConnect? || pc.CpInit? }

  /** A task that is waiting for a lock can step only once the lock is free. */
  predicate CanGo(s: State, k: TaskId) {
    k in s.tasks && !Finished(s.tasks[k].pc) &&
    match s.tasks[k].pc
    case GuardWait => s.guard.None?
    case LockWait(l) => l !in s.holders
    case CpWait(_) => s.cpHolder.None?
    case _ => true
  }

  /** An exception or a cancellation can only surface at an await. */
  predicate CanFail(s: State, k: TaskId) {
    k in s.tasks &&
    match s.tasks[k].pc
    case GuardWait | LockWait(_) | CpWait(_) | CpEnsure(_) | CpConnect(_, _) | CpInit(_, _)
       | Provision(_) | Connect(_, _) | Init(_, _) => true
    case _ => false
  }

  predicate Enabled(s: State, a: Action) {
    match a
    case Spawn(k, _) => k !in s.tasks
    case Go(k) => CanGo(s, k) && Ready(s, k)
    case Fail(k) => CanFail(s, k)
  }

  function Move(s: State, k: TaskId, pc: Pc): State
    requires k in s.tasks
  {
    s.(tasks := s.tasks[k := s.tasks[k].(pc := pc)])
  }

  /** Leaving the tenant-lock and control-plane-lock blocks the task is inside. */
  function Release(s: State, k: TaskId): State
    requires k in s.tasks
  {
    var pc := s.tasks[k].pc;
    s.(cpHolder := if HoldsControlPlane(pc) then None else s.cpHolder,
       holders := if HeldLock(pc).Some? then s.holders - {HeldLock(pc).value} else s.holders)
  }

  /** Return from `get_control_plane_pool`: a direct caller is done, a nested one goes on. */
  function Returned(outer: Option<Id>, pool: Id): Pc {
    if outer.None? then Done(pool) else Provision(outer.value)
  }

  function NewDb(s: State, slot: Slot): State {
    s.(dbs := s.dbs[slot := s.nextId], nextId := s.nextId + 1, made := s.made + [DbMade(slot, s.nextId)])
  }

  function NewPool(s: State, slot: Slot, db: Id): State {
    s.(pools := s.pools[db := s.nextId], nextId := s.nextId + 1, made := s.made + [PoolMade(slot, s.nextId)])
  }

  /** A step moves its own task and no other. */
  predicate MovesOnly(s: State, t: State, k: TaskId) {
    k in s.tasks && k in t.tasks && t.tasks == s.tasks[k := s.tasks[k].(pc := t.tasks[k].pc)]
  }

  predicate BeforeLock(pc: Pc) { pc.Start? || pc.GuardWait? || pc.GuardHeld? }

  /** `get_pool` up to asking for the tenant lock. */
  function GuardStep(s: State, k: TaskId): (t: State)
    requires CanGo(s, k) && BeforeLock(s.tasks[k].pc) && s.tasks[k].want.School?
    ensures MovesOnly(s, t, k)
  {
    var want := s.tasks[k].want;
    match s.tasks[k].pc
    case Start =>
      var p := PoolOf(s, want);
      Move(s, k, if p.Some? then Done(p.value) else GuardWait)
    case GuardWait => Move(s.(guard := Some(k)), k, GuardHeld)
    case GuardHeld =>
      if want.tenant in s.locks then Move(s.(guard := None), k, LockWait(s.locks[want.tenant]))
      else
        Move(s.(guard := None, locks := s.locks[want.tenant := s.nextId], nextId := s.nextId + 1,
                made := s.made + [LockMade(want, s.nextId)]), k, LockWait(s.nextId))
  }

  /** `get_pool` from the tenant lock on, outside `get_control_plane_pool`. */
  function TenantStep(s: State, k: TaskId): (t: State)
    requires CanGo(s, k) && !BeforeLock(s.tasks[k].pc) && Outer(s.tasks[k].pc).None?
    requires s.tasks[k].pc.Init? ==> s.tasks[k].pc.db in s.pools
    ensures MovesOnly(s, t, k)
  {
    var want := s.tasks[k].want;
    match s.tasks[k].pc
    case LockWait(l) => Move(s.(holders := s.holders[l := k]), k, Locked(l))
    case Locked(l) =>
      if want !in s.dbs then Move(s, k, CpCheck(Some(l)))
      else if s.dbs[want] in s.pools then Move(Release(s, k), k, Done(s.pools[s.dbs[want]]))
      else Move(s, k, Connect(l, s.dbs[want]))
    case Provision(l) => Move(NewDb(s, want), k, Connect(l, s.nextId))
    case Connect(l, d) => Move(NewPool(s, want, d), k, Init(l, d))
    case Init(l, d) => Move(Release(s, k), k, Done(s.pools[d]))
  }

  /** `get_control_plane_pool`. */
  function CpStep(s: State, k: TaskId): (t: State)
    requires CanGo(s, k) && Outer(s.tasks[k].pc).Some?
    requires s.tasks[k].pc.CpInit? ==> s.tasks[k].pc.db in s.pools
    ensures MovesOnly(s, t, k)
  {
    match s.tasks[k].pc
    case CpCheck(o) =>
      var p := PoolOf(s, ControlPlane);
      if p.Some? then Move(s, k, Returned(o, p.value)) else Move(s, k, CpWait(o))
    case CpWait(o) => Move(s.(cpHolder := Some(k)), k, CpLocked(o))
    case CpLocked(o) =>
      if ControlPlane !in s.dbs then Move(s, k, CpEnsure(o))
      else if s.dbs[ControlPlane] in s.pools then
        Move(s.(cpHolder := None), k, Returned(o, s.pools[s.dbs[ControlPlane]]))
      else Move(s, k, CpConnect(o, s.dbs[ControlPlane]))
    case CpEnsure(o) => Move(NewDb(s, ControlPlane), k, CpConnect(o, s.nextId))
    case CpConnect(o, d) => Move(NewPool(s, ControlPlane, d), k, CpInit(o, d))
    case CpInit(o, d) => Move(s.(cpHolder := None), k, Returned(o, s.pools[d]))
  }

  /** One run of task `k` from its current await to the next one. */
  function GoStep(s: State, k: TaskId): (t: State)
    requires CanGo(s, k) && Ready(s, k)
    ensures MovesOnly(s, t, k)
  {
    var pc := s.tasks[k].pc;
    if BeforeLock(pc) then GuardStep(s, k)
    else if Outer(pc).Some? then CpStep(s, k)
    else TenantStep(s, k)
  }

  /** What the code's own reads need: only `get_pool` takes `_locks_guard`, and a
      connection pool under initialisation has been assigned. */
  predicate Ready(s: State, k: TaskId) {
    k in s.tasks &&
    match s.tasks[k].pc
    case Start => s.tasks[k].want.School?
    case GuardWait => s.tasks[k].want.School?
    case GuardHeld => s.tasks[k].want.School?
    case CpInit(_, d) => d in s.pools
    case Init(_, d) => d in s.pools
    case _ => true
  }

  function Next(s: State, a: Action): State
    requires Enabled(s, a)
  {
    match a
    case Spawn(k, want) =>
      s.(tasks := s.tasks[k := Task(want, if want.ControlPlane? then CpCheck(None) else Start)])
    case Go(k) => GoStep(s, k)
    case Fail(k) => Move(Release(s, k), k, Failed)
  }

  /** A run is a sequence of enabled actions, in any interleaving of any number of tasks. */
  predicate Run(s: State, acts: seq<Action>)
    decreases |acts|
  {
    |acts| == 0 || (Enabled(s, acts[0]) && Run(Next(s, acts[0]), acts[1..]))
  }

  function After(s: State, acts: seq<Action>): State
    requires Run(s, acts)
    decreases |acts|
  {
    if |acts| == 0 then s else After(Next(s, acts[0]), acts[1..])
  }

  // ------------------------------------------------------------------
  // The invariant
  // ------------------------------------------------------------------

  ghost predicate GuardAgrees(tasks: map<TaskId, Task>, guard: Option<TaskId>) {
    && (guard.Some? ==> guard.value in tasks)
    && (forall k :: k in tasks ==> (tasks[k].pc.GuardHeld? <==> guard == Some(k)))
  }

  ghost predicate ControlPlaneAgrees(tasks: map<TaskId, Task>, cpHolder: Option<TaskId>) {
    && (cpHolder.Some? ==> cpHolder.value in tasks)
    && (forall k :: k in tasks ==> (HoldsControlPlane(tasks[k].pc) <==> cpHolder == Some(k)))
  }

  ghost predicate HoldersAgree(tasks: map<TaskId, Task>, holders: map<Id, TaskId>) {
    && (forall k :: k in tasks && HeldLock(tasks[k].pc).Some? ==>
          HeldLock(tasks[k].pc).value in holders && holders[HeldLock(tasks[k].pc).value] == k)
    && (forall l :: l in holders ==> holders[l] in tasks && HeldLock(tasks[holders[l]].pc) == Some(l))
  }

  /** Who holds which lock is exactly what the program counters say. */
  ghost predicate Locking(s: State) {
    GuardAgrees(s.tasks, s.guard) && ControlPlaneAgrees(s.tasks, s.cpHolder) && HoldersAgree(s.tasks, s.holders)
  }

  /** The task's own lock is the one registered for its tenant. */
  ghost predicate LockOk(locks: map<string, Id>, task: Task) {
    && (HeldLock(task.pc).Some? ==>
          task.want.School? && task.want.tenant in locks && locks[task.want.tenant] == HeldLock(task.pc).value)
    && (task.pc.LockWait? ==>
          task.want.School? && task.want.tenant in locks && locks[task.want.tenant] == task.pc.lock)
    && (task.want.ControlPlane? ==> !(task.pc.Start? || task.pc.GuardWait? || task.pc.GuardHeld?))
  }

  /** What a task has already established about the Databases. */
  ghost predicate DataOk(dbs: map<Slot, Id>, pools: map<Id, Id>, task: Task) {
    && (Outer(task.pc).Some? ==>
          && (Outer(task.pc).value.None? <==> task.want.ControlPlane?)
          && (Outer(task.pc).value.Some? ==> task.want !in dbs))
    && match task.pc
       case CpEnsure(_) => ControlPlane !in dbs
       case CpConnect(_, d) => ControlPlane in dbs && dbs[ControlPlane] == d && d !in pools
       case CpInit(_, d) => ControlPlane in dbs && dbs[ControlPlane] == d && d in pools
       case Provision(_) => task.want !in dbs
       case Connect(_, d) => task.want in dbs && dbs[task.want] == d && d !in pools
       case Init(_, d) => task.want in dbs && dbs[task.want] == d && d in pools
       case Done(p) => PoolAt(dbs, pools, task.want) == Some(p)
       case _ => true
  }

  ghost predicate TasksOk(s: State) {
    forall k :: k in s.tasks ==> LockOk(s.locks, s.tasks[k]) && DataOk(s.dbs, s.pools, s.tasks[k])
  }

  /** Distinct slots own distinct Database objects, all older than the next identity. */
  ghost predicate DbsDistinct(dbs: map<Slot, Id>, pools: map<Id, Id>, nextId: Id) {
    && (forall x :: x in dbs ==> dbs[x] < nextId)
    && (forall x, y :: x in dbs && y in dbs && dbs[x] == dbs[y] ==> x == y)
    && (forall d :: d in pools ==> d < nextId)
  }

  predicate SameSlot(m: Made, n: Made) {
    || (m.LockMade? && n.LockMade? && m.slot == n.slot)
    || (m.DbMade? && n.DbMade? && m.slot == n.slot)
    || (m.PoolMade? && n.PoolMade? && m.slot == n.slot)
  }

  /** No slot ever got two locks, two Databases or two pools. */
  ghost predicate MadeOnce(made: seq<Made>) {
    forall i, j :: 0 <= i < j < |made| ==> !SameSlot(made[i], made[j])
  }

  /** A registered object is still the one the manager hands out. */
  ghost predicate StillCurrent(locks: map<string, Id>, dbs: map<Slot, Id>, pools: map<Id, Id>, m: Made) {
    match m
    case LockMade(x, id) => x.School? && x.tenant in locks && locks[x.tenant] == id
    case DbMade(x, id) => x in dbs && dbs[x] == id
    case PoolMade(x, id) => PoolAt(dbs, pools, x) == Some(id)
  }

  ghost predicate History(s: State) {
    && MadeOnce(s.made)
    && forall m :: m in s.made ==> StillCurrent(s.locks, s.dbs, s.pools, m)
  }

  ghost predicate Inv(s: State) {
    Locking(s) && TasksOk(s) && DbsDistinct(s.dbs, s.pools, s.nextId) && History(s)
  }

  // ------------------------------------------------------------------
  // Each step keeps the invariant
  // ------------------------------------------------------------------

  /** The holders after task `k` moves to `pc`, taking or leaving one tenant lock. */
  function HoldersAfter(holders: map<Id, TaskId>, k: TaskId, before: Pc, pc: Pc): map<Id, TaskId> {
    if HeldLock(pc) == HeldLock(before) then holders
    else if HeldLock(pc).Some? then holders[HeldLock(pc).value := k]
    else holders - {HeldLock(before).value}
  }

  /** The holder of a single lock after task `k` takes it, keeps it or leaves it. */
  function HolderAfter(holder: Option<TaskId>, k: TaskId, holds: bool): Option<TaskId> {
    if holds then Some(k) else if holder == Some(k) then None else holder
  }

  lemma RelockKeepsHolders(tasks: map<TaskId, Task>, holders: map<Id, TaskId>, k: TaskId, pc: Pc)
    requires HoldersAgree(tasks, holders) && k in tasks
    requires HeldLock(pc) != HeldLock(tasks[k].pc) ==> HeldLock(pc).None? || HeldLock(tasks[k].pc).None?
    requires HeldLock(pc).Some? && HeldLock(tasks[k].pc).None? ==> HeldLock(pc).value !in holders
    ensures HoldersAgree(tasks[k := tasks[k].(pc := pc)], HoldersAfter(holders, k, tasks[k].pc, pc))
  {
  }

  lemma RelockKeepsLocking(s: State, k: TaskId, pc: Pc, t: State)
    requires Locking(s) && k in s.tasks
    requires pc.GuardHeld? ==> s.guard.None?
    requires HoldsControlPlane(pc) ==> s.cpHolder.None? || s.cpHolder == Some(k)
    requires HeldLock(pc) != HeldLock(s.tasks[k].pc) ==> HeldLock(pc).None? || HeldLock(s.tasks[k].pc).None?
    requires HeldLock(pc).Some? && HeldLock(s.tasks[k].pc).None? ==> HeldLock(pc).value !in s.holders
    requires t.tasks == s.tasks[k := s.tasks[k].(pc := pc)]
    requires t.guard == HolderAfter(s.guard, k, pc.GuardHeld?)
    requires t.cpHolder == HolderAfter(s.cpHolder, k, HoldsControlPlane(pc))
    requires t.holders == HoldersAfter(s.holders, k, s.tasks[k].pc, pc)
    ensures Locking(t)
  {
    RelockKeepsHolders(s.tasks, s.holders, k, pc);
  }

  lemma GuardStepKeepsLocking(s: State, k: TaskId)
    requires Locking(s) && CanGo(s, k) && BeforeLock(s.tasks[k].pc) && s.tasks[k].want.School?
    ensures Locking(GuardStep(s, k))
  {
    var t := GuardStep(s, k);
    var pc := t.tasks[k].pc;
    assert pc.Done? || pc.GuardWait? || pc.GuardHeld? || pc.LockWait?;
    RelockKeepsLocking(s, k, pc, t);
  }

  lemma TenantStepKeepsLocking(s: State, k: TaskId)
    requires Locking(s) && CanGo(s, k) && !BeforeLock(s.tasks[k].pc) && Outer(s.tasks[k].pc).None?
    requires Ready(s, k)
    ensures Locking(TenantStep(s, k))
  {
    var t := TenantStep(s, k);
    match s.tasks[k].pc {
      case LockWait(l) => RelockKeepsLocking(s, k, Locked(l), t);
      case Locked(l) => LockedKeepsLocking(s, k, l);
      case Provision(l) => RelockKeepsLocking(s, k, Connect(l, s.nextId), t);
      case Connect(l, d) => RelockKeepsLocking(s, k, Init(l, d), t);
      case Init(l, d) => LeavingKeepsLocking(s, k, l, s.pools[d]);
    }
  }

  lemma LockedKeepsLocking(s: State, k: TaskId, l: Id)
    requires Locking(s) && CanGo(s, k) && s.tasks[k].pc == Locked(l)
    ensures Locking(TenantStep(s, k))
  {
    var t, want := TenantStep(s, k), s.tasks[k].want;
    if want !in s.dbs {
      RelockKeepsLocking(s, k, CpCheck(Some(l)), t);
    } else if s.dbs[want] in s.pools {
      LeavingKeepsLocking(s, k, l, s.pools[s.dbs[want]]);
    } else {
      RelockKeepsLocking(s, k, Connect(l, s.dbs[want]), t);
    }
  }

  lemma LeavingKeepsLocking(s: State, k: TaskId, l: Id, pool: Id)
    requires Locking(s) && k in s.tasks && HeldLock(s.tasks[k].pc) == Some(l) && !HoldsControlPlane(s.tasks[k].pc)
    requires !s.tasks[k].pc.GuardHeld?
    ensures Locking(Move(Release(s, k), k, Done(pool)))
  {
    RelockKeepsLocking(s, k, Done(pool), Move(Release(s, k), k, Done(pool)));
  }

  lemma CpStepKeepsLocking(s: State, k: TaskId)
    requires Locking(s) && CanGo(s, k) && Outer(s.tasks[k].pc).Some? && Ready(s, k)
    ensures Locking(CpStep(s, k))
  {
    var t := CpStep(s, k);
    match s.tasks[k].pc {
      case CpCheck(o) => CpCheckKeepsLocking(s, k, o);
      case CpWait(o) => RelockKeepsLocking(s, k, CpLocked(o), t);
      case _ => CpBlockKeepsLocking(s, k);
    }
  }

  lemma CpCheckKeepsLocking(s: State, k: TaskId, o: Option<Id>)
    requires Locking(s) && CanGo(s, k) && s.tasks[k].pc == CpCheck(o)
    ensures Locking(CpStep(s, k))
  {
    var p, t := PoolOf(s, ControlPlane), CpStep(s, k);
    RelockKeepsLocking(s, k, if p.Some? then Returned(o, p.value) else CpWait(o), t);
  }

  lemma CpBlockKeepsLocking(s: State, k: TaskId)
    requires Locking(s) && CanGo(s, k) && HoldsControlPlane(s.tasks[k].pc) && Ready(s, k)
    ensures Locking(CpStep(s, k))
  {
    var t := CpStep(s, k);
    match s.tasks[k].pc {
      case CpLocked(o) => CpLockedKeepsLocking(s, k, o);
      case CpEnsure(o) =>
        assert t == Move(NewDb(s, ControlPlane), k, CpConnect(o, s.nextId));
        RelockKeepsLocking(s, k, CpConnect(o, s.nextId), t);
      case CpConnect(o, d) =>
        assert t == Move(NewPool(s, ControlPlane, d), k, CpInit(o, d));
        RelockKeepsLocking(s, k, CpInit(o, d), t);
      case CpInit(o, d) => RelockKeepsLocking(s, k, Returned(o, s.pools[d]), t);
    }
  }

  lemma CpLockedKeepsLocking(s: State, k: TaskId, o: Option<Id>)
    requires Locking(s) && CanGo(s, k) && s.tasks[k].pc == CpLocked(o)
    ensures Locking(CpStep(s, k))
  {
    var t := CpStep(s, k);
    if ControlPlane !in s.dbs { RelockKeepsLocking(s, k, CpEnsure(o), t); }
    else if s.dbs[ControlPlane] in s.pools { RelockKeepsLocking(s, k, Returned(o, s.pools[s.dbs[ControlPlane]]), t); }
    else { RelockKeepsLocking(s, k, CpConnect(o, s.dbs[ControlPlane]), t); }
  }

  lemma GoKeepsLocking(s: State, k: TaskId)
    requires Locking(s) && CanGo(s, k) && Ready(s, k)
    ensures Locking(GoStep(s, k))
  {
    var pc := s.tasks[k].pc;
    if BeforeLock(pc) { GuardStepKeepsLocking(s, k); }
    else if Outer(pc).Some? { CpStepKeepsLocking(s, k); }
    else { TenantStepKeepsLocking(s, k); }
  }

  lemma FailKeepsLocking(s: State, k: TaskId)
    requires Locking(s) && CanFail(s, k)
    ensures Locking(Next(s, Fail(k)))
  {
    RelockKeepsLocking(s, k, Failed, Next(s, Fail(k)));
  }

  /** While `k` is inside a lock's block no other task is. */
  lemma Exclusive(s: State, j: TaskId, k: TaskId)
    requires Locking(s) && TasksOk(s) && j in s.tasks && k in s.tasks && j != k
    ensures !(HoldsControlPlane(s.tasks[j].pc) && HoldsControlPlane(s.tasks[k].pc))
    ensures HeldLock(s.tasks[j].pc).Some? && HeldLock(s.tasks[k].pc).Some? ==> s.tasks[j].want != s.tasks[k].want
  {
  }

  /** The Database a task is about to register or fill belongs to it alone. */
  ghost predicate Owns(s: State, k: TaskId, slot: Slot) {
    k in s.tasks &&
    if slot.ControlPlane? then HoldsControlPlane(s.tasks[k].pc)
    else s.tasks[k].want == slot && HeldLock(s.tasks[k].pc).Some?
  }

  lemma OthersSurviveNewDb(s: State, k: TaskId, j: TaskId, slot: Slot)
    requires Inv(s) && Owns(s, k, slot) && slot !in s.dbs && j in s.tasks && j != k
    ensures DataOk(NewDb(s, slot).dbs, s.pools, s.tasks[j])
  {
    Exclusive(s, j, k);
  }

  lemma OthersSurviveNewPool(s: State, k: TaskId, j: TaskId, slot: Slot)
    requires Inv(s) && Owns(s, k, slot) && slot in s.dbs && s.dbs[slot] !in s.pools && j in s.tasks && j != k
    ensures DataOk(s.dbs, NewPool(s, slot, s.dbs[slot]).pools, s.tasks[j])
  {
    Exclusive(s, j, k);
  }

  ghost predicate TaskOk(s: State, task: Task) { LockOk(s.locks, task) && DataOk(s.dbs, s.pools, task) }

  lemma OwnTaskAfterGuardStep(s: State, k: TaskId)
    requires CanGo(s, k) && BeforeLock(s.tasks[k].pc) && s.tasks[k].want.School?
    ensures var t := GuardStep(s, k); TaskOk(t, t.tasks[k])
  {
    var t, want := GuardStep(s, k), s.tasks[k].want;
    match s.tasks[k].pc {
      case Start =>
        var p := PoolOf(s, want);
        assert t.tasks[k].pc == if p.Some? then Done(p.value) else GuardWait;
      case GuardWait => assert t.tasks[k].pc == GuardHeld;
      case GuardHeld => assert want.tenant in t.locks && t.tasks[k].pc == LockWait(t.locks[want.tenant]);
    }
  }

  lemma OwnTaskAfterTenantStep(s: State, k: TaskId)
    requires CanGo(s, k) && !BeforeLock(s.tasks[k].pc) && Outer(s.tasks[k].pc).None? && Ready(s, k)
    requires TaskOk(s, s.tasks[k]) && DbsDistinct(s.dbs, s.pools, s.nextId)
    ensures var t := TenantStep(s, k); TaskOk(t, t.tasks[k])
  {
    var want := s.tasks[k].want;
    match s.tasks[k].pc {
      case Provision(l) => assert TenantStep(s, k) == Move(NewDb(s, want), k, Connect(l, s.nextId));
      case Connect(l, d) => assert TenantStep(s, k) == Move(NewPool(s, want, d), k, Init(l, d));
      case _ =>
    }
  }

  lemma OwnTaskAfterCpStep(s: State, k: TaskId)
    requires CanGo(s, k) && Outer(s.tasks[k].pc).Some? && Ready(s, k)
    requires TaskOk(s, s.tasks[k]) && DbsDistinct(s.dbs, s.pools, s.nextId)
    ensures var t := CpStep(s, k); TaskOk(t, t.tasks[k])
  {
    match s.tasks[k].pc {
      case CpEnsure(_) => OwnTaskAfterCpSetup(s, k);
      case CpConnect(_, _) => OwnTaskAfterCpSetup(s, k);
      case CpWait(o) => assert CpStep(s, k).tasks[k].pc == CpLocked(o);
      case _ => OwnTaskAfterCpRead(s, k);
    }
  }

  lemma ReturnedIsOk(s: State, task: Task, o: Option<Id>, pool: Id)
    requires TaskOk(s, task) && Outer(task.pc) == Some(o) && PoolOf(s, ControlPlane) == Some(pool)
    ensures TaskOk(s, task.(pc := Returned(o, pool)))
  {
  }

  lemma OwnTaskAfterCpRead(s: State, k: TaskId)
    requires CanGo(s, k) && Ready(s, k) && TaskOk(s, s.tasks[k])
    requires s.tasks[k].pc.CpCheck? || s.tasks[k].pc.CpLocked? || s.tasks[k].pc.CpInit?
    ensures var t := CpStep(s, k); TaskOk(t, t.tasks[k])
  {
    var p, o := PoolOf(s, ControlPlane), s.tasks[k].pc.outer;
    var t := CpStep(s, k);
    assert t.locks == s.locks && t.dbs == s.dbs && t.pools == s.pools;
    if p.Some? {
      ReturnedIsOk(s, s.tasks[k], o, p.value);
      assert t.tasks[k].pc == Returned(o, p.value);
    }
  }

  lemma OwnTaskAfterCpSetup(s: State, k: TaskId)
    requires CanGo(s, k) && (s.tasks[k].pc.CpEnsure? || s.tasks[k].pc.CpConnect?)
    requires TaskOk(s, s.tasks[k]) && DbsDistinct(s.dbs, s.pools, s.nextId)
    ensures var t := CpStep(s, k); TaskOk(t, t.tasks[k])
  {
    match s.tasks[k].pc {
      case CpEnsure(o) => assert CpStep(s, k) == Move(NewDb(s, ControlPlane), k, CpConnect(o, s.nextId));
      case CpConnect(o, d) => assert CpStep(s, k) == Move(NewPool(s, ControlPlane, d), k, CpInit(o, d));
    }
  }

  lemma OtherTaskAfterCpStep(s: State, k: TaskId, j: TaskId)
    requires Inv(s) && CanGo(s, k) && Outer(s.tasks[k].pc).Some? && Ready(s, k) && j in s.tasks && j != k
    ensures TaskOk(CpStep(s, k), s.tasks[j])
  {
    assert TaskOk(s, s.tasks[k]) && TaskOk(s, s.tasks[j]);
    match s.tasks[k].pc {
      case CpEnsure(_) => OthersSurviveNewDb(s, k, j, ControlPlane);
      case CpConnect(_, _) => OthersSurviveNewPool(s, k, j, ControlPlane);
      case _ => CpReadKeepsData(s, k);
    }
  }

  lemma OtherTaskAfterTenantStep(s: State, k: TaskId, j: TaskId)
    requires Inv(s) && CanGo(s, k) && !BeforeLock(s.tasks[k].pc) && Outer(s.tasks[k].pc).None? && Ready(s, k)
    requires j in s.tasks && j != k
    ensures TaskOk(TenantStep(s, k), s.tasks[j])
  {
    assert TaskOk(s, s.tasks[k]) && TaskOk(s, s.tasks[j]);
    match s.tasks[k].pc {
      case Provision(_) => OthersSurviveNewDb(s, k, j, s.tasks[k].want);
      case Connect(_, _) => OthersSurviveNewPool(s, k, j, s.tasks[k].want);
      case _ =>
    }
  }

  lemma OtherTaskAfterGuardStep(s: State, k: TaskId, j: TaskId)
    requires CanGo(s, k) && BeforeLock(s.tasks[k].pc) && s.tasks[k].want.School?
    requires j in s.tasks && TaskOk(s, s.tasks[j])
    ensures TaskOk(GuardStep(s, k), s.tasks[j])
  {
  }

  lemma AppendKeepsOnce(made: seq<Made>, m: Made)
    requires MadeOnce(made) && forall n :: n in made ==> !SameSlot(n, m)
    ensures MadeOnce(made + [m])
  {
  }

  /** A lock, Database or pool is registered only where there is none, so the log stays unique. */
  lemma NewEntryIsFirst(s: State, m: Made)
    requires History(s)
    requires m.LockMade? ==> m.slot.School? && m.slot.tenant !in s.locks
    requires m.DbMade? ==> m.slot !in s.dbs
    requires m.PoolMade? ==> PoolOf(s, m.slot).None?
    ensures MadeOnce(s.made + [m])
  {
    forall n | n in s.made
      ensures !SameSlot(n, m)
    {
      assert StillCurrent(s.locks, s.dbs, s.pools, n);
    }
    AppendKeepsOnce(s.made, m);
  }

  /** A new Database gets an identity nobody has. */
  lemma NewDbKeepsDistinct(dbs: map<Slot, Id>, pools: map<Id, Id>, nextId: Id, slot: Slot)
    requires DbsDistinct(dbs, pools, nextId) && slot !in dbs
    ensures DbsDistinct(dbs[slot := nextId], pools, nextId + 1) && nextId !in pools
  {
  }

  lemma NewDbKeepsData(s: State, slot: Slot)
    requires DbsDistinct(s.dbs, s.pools, s.nextId) && History(s) && slot !in s.dbs
    ensures var t := NewDb(s, slot); DbsDistinct(t.dbs, t.pools, t.nextId) && History(t)
  {
    NewDbKeepsDistinct(s.dbs, s.pools, s.nextId, slot);
    NewEntryIsFirst(s, DbMade(slot, s.nextId));
  }

  lemma NewPoolKeepsData(s: State, slot: Slot)
    requires DbsDistinct(s.dbs, s.pools, s.nextId) && History(s) && slot in s.dbs && s.dbs[slot] !in s.pools
    ensures var t := NewPool(s, slot, s.dbs[slot]); DbsDistinct(t.dbs, t.pools, t.nextId) && History(t)
  {
    NewEntryIsFirst(s, PoolMade(slot, s.nextId));
  }

  lemma GuardStepKeepsData(s: State, k: TaskId)
    requires DbsDistinct(s.dbs, s.pools, s.nextId) && History(s)
    requires CanGo(s, k) && BeforeLock(s.tasks[k].pc) && s.tasks[k].want.School?
    ensures var t := GuardStep(s, k); DbsDistinct(t.dbs, t.pools, t.nextId) && History(t)
  {
    var want := s.tasks[k].want;
    if s.tasks[k].pc.GuardHeld? && want.tenant !in s.locks {
      NewEntryIsFirst(s, LockMade(want, s.nextId));
    }
  }

  lemma TenantStepKeepsData(s: State, k: TaskId)
    requires DbsDistinct(s.dbs, s.pools, s.nextId) && History(s)
    requires CanGo(s, k) && !BeforeLock(s.tasks[k].pc) && Outer(s.tasks[k].pc).None? && Ready(s, k)
    requires TaskOk(s, s.tasks[k])
    ensures var t := TenantStep(s, k); DbsDistinct(t.dbs, t.pools, t.nextId) && History(t)
  {
    match s.tasks[k].pc {
      case Provision(_) => NewDbKeepsData(s, s.tasks[k].want);
      case Connect(_, _) => NewPoolKeepsData(s, s.tasks[k].want);
      case _ =>
    }
  }

  lemma CpStepKeepsData(s: State, k: TaskId)
    requires DbsDistinct(s.dbs, s.pools, s.nextId) && History(s)
    requires CanGo(s, k) && Outer(s.tasks[k].pc).Some? && Ready(s, k) && TaskOk(s, s.tasks[k])
    ensures var t := CpStep(s, k); DbsDistinct(t.dbs, t.pools, t.nextId) && History(t)
  {
    match s.tasks[k].pc {
      case CpEnsure(_) => NewDbKeepsData(s, ControlPlane);
      case CpConnect(_, _) => NewPoolKeepsData(s, ControlPlane);
      case _ => CpReadKeepsData(s, k);
    }
  }

  lemma CpReadKeepsData(s: State, k: TaskId)
    requires CanGo(s, k) && Outer(s.tasks[k].pc).Some? && Ready(s, k)
    requires !s.tasks[k].pc.CpEnsure? && !s.tasks[k].pc.CpConnect?
    ensures var t := CpStep(s, k);
      t.locks == s.locks && t.dbs == s.dbs && t.pools == s.pools && t.nextId == s.nextId && t.made == s.made
  {
    match s.tasks[k].pc {
      case CpCheck(o) =>
      case CpWait(o) => assert CpStep(s, k) == Move(s.(cpHolder := Some(k)), k, CpLocked(o));
      case CpLocked(o) =>
      case CpInit(o, d) => assert CpStep(s, k) == Move(s.(cpHolder := None), k, Returned(o, s.pools[d]));
    }
  }

  lemma GoKeepsInv(s: State, k: TaskId)
    requires Inv(s) && CanGo(s, k) && Ready(s, k)
    ensures Inv(GoStep(s, k))
  {
    var t := GoStep(s, k);
    var pc := s.tasks[k].pc;
    GoKeepsLocking(s, k);
    assert TaskOk(s, s.tasks[k]);
    if BeforeLock(pc) { GuardStepKeepsData(s, k); }
    else if Outer(pc).Some? { CpStepKeepsData(s, k); }
    else { TenantStepKeepsData(s, k); }
    forall j | j in t.tasks
      ensures TaskOk(t, t.tasks[j])
    {
      GoKeepsTask(s, k, j);
    }
  }

  lemma GoKeepsTask(s: State, k: TaskId, j: TaskId)
    requires Inv(s) && CanGo(s, k) && Ready(s, k) && j in GoStep(s, k).tasks
    ensures TaskOk(GoStep(s, k), GoStep(s, k).tasks[j])
  {
    var pc := s.tasks[k].pc;
    assert TaskOk(s, s.tasks[k]) && TaskOk(s, s.tasks[j]);
    if BeforeLock(pc) {
      if j == k { OwnTaskAfterGuardStep(s, k); } else { OtherTaskAfterGuardStep(s, k, j); }
    } else if Outer(pc).Some? {
      if j == k { OwnTaskAfterCpStep(s, k); } else { OtherTaskAfterCpStep(s, k, j); }
    } else {
      if j == k { OwnTaskAfterTenantStep(s, k); } else { OtherTaskAfterTenantStep(s, k, j); }
    }
  }

  lemma FailKeepsTasks(s: State, k: TaskId)
    requires Inv(s) && CanFail(s, k)
    ensures TasksOk(Next(s, Fail(k)))
  {
    var t := Next(s, Fail(k));
    forall j | j in t.tasks ensures TaskOk(t, t.tasks[j]) {
      assert TaskOk(s, s.tasks[j]);
    }
  }

  lemma SpawnKeepsInv(s: State, k: TaskId, want: Slot)
    requires Inv(s) && Enabled(s, Spawn(k, want))
    ensures Inv(Next(s, Spawn(k, want)))
  {
    var t := Next(s, Spawn(k, want));
    SpawnKeepsLocking(s, k, want);
    forall j | j in t.tasks ensures TaskOk(t, t.tasks[j]) {
      assert j != k ==> TaskOk(s, s.tasks[j]);
    }
  }

  lemma SpawnKeepsLocking(s: State, k: TaskId, want: Slot)
    requires Locking(s) && Enabled(s, Spawn(k, want))
    ensures Locking(Next(s, Spawn(k, want)))
  {
  }

  lemma StepKeepsInv(s: State, a: Action)
    requires Inv(s) && Enabled(s, a)
    ensures Inv(Next(s, a))
  {
    match a {
      case Spawn(k, want) => SpawnKeepsInv(s, k, want);
      case Go(k) => GoKeepsInv(s, k);
      case Fail(k) => FailKeepsLocking(s, k); FailKeepsTasks(s, k);
    }
  }

  lemma {:induction false} RunKeepsInv(s: State, acts: seq<Action>)
    requires Inv(s) && Run(s, acts)
    ensures Inv(After(s, acts))
    decreases |acts|
  {
    if |acts| > 0 {
      StepKeepsInv(s, acts[0]);
      RunKeepsInv(Next(s, acts[0]), acts[1..]);
    }
  }

  // ------------------------------------------------------------------
  // What every run guarantees
  // ------------------------------------------------------------------

  predicate Served(s: State, k: TaskId) { k in s.tasks && s.tasks[k].pc.Done? }

  /** Over every interleaving, with failures: one lock, one Database and one pool per
      tenant (and for the control plane), and everybody served gets that same pool. */
  lemma OnePoolPerTenant(acts: seq<Action>)
    requires Run(Initial(), acts)
    ensures var s := After(Initial(), acts);
      && MadeOnce(s.made)
      && (forall k :: Served(s, k) ==> PoolOf(s, s.tasks[k].want) == Some(s.tasks[k].pc.pool))
      && (forall j, k :: Served(s, j) && Served(s, k) && s.tasks[j].want == s.tasks[k].want ==>
            s.tasks[j].pc == s.tasks[k].pc)
  {
    RunKeepsInv(Initial(), acts);
  }

  /** A pool once published is never replaced, whatever happens afterwards. */
  lemma {:induction false} PublishedPoolStays(s: State, acts: seq<Action>, slot: Slot)
    requires Inv(s) && Run(s, acts) && PoolOf(s, slot).Some?
    ensures PoolOf(After(s, acts), slot) == PoolOf(s, slot)
    decreases |acts|
  {
    if |acts| > 0 {
      StepKeepsInv(s, acts[0]);
      StepKeepsPool(s, acts[0], slot);
      PublishedPoolStays(Next(s, acts[0]), acts[1..], slot);
    }
  }

  lemma StepKeepsPool(s: State, a: Action, slot: Slot)
    requires Inv(s) && Enabled(s, a) && PoolOf(s, slot).Some?
    ensures PoolOf(Next(s, a), slot) == PoolOf(s, slot)
  {
    if a.Go? {
      assert TaskOk(s, s.tasks[a.k]);
      var pc := s.tasks[a.k].pc;
      if Outer(pc).Some? { CpStepKeepsPool(s, a.k, slot); }
      else if !BeforeLock(pc) { TenantStepKeepsPool(s, a.k, slot); }
    }
  }

  lemma CpStepKeepsPool(s: State, k: TaskId, slot: Slot)
    requires CanGo(s, k) && Ready(s, k) && Outer(s.tasks[k].pc).Some?
    requires TaskOk(s, s.tasks[k]) && PoolOf(s, slot).Some?
    ensures PoolOf(CpStep(s, k), slot) == PoolOf(s, slot)
  {
  }

  lemma TenantStepKeepsPool(s: State, k: TaskId, slot: Slot)
    requires CanGo(s, k) && Ready(s, k) && !BeforeLock(s.tasks[k].pc) && Outer(s.tasks[k].pc).None?
    requires TaskOk(s, s.tasks[k]) && PoolOf(s, slot).Some?
    ensures PoolOf(TenantStep(s, k), slot) == PoolOf(s, slot)
  {
  }

  // ------------------------------------------------------------------
  // Waiting
  // ------------------------------------------------------------------

  /** Task `a` is blocked on a lock that task `b` holds. */
  predicate WaitsFor(s: State, a: TaskId, b: TaskId) {
    a in s.tasks && b in s.tasks &&
    match s.tasks[a].pc
    case GuardWait => s.guard == Some(b)
    case LockWait(l) => l in s.holders && s.holders[l] == b
    case CpWait(_) => s.cpHolder == Some(b)
    case _ => false
  }

  /** The order in which the locks are taken. */
  function WaitRank(pc: Pc): nat {
    match pc
    case GuardWait => 1
    case LockWait(_) => 1
    case CpWait(_) => 2
    case _ => 3
  }

  lemma WaitingClimbs(s: State, a: TaskId, b: TaskId)
    requires Inv(s) && WaitsFor(s, a, b)
    ensures WaitRank(s.tasks[a].pc) < WaitRank(s.tasks[b].pc)
  {
  }

  predicate WaitChain(s: State, chain: seq<TaskId>) {
    forall i :: 0 <= i < |chain| - 1 ==> WaitsFor(s, chain[i], chain[i + 1])
  }

  lemma TailIsChain(s: State, chain: seq<TaskId>)
    requires WaitChain(s, chain) && |chain| > 0
    ensures WaitChain(s, chain[1..])
  {
    var rest := chain[1..];
    forall i | 0 <= i < |rest| - 1
      ensures WaitsFor(s, rest[i], rest[i + 1])
    {
      assert WaitsFor(s, chain[i + 1], chain[i + 1 + 1]);
    }
  }

  /** No chain of waiting tasks is longer than three, so none ever closes into a cycle. */
  lemma {:induction false} WaitChainsAreShort(s: State, chain: seq<TaskId>)
    requires Inv(s) && WaitChain(s, chain) && |chain| > 0
    requires |chain| > 1 || chain[0] in s.tasks
    ensures chain[0] in s.tasks && |chain| <= 4 - WaitRank(s.tasks[chain[0]].pc)
    ensures forall i, j :: 0 <= i < j < |chain| ==> chain[i] != chain[j]
    decreases |chain|
  {
    if |chain| > 1 {
      assert WaitsFor(s, chain[0], chain[1]);
      WaitingClimbs(s, chain[0], chain[1]);
      var rest := chain[1..];
      TailIsChain(s, chain);
      WaitChainsAreShort(s, rest);
      ChainRanks(s, chain);
    }
  }

  lemma {:induction false} ChainRanks(s: State, chain: seq<TaskId>)
    requires Inv(s) && WaitChain(s, chain) && |chain| > 1
    ensures chain[0] in s.tasks
    ensures forall i :: 0 < i < |chain| ==>
      chain[i] in s.tasks && WaitRank(s.tasks[chain[0]].pc) < WaitRank(s.tasks[chain[i]].pc)
    decreases |chain|
  {
    assert WaitsFor(s, chain[0], chain[1]);
    WaitingClimbs(s, chain[0], chain[1]);
    if |chain| > 2 {
      var rest := chain[1..];
      TailIsChain(s, chain);
      ChainRanks(s, rest);
      forall i | 1 < i < |chain|
        ensures chain[i] in s.tasks && WaitRank(s.tasks[chain[0]].pc) < WaitRank(s.tasks[chain[i]].pc)
      {
        assert chain[i] == rest[i - 1];
      }
    }
  }

  /** In every reachable state with an unfinished task some task can run: nothing ever
      deadlocks, and a lock's holder is never stuck behind the tasks waiting for it. */
  lemma SomeoneCanRun(s: State, k: TaskId)
    requires Inv(s) && k in s.tasks && !Finished(s.tasks[k].pc)
    ensures exists j :: Enabled(s, Go(j))
  {
    var j :=
      if s.cpHolder.Some? then s.cpHolder.value
      else if s.guard.Some? then s.guard.value
      else if s.tasks[k].pc.LockWait? && s.tasks[k].pc.lock in s.holders then s.holders[s.tasks[k].pc.lock]
      else k;
    assert CanGo(s, j);
    AlwaysReady(s, j);
    assert Enabled(s, Go(j));
  }

  /** So a run that can go no further has served or failed every call. */
  lemma StuckMeansFinished(acts: seq<Action>)
    requires Run(Initial(), acts)
    requires forall j :: !Enabled(After(Initial(), acts), Go(j))
    ensures var s := After(Initial(), acts); forall k :: k in s.tasks ==> Finished(s.tasks[k].pc)
  {
    var s := After(Initial(), acts);
    RunKeepsInv(Initial(), acts);
    forall k | k in s.tasks
      ensures Finished(s.tasks[k].pc)
    {
      if !Finished(s.tasks[k].pc) {
        SomeoneCanRun(s, k);
      }
    }
  }

  /** The reads of the code never miss in a reachable state. */
  lemma AlwaysReady(s: State, k: TaskId)
    requires Inv(s) && CanGo(s, k)
    ensures Ready(s, k)
  {
    assert TaskOk(s, s.tasks[k]);
  }

  /** How many more steps a task can take, whatever the others do. */
  function StepsLeft(pc: Pc): nat {
    match pc
    case Start => 14
    case GuardWait => 13
    case GuardHeld => 12
    case LockWait(_) => 11
    case Locked(_) => 10
    case CpCheck(_) => 9
    case CpWait(_) => 8
    case CpLocked(_) => 7
    case CpEnsure(_) => 6
    case CpConnect(_, _) => 5
    case CpInit(_, _) => 4
    case Provision(_) => 3
    case Connect(_, _) => 2
    case Init(_, _) => 1
    case Done(_) => 0
    case Failed => 0
  }

  function StepsOf(acts: seq<Action>, k: TaskId): nat {
    if |acts| == 0 then 0
    else (if acts[0].k == k && !acts[0].Spawn? then 1 else 0) + StepsOf(acts[1..], k)
  }

  lemma StepShrinks(s: State, a: Action, k: TaskId)
    requires Enabled(s, a) && k in s.tasks
    ensures k in Next(s, a).tasks
    ensures a.k == k ==> StepsLeft(Next(s, a).tasks[k].pc) < StepsLeft(s.tasks[k].pc)
    ensures a.k != k ==> Next(s, a).tasks[k] == s.tasks[k]
  {
    if a.Go? {
      GoShrinks(s, a.k);
    }
  }

  lemma GoShrinks(s: State, k: TaskId)
    requires CanGo(s, k) && Ready(s, k)
    ensures StepsLeft(GoStep(s, k).tasks[k].pc) < StepsLeft(s.tasks[k].pc)
  {
    var pc := s.tasks[k].pc;
    if !BeforeLock(pc) {
      if Outer(pc).Some? {
        CpShrinks(s, k);
      } else {
        TenantShrinks(s, k);
      }
    }
  }

  lemma CpShrinks(s: State, k: TaskId)
    requires CanGo(s, k) && Outer(s.tasks[k].pc).Some? && Ready(s, k)
    ensures StepsLeft(CpStep(s, k).tasks[k].pc) < StepsLeft(s.tasks[k].pc)
  {
    var next := CpStep(s, k).tasks[k].pc;
    match s.tasks[k].pc {
      case CpCheck(o) => assert next == CpWait(o) || next == Returned(o, PoolOf(s, ControlPlane).value);
      case CpWait(o) => assert next == CpLocked(o);
      case _ => CpBlockShrinks(s, k);
    }
  }

  lemma CpBlockShrinks(s: State, k: TaskId)
    requires CanGo(s, k) && HoldsControlPlane(s.tasks[k].pc) && Ready(s, k)
    ensures StepsLeft(CpStep(s, k).tasks[k].pc) < StepsLeft(s.tasks[k].pc)
  {
    var next := CpStep(s, k).tasks[k].pc;
    match s.tasks[k].pc {
      case CpLocked(o) =>
      case CpEnsure(o) => assert next == CpConnect(o, s.nextId);
      case CpConnect(o, d) => assert next == CpInit(o, d);
      case CpInit(o, d) => assert next == Returned(o, s.pools[d]);
    }
  }

  lemma TenantShrinks(s: State, k: TaskId)
    requires CanGo(s, k) && !BeforeLock(s.tasks[k].pc) && Outer(s.tasks[k].pc).None? && Ready(s, k)
    ensures StepsLeft(TenantStep(s, k).tasks[k].pc) < StepsLeft(s.tasks[k].pc)
  {
    var next := TenantStep(s, k).tasks[k].pc;
    match s.tasks[k].pc {
      case LockWait(l) => assert next == Locked(l);
      case Locked(l) => assert next.CpCheck? || next.Done? || next.Connect?;
      case Provision(l) => assert next == Connect(l, s.nextId);
      case Connect(l, d) => assert next == Init(l, d);
      case Init(l, d) => assert next == Done(s.pools[d]);
    }
  }

  /** However the scheduler interleaves them, a call finishes within 14 steps of its own. */
  lemma {:induction false} EveryCallIsShort(s: State, acts: seq<Action>, k: TaskId)
    requires Run(s, acts) && k in s.tasks
    ensures StepsOf(acts, k) <= StepsLeft(s.tasks[k].pc) <= 14
    decreases |acts|
  {
    if |acts| > 0 {
      StepShrinks(s, acts[0], k);
      EveryCallIsShort(Next(s, acts[0]), acts[1..], k);
    }
  }

  // ------------------------------------------------------------------
  // Everybody finishes
  // ------------------------------------------------------------------

  predicate AllFinished(s: State) { forall k :: k in s.tasks ==> Finished(s.tasks[k].pc) }

  /** No new call and no failure. */
  predicate OnlyGoes(acts: seq<Action>) { forall a :: a in acts ==> a.Go? }

  predicate NoSpawns(acts: seq<Action>) { forall a :: a in acts ==> !a.Spawn? }

  /** How many more steps the listed tasks can take together. */
  function AllLeft(tasks: map<TaskId, Task>, order: seq<TaskId>): nat
    requires forall k :: k in order ==> k in tasks
  {
    if order == [] then 0 else StepsLeft(tasks[order[0]].pc) + AllLeft(tasks, order[1..])
  }

  lemma {:induction false} AtMostFourteenEach(tasks: map<TaskId, Task>, order: seq<TaskId>)
    requires forall k :: k in order ==> k in tasks
    ensures AllLeft(tasks, order) <= 14 * |order|
  {
    if order != [] {
      AtMostFourteenEach(tasks, order[1..]);
      assert StepsLeft(tasks[order[0]].pc) <= 14;
    }
  }

  /** No listed task has more steps left than before, and `k`, if it is listed, has fewer. */
  lemma {:induction false} FewerLeft(tasks: map<TaskId, Task>, tasks': map<TaskId, Task>, order: seq<TaskId>, k: TaskId)
    requires forall j :: j in order ==> j in tasks && j in tasks' && (j != k ==> tasks'[j] == tasks[j])
    requires k in order ==> StepsLeft(tasks'[k].pc) < StepsLeft(tasks[k].pc)
    ensures AllLeft(tasks', order) <= AllLeft(tasks, order)
    ensures k in order ==> AllLeft(tasks', order) < AllLeft(tasks, order)
  {
    if order != [] {
      FewerLeft(tasks, tasks', order[1..], k);
    }
  }

  /** The tasks, each once. */
  ghost predicate ListsTasks(order: seq<TaskId>, tasks: map<TaskId, Task>) {
    && (forall k :: k in order <==> k in tasks)
    && |order| == |tasks|
  }

  lemma {:induction false} SomeListing(ks: set<TaskId>) returns (order: seq<TaskId>)
    ensures (forall k :: k in order <==> k in ks) && |order| == |ks|
    decreases |ks|
  {
    order := [];
    if |ks| > 0 {
      var k :| k in ks;
      var rest := SomeListing(ks - {k});
      order := [k] + rest;
    }
  }

  lemma AllLeftShrinks(s: State, a: Action, order: seq<TaskId>)
    requires Enabled(s, a) && !a.Spawn? && ListsTasks(order, s.tasks)
    ensures ListsTasks(order, Next(s, a).tasks) && AllLeft(Next(s, a).tasks, order) < AllLeft(s.tasks, order)
  {
    var t := Next(s, a);
    StepShrinks(s, a, a.k);
    SameTasks(s, a);
    FewerLeft(s.tasks, t.tasks, order, a.k);
  }

  lemma SameTasks(s: State, a: Action)
    requires Enabled(s, a) && !a.Spawn?
    ensures a.k in s.tasks && Next(s, a).tasks.Keys == s.tasks.Keys
    ensures |Next(s, a).tasks| == |s.tasks|
    ensures forall j :: j in s.tasks && j != a.k ==> Next(s, a).tasks[j] == s.tasks[j]
  {
    assert |Next(s, a).tasks| == |Next(s, a).tasks.Keys| && |s.tasks| == |s.tasks.Keys|;
  }

  lemma {:induction false} RunUsesSteps(s: State, acts: seq<Action>, order: seq<TaskId>)
    requires Run(s, acts) && NoSpawns(acts) && ListsTasks(order, s.tasks)
    ensures |acts| <= AllLeft(s.tasks, order)
    decreases |acts|
  {
    if |acts| > 0 {
      AllLeftShrinks(s, acts[0], order);
      RunUsesSteps(Next(s, acts[0]), acts[1..], order);
    }
  }

  /** Without new calls every run ends: whatever the scheduler does, after at most 14 steps for
      each call there is. */
  lemma EveryRunIsShort(s: State, acts: seq<Action>)
    requires Run(s, acts) && NoSpawns(acts)
    ensures |acts| <= 14 * |s.tasks|
  {
    var order := SomeListing(s.tasks.Keys);
    RunUsesSteps(s, acts, order);
    AtMostFourteenEach(s.tasks, order);
  }

  lemma {:induction false} CanFinish(s: State, order: seq<TaskId>) returns (more: seq<Action>)
    requires Inv(s) && ListsTasks(order, s.tasks)
    ensures Run(s, more) && OnlyGoes(more) && AllFinished(After(s, more))
    decreases AllLeft(s.tasks, order)
  {
    if k :| k in s.tasks && !Finished(s.tasks[k].pc) {
      SomeoneCanRun(s, k);
      var j :| Enabled(s, Go(j));
      AllLeftShrinks(s, Go(j), order);
      StepKeepsInv(s, Go(j));
      var rest := CanFinish(Next(s, Go(j)), order);
      more := [Go(j)] + rest;
      assert more[1..] == rest;
    } else {
      more := [];
    }
  }

  lemma {:induction false} RunConcat(s: State, a: seq<Action>, b: seq<Action>)
    requires Run(s, a) && Run(After(s, a), b)
    ensures Run(s, a + b) && After(s, a + b) == After(After(s, a), b)
    decreases |a|
  {
    if |a| == 0 {
      assert a + b == b;
    } else {
      assert (a + b)[1..] == a[1..] + b;
      RunConcat(Next(s, a[0]), a[1..], b);
    }
  }

  /** Every run, wherever it stops, can be continued by the calls' own steps alone, at most 14 for
      each, until every call has finished; and then every call that was made, for a school or for
      the control plane, and was not hit by a failure has returned the pool of its slot. */
  lemma EveryRunCanFinish(acts: seq<Action>) returns (more: seq<Action>)
    requires Run(Initial(), acts)
    ensures OnlyGoes(more) && |more| <= 14 * |After(Initial(), acts).tasks|
    ensures Run(Initial(), acts + more) && AllFinished(After(Initial(), acts + more))
    ensures var e := After(Initial(), acts + more);
      forall k, slot :: Spawn(k, slot) in acts && Fail(k) !in acts ==>
        k in e.tasks && e.tasks[k].pc.Done? && PoolOf(e, slot) == Some(e.tasks[k].pc.pool)
  {
    var s := After(Initial(), acts);
    RunKeepsInv(Initial(), acts);
    var order := SomeListing(s.tasks.Keys);
    more := CanFinish(s, order);
    EveryRunIsShort(s, more);
    RunConcat(Initial(), acts, more);
    var all := acts + more;
    OnePoolPerTenant(all);
    forall k, slot | Spawn(k, slot) in acts && Fail(k) !in acts
      ensures var e := After(Initial(), all);
        k in e.tasks && e.tasks[k].pc.Done? && PoolOf(e, slot) == Some(e.tasks[k].pc.pool)
    {
      assert Spawn(k, slot) in all && Fail(k) !in more;
      TasksAreTheCalls(all, k, slot);
      OnlyFailuresFail(all, k);
    }
  }

  // ------------------------------------------------------------------
  // What a call ends in
  // ------------------------------------------------------------------

  /** A step fails no task but the one it is a failure of. */
  lemma StepFailsNobodyElse(s: State, a: Action, k: TaskId)
    requires Enabled(s, a) && k in Next(s, a).tasks && Next(s, a).tasks[k].pc.Failed?
    ensures a == Fail(k) || (k in s.tasks && s.tasks[k].pc.Failed?)
  {
    if a.Go? {
      StepMovesOwn(s, a.k);
    }
  }

  lemma StepMovesOwn(s: State, k: TaskId)
    requires CanGo(s, k) && Ready(s, k)
    ensures !GoStep(s, k).tasks[k].pc.Failed?
  {
    var pc := s.tasks[k].pc;
    if !BeforeLock(pc) && Outer(pc).Some? && !pc.CpEnsure? && !pc.CpConnect? {
      match pc {
        case CpCheck(_) =>
        case CpWait(_) =>
        case CpLocked(_) =>
        case CpInit(_, _) =>
      }
    }
  }

  lemma {:induction false} FailedHadAFailure(s: State, acts: seq<Action>, k: TaskId)
    requires Run(s, acts) && k in After(s, acts).tasks && After(s, acts).tasks[k].pc.Failed?
    ensures Fail(k) in acts || (k in s.tasks && s.tasks[k].pc.Failed?)
    decreases |acts|
  {
    if |acts| > 0 {
      FailedHadAFailure(Next(s, acts[0]), acts[1..], k);
      if Fail(k) !in acts {
        assert acts[0] != Fail(k);
        StepFailsNobodyElse(s, acts[0], k);
      }
    }
  }

  /** A call ends in failure only if one of its own awaits raised: nothing else fails it. */
  lemma OnlyFailuresFail(acts: seq<Action>, k: TaskId)
    requires Run(Initial(), acts)
    ensures var s := After(Initial(), acts); k in s.tasks && s.tasks[k].pc.Failed? ==> Fail(k) in acts
  {
    if k in After(Initial(), acts).tasks && After(Initial(), acts).tasks[k].pc.Failed? {
      FailedHadAFailure(Initial(), acts, k);
    }
  }

  lemma {:induction false} CallsOfRun(s: State, acts: seq<Action>, k: TaskId, slot: Slot)
    requires Run(s, acts)
    ensures var t := After(s, acts);
      k in t.tasks && t.tasks[k].want == slot <==> Spawn(k, slot) in acts || (k in s.tasks && s.tasks[k].want == slot)
    decreases |acts|
  {
    if |acts| > 0 {
      var s1 := Next(s, acts[0]);
      CallsOfRun(s1, acts[1..], k, slot);
      assert acts == [acts[0]] + acts[1..];
      CallsOfStep(s, acts[0], k, slot);
    }
  }

  lemma CallsOfStep(s: State, a: Action, k: TaskId, slot: Slot)
    requires Enabled(s, a)
    ensures var t := Next(s, a);
      k in t.tasks && t.tasks[k].want == slot <==> a == Spawn(k, slot) || (k in s.tasks && s.tasks[k].want == slot)
  {
    if !a.Spawn? {
      StepMovesOnly(s, a);
    }
  }

  lemma StepMovesOnly(s: State, a: Action)
    requires Enabled(s, a) && !a.Spawn?
    ensures MovesOnly(s, Next(s, a), a.k)
  {
  }

  /** The tasks are the calls that were made, each for the slot it asked for. */
  lemma TasksAreTheCalls(acts: seq<Action>, k: TaskId, slot: Slot)
    requires Run(Initial(), acts)
    ensures var s := After(Initial(), acts); k in s.tasks && s.tasks[k].want == slot <==> Spawn(k, slot) in acts
  {
    CallsOfRun(Initial(), acts, k, slot);
  }

  /** A call for a slot whose pool is published returns it in its first step, whoever holds which
      lock, and touches nothing. */
  lemma PublishedPoolIsServedAtOnce(s: State, k: TaskId, slot: Slot)
    requires Inv(s) && k !in s.tasks && PoolOf(s, slot).Some?
    ensures var s1 := Next(s, Spawn(k, slot));
      && Enabled(s1, Go(k))
      && Next(s1, Go(k)) == s.(tasks := s.tasks[k := Task(slot, Done(PoolOf(s, slot).value))])
  {
    var s1 := Next(s, Spawn(k, slot));
    assert s1.tasks[k].pc == if slot.ControlPlane? then CpCheck(None) else Start;
    assert s1.tasks[k := Task(slot, Done(PoolOf(s, slot).value))] ==
      s.tasks[k := Task(slot, Done(PoolOf(s, slot).value))];
  }

  // ------------------------------------------------------------------
  // The control plane comes first
  // ------------------------------------------------------------------

  /** Schools are provisioned, and their Databases registered, out of a published control plane. */
  ghost predicate ControlPlaneFirst(s: State) {
    && (forall x :: x in s.dbs && x.School? ==> PoolOf(s, ControlPlane).Some?)
    && (forall k :: k in s.tasks && s.tasks[k].pc.Provision? ==> PoolOf(s, ControlPlane).Some?)
  }

  lemma StepKeepsControlPlaneFirst(s: State, a: Action)
    requires Inv(s) && ControlPlaneFirst(s) && Enabled(s, a)
    ensures ControlPlaneFirst(Next(s, a))
  {
    if PoolOf(s, ControlPlane).Some? {
      StepKeepsPool(s, a, ControlPlane);
    } else if a.Go? {
      GoWithoutControlPlane(s, a.k);
    }
  }

  lemma GoWithoutControlPlane(s: State, k: TaskId)
    requires Inv(s) && ControlPlaneFirst(s) && Enabled(s, Go(k)) && PoolOf(s, ControlPlane).None?
    ensures ControlPlaneFirst(GoStep(s, k))
  {
    if BeforeLock(s.tasks[k].pc) {
      GuardStepLeavesSchools(s, k);
    } else if Outer(s.tasks[k].pc).Some? {
      CpStepWithoutControlPlane(s, k);
    } else {
      TenantStepWithoutControlPlane(s, k);
    }
  }

  lemma GuardStepLeavesSchools(s: State, k: TaskId)
    requires CanGo(s, k) && BeforeLock(s.tasks[k].pc) && s.tasks[k].want.School?
    ensures GuardStep(s, k).dbs == s.dbs && GuardStep(s, k).pools == s.pools
    ensures !GuardStep(s, k).tasks[k].pc.Provision?
  {
  }

  /** Such a task has a school in mind that has no Database yet. */
  lemma TenantStepWithoutControlPlane(s: State, k: TaskId)
    requires Inv(s) && ControlPlaneFirst(s) && CanGo(s, k) && Ready(s, k)
    requires !BeforeLock(s.tasks[k].pc) && Outer(s.tasks[k].pc).None? && PoolOf(s, ControlPlane).None?
    ensures ControlPlaneFirst(TenantStep(s, k))
  {
    assert TaskOk(s, s.tasks[k]);
    assert s.tasks[k].pc.LockWait? || s.tasks[k].pc.Locked?;
    var t := TenantStep(s, k);
    assert t.dbs == s.dbs && t.pools == s.pools && !t.tasks[k].pc.Provision?;
  }

  lemma CpStepWithoutControlPlane(s: State, k: TaskId)
    requires Inv(s) && ControlPlaneFirst(s) && CanGo(s, k) && Ready(s, k) && Outer(s.tasks[k].pc).Some?
    requires PoolOf(s, ControlPlane).None?
    ensures ControlPlaneFirst(CpStep(s, k))
  {
    assert TaskOk(s, s.tasks[k]);
    var t := CpStep(s, k);
    CpStepLeavesSchools(s, k);
    forall j | j in t.tasks && j != k ensures !t.tasks[j].pc.Provision? {
      assert t.tasks[j] == s.tasks[j];
    }
  }

  lemma CpStepLeavesSchools(s: State, k: TaskId)
    requires CanGo(s, k) && Ready(s, k) && Outer(s.tasks[k].pc).Some? && TaskOk(s, s.tasks[k])
    requires PoolOf(s, ControlPlane).None?
    ensures forall x: Slot :: x.School? && x in CpStep(s, k).dbs ==> x in s.dbs
    ensures !CpStep(s, k).tasks[k].pc.Provision?
  {
    match s.tasks[k].pc {
      case CpEnsure(o) => assert CpStep(s, k) == Move(NewDb(s, ControlPlane), k, CpConnect(o, s.nextId));
      case CpConnect(o, d) => assert CpStep(s, k) == Move(NewPool(s, ControlPlane, d), k, CpInit(o, d));
      case _ => CpReadKeepsData(s, k);
    }
  }

  lemma {:induction false} RunKeepsControlPlaneFirst(s: State, acts: seq<Action>)
    requires Inv(s) && ControlPlaneFirst(s) && Run(s, acts)
    ensures ControlPlaneFirst(After(s, acts))
    decreases |acts|
  {
    if |acts| > 0 {
      StepKeepsInv(s, acts[0]);
      StepKeepsControlPlaneFirst(s, acts[0]);
      RunKeepsControlPlaneFirst(Next(s, acts[0]), acts[1..]);
    }
  }

  /** Over every run, no school has a Database before the control plane has its pool. */
  lemma SchoolsFollowTheControlPlane(acts: seq<Action>, school: Slot)
    requires Run(Initial(), acts) && school.School?
    ensures var s := After(Initial(), acts); school in s.dbs ==> PoolOf(s, ControlPlane).Some?
  {
    RunKeepsControlPlaneFirst(Initial(), acts);
  }

  // ------------------------------------------------------------------
  // The history is complete
  // ------------------------------------------------------------------

  /** Every lock, Database and pool the manager holds is in the history. */
  ghost predicate Logged(locks: map<string, Id>, dbs: map<Slot, Id>, pools: map<Id, Id>, made: seq<Made>) {
    && (forall t :: t in locks ==> LockMade(School(t), locks[t]) in made)
    && (forall x :: x in dbs ==> DbMade(x, dbs[x]) in made)
    && (forall x :: x in dbs && dbs[x] in pools ==> PoolMade(x, pools[dbs[x]]) in made)
  }

  lemma LoggedNewDb(s: State, slot: Slot)
    requires Logged(s.locks, s.dbs, s.pools, s.made) && DbsDistinct(s.dbs, s.pools, s.nextId) && slot !in s.dbs
    ensures var t := NewDb(s, slot); Logged(t.locks, t.dbs, t.pools, t.made)
  {
    var t := NewDb(s, slot);
    assert t.made[|s.made|] == DbMade(slot, s.nextId);
    assert forall m :: m in s.made ==> m in t.made;
  }

  lemma LoggedNewPool(s: State, slot: Slot)
    requires Logged(s.locks, s.dbs, s.pools, s.made) && DbsDistinct(s.dbs, s.pools, s.nextId) && slot in s.dbs
    ensures var t := NewPool(s, slot, s.dbs[slot]); Logged(t.locks, t.dbs, t.pools, t.made)
  {
    var t := NewPool(s, slot, s.dbs[slot]);
    assert t.made[|s.made|] == PoolMade(slot, s.nextId);
    assert forall m :: m in s.made ==> m in t.made;
  }

  lemma GuardStepLogs(s: State, k: TaskId)
    requires Logged(s.locks, s.dbs, s.pools, s.made)
    requires CanGo(s, k) && BeforeLock(s.tasks[k].pc) && s.tasks[k].want.School?
    ensures var t := GuardStep(s, k); Logged(t.locks, t.dbs, t.pools, t.made)
  {
    var t, want := GuardStep(s, k), s.tasks[k].want;
    if s.tasks[k].pc.GuardHeld? && want.tenant !in s.locks {
      assert t.made[|s.made|] == LockMade(want, s.nextId);
      assert forall m :: m in s.made ==> m in t.made;
    }
  }

  lemma TenantStepLogs(s: State, k: TaskId)
    requires Logged(s.locks, s.dbs, s.pools, s.made) && DbsDistinct(s.dbs, s.pools, s.nextId)
    requires CanGo(s, k) && !BeforeLock(s.tasks[k].pc) && Outer(s.tasks[k].pc).None? && Ready(s, k)
      && TaskOk(s, s.tasks[k])
    ensures var t := TenantStep(s, k); Logged(t.locks, t.dbs, t.pools, t.made)
  {
    match s.tasks[k].pc {
      case Provision(_) => LoggedNewDb(s, s.tasks[k].want);
      case Connect(_, _) => LoggedNewPool(s, s.tasks[k].want);
      case _ =>
    }
  }

  lemma CpStepLogs(s: State, k: TaskId)
    requires Logged(s.locks, s.dbs, s.pools, s.made) && DbsDistinct(s.dbs, s.pools, s.nextId)
    requires CanGo(s, k) && Outer(s.tasks[k].pc).Some? && Ready(s, k) && TaskOk(s, s.tasks[k])
    ensures var t := CpStep(s, k); Logged(t.locks, t.dbs, t.pools, t.made)
  {
    match s.tasks[k].pc {
      case CpEnsure(_) => LoggedNewDb(s, ControlPlane);
      case CpConnect(_, _) => LoggedNewPool(s, ControlPlane);
      case _ => CpReadKeepsData(s, k);
    }
  }

  lemma StepLogs(s: State, a: Action)
    requires Inv(s) && Enabled(s, a) && Logged(s.locks, s.dbs, s.pools, s.made)
    ensures var t := Next(s, a); Logged(t.locks, t.dbs, t.pools, t.made)
  {
    if a.Go? {
      assert TaskOk(s, s.tasks[a.k]);
      var pc := s.tasks[a.k].pc;
      if BeforeLock(pc) { GuardStepLogs(s, a.k); }
      else if Outer(pc).Some? { CpStepLogs(s, a.k); }
      else { TenantStepLogs(s, a.k); }
    }
  }

  lemma {:induction false} RunLogs(s: State, acts: seq<Action>)
    requires Inv(s) && Run(s, acts) && Logged(s.locks, s.dbs, s.pools, s.made)
    ensures var t := After(s, acts); Logged(t.locks, t.dbs, t.pools, t.made)
    decreases |acts|
  {
    if |acts| > 0 {
      StepKeepsInv(s, acts[0]);
      StepLogs(s, acts[0]);
      RunLogs(Next(s, acts[0]), acts[1..]);
    }
  }

  /** Over every run the history holds exactly what the manager hands out: the pool of a slot is
      the one pool ever created for it. */
  lemma PoolIsTheOneCreated(acts: seq<Action>, slot: Slot, pool: Id)
    requires Run(Initial(), acts)
    ensures var s := After(Initial(), acts); PoolMade(slot, pool) in s.made <==> PoolOf(s, slot) == Some(pool)
  {
    RunKeepsInv(Initial(), acts);
    RunLogs(Initial(), acts);
    var s := After(Initial(), acts);
    assert PoolMade(slot, pool) in s.made ==> StillCurrent(s.locks, s.dbs, s.pools, PoolMade(slot, pool));
  }
}

/** `DatabaseManager` and `Database` themselves: fields updated in place, one method for
    each stretch of code between two awaits, each proved to be the matching step. */
module PoolManager {
  import opened Wrappers
  import opened PoolSteps

  class Database {
    const serial: Id
    var pool: Option<Id>

    constructor (serial: Id)
      ensures this.serial == serial && pool == None
    {
      this.serial := serial;
      pool := None;
    }
  }

  /** The ghost maps describe the stored objects. */
  ghost predicate Mirror(databases: map<Slot, Database>, serials: map<Slot, Id>, poolIds: map<Id, Id>)
    reads databases.Values
  {
    && serials.Keys == databases.Keys
    && (forall x :: x in databases ==> databases[x].serial == serials[x])
    && (forall x :: x in databases ==> databases[x].pool == PoolAt(serials, poolIds, x))
  }

  lemma MirrorOneMore(databases: map<Slot, Database>, serials: map<Slot, Id>, poolIds: map<Id, Id>, slot: Slot,
                      db: Database)
    requires Mirror(databases, serials, poolIds) && slot !in databases
    requires db.pool.None? && db.serial !in poolIds
    ensures Mirror(databases[slot := db], serials[slot := db.serial], poolIds)
  {
    var more, serials' := databases[slot := db], serials[slot := db.serial];
    forall x | x in more ensures more[x].pool == PoolAt(serials', poolIds, x) {
      assert x != slot ==> databases[x].pool == PoolAt(serials, poolIds, x);
    }
  }

  class DatabaseManager {
    var databases: map<Slot, Database>   // _databases, and _control_plane_db at ControlPlane
    var locks: map<string, Id>           // _locks
    var guard: Option<TaskId>
    var cpHolder: Option<TaskId>
    var holders: map<Id, TaskId>
    var tasks: map<TaskId, Task>
    var nextId: Id
    ghost var made: seq<Made>
    ghost var serials: map<Slot, Id>     // the identity of each registered Database
    ghost var poolIds: map<Id, Id>       // the pool of each Database that has one

    ghost predicate Valid()
      reads this, databases.Values
    {
      Mirror(databases, serials, poolIds) && DbsDistinct(serials, poolIds, nextId)
    }

    ghost function Abs(): State
      reads this
    {
      State(tasks, guard, cpHolder, locks, holders, serials, poolIds, nextId, made)
    }

    constructor ()
      ensures Valid() && Abs() == Initial()
    {
      databases, locks, guard, cpHolder, holders := map[], map[], None, None, map[];
      tasks, nextId, made, serials, poolIds := map[], 0, [], map[], map[];
    }

    method PoolAttribute(slot: Slot) returns (p: Option<Id>)
      requires Valid()
      ensures p == PoolOf(Abs(), slot)
    {
      p := if slot in databases then databases[slot].pool else None;
    }

    /** The fast path of `get_pool`, which takes no lock. */
    method EnterGetPool(k: TaskId)
      requires Valid() && CanGo(Abs(), k) && tasks[k].pc.Start? && tasks[k].want.School?
      modifies this`tasks
      ensures Valid() && Abs() == GuardStep(old(Abs()), k)
    {
      var p := PoolAttribute(tasks[k].want);
      tasks := tasks[k := tasks[k].(pc := if p.Some? then Done(p.value) else GuardWait)];
    }

    method AcquireGuard(k: TaskId)
      requires Valid() && CanGo(Abs(), k) && tasks[k].pc.GuardWait? && tasks[k].want.School?
      modifies this`tasks, this`guard
      ensures Valid() && Abs() == GuardStep(old(Abs()), k)
    {
      guard := Some(k);
      tasks := tasks[k := tasks[k].(pc := GuardHeld)];
    }

    /** `lock = self._locks.setdefault(tenant_id, asyncio.Lock())`, then leaving the guard. */
    method RegisterLock(k: TaskId)
      requires Valid() && CanGo(Abs(), k) && tasks[k].pc.GuardHeld? && tasks[k].want.School?
      modifies this
      ensures Valid() && databases == old(databases)
      ensures Abs() == GuardStep(old(Abs()), k)
    {
      var want := tasks[k].want;
      guard := None;
      if want.tenant !in locks {
        locks := locks[want.tenant := nextId];
        made := made + [LockMade(want, nextId)];
        nextId := nextId + 1;
      }
      tasks := tasks[k := tasks[k].(pc := LockWait(locks[want.tenant]))];
    }

    method AcquireTenantLock(k: TaskId)
      requires Valid() && CanGo(Abs(), k) && tasks[k].pc.LockWait?
      modifies this`tasks, this`holders
      ensures Valid() && Abs() == TenantStep(old(Abs()), k)
    {
      var l := tasks[k].pc.lock;
      holders := holders[l := k];
      tasks := tasks[k := tasks[k].(pc := Locked(l))];
    }

    /** The test `if tenant_id not in self._databases`, and the first line of `connect`. */
    method CheckRegistered(k: TaskId)
      requires Valid() && CanGo(Abs(), k) && tasks[k].pc.Locked?
      modifies this`tasks, this`holders
      ensures Valid() && Abs() == TenantStep(old(Abs()), k)
    {
      var want, l := tasks[k].want, tasks[k].pc.lock;
      var p := PoolAttribute(want);
      if want !in databases {
        tasks := tasks[k := tasks[k].(pc := CpCheck(Some(l)))];
      } else if p.Some? {
        holders := holders - {l};
        tasks := tasks[k := tasks[k].(pc := Done(p.value))];
      } else {
        tasks := tasks[k := tasks[k].(pc := Connect(l, databases[want].serial))];
      }
    }

    /** Storing a new Database under its slot. */
    method StoreDatabase(slot: Slot, db: Database)
      requires Mirror(databases, serials, poolIds) && slot !in databases
      requires db.serial == nextId && db.pool.None? && nextId !in poolIds
      modifies this`databases, this`nextId, this`made, this`serials
      ensures Mirror(databases, serials, poolIds)
      ensures Abs() == NewDb(old(Abs()), slot)
    {
      MirrorOneMore(databases, serials, poolIds, slot, db);
      databases := databases[slot := db];
      made := made + [DbMade(slot, nextId)];
      serials := serials[slot := nextId];
      nextId := nextId + 1;
    }

    /** `self.pool = await asyncpg.create_pool(...)` of the Database stored under `slot`. */
    method StorePool(slot: Slot)
      requires Valid() && slot in databases
      modifies databases[slot], this`nextId, this`made, this`poolIds
      ensures Valid() && databases == old(databases)
      ensures Abs() == NewPool(old(Abs()), slot, databases[slot].serial)
    {
      databases[slot].pool := Some(nextId);
      made := made + [PoolMade(slot, nextId)];
      poolIds := poolIds[databases[slot].serial := nextId];
      nextId := nextId + 1;
    }

    /** `self._databases[tenant_id] = Database(...)` once the schema exists. */
    method RegisterDatabase(k: TaskId)
      requires Valid() && CanGo(Abs(), k) && tasks[k].pc.Provision? && tasks[k].want !in databases
      modifies this
      ensures Valid() && Abs() == TenantStep(old(Abs()), k)
    {
      var l := tasks[k].pc.lock;
      var db := new Database(nextId);
      NewDbKeepsDistinct(serials, poolIds, nextId, tasks[k].want);
      StoreDatabase(tasks[k].want, db);
      tasks := tasks[k := tasks[k].(pc := Connect(l, db.serial))];
    }

    method PublishPool(k: TaskId)
      requires Valid() && CanGo(Abs(), k) && tasks[k].pc.Connect?
      requires tasks[k].want in databases && databases[tasks[k].want].serial == tasks[k].pc.db
      modifies this, databases[tasks[k].want]
      ensures Valid() && Abs() == TenantStep(old(Abs()), k)
    {
      var l, d := tasks[k].pc.lock, tasks[k].pc.db;
      StorePool(tasks[k].want);
      tasks := tasks[k := tasks[k].(pc := Init(l, d))];
    }

    /** `return self.pool` after the tenant's tables are initialised. */
    method FinishGetPool(k: TaskId)
      requires Valid() && CanGo(Abs(), k) && tasks[k].pc.Init?
      requires tasks[k].want in databases && databases[tasks[k].want].serial == tasks[k].pc.db
      requires databases[tasks[k].want].pool.Some?
      modifies this`tasks, this`holders
      ensures Valid() && Abs() == TenantStep(old(Abs()), k)
    {
      holders := holders - {tasks[k].pc.lock};
      tasks := tasks[k := tasks[k].(pc := Done(databases[tasks[k].want].pool.value))];
    }

    /** The fast path of `get_control_plane_pool`. */
    method EnterControlPlane(k: TaskId)
      requires Valid() && CanGo(Abs(), k) && tasks[k].pc.CpCheck?
      modifies this`tasks
      ensures Valid() && Abs() == CpStep(old(Abs()), k)
    {
      var o := tasks[k].pc.outer;
      var p := PoolAttribute(ControlPlane);
      tasks := tasks[k := tasks[k].(pc := if p.Some? then Returned(o, p.value) else CpWait(o))];
    }

    method AcquireControlPlaneLock(k: TaskId)
      requires Valid() && CanGo(Abs(), k) && tasks[k].pc.CpWait?
      modifies this`tasks, this`cpHolder
      ensures Valid() && Abs() == CpStep(old(Abs()), k)
    {
      cpHolder := Some(k);
      tasks := tasks[k := tasks[k].(pc := CpLocked(tasks[k].pc.outer))];
    }

    method CheckControlPlane(k: TaskId)
      requires Valid() && CanGo(Abs(), k) && tasks[k].pc.CpLocked?
      modifies this`tasks, this`cpHolder
      ensures Valid() && Abs() == CpStep(old(Abs()), k)
    {
      var o := tasks[k].pc.outer;
      var p := PoolAttribute(ControlPlane);
      if ControlPlane !in databases {
        tasks := tasks[k := tasks[k].(pc := CpEnsure(o))];
      } else if p.Some? {
        cpHolder := None;
        tasks := tasks[k := tasks[k].(pc := Returned(o, p.value))];
      } else {
        tasks := tasks[k := tasks[k].(pc := CpConnect(o, databases[ControlPlane].serial))];
      }
    }

    method RegisterControlPlane(k: TaskId)
      requires Valid() && CanGo(Abs(), k) && tasks[k].pc.CpEnsure? && ControlPlane !in databases
      modifies this
      ensures Valid() && Abs() == CpStep(old(Abs()), k)
    {
      var o := tasks[k].pc.outer;
      var db := new Database(nextId);
      NewDbKeepsDistinct(serials, poolIds, nextId, ControlPlane);
      StoreDatabase(ControlPlane, db);
      tasks := tasks[k := tasks[k].(pc := CpConnect(o, db.serial))];
    }

    method PublishControlPlanePool(k: TaskId)
      requires Valid() && CanGo(Abs(), k) && tasks[k].pc.CpConnect?
      requires ControlPlane in databases && databases[ControlPlane].serial == tasks[k].pc.db
      modifies this, databases[ControlPlane]
      ensures Valid() && Abs() == CpStep(old(Abs()), k)
    {
      var o, d := tasks[k].pc.outer, tasks[k].pc.db;
      StorePool(ControlPlane);
      tasks := tasks[k := tasks[k].(pc := CpInit(o, d))];
    }

    method FinishControlPlane(k: TaskId)
      requires Valid() && CanGo(Abs(), k) && tasks[k].pc.CpInit?
      requires ControlPlane in databases && databases[ControlPlane].serial == tasks[k].pc.db
      requires databases[ControlPlane].pool.Some?
      modifies this`tasks, this`cpHolder
      ensures Valid() && Abs() == CpStep(old(Abs()), k)
    {
      var o := tasks[k].pc.outer;
      cpHolder := None;
      tasks := tasks[k := tasks[k].(pc := Returned(o, databases[ControlPlane].pool.value))];
    }

    /** An exception leaves every `async with` block it passes through. */
    method Abandon(k: TaskId)
      requires Valid() && CanFail(Abs(), k)
      modifies this`tasks, this`cpHolder, this`holders
      ensures Valid() && Abs() == Next(old(Abs()), Fail(k))
    {
      var pc := tasks[k].pc;
      if HoldsControlPlane(pc) {
        cpHolder := None;
      }
      if HeldLock(pc).Some? {
        holders := holders - {HeldLock(pc).value};
      }
      tasks := tasks[k := tasks[k].(pc := Failed)];
    }
  }
}
