/**
 The file-mutation coordinator: a fair read/write gate over a registry of
 per-path mutexes that the registry itself holds only weakly.

 Workers are numbered, and every suspension point or shared-memory access of
 one acquisition is one atomic step, so a run of the system is any interleaving
 of those steps.
 */
module FileMutation {
  import opened Prelude

  /** The canonical identity a path resolves to. */
  type Path = string

  /** Where one worker stands in its acquisition, possession or release. */
  datatype Phase =
    | Idle
    | GateWait(write: bool)             // queued on the tree gate
    | Entered                           // read side held, identity not yet resolved
    | Resolved(id: Path)                // waiting for the registry
    | Pruning(id: Path)                 // registry held, about to prune
    | Looking(id: Path)                 // registry held, dead entries pruned
    | Locking(id: Path, m: nat)         // strong reference held, first poll of the mutex
    | Queued(id: Path, m: nat)          // suspended in the queue of the mutex
    | Guarded(id: Path, m: nat)         // owns a file guard
    | Unlocked(id: Path, m: nat)        // mutex released, strong reference not yet dropped
    | Leaving                           // only the read side is left to drop
    | TreeGuarded                       // owns a native-tree guard

  /** A mutex: its strong count, its owner, its queue and the path it was made for. */
  datatype PathMutex = PathMutex(strong: nat, owner: Option<nat>, queue: seq<nat>, home: Path)

  datatype State = State(
    phase: seq<Phase>,
    gateQueue: seq<nat>, readers: nat, writers: nat,
    registryOwner: Option<nat>, registry: map<Path, nat>,
    mutexes: seq<PathMutex>,
    cancelled: set<nat>)

  datatype Action =
    | Start(w: nat, alreadyCancelled: bool)
    | StartTree(w: nat)
    | Cancel(w: nat)
    | PollGate(w: nat)
    | Resolve(w: nat, identity: Option<Path>)
    | LockRegistry(w: nat)
    | Prune(w: nat)
    | UpgradeOrCreate(w: nat)
    | TryLock(w: nat)
    | PollLock(w: nat)
    | Unlock(w: nat)
    | DropReference(w: nat)
    | LeaveGate(w: nat)
    | DropTree(w: nat)

  predicate HoldsRead(p: Phase) {
    !p.Idle? && !p.GateWait? && !p.TreeGuarded?
  }

  predicate HoldsWrite(p: Phase) { p.TreeGuarded? }

  predicate HoldsReference(p: Phase) { p.Locking? || p.Queued? || p.Guarded? || p.Unlocked? }

  predicate HoldsRegistry(p: Phase) { p.Pruning? || p.Looking? }

  predicate RefersTo(p: Phase, m: nat) { HoldsReference(p) && p.m == m }

  function RefersToMutex(m: nat): Phase -> bool { (p: Phase) => RefersTo(p, m) }

  function Without(q: seq<nat>, w: nat): (r: seq<nat>)
    ensures forall x :: x in r <==> x in q && x != w
    ensures NoDuplicates(q) ==> NoDuplicates(r)
  {
    if q == [] then [] else
    var rest := Without(q[1..], w);
    assert q == [q[0]] + q[1..];
    assert NoDuplicates(q) ==> NoDuplicates(q[1..]) && q[0] !in q[1..];
    if q[0] == w then rest else
    assert forall j :: 0 <= j < |rest| ==> rest[j] in q[1..];
    [q[0]] + rest
  }

  predicate NoDuplicates(q: seq<nat>) { forall i, j :: 0 <= i < j < |q| ==> q[i] != q[j] }

  // ---- The steps ------------------------------------------------------------

  predicate GateOpensFor(s: State, write: bool) {
    s.writers == 0 && (write ==> s.readers == 0)
  }

  /** A reader whose token is cancelled; the native-tree lock takes no token. */
  predicate CancelledReader(s: State, w: nat)
    requires w < |s.phase|
  {
    w in s.cancelled && s.phase[w] == GateWait(false)
  }

  predicate Enabled(s: State, a: Action) {
    a.w < |s.phase| &&
    var p := s.phase[a.w];
    match a
    case Start(_, _) => p.Idle?
    case StartTree(_) => p.Idle?
    case Cancel(_) => true
    case PollGate(w) =>
      p.GateWait? &&
      (CancelledReader(s, w) || (s.gateQueue != [] && s.gateQueue[0] == w && GateOpensFor(s, p.write)))
    case Resolve(_, _) => p.Entered?
    case LockRegistry(_) => p.Resolved? && s.registryOwner == None
    case Prune(_) => p.Pruning?
    case UpgradeOrCreate(_) => p.Looking?
    case TryLock(_) => p.Locking? && p.m < |s.mutexes|
    case PollLock(w) =>
      p.Queued? && p.m < |s.mutexes| && s.mutexes[p.m].strong > 0 &&
      (w in s.cancelled ||
       (s.mutexes[p.m].owner == None && s.mutexes[p.m].queue != [] && s.mutexes[p.m].queue[0] == w))
    case Unlock(_) => p.Guarded? && p.m < |s.mutexes|
    case DropReference(_) => p.Unlocked? && p.m < |s.mutexes| && s.mutexes[p.m].strong > 0
    case LeaveGate(_) => p.Leaving? && s.readers > 0
    case DropTree(_) => p.TreeGuarded? && s.writers > 0
  }

  function Move(s: State, w: nat, p: Phase): State
    requires w < |s.phase|
  {
    s.(phase := s.phase[w := p])
  }

  /** The weak entries that a `retain` on positive strong counts keeps. */
  function LiveEntries(s: State): map<Path, nat> {
    map p | p in s.registry && s.registry[p] < |s.mutexes| && s.mutexes[s.registry[p]].strong > 0
      :: s.registry[p]
  }

  predicate Upgrades(s: State, id: Path) {
    id in s.registry && s.registry[id] < |s.mutexes| && s.mutexes[s.registry[id]].strong > 0
  }

  function SetMutex(s: State, m: nat, x: PathMutex): State
    requires m < |s.mutexes|
  {
    s.(mutexes := s.mutexes[m := x])
  }

  /** The effect of a step. */
  function Apply(s: State, a: Action): State
    requires Enabled(s, a)
  {
    var w := a.w;
    var p := s.phase[w];
    match a
    case Start(_, done) =>
      Move(s, w, GateWait(false))
        .(gateQueue := s.gateQueue + [w],
          cancelled := if done then s.cancelled + {w} else s.cancelled - {w})
    case StartTree(_) => Move(s, w, GateWait(true)).(gateQueue := s.gateQueue + [w])
    case Cancel(_) => s.(cancelled := s.cancelled + {w})
    case PollGate(_) =>
      if CancelledReader(s, w) then
        Move(s, w, Idle).(gateQueue := Without(s.gateQueue, w))
      else if p.write then
        Move(s, w, TreeGuarded).(gateQueue := s.gateQueue[1..], writers := s.writers + 1)
      else
        Move(s, w, Entered).(gateQueue := s.gateQueue[1..], readers := s.readers + 1)
    case Resolve(_, identity) =>
      Move(s, w, if identity.Some? then Resolved(identity.value) else Leaving)
    case LockRegistry(_) => Move(s, w, Pruning(p.id)).(registryOwner := Some(w))
    case Prune(_) => Move(s, w, Looking(p.id)).(registry := LiveEntries(s))
    case UpgradeOrCreate(_) =>
      var s1 := s.(registryOwner := None);
      if Upgrades(s, p.id) then
        var m := s.registry[p.id];
        SetMutex(Move(s1, w, Locking(p.id, m)), m, s.mutexes[m].(strong := s.mutexes[m].strong + 1))
      else
        var m := |s.mutexes|;
        Move(s1, w, Locking(p.id, m))
          .(mutexes := s.mutexes + [PathMutex(1, None, [], p.id)],
            registry := s.registry[p.id := m])
    case TryLock(_) =>
      var x := s.mutexes[p.m];
      if x.owner == None && x.queue == [] then
        SetMutex(Move(s, w, Guarded(p.id, p.m)), p.m, x.(owner := Some(w)))
      else
        SetMutex(Move(s, w, Queued(p.id, p.m)), p.m, x.(queue := x.queue + [w]))
    case PollLock(_) =>
      var x := s.mutexes[p.m];
      if w in s.cancelled then
        SetMutex(Move(s, w, Leaving), p.m, x.(strong := x.strong - 1, queue := Without(x.queue, w)))
      else
        SetMutex(Move(s, w, Guarded(p.id, p.m)), p.m, x.(owner := Some(w), queue := x.queue[1..]))
    case Unlock(_) =>
      SetMutex(Move(s, w, Unlocked(p.id, p.m)), p.m, s.mutexes[p.m].(owner := None))
    case DropReference(_) =>
      SetMutex(Move(s, w, Leaving), p.m, s.mutexes[p.m].(strong := s.mutexes[p.m].strong - 1))
    case LeaveGate(_) => Move(s, w, Idle).(readers := s.readers - 1)
    case DropTree(_) => Move(s, w, Idle).(writers := s.writers - 1)
  }

  ghost predicate Initial(s: State) {
    && (forall w :: 0 <= w < |s.phase| ==> s.phase[w] == Idle)
    && s.gateQueue == [] && s.readers == 0 && s.writers == 0
    && s.registryOwner == None && s.registry == map[] && s.mutexes == []
  }

  // ---- The invariant ----------------------------------------------------------

  ghost predicate GateInv(s: State) {
    && s.readers == CountWhere(s.phase, HoldsRead)
    && s.writers == CountWhere(s.phase, HoldsWrite)
    && (s.writers > 0 ==> s.writers == 1 && s.readers == 0)
    && NoDuplicates(s.gateQueue)
    && (forall w: nat :: w in s.gateQueue <==> w < |s.phase| && s.phase[w].GateWait?)
  }

  ghost predicate RegistryInv(s: State) {
    && (forall w: nat :: s.registryOwner == Some(w) <==> w < |s.phase| && HoldsRegistry(s.phase[w]))
    && (forall p :: p in s.registry ==>
          s.registry[p] < |s.mutexes| && s.mutexes[s.registry[p]].home == p)
    && (forall m :: 0 <= m < |s.mutexes| && s.mutexes[m].strong > 0 ==>
          s.mutexes[m].home in s.registry && s.registry[s.mutexes[m].home] == m)
  }

  ghost predicate CountInv(s: State) {
    forall m :: 0 <= m < |s.mutexes| ==>
      s.mutexes[m].strong == CountWhere(s.phase, RefersToMutex(m))
  }

  predicate OwnedBy(s: State, m: nat, w: nat) {
    w < |s.phase| && s.phase[w].Guarded? && s.phase[w].m == m
  }

  predicate WaitsFor(s: State, m: nat, w: nat) {
    w < |s.phase| && s.phase[w].Queued? && s.phase[w].m == m
  }

  ghost predicate MutexInv(s: State) {
    && (forall w :: 0 <= w < |s.phase| && HoldsReference(s.phase[w]) ==>
          s.phase[w].m < |s.mutexes| && s.mutexes[s.phase[w].m].home == s.phase[w].id)
    && (forall w :: 0 <= w < |s.phase| && s.phase[w].Guarded? ==>
          s.mutexes[s.phase[w].m].owner == Some(w))
    && (forall w :: 0 <= w < |s.phase| && s.phase[w].Queued? ==>
          w in s.mutexes[s.phase[w].m].queue)
    && (forall m :: 0 <= m < |s.mutexes| && s.mutexes[m].owner.Some? ==>
          OwnedBy(s, m, s.mutexes[m].owner.value))
    && (forall m, w: nat :: 0 <= m < |s.mutexes| && w in s.mutexes[m].queue ==> WaitsFor(s, m, w))
    && (forall m :: 0 <= m < |s.mutexes| ==> NoDuplicates(s.mutexes[m].queue))
  }

  ghost predicate Inv(s: State) { GateInv(s) && RegistryInv(s) && CountInv(s) && MutexInv(s) }

  lemma {:induction false} NobodyCounted(ps: seq<Phase>, p: Phase -> bool)
    requires forall w :: 0 <= w < |ps| ==> !p(ps[w])
    ensures CountWhere(ps, p) == 0
  {
    CountWherePositive(ps, p);
  }

  lemma InitialInv(s: State)
    requires Initial(s)
    ensures Inv(s)
  {
    NobodyCounted(s.phase, HoldsRead);
    NobodyCounted(s.phase, HoldsWrite);
  }

  /** Only the phase of `w` differs between `s` and `t`. */
  ghost predicate OnlyMoves(s: State, t: State, w: nat) {
    w < |s.phase| && |t.phase| == |s.phase| && t.phase == s.phase[w := t.phase[w]]
  }

  /** What moving one worker does to the gate's counts. */
  lemma GateCounts(s: State, t: State, w: nat)
    requires OnlyMoves(s, t, w)
    ensures CountWhere(t.phase, HoldsRead) == CountWhere(s.phase, HoldsRead)
              - (if HoldsRead(s.phase[w]) then 1 else 0) + (if HoldsRead(t.phase[w]) then 1 else 0)
    ensures CountWhere(t.phase, HoldsWrite) == CountWhere(s.phase, HoldsWrite)
              - (if HoldsWrite(s.phase[w]) then 1 else 0) + (if HoldsWrite(t.phase[w]) then 1 else 0)
  {
    CountWhereUpdate(s.phase, w, t.phase[w], HoldsRead);
    CountWhereUpdate(s.phase, w, t.phase[w], HoldsWrite);
  }

  /** Steps inside or outside the gate do not change it. */
  lemma GateFrame(s: State, t: State, w: nat)
    requires GateInv(s) && OnlyMoves(s, t, w)
    requires t.readers == s.readers && t.writers == s.writers && t.gateQueue == s.gateQueue
    requires HoldsRead(t.phase[w]) == HoldsRead(s.phase[w]) && HoldsWrite(t.phase[w]) == HoldsWrite(s.phase[w])
    requires !s.phase[w].GateWait? && !t.phase[w].GateWait?
    ensures GateInv(t)
  {
    GateCounts(s, t, w);
  }

  lemma GateInvStart(s: State, a: Action)
    requires GateInv(s) && Enabled(s, a) && (a.Start? || a.StartTree?)
    ensures GateInv(Apply(s, a))
  {
    var t := Apply(s, a);
    GateCounts(s, t, a.w);
    assert a.w !in s.gateQueue;
  }

  lemma GateInvPoll(s: State, a: Action)
    requires GateInv(s) && Enabled(s, a) && a.PollGate?
    ensures GateInv(Apply(s, a))
  {
    var t := Apply(s, a);
    GateCounts(s, t, a.w);
    if !CancelledReader(s, a.w) {
      var q := s.gateQueue;
      assert q == [q[0]] + q[1..];
      assert forall w: nat :: w in q[1..] <==> w in q && w != a.w;
    }
  }

  lemma GateInvLeave(s: State, a: Action)
    requires GateInv(s) && Enabled(s, a) && (a.LeaveGate? || a.DropTree?)
    ensures GateInv(Apply(s, a))
  {
    GateCounts(s, Apply(s, a), a.w);
  }

  lemma GateInvKept(s: State, a: Action)
    requires GateInv(s) && Enabled(s, a)
    ensures GateInv(Apply(s, a))
  {
    if a.Start? || a.StartTree? {
      GateInvStart(s, a);
    } else if a.PollGate? {
      GateInvPoll(s, a);
    } else if a.LeaveGate? || a.DropTree? {
      GateInvLeave(s, a);
    } else if !a.Cancel? {
      GateFrame(s, Apply(s, a), a.w);
    }
  }

  /** Steps that leave the registry alone and revive no mutex keep its invariant. */
  lemma RegistryFrame(s: State, t: State, w: nat)
    requires RegistryInv(s) && OnlyMoves(s, t, w)
    requires t.registry == s.registry && t.registryOwner == s.registryOwner
    requires HoldsRegistry(t.phase[w]) == HoldsRegistry(s.phase[w])
    requires |t.mutexes| == |s.mutexes|
    requires forall m :: 0 <= m < |s.mutexes| ==>
      t.mutexes[m].home == s.mutexes[m].home && (t.mutexes[m].strong > 0 ==> s.mutexes[m].strong > 0)
    ensures RegistryInv(t)
  {
  }

  lemma RegistryInvUpgrade(s: State, a: Action)
    requires RegistryInv(s) && Enabled(s, a) && a.UpgradeOrCreate?
    ensures RegistryInv(Apply(s, a))
  {
    var t := Apply(s, a);
    var id := s.phase[a.w].id;
    assert s.registryOwner == Some(a.w);
    if Upgrades(s, id) {
      assert t.mutexes == s.mutexes[s.registry[id] := t.mutexes[s.registry[id]]];
    } else {
      forall m | 0 <= m < |t.mutexes| && t.mutexes[m].strong > 0
        ensures t.mutexes[m].home in t.registry && t.registry[t.mutexes[m].home] == m
      {
        if m < |s.mutexes| {
          assert t.mutexes[m] == s.mutexes[m];
        }
      }
    }
  }

  lemma RegistryInvKept(s: State, a: Action)
    requires RegistryInv(s) && Enabled(s, a)
    ensures RegistryInv(Apply(s, a))
  {
    if a.UpgradeOrCreate? {
      RegistryInvUpgrade(s, a);
    } else if !a.LockRegistry? && !a.Prune? {
      RegistryFrame(s, Apply(s, a), a.w);
    }
  }

  lemma CountInvKept(s: State, a: Action)
    requires CountInv(s) && MutexInv(s) && RegistryInv(s) && Enabled(s, a)
    ensures CountInv(Apply(s, a))
  {
    var t := Apply(s, a);
    forall m | 0 <= m < |t.mutexes|
      ensures t.mutexes[m].strong == CountWhere(t.phase, RefersToMutex(m))
    {
      CountKeptAt(s, a, m);
    }
  }

  /** Each step changes the strong count of a mutex by what it does to references. */
  lemma ReferenceCount(s: State, t: State, w: nat, m: nat)
    requires OnlyMoves(s, t, w)
    ensures CountWhere(t.phase, RefersToMutex(m)) == CountWhere(s.phase, RefersToMutex(m))
              - (if RefersTo(s.phase[w], m) then 1 else 0) + (if RefersTo(t.phase[w], m) then 1 else 0)
  {
    CountWhereUpdate(s.phase, w, t.phase[w], RefersToMutex(m));
  }

  lemma CountKeptUpgrade(s: State, a: Action, m: nat)
    requires CountInv(s) && MutexInv(s) && Enabled(s, a) && a.UpgradeOrCreate? && m < |Apply(s, a).mutexes|
    ensures Apply(s, a).mutexes[m].strong == CountWhere(Apply(s, a).phase, RefersToMutex(m))
  {
    ReferenceCount(s, Apply(s, a), a.w, m);
    if m == |s.mutexes| {
      NobodyCounted(s.phase, RefersToMutex(m));
    }
  }

  /** Taking and releasing a mutex keeps the reference. */
  lemma CountKeptLock(s: State, a: Action, m: nat)
    requires CountInv(s) && Enabled(s, a) && (a.TryLock? || a.Unlock?) && m < |s.mutexes|
    ensures Apply(s, a).mutexes[m].strong == CountWhere(Apply(s, a).phase, RefersToMutex(m))
  {
    ReferenceCount(s, Apply(s, a), a.w, m);
  }

  lemma CountKeptDrop(s: State, a: Action, m: nat)
    requires CountInv(s) && Enabled(s, a) && (a.PollLock? || a.DropReference?) && m < |s.mutexes|
    ensures Apply(s, a).mutexes[m].strong == CountWhere(Apply(s, a).phase, RefersToMutex(m))
  {
    ReferenceCount(s, Apply(s, a), a.w, m);
  }

  lemma CountFrame(s: State, t: State, w: nat, m: nat)
    requires CountInv(s) && OnlyMoves(s, t, w) && t.mutexes == s.mutexes && m < |s.mutexes|
    requires !HoldsReference(s.phase[w]) && !HoldsReference(t.phase[w])
    ensures t.mutexes[m].strong == CountWhere(t.phase, RefersToMutex(m))
  {
    ReferenceCount(s, t, w, m);
  }

  lemma CountKeptAt(s: State, a: Action, m: nat)
    requires CountInv(s) && MutexInv(s) && Enabled(s, a) && m < |Apply(s, a).mutexes|
    ensures Apply(s, a).mutexes[m].strong == CountWhere(Apply(s, a).phase, RefersToMutex(m))
  {
    if a.UpgradeOrCreate? {
      CountKeptUpgrade(s, a, m);
    } else if a.TryLock? || a.Unlock? {
      CountKeptLock(s, a, m);
    } else if a.PollLock? || a.DropReference? {
      CountKeptDrop(s, a, m);
    } else if !a.Cancel? {
      CountFrame(s, Apply(s, a), a.w, m);
    }
  }

  lemma MutexFrame(s: State, t: State, w: nat)
    requires MutexInv(s) && OnlyMoves(s, t, w)
    requires !HoldsReference(t.phase[w]) && !HoldsReference(s.phase[w])
    requires t.mutexes == s.mutexes
    ensures MutexInv(t)
  {
  }

  /** A worker that gains a reference is in no queue and owns no mutex. */
  lemma MutexInvUpgrade(s: State, a: Action)
    requires MutexInv(s) && RegistryInv(s) && Enabled(s, a) && a.UpgradeOrCreate?
    ensures MutexInv(Apply(s, a))
  {
    var t := Apply(s, a);
    forall m | 0 <= m < |t.mutexes|
      ensures t.mutexes[m].owner.Some? ==> OwnedBy(t, m, t.mutexes[m].owner.value)
      ensures NoDuplicates(t.mutexes[m].queue)
      ensures forall w: nat :: w in t.mutexes[m].queue ==> WaitsFor(t, m, w)
    {
      if m < |s.mutexes| {
        assert t.mutexes[m].owner == s.mutexes[m].owner && t.mutexes[m].queue == s.mutexes[m].queue;
        assert forall w: nat :: w in s.mutexes[m].queue ==> WaitsFor(s, m, w);
      }
    }
    forall w | 0 <= w < |t.phase| && HoldsReference(t.phase[w])
      ensures t.phase[w].m < |t.mutexes| && t.mutexes[t.phase[w].m].home == t.phase[w].id
      ensures t.phase[w].Guarded? ==> t.mutexes[t.phase[w].m].owner == Some(w)
      ensures t.phase[w].Queued? ==> w in t.mutexes[t.phase[w].m].queue
    {
      if w != a.w { assert t.phase[w] == s.phase[w]; }
    }
  }

  lemma MutexInvTryLock(s: State, a: Action)
    requires MutexInv(s) && Enabled(s, a) && a.TryLock?
    ensures MutexInv(Apply(s, a))
  {
    assert !WaitsFor(s, s.phase[a.w].m, a.w);
    assert a.w !in s.mutexes[s.phase[a.w].m].queue;
  }

  lemma MutexInvPollLock(s: State, a: Action)
    requires MutexInv(s) && Enabled(s, a) && a.PollLock?
    ensures MutexInv(Apply(s, a))
  {
    var m := s.phase[a.w].m;
    assert a.w !in Without(s.mutexes[m].queue, a.w);
    if a.w !in s.cancelled {
      assert a.w !in s.mutexes[m].queue[1..];
    }
    forall k, w: nat | 0 <= k < |s.mutexes| && w in Apply(s, a).mutexes[k].queue
      ensures WaitsFor(Apply(s, a), k, w)
    {
      assert w in s.mutexes[k].queue;
      assert WaitsFor(s, k, w);
    }
  }

  lemma MutexInvRelease(s: State, a: Action)
    requires MutexInv(s) && Enabled(s, a) && (a.Unlock? || a.DropReference?)
    ensures MutexInv(Apply(s, a))
  {
  }

  lemma MutexInvKept(s: State, a: Action)
    requires MutexInv(s) && RegistryInv(s) && Enabled(s, a)
    ensures MutexInv(Apply(s, a))
  {
    match a
    case UpgradeOrCreate(_) => MutexInvUpgrade(s, a);
    case TryLock(_) => MutexInvTryLock(s, a);
    case PollLock(_) => MutexInvPollLock(s, a);
    case Unlock(_) => MutexInvRelease(s, a);
    case DropReference(_) => MutexInvRelease(s, a);
    case Cancel(_) =>
    case _ => MutexFrame(s, Apply(s, a), a.w);
  }

  // ---- Runs ---------------------------------------------------------------------

  /** `states` is what the system passes through when it takes the steps `acts`. */
  ghost predicate Run(states: seq<State>, acts: seq<Action>) {
    && |states| == |acts| + 1
    && Initial(states[0])
    && Follows(states, acts)
  }

  ghost predicate Follows(states: seq<State>, acts: seq<Action>) {
    && |states| == |acts| + 1
    && forall i :: 0 <= i < |acts| ==>
         Enabled(states[i], acts[i]) && states[i + 1] == Apply(states[i], acts[i])
  }

  lemma StepInv(s: State, a: Action)
    requires Inv(s) && Enabled(s, a)
    ensures Inv(Apply(s, a))
  {
    GateInvKept(s, a);
    RegistryInvKept(s, a);
    CountInvKept(s, a);
    MutexInvKept(s, a);
  }

  lemma {:induction false} RunInv(states: seq<State>, acts: seq<Action>, i: nat)
    requires Run(states, acts) && i < |states|
    ensures Inv(states[i])
  {
    if i == 0 {
      InitialInv(states[0]);
    } else {
      RunInv(states, acts, i - 1);
      StepInv(states[i - 1], acts[i - 1]);
    }
  }

  /** At most one mutex with live strong references exists per canonical path. */
  lemma OneLiveMutexPerPath(states: seq<State>, acts: seq<Action>, i: nat, m1: nat, m2: nat)
    requires Run(states, acts) && i < |states|
    requires m1 < |states[i].mutexes| && m2 < |states[i].mutexes|
    requires states[i].mutexes[m1].strong > 0 && states[i].mutexes[m2].strong > 0
    requires states[i].mutexes[m1].home == states[i].mutexes[m2].home
    ensures m1 == m2
  {
    RunInv(states, acts, i);
  }

  lemma ReferenceIsLive(s: State, w: nat)
    requires Inv(s) && w < |s.phase| && HoldsReference(s.phase[w])
    ensures s.phase[w].m < |s.mutexes| && s.mutexes[s.phase[w].m].strong > 0
    ensures s.mutexes[s.phase[w].m].home == s.phase[w].id
    ensures s.phase[w].id in s.registry && s.registry[s.phase[w].id] == s.phase[w].m
  {
    assert RefersToMutex(s.phase[w].m)(s.phase[w]);
    CountWherePositive(s.phase, RefersToMutex(s.phase[w].m));
  }

  /** No two live file guards ever share an identity. */
  lemma FileGuardsExclusive(states: seq<State>, acts: seq<Action>, i: nat, w1: nat, w2: nat)
    requires Run(states, acts) && i < |states|
    requires w1 < |states[i].phase| && w2 < |states[i].phase|
    requires states[i].phase[w1].Guarded? && states[i].phase[w2].Guarded?
    requires states[i].phase[w1].id == states[i].phase[w2].id
    ensures w1 == w2
  {
    RunInv(states, acts, i);
    ReferenceIsLive(states[i], w1);
    ReferenceIsLive(states[i], w2);
  }

  /** A native-tree guard never coexists with a file guard or with another tree guard. */
  lemma TreeGuardExcludesOthers(states: seq<State>, acts: seq<Action>, i: nat, w1: nat, w2: nat)
    requires Run(states, acts) && i < |states|
    requires w1 < |states[i].phase| && w2 < |states[i].phase|
    requires states[i].phase[w1].TreeGuarded?
    requires HoldsRead(states[i].phase[w2]) || states[i].phase[w2].TreeGuarded?
    ensures w1 == w2
  {
    RunInv(states, acts, i);
    var ps := states[i].phase;
    CountWherePositive(ps, HoldsWrite);
    CountWherePositive(ps, HoldsRead);
    if w1 != w2 {
      CountWhereUpdate(ps, w1, Idle, HoldsWrite);
      assert ps[w1 := Idle][w2] == ps[w2];
      CountWherePositive(ps[w1 := Idle], HoldsWrite);
    }
  }

  // ---- Progress -----------------------------------------------------------------

  /** Steps the system takes on its own; starting and cancelling are up to callers. */
  predicate Internal(a: Action) { !a.Start? && !a.StartTree? && !a.Cancel? }

  ghost predicate AllIdle(s: State) { forall w :: 0 <= w < |s.phase| ==> s.phase[w].Idle? }

  /** How many more steps a worker in phase `p` can take at most. */
  function Rank(p: Phase): nat {
    match p
    case Idle => 0
    case Leaving => 1
    case TreeGuarded => 1
    case Unlocked(_, _) => 2
    case Guarded(_, _) => 3
    case Queued(_, _) => 4
    case Locking(_, _) => 5
    case Looking(_) => 6
    case Pruning(_) => 7
    case Resolved(_) => 8
    case Entered => 9
    case GateWait(_) => 10
  }

  function TotalRank(ps: seq<Phase>): nat {
    if ps == [] then 0 else Rank(ps[0]) + TotalRank(ps[1..])
  }

  lemma {:induction false} TotalRankUpdate(ps: seq<Phase>, w: nat, p: Phase)
    requires w < |ps|
    ensures TotalRank(ps[w := p]) == TotalRank(ps) - Rank(ps[w]) + Rank(p)
  {
    if w == 0 {
      assert ps[0 := p][1..] == ps[1..];
    } else {
      assert ps[w := p][1..] == ps[1..][w - 1 := p];
      TotalRankUpdate(ps[1..], w - 1, p);
    }
  }

  /** Every internal step uses up work, whatever the interleaving. */
  lemma InternalStepsRunOut(s: State, a: Action)
    requires Enabled(s, a) && Internal(a)
    ensures TotalRank(Apply(s, a).phase) < TotalRank(s.phase)
  {
    var t := Apply(s, a);
    TotalRankUpdate(s.phase, a.w, t.phase[a.w]);
    assert t.phase == s.phase[a.w := t.phase[a.w]];
  }

  /** A worker past the gate can step, or the worker it waits for can. */
  lemma ReaderStep(s: State, w: nat) returns (a: Action)
    requires Inv(s) && w < |s.phase| && HoldsRead(s.phase[w])
    ensures Internal(a) && Enabled(s, a)
  {
    var p := s.phase[w];
    if HoldsReference(p) { ReferenceIsLive(s, w); }
    match p
    case Entered => a := Resolve(w, None);
    case Resolved(_) =>
      if s.registryOwner == None {
        a := LockRegistry(w);
      } else {
        var r := s.registryOwner.value;
        a := if s.phase[r].Pruning? then Prune(r) else UpgradeOrCreate(r);
      }
    case Pruning(_) => a := Prune(w);
    case Looking(_) => a := UpgradeOrCreate(w);
    case Locking(_, _) => a := TryLock(w);
    case Queued(_, m) =>
      if s.mutexes[m].owner == None {
        var head := s.mutexes[m].queue[0];
        assert WaitsFor(s, m, head);
        a := PollLock(head);
      } else {
        assert OwnedBy(s, m, s.mutexes[m].owner.value);
        a := Unlock(s.mutexes[m].owner.value);
      }
    case Guarded(_, _) => a := Unlock(w);
    case Unlocked(_, _) => a := DropReference(w);
    case Leaving =>
      CountWherePositive(s.phase, HoldsRead);
      a := LeaveGate(w);
  }

  /** The gate comes before the path, so there is no wait cycle: some worker can step. */
  lemma NoDeadlock(s: State) returns (a: Action)
    requires Inv(s) && !AllIdle(s)
    ensures Internal(a) && Enabled(s, a)
  {
    CountWherePositive(s.phase, HoldsRead);
    CountWherePositive(s.phase, HoldsWrite);
    var busy :| 0 <= busy < |s.phase| && !s.phase[busy].Idle?;
    if w :| 0 <= w < |s.phase| && HoldsRead(s.phase[w]) {
      a := ReaderStep(s, w);
    } else if w :| 0 <= w < |s.phase| && HoldsWrite(s.phase[w]) {
      a := DropTree(w);
    } else {
      assert s.phase[busy].GateWait? && busy in s.gateQueue;
      a := PollGate(s.gateQueue[0]);
    }
  }

  /** From every reachable state some schedule of internal steps brings all workers to rest. */
  lemma {:induction false} Drains(s: State) returns (states: seq<State>, acts: seq<Action>)
    requires Inv(s)
    ensures Follows(states, acts) && states[0] == s && AllIdle(states[|acts|])
    ensures forall i :: 0 <= i < |acts| ==> Internal(acts[i])
    ensures |acts| <= TotalRank(s.phase)
    decreases TotalRank(s.phase)
  {
    if AllIdle(s) {
      states, acts := [s], [];
    } else {
      var a := NoDeadlock(s);
      InternalStepsRunOut(s, a);
      StepInv(s, a);
      var states', acts' := Drains(Apply(s, a));
      states, acts := [s] + states', [a] + acts';
      forall i | 0 <= i < |acts|
        ensures Enabled(states[i], acts[i]) && states[i + 1] == Apply(states[i], acts[i])
        ensures Internal(acts[i])
      {
        if i > 0 { assert Enabled(states'[i - 1], acts'[i - 1]) && Internal(acts'[i - 1]); }
      }
    }
  }

  // ---- Every schedule ------------------------------------------------------------------------

  ghost predicate InternalRun(states: seq<State>, acts: seq<Action>) {
    Follows(states, acts) && forall i :: 0 <= i < |acts| ==> Internal(acts[i])
  }

  lemma FollowsStep(states: seq<State>, acts: seq<Action>, i: nat)
    requires Follows(states, acts) && i < |acts|
    ensures Enabled(states[i], acts[i]) && states[i + 1] == Apply(states[i], acts[i])
  {
  }

  lemma {:induction false} InternalRunKeeps(states: seq<State>, acts: seq<Action>, i: nat)
    requires InternalRun(states, acts) && Inv(states[0]) && i < |states|
    ensures Inv(states[i]) && TotalRank(states[i].phase) + i <= TotalRank(states[0].phase)
  {
    if i > 0 {
      InternalRunKeeps(states, acts, i - 1);
      FollowsStep(states, acts, i - 1);
      StepInv(states[i - 1], acts[i - 1]);
      InternalStepsRunOut(states[i - 1], acts[i - 1]);
    }
  }

  lemma IdleHasNoStep(s: State, a: Action)
    requires AllIdle(s) && Internal(a)
    ensures !Enabled(s, a)
  {
  }

  /**
   Whatever the schedule: internal steps run out after boundedly many, and they have run out
   exactly when every worker is idle.
   */
  lemma EveryScheduleDrains(states: seq<State>, acts: seq<Action>)
    requires InternalRun(states, acts) && Inv(states[0])
    ensures |acts| <= TotalRank(states[0].phase)
    ensures (forall a :: Internal(a) ==> !Enabled(states[|acts|], a)) <==> AllIdle(states[|acts|])
  {
    InternalRunKeeps(states, acts, |acts|);
    var t := states[|acts|];
    if AllIdle(t) {
      forall a | Internal(a) ensures !Enabled(t, a) { IdleHasNoStep(t, a); }
    } else {
      var a := NoDeadlock(t);
    }
  }

  /** On the way to a file guard, with a token that is not cancelled. */
  predicate OnTheWay(s: State, w: nat) {
    && w < |s.phase| && w !in s.cancelled
    && (s.phase[w] == GateWait(false) || s.phase[w].Entered? || s.phase[w].Resolved? || s.phase[w].Pruning?
        || s.phase[w].Looking? || s.phase[w].Locking? || s.phase[w].Queued?)
  }

  lemma OnTheWayStep(s: State, a: Action, w: nat)
    requires OnTheWay(s, w) && Enabled(s, a) && Internal(a) && a != Resolve(w, None)
    ensures OnTheWay(Apply(s, a), w) || (w < |s.phase| && Apply(s, a).phase[w].Guarded?)
  {
  }

  lemma {:induction false} OnTheWayOrServed(states: seq<State>, acts: seq<Action>, w: nat, i: nat)
    requires InternalRun(states, acts) && OnTheWay(states[0], w) && i < |states|
    requires forall k :: 0 <= k < |acts| ==> acts[k] != Resolve(w, None)
    ensures OnTheWay(states[i], w) || exists k :: 0 < k <= i && w < |states[k].phase| && states[k].phase[w].Guarded?
  {
    if i > 0 {
      OnTheWayOrServed(states, acts, w, i - 1);
      if OnTheWay(states[i - 1], w) {
        FollowsStep(states, acts, i - 1);
        OnTheWayStep(states[i - 1], acts[i - 1], w);
      }
    }
  }

  /**
   In every schedule that runs until nothing is left to do, a waiter that is not cancelled
   and whose path resolves gets its guard.
   */
  lemma WaiterIsServed(states: seq<State>, acts: seq<Action>, w: nat) returns (k: nat)
    requires InternalRun(states, acts) && Inv(states[0]) && OnTheWay(states[0], w)
    requires forall i :: 0 <= i < |acts| ==> acts[i] != Resolve(w, None)
    requires forall a :: Internal(a) ==> !Enabled(states[|acts|], a)
    ensures 0 < k < |states| && w < |states[k].phase| && states[k].phase[w].Guarded?
  {
    EveryScheduleDrains(states, acts);
    OnTheWayOrServed(states, acts, w, |acts|);
    k :| 0 < k <= |acts| && w < |states[k].phase| && states[k].phase[w].Guarded?;
  }

  lemma TreeWaiterStep(s: State, a: Action, w: nat)
    requires w < |s.phase| && s.phase[w] == GateWait(true) && Enabled(s, a) && Internal(a)
    ensures Apply(s, a).phase[w] == GateWait(true) || Apply(s, a).phase[w].TreeGuarded?
  {
  }

  lemma {:induction false} TreeWaiterOrServed(states: seq<State>, acts: seq<Action>, w: nat, i: nat)
    requires InternalRun(states, acts) && w < |states[0].phase| && states[0].phase[w] == GateWait(true) && i < |states|
    ensures (w < |states[i].phase| && states[i].phase[w] == GateWait(true))
         || exists k :: 0 < k <= i && w < |states[k].phase| && states[k].phase[w].TreeGuarded?
  {
    if i > 0 {
      TreeWaiterOrServed(states, acts, w, i - 1);
      if w < |states[i - 1].phase| && states[i - 1].phase[w] == GateWait(true) {
        FollowsStep(states, acts, i - 1);
        TreeWaiterStep(states[i - 1], acts[i - 1], w);
      }
    }
  }

  /** And so does every waiter for the whole tree. */
  lemma TreeWaiterIsServed(states: seq<State>, acts: seq<Action>, w: nat) returns (k: nat)
    requires InternalRun(states, acts) && Inv(states[0]) && w < |states[0].phase| && states[0].phase[w] == GateWait(true)
    requires forall a :: Internal(a) ==> !Enabled(states[|acts|], a)
    ensures 0 < k < |states| && w < |states[k].phase| && states[k].phase[w].TreeGuarded?
  {
    EveryScheduleDrains(states, acts);
    TreeWaiterOrServed(states, acts, w, |acts|);
    k :| 0 < k <= |acts| && w < |states[k].phase| && states[k].phase[w].TreeGuarded?;
  }

  // ---- Acquiring without contention --------------------------------------------------

  ghost predicate Step(s: State, a: Action, t: State) { Enabled(s, a) && t == Apply(s, a) }

  /** Nobody is in the way of an acquisition of `id`. */
  ghost predicate Free(s: State, w: nat, id: Path) {
    && w < |s.phase| && s.phase[w] == Idle
    && s.gateQueue == [] && s.writers == 0 && s.registryOwner == None && !Upgrades(s, id)
  }

  lemma EnterGate(s: State, w: nat, id: Path) returns (s1: State, s2: State, s3: State)
    requires Free(s, w, id)
    ensures Step(s, Start(w, false), s1) && Step(s1, PollGate(w), s2) && Step(s2, Resolve(w, Some(id)), s3)
    ensures s3 == s.(phase := s.phase[w := Resolved(id)], readers := s.readers + 1, cancelled := s.cancelled - {w})
  {
    s1 := Apply(s, Start(w, false));
    assert s1.gateQueue == [w] && s1.phase[w] == GateWait(false);
    s2 := Apply(s1, PollGate(w));
    s3 := Apply(s2, Resolve(w, Some(id)));
    assert s3.gateQueue == [];
    assert s3.phase == s.phase[w := Resolved(id)];
  }

  lemma Register(s: State, w: nat, id: Path) returns (s1: State, s2: State, s3: State)
    requires w < |s.phase| && s.phase[w] == Resolved(id) && s.registryOwner == None && !Upgrades(s, id)
    ensures Step(s, LockRegistry(w), s1) && Step(s1, Prune(w), s2) && Step(s2, UpgradeOrCreate(w), s3)
    ensures s3 == s.(phase := s.phase[w := Locking(id, |s.mutexes|)],
                     mutexes := s.mutexes + [PathMutex(1, None, [], id)],
                     registry := LiveEntries(s)[id := |s.mutexes|])
  {
    s1 := Apply(s, LockRegistry(w));
    s2 := Apply(s1, Prune(w));
    assert s2.registry == LiveEntries(s);
    s3 := Apply(s2, UpgradeOrCreate(w));
    assert s3.phase == s.phase[w := Locking(id, |s.mutexes|)];
  }

  lemma FollowsExtends(states: seq<State>, acts: seq<Action>, a: Action, t: State)
    requires Follows(states, acts) && Step(states[|acts|], a, t)
    ensures Follows(states + [t], acts + [a])
  {
    var states', acts' := states + [t], acts + [a];
    forall i | 0 <= i < |acts'| ensures Enabled(states'[i], acts'[i]) && states'[i + 1] == Apply(states'[i], acts'[i]) {
      if i < |acts| { assert Enabled(states[i], acts[i]); }
    }
  }

  lemma ThreeMore(states: seq<State>, acts: seq<Action>, a1: Action, t1: State, a2: Action, t2: State, a3: Action, t3: State)
    requires Follows(states, acts) && Step(states[|acts|], a1, t1) && Step(t1, a2, t2) && Step(t2, a3, t3)
    ensures Follows(states + [t1] + [t2] + [t3], acts + [a1] + [a2] + [a3])
  {
    FollowsExtends(states, acts, a1, t1);
    FollowsExtends(states + [t1], acts + [a1], a2, t2);
    FollowsExtends(states + [t1] + [t2], acts + [a1] + [a2], a3, t3);
  }

  /** The state after worker `w` acquired `id` through a new mutex. */
  ghost function Acquired(s: State, w: nat, id: Path): State
    requires w < |s.phase|
  {
    s.(phase := s.phase[w := Guarded(id, |s.mutexes|)], readers := s.readers + 1, cancelled := s.cancelled - {w},
       mutexes := s.mutexes + [PathMutex(1, Some(w), [], id)], registry := LiveEntries(s)[id := |s.mutexes|])
  }

  /** Unopposed, an acquisition takes seven steps to its guard and leaves everyone else alone. */
  lemma UncontendedAcquire(states: seq<State>, acts: seq<Action>, w: nat, id: Path)
    returns (states': seq<State>, acts': seq<Action>)
    requires Follows(states, acts) && Free(states[|acts|], w, id)
    ensures Follows(states', acts') && |acts'| == |acts| + 7 && states'[0] == states[0]
    ensures states'[|acts'|] == Acquired(states[|acts|], w, id)
  {
    var s := states[|acts|];
    var s1, s2, s3 := EnterGate(s, w, id);
    ThreeMore(states, acts, Start(w, false), s1, PollGate(w), s2, Resolve(w, Some(id)), s3);
    states', acts' := states + [s1] + [s2] + [s3], acts + [Start(w, false)] + [PollGate(w)] + [Resolve(w, Some(id))];
    var s4, s5, s6 := Register(s3, w, id);
    ThreeMore(states', acts', LockRegistry(w), s4, Prune(w), s5, UpgradeOrCreate(w), s6);
    states', acts' := states' + [s4] + [s5] + [s6], acts' + [LockRegistry(w)] + [Prune(w)] + [UpgradeOrCreate(w)];
    var s7 := TakeNew(s6, w, id);
    FollowsExtends(states', acts', TryLock(w), s7);
    states', acts' := states' + [s7], acts' + [TryLock(w)];
    AcquiredEnd(s, w, id, s3, s6, s7);
  }

  lemma TakeNew(s: State, w: nat, id: Path) returns (t: State)
    requires w < |s.phase| && |s.mutexes| > 0 && s.phase[w] == Locking(id, |s.mutexes| - 1)
    requires s.mutexes[|s.mutexes| - 1] == PathMutex(1, None, [], id)
    ensures Step(s, TryLock(w), t)
    ensures t == s.(phase := s.phase[w := Guarded(id, |s.mutexes| - 1)],
                    mutexes := s.mutexes[|s.mutexes| - 1 := PathMutex(1, Some(w), [], id)])
  {
    t := Apply(s, TryLock(w));
  }

  lemma AcquiredEnd(s: State, w: nat, id: Path, s3: State, s6: State, s7: State)
    requires w < |s.phase|
    requires s3 == s.(phase := s.phase[w := Resolved(id)], readers := s.readers + 1, cancelled := s.cancelled - {w})
    requires s6 == s3.(phase := s3.phase[w := Locking(id, |s3.mutexes|)],
                       mutexes := s3.mutexes + [PathMutex(1, None, [], id)],
                       registry := LiveEntries(s3)[id := |s3.mutexes|])
    requires s7 == s6.(phase := s6.phase[w := Guarded(id, |s6.mutexes| - 1)],
                       mutexes := s6.mutexes[|s6.mutexes| - 1 := PathMutex(1, Some(w), [], id)])
    ensures s7 == Acquired(s, w, id)
  {
    assert LiveEntries(s3) == LiveEntries(s);
    assert s7.phase == s.phase[w := Guarded(id, |s.mutexes|)];
    assert s7.mutexes == s.mutexes + [PathMutex(1, Some(w), [], id)];
  }

  /** Guards of different paths do coexist: the mutual exclusion is per path. */
  lemma TwoGuardsTogether(id1: Path, id2: Path) returns (states: seq<State>, acts: seq<Action>)
    requires id1 != id2
    ensures Run(states, acts)
    ensures var t := states[|acts|];
            |t.phase| == 2 && t.phase[0] == Guarded(id1, 0) && t.phase[1] == Guarded(id2, 1)
  {
    var s := State([Idle, Idle], [], 0, 0, None, map[], [], {});
    states, acts := [s], [];
    states, acts := UncontendedAcquire(states, acts, 0, id1);
    states, acts := UncontendedAcquire(states, acts, 1, id2);
  }

  // ---- Cancellation -------------------------------------------------------------

  /** Suspended at an await point with a cancelled token, or already on the way out. */
  predicate Doomed(s: State, w: nat) {
    && w < |s.phase| && w in s.cancelled
    && (s.phase[w] == GateWait(false) || s.phase[w].Queued? || s.phase[w].Leaving? || s.phase[w].Idle?)
  }

  lemma DoomedKept(s: State, a: Action, w: nat)
    requires Doomed(s, w) && Enabled(s, a)
    requires a.w == w ==> !a.Start? && !a.StartTree?
    ensures Doomed(Apply(s, a), w)
  {
  }

  /**
   A waiter whose token is cancelled before it is polled never gets a guard,
   however the run goes on.
   */
  lemma {:induction false} CancelledWaiterNeverGuarded(
    states: seq<State>, acts: seq<Action>, w: nat, i: nat, j: nat)
    requires Follows(states, acts) && i <= j < |states| && Doomed(states[i], w)
    requires forall k :: i <= k < j && acts[k].w == w ==> !acts[k].Start? && !acts[k].StartTree?
    ensures Doomed(states[j], w) && !states[j].phase[w].Guarded?
    decreases j - i
  {
    if i < j {
      DoomedKept(states[i], acts[i], w);
      CancelledWaiterNeverGuarded(states, acts, w, i + 1, j);
    }
  }

  /** Step `k` cancels the waiter `w`, or starts `w` with a token that is cancelled already. */
  ghost predicate CancelsAt(states: seq<State>, acts: seq<Action>, w: nat, k: nat)
    requires |states| == |acts| + 1
  {
    && k < |acts| && w < |states[k].phase|
    && (|| (acts[k] == Cancel(w) && (states[k].phase[w] == GateWait(false) || states[k].phase[w].Queued?))
        || acts[k] == Start(w, true))
  }

  lemma CancelDooms(states: seq<State>, acts: seq<Action>, w: nat, k: nat)
    requires Follows(states, acts) && CancelsAt(states, acts, w, k)
    ensures Doomed(states[k + 1], w)
  {
    FollowsStep(states, acts, k);
  }

  /**
   Cancelling a waiter prevents a late write: from that step on it holds no guard in any
   later state of any run, unless it is started again. The same holds for an acquisition
   that starts with a cancelled token.
   */
  lemma CancellationPreventsGuard(states: seq<State>, acts: seq<Action>, w: nat, k: nat, j: nat)
    requires Follows(states, acts) && CancelsAt(states, acts, w, k) && k < j < |states|
    requires forall i :: k < i < j && acts[i].w == w ==> !acts[i].Start? && !acts[i].StartTree?
    ensures w < |states[j].phase| && !states[j].phase[w].Guarded?
  {
    CancelDooms(states, acts, w, k);
    CancelledWaiterNeverGuarded(states, acts, w, k + 1, j);
  }

  /** And nothing but a cancellation prevents it: an acquisition that starts uncancelled gets its guard. */
  lemma StartedIsServed(s: State, w: nat, states: seq<State>, acts: seq<Action>) returns (k: nat)
    requires Inv(s) && Enabled(s, Start(w, false)) && InternalRun(states, acts) && states[0] == Apply(s, Start(w, false))
    requires forall i :: 0 <= i < |acts| ==> acts[i] != Resolve(w, None)
    requires forall a :: Internal(a) ==> !Enabled(states[|acts|], a)
    ensures 0 < k < |states| && w < |states[k].phase| && states[k].phase[w].Guarded?
  {
    StepInv(s, Start(w, false));
    k := WaiterIsServed(states, acts, w);
  }

  // ---- Fairness -----------------------------------------------------------------

  /** `v` does not stand before `w`. */
  ghost predicate NotAhead(q: seq<nat>, v: nat, w: nat) {
    forall i, j :: 0 <= i < j < |q| && q[i] == v ==> q[j] != w
  }

  lemma NotAheadAppended(q: seq<nat>, x: nat, v: nat, w: nat)
    requires x != w && (v in q ==> NotAhead(q, v, w))
    ensures NotAhead(q + [x], v, w)
  {
    forall i, j | 0 <= i < j < |q + [x]| && (q + [x])[i] == v ensures (q + [x])[j] != w {
      if j < |q| { assert q[i] == v; }
    }
  }

  lemma NotAheadTail(q: seq<nat>, v: nat, w: nat)
    requires q != [] && NotAhead(q, v, w)
    ensures NotAhead(q[1..], v, w)
    ensures q[0] == v ==> w !in q[1..]
  {
    forall i, j | 0 <= i < j < |q[1..]| && q[1..][i] == v ensures q[1..][j] != w {
      assert q[i + 1] == v && q[j + 1] == q[1..][j];
    }
    forall j | 0 <= j < |q[1..]| ensures q[0] == v ==> q[1..][j] != w {
      assert q[j + 1] == q[1..][j];
    }
  }

  lemma {:induction false} NotAheadWithout(q: seq<nat>, x: nat, v: nat, w: nat)
    requires NotAhead(q, v, w)
    ensures NotAhead(Without(q, x), v, w)
  {
    if q != [] {
      NotAheadTail(q, v, w);
      NotAheadWithout(q[1..], x, v, w);
      var rest, r := Without(q[1..], x), Without(q, x);
      forall i, j | 0 <= i < j < |r| && r[i] == v ensures r[j] != w {
        if q[0] != x {
          assert r == [q[0]] + rest;
          if i == 0 { assert rest[j - 1] in q[1..]; } else { assert rest[i - 1] == v; }
        }
      }
    }
  }

  predicate AtGate(s: State, w: nat) { w < |s.phase| && s.phase[w].GateWait? }

  predicate Outside(s: State, w: nat) { w < |s.phase| && s.phase[w].Idle? }

  /** `w` waits at the gate, and `v` has not come to it or waits behind `w`. */
  ghost predicate BehindAtGate(s: State, v: nat, w: nat) {
    AtGate(s, w) && (Outside(s, v) || (AtGate(s, v) && NotAhead(s.gateQueue, v, w)))
  }

  lemma GatePollKeepsOrder(s: State, x: nat, v: nat, w: nat, t: State)
    requires GateInv(s) && Enabled(s, PollGate(x)) && BehindAtGate(s, v, w) && t == Apply(s, PollGate(x)) && AtGate(t, w)
    ensures BehindAtGate(t, v, w)
  {
    var q := s.gateQueue;
    if AtGate(s, v) {
      NotAheadWithout(q, x, v, w);
      if !CancelledReader(s, x) {
        NotAheadTail(q, v, w);
        assert q == [q[0]] + q[1..];
      }
    }
  }

  lemma GateStepKeepsOrder(s: State, a: Action, v: nat, w: nat, t: State)
    requires GateInv(s) && Enabled(s, a) && BehindAtGate(s, v, w) && t == Apply(s, a) && AtGate(t, w)
    ensures BehindAtGate(t, v, w)
  {
    match a
    case Start(x, _) => NotAheadAppended(s.gateQueue, x, v, w);
    case StartTree(x) => NotAheadAppended(s.gateQueue, x, v, w);
    case PollGate(x) => GatePollKeepsOrder(s, x, v, w, t);
    case _ =>
  }

  /** The gate is fair: who comes to it while `w` waits does not get in before `w`. */
  lemma GateIsFair(states: seq<State>, acts: seq<Action>, i: nat, k: nat, v: nat, w: nat)
    requires Run(states, acts) && i <= k < |states|
    requires Outside(states[i], v) && forall j :: i <= j <= k ==> AtGate(states[j], w)
    ensures BehindAtGate(states[k], v, w)
  {
    var behind := (j: nat) => j < |states| && BehindAtGate(states[j], v, w);
    assert AtGate(states[i], w);
    forall j: nat | i <= j < k && behind(j) ensures behind(j + 1) {
      assert AtGate(states[j + 1], w);
      GateOrderInRun(states, acts, j, v, w);
    }
    StaysTrue(behind, i, k);
  }

  lemma GateOrderInRun(states: seq<State>, acts: seq<Action>, i: nat, v: nat, w: nat)
    requires Run(states, acts) && i < |acts| && BehindAtGate(states[i], v, w) && AtGate(states[i + 1], w)
    ensures BehindAtGate(states[i + 1], v, w)
  {
    RunInv(states, acts, i);
    RunStep(states, acts, i);
    GateStepKeepsOrder(states[i], acts[i], v, w, states[i + 1]);
  }

  lemma RunStep(states: seq<State>, acts: seq<Action>, i: nat)
    requires Run(states, acts) && i < |acts|
    ensures Enabled(states[i], acts[i]) && states[i + 1] == Apply(states[i], acts[i])
  {
  }

  /** `w` waits for the mutex, and `v` neither owns it nor waits before `w`. */
  ghost predicate BehindAtMutex(s: State, m: nat, v: nat, w: nat) {
    && m < |s.mutexes| && v < |s.phase|
    && WaitsFor(s, m, w) && !OwnedBy(s, m, v)
    && (v in s.mutexes[m].queue ==> NotAhead(s.mutexes[m].queue, v, w))
  }

  lemma TryLockKeepsOrder(s: State, x: nat, m: nat, v: nat, w: nat, t: State)
    requires MutexInv(s) && Enabled(s, TryLock(x)) && BehindAtMutex(s, m, v, w) && t == Apply(s, TryLock(x))
    requires WaitsFor(t, m, w)
    ensures BehindAtMutex(t, m, v, w)
  {
    assert w in s.mutexes[m].queue;
    NotAheadAppended(s.mutexes[m].queue, x, v, w);
  }

  lemma PollLockKeepsOrder(s: State, x: nat, m: nat, v: nat, w: nat, t: State)
    requires MutexInv(s) && Enabled(s, PollLock(x)) && BehindAtMutex(s, m, v, w) && t == Apply(s, PollLock(x))
    requires WaitsFor(t, m, w)
    ensures BehindAtMutex(t, m, v, w)
  {
    var q := s.mutexes[m].queue;
    assert w in q;
    assert q == [q[0]] + q[1..];
    if v in q {
      NotAheadWithout(q, x, v, w);
      NotAheadTail(q, v, w);
    }
  }

  lemma MutexStepKeepsOrder(s: State, a: Action, m: nat, v: nat, w: nat, t: State)
    requires MutexInv(s) && Enabled(s, a) && BehindAtMutex(s, m, v, w) && t == Apply(s, a) && WaitsFor(t, m, w)
    ensures BehindAtMutex(t, m, v, w)
  {
    match a
    case TryLock(x) => TryLockKeepsOrder(s, x, m, v, w, t);
    case PollLock(x) => PollLockKeepsOrder(s, x, m, v, w, t);
    case _ =>
  }

  /** A mutex is fair: who comes to it while `w` waits does not own it before `w`. */
  lemma MutexIsFair(states: seq<State>, acts: seq<Action>, i: nat, k: nat, m: nat, v: nat, w: nat)
    requires Run(states, acts) && i <= k < |states| && v < |states[i].phase|
    requires !WaitsFor(states[i], m, v) && !OwnedBy(states[i], m, v)
    requires forall j :: i <= j <= k ==> WaitsFor(states[j], m, w)
    ensures BehindAtMutex(states[k], m, v, w)
  {
    var behind := (j: nat) => j < |states| && BehindAtMutex(states[j], m, v, w);
    assert WaitsFor(states[i], m, w);
    NotYetThere(states, acts, i, m, v, w);
    forall j: nat | i <= j < k && behind(j) ensures behind(j + 1) {
      assert WaitsFor(states[j + 1], m, w);
      MutexOrderInRun(states, acts, j, m, v, w);
    }
    StaysTrue(behind, i, k);
  }

  lemma {:induction false} StaysTrue(p: nat -> bool, i: nat, k: nat)
    requires i <= k && p(i) && forall j: nat :: i <= j < k && p(j) ==> p(j + 1)
    ensures p(k)
    decreases k
  {
    if i < k { StaysTrue(p, i, k - 1); }
  }

  lemma NotYetThere(states: seq<State>, acts: seq<Action>, i: nat, m: nat, v: nat, w: nat)
    requires Run(states, acts) && i < |states| && v < |states[i].phase|
    requires WaitsFor(states[i], m, w) && !WaitsFor(states[i], m, v) && !OwnedBy(states[i], m, v)
    ensures BehindAtMutex(states[i], m, v, w)
  {
    RunInv(states, acts, i);
  }

  lemma MutexOrderInRun(states: seq<State>, acts: seq<Action>, i: nat, m: nat, v: nat, w: nat)
    requires Run(states, acts) && i < |acts| && BehindAtMutex(states[i], m, v, w) && WaitsFor(states[i + 1], m, w)
    ensures BehindAtMutex(states[i + 1], m, v, w)
  {
    RunInv(states, acts, i);
    RunStep(states, acts, i);
    MutexStepKeepsOrder(states[i], acts[i], m, v, w, states[i + 1]);
  }

  // ---- Cancellation is exact ------------------------------------------------------

  /** Whether the actions so far have cancelled the latest acquisition of `w`. */
  predicate CancelRequested(acts: seq<Action>, i: nat, w: nat, initially: bool)
    requires i <= |acts|
  {
    if i == 0 then initially
    else match acts[i - 1]
      case Cancel(x) => x == w || CancelRequested(acts, i - 1, w, initially)
      case Start(x, done) => if x == w then done else CancelRequested(acts, i - 1, w, initially)
      case _ => CancelRequested(acts, i - 1, w, initially)
  }

  /** A token is cancelled exactly when its own worker's actions say so: no one is cancelled for another. */
  lemma {:induction false} CancelledExactly(states: seq<State>, acts: seq<Action>, i: nat, w: nat)
    requires Run(states, acts) && i < |states|
    ensures w in states[i].cancelled <==> CancelRequested(acts, i, w, w in states[0].cancelled)
  {
    if i > 0 {
      CancelledExactly(states, acts, i - 1, w);
      RunStep(states, acts, i - 1);
      CancelledAfter(states[i - 1], acts[i - 1], w);
    }
  }

  lemma CancelledAfter(s: State, a: Action, w: nat)
    requires Enabled(s, a)
    ensures w in Apply(s, a).cancelled <==>
      (match a
       case Cancel(x) => x == w || w in s.cancelled
       case Start(x, done) => if x == w then done else w in s.cancelled
       case _ => w in s.cancelled)
  {
  }

  /** Polling a cancelled waiter takes it out of every queue and drops its reference. */
  lemma CancelledPollReleases(s: State, a: Action)
    requires Inv(s) && Enabled(s, a) && a.w in s.cancelled
    requires (a.PollGate? && !s.phase[a.w].write) || a.PollLock?
    ensures var t := Apply(s, a);
            && !HoldsReference(t.phase[a.w])
            && a.w !in t.gateQueue
            && (forall m :: 0 <= m < |t.mutexes| ==>
                  t.mutexes[m].owner != Some(a.w) && a.w !in t.mutexes[m].queue)
            && (a.PollGate? ==> t.phase[a.w] == Idle && t.readers == s.readers)
            && (a.PollLock? ==>
                  (Enabled(t, LeaveGate(a.w)) && Apply(t, LeaveGate(a.w)).readers == s.readers - 1))
  {
    StepInv(s, a);
    var t := Apply(s, a);
    forall m | 0 <= m < |t.mutexes|
      ensures t.mutexes[m].owner != Some(a.w) && a.w !in t.mutexes[m].queue
    {
      assert !OwnedBy(t, m, a.w) && !WaitsFor(t, m, a.w);
    }
    CountWherePositive(t.phase, HoldsRead);
  }

  // ---- The registry's critical section ------------------------------------------

  /** The weak lock map together with the strong counts of the mutexes it points to. */
  class PathLocks {
    var locks: map<Path, nat>
    var strong: seq<nat>

    constructor ()
      ensures locks == map[] && strong == []
    {
      locks, strong := map[], [];
    }

    /** The object holds what the registry of `s` holds. */
    ghost predicate Mirrors(s: State)
      reads this
    {
      && locks == s.registry
      && |strong| == |s.mutexes|
      && forall m :: 0 <= m < |strong| ==> strong[m] == s.mutexes[m].strong
    }

    /**
     Prunes dead entries and then upgrades the entry of `id` or creates one:
     the two registry steps of the step system, performed on the object.
     */
    method Obtain(id: Path, ghost s: State, ghost w: nat) returns (m: nat)
      requires Mirrors(s) && RegistryInv(s)
      requires w < |s.phase| && s.phase[w] == Pruning(id)
      modifies this
      ensures var t := Apply(Apply(s, Prune(w)), UpgradeOrCreate(w));
              Mirrors(t) && t.phase[w] == Locking(id, m)
      ensures m < |strong| && strong[m] > 0 && id in locks && locks[id] == m
      ensures m < |old(strong)| ==> old(strong)[m] > 0
    {
      PruneLive(s);
      ObtainEffect(s, w, id);
      PruneLocks();
      if id in locks && strong[locks[id]] > 0 {
        m := locks[id];
        strong := strong[m := strong[m] + 1];
      } else {
        m := |strong|;
        strong := strong + [1];
        locks := locks[id := m];
      }
    }

    /** `retain` on the registry: drops the entries whose mutex is gone. */
    method PruneLocks()
      requires forall p :: p in locks ==> locks[p] < |strong|
      modifies this`locks
      ensures locks == map p | p in old(locks) && strong[old(locks)[p]] > 0 :: old(locks)[p]
    {
      var todo := locks.Keys;
      while todo != {}
        invariant strong == old(strong) && todo <= locks.Keys <= old(locks).Keys
        invariant forall p :: p in locks ==> locks[p] == old(locks)[p]
        invariant forall p :: p in old(locks) ==>
          (p in locks <==> p in todo || strong[old(locks)[p]] > 0)
      {
        var p :| p in todo;
        todo := todo - {p};
        if strong[locks[p]] == 0 { locks := locks - {p}; }
      }
    }
  }

  /** The two registry steps of one worker, on the registry and the mutexes. */
  lemma ObtainEffect(s: State, w: nat, id: Path)
    requires RegistryInv(s) && w < |s.phase| && s.phase[w] == Pruning(id)
    ensures var t := Apply(Apply(s, Prune(w)), UpgradeOrCreate(w));
            var live := LiveEntries(s);
            if id in live
            then && t.phase[w] == Locking(id, live[id]) && t.registry == live
                 && t.mutexes == s.mutexes[live[id] := s.mutexes[live[id]].(strong := s.mutexes[live[id]].strong + 1)]
            else && t.phase[w] == Locking(id, |s.mutexes|) && t.registry == live[id := |s.mutexes|]
                 && t.mutexes == s.mutexes + [PathMutex(1, None, [], id)]
  {
  }

  /** Every registered entry is in range, so pruning only looks at strong counts. */
  lemma PruneLive(s: State)
    requires RegistryInv(s)
    ensures LiveEntries(s) == map p | p in s.registry && s.mutexes[s.registry[p]].strong > 0 :: s.registry[p]
  {
  }
}
