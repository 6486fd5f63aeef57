/**
 The per-path lock. A mutex is made when the first operation on a path arrives and its slot is
 dropped when the last one leaves; other operations arrive at any point in between. What an
 operation does between two awaits is one step here.
 */
module PathLock {
  import opened Types

  type Task = nat

  /** A first-come first-served mutex: releasing it hands it to the first waiter still held. */
  datatype Mutex = Mutex(key: Path, held: bool, waiters: seq<Task>)

  /** Where an operation is: queued, in its body, or past its release and yet to tidy up. */
  datatype Place =
    | Waiting(m: nat)
    | Running(m: nat)
    | Leaving(m: nat)

  datatype State = State(
    locks: map<Path, nat>,          // _pathLocks: the slot's mutex, by order of creation
    mutexes: seq<Mutex>,
    places: map<Task, Place>,
    arrived: map<Path, seq<Task>>,  // history: who asked for each path's lock, in order
    started: map<Path, seq<Task>>)  // history: who entered the body

  function Log(log: map<Path, seq<Task>>, k: Path): seq<Task> { if k in log then log[k] else [] }

  function Note(log: map<Path, seq<Task>>, k: Path, t: Task): map<Path, seq<Task>> { log[k := Log(log, k) + [t]] }

  // --- The steps of `_withPathLock` ---

  /** A fresh mutex in a fresh slot. */
  function MakeSlot(s: State, k: Path): State {
    s.(locks := s.locks[k := |s.mutexes|], mutexes := s.mutexes + [Mutex(k, false, [])])
  }

  /** Take the slot's mutex, or queue for it. */
  function Take(s: State, t: Task, k: Path): State
    requires k in s.locks && s.locks[k] < |s.mutexes|
  {
    var m := s.locks[k];
    var x := s.mutexes[m];
    if x.held then
      s.(mutexes := s.mutexes[m := x.(waiters := x.waiters + [t])], places := s.places[t := Waiting(m)],
         arrived := Note(s.arrived, k, t))
    else
      s.(mutexes := s.mutexes[m := x.(held := true)], places := s.places[t := Running(m)],
         arrived := Note(s.arrived, k, t), started := Note(s.started, k, t))
  }

  /** Up to the first await. */
  function Arrive(s: State, t: Task, k: Path): State
    requires k in s.locks ==> s.locks[k] < |s.mutexes|
  { Take(if k in s.locks then s else MakeSlot(s, k), t, k) }

  /** The body ends and the mutex is released. */
  function Release(s: State, t: Task): State
    requires t in s.places && s.places[t].m < |s.mutexes|
  {
    var m := s.places[t].m;
    var x := s.mutexes[m];
    if x.waiters != [] then
      var next := x.waiters[0];
      State(s.locks, s.mutexes[m := x.(waiters := x.waiters[1..])],
            s.places[t := Leaving(m)][next := Running(m)], s.arrived, Note(s.started, x.key, next))
    else
      s.(mutexes := s.mutexes[m := x.(held := false)], places := s.places[t := Leaving(m)])
  }

  /** Whether the slot is dropped on the way out. */
  predicate Drops(s: State, m: nat)
    requires m < |s.mutexes|
  {
    var x := s.mutexes[m];
    !x.held && x.waiters == [] && x.key in s.locks && s.locks[x.key] == m
  }

  function TidyUp(s: State, t: Task): State
    requires t in s.places && s.places[t].m < |s.mutexes|
  {
    var m := s.places[t].m;
    s.(locks := if Drops(s, m) then s.locks - {s.mutexes[m].key} else s.locks, places := s.places - {t})
  }

  datatype Move = Arrives(t: Task, k: Path) | Releases(t: Task) | Tidies(t: Task)

  /** What can happen next, in any order. */
  predicate Enabled(s: State, e: Move) {
    match e
    case Arrives(t, k) => t !in s.places && (k in s.locks ==> s.locks[k] < |s.mutexes|)
    case Releases(t) => t in s.places && s.places[t].Running? && s.places[t].m < |s.mutexes|
    case Tidies(t) => t in s.places && s.places[t].Leaving? && s.places[t].m < |s.mutexes|
  }

  function Next(s: State, e: Move): State
    requires Enabled(s, e)
  {
    match e
    case Arrives(t, k) => Arrive(s, t, k)
    case Releases(t) => Release(s, t)
    case Tidies(t) => TidyUp(s, t)
  }

  ghost predicate Possible(s: State, es: seq<Move>)
    decreases |es|
  { es != [] ==> Enabled(s, es[0]) && Possible(Next(s, es[0]), es[1..]) }

  ghost function Run(s: State, es: seq<Move>): State
    requires Possible(s, es)
    decreases |es|
  { if es == [] then s else Run(Next(s, es[0]), es[1..]) }

  const START := State(map[], [], map[], map[], map[])

  // --- The invariant ---

  ghost predicate Slots(s: State) {
    && (forall k :: k in s.locks ==> s.locks[k] < |s.mutexes| && s.mutexes[s.locks[k]].key == k)
    && (forall t :: t in s.places ==> s.places[t].m < |s.mutexes|)
  }

  /** A mutex with a holder or a waiter is the one in its slot. */
  ghost predicate Busy(s: State)
    requires Slots(s)
  {
    forall m :: 0 <= m < |s.mutexes| && (s.mutexes[m].held || s.mutexes[m].waiters != []) ==>
      s.mutexes[m].key in s.locks && s.locks[s.mutexes[m].key] == m && s.mutexes[m].held
  }

  ghost predicate Holds(s: State, t: Task, m: nat) { t in s.places && s.places[t] == Running(m) }

  /** A mutex is held exactly while one operation runs under it. */
  ghost predicate OneHolder(s: State)
    requires Slots(s)
  {
    && (forall t, m: nat :: Holds(s, t, m) ==> s.mutexes[m].held)
    && (forall t, u, m: nat :: Holds(s, t, m) && Holds(s, u, m) ==> t == u)
    && (forall m: nat :: m < |s.mutexes| && s.mutexes[m].held ==> exists t :: Holds(s, t, m))
  }

  ghost predicate Queued(s: State, t: Task, m: nat) { t in s.places && s.places[t] == Waiting(m) }

  /** A mutex's queue is the operations waiting for it, each once. */
  ghost predicate Queues(s: State)
    requires Slots(s)
  {
    && (forall t, m: nat :: Queued(s, t, m) ==> t in s.mutexes[m].waiters)
    && (forall m: nat, t :: m < |s.mutexes| && t in s.mutexes[m].waiters ==> Queued(s, t, m))
    && (forall m, i, j :: 0 <= m < |s.mutexes| && 0 <= i < j < |s.mutexes[m].waiters| ==>
          s.mutexes[m].waiters[i] != s.mutexes[m].waiters[j])
  }

  ghost predicate SoonTidied(s: State, m: nat) { exists t :: t in s.places && s.places[t] == Leaving(m) }

  /** A slot's mutex is held, or someone is still to tidy it up. */
  ghost predicate Reclaims(s: State)
    requires Slots(s)
  { forall k :: k in s.locks ==> s.mutexes[s.locks[k]].held || SoonTidied(s, s.locks[k]) }

  function Queue(s: State, k: Path): seq<Task> {
    if k in s.locks && s.locks[k] < |s.mutexes| then s.mutexes[s.locks[k]].waiters else []
  }

  /** Bodies start in the order their operations arrived, the slot's mutexes notwithstanding. */
  ghost predicate InOrder(s: State) { forall k :: Log(s.started, k) + Queue(s, k) == Log(s.arrived, k) }

  ghost predicate Inv(s: State) {
    Slots(s) && Busy(s) && OneHolder(s) && Queues(s) && Reclaims(s) && InOrder(s)
  }

  /** The invariant while the slot at `k` is being made. */
  ghost predicate InvBut(s: State, k: Path) {
    && Slots(s) && Busy(s) && OneHolder(s) && Queues(s) && InOrder(s)
    && (forall j :: j in s.locks && j != k ==> s.mutexes[s.locks[j]].held || SoonTidied(s, s.locks[j]))
  }

  lemma MakeSlotHolds(s: State, k: Path)
    requires Slots(s) && Busy(s) && OneHolder(s) && Queues(s) && k !in s.locks
    ensures var u := MakeSlot(s, k); Slots(u) && Busy(u) && OneHolder(u) && Queues(u)
  {
    var u := MakeSlot(s, k);
    assert forall i :: 0 <= i < |s.mutexes| ==> u.mutexes[i] == s.mutexes[i];
    assert Slots(u);
    assert forall v, i: nat :: Holds(u, v, i) <==> Holds(s, v, i);
    assert forall v, i: nat :: Queued(u, v, i) <==> Queued(s, v, i);
    assert Busy(u);
    assert u.mutexes[|s.mutexes|] == Mutex(k, false, []);
  }

  lemma MakeSlotKeeps(s: State, k: Path)
    requires Inv(s) && k !in s.locks
    ensures InvBut(MakeSlot(s, k), k)
  {
    MakeSlotHolds(s, k);
    var u := MakeSlot(s, k);
    hide Busy, OneHolder, Queues;
    forall j | j in u.locks && j != k ensures u.mutexes[u.locks[j]].held || SoonTidied(u, u.locks[j]) {
      if !s.mutexes[s.locks[j]].held { assert SoonTidied(s, s.locks[j]); }
    }
    forall j ensures Log(u.started, j) + Queue(u, j) == Log(u.arrived, j) {
      assert Log(s.started, j) + Queue(s, j) == Log(s.arrived, j);
    }
  }

  lemma TakeHolds(s: State, t: Task, k: Path)
    requires k in s.locks && Slots(s) && Busy(s) && OneHolder(s) && t !in s.places
    ensures var u := Take(s, t, k); Slots(u) && Busy(u) && OneHolder(u)
  {
    var u, m := Take(s, t, k), s.locks[k];
    assert Slots(u);
    assert forall v, i: nat :: v != t ==> (Holds(u, v, i) <==> Holds(s, v, i));
    assert Busy(u);
    hide Busy;
    forall i: nat | i < |u.mutexes| && u.mutexes[i].held ensures exists v :: Holds(u, v, i) {
      if s.mutexes[i].held {
        var v :| Holds(s, v, i);
        assert Holds(u, v, i);
      } else {
        assert Holds(u, t, i);
      }
    }
  }

  lemma TakeQueues(s: State, t: Task, k: Path)
    requires k in s.locks && Slots(s) && Queues(s) && t !in s.places && Slots(Take(s, t, k))
    ensures Queues(Take(s, t, k))
  {
    var u := Take(s, t, k);
    assert forall v, i: nat :: v != t ==> (Queued(u, v, i) <==> Queued(s, v, i));
    assert t !in s.mutexes[s.locks[k]].waiters by { assert !Queued(s, t, s.locks[k]); }
    forall i: nat, v | i < |u.mutexes| && v in u.mutexes[i].waiters ensures Queued(u, v, i) {
      if v in s.mutexes[i].waiters { assert Queued(s, v, i); }
    }
  }

  lemma TakeReclaims(s: State, t: Task, k: Path)
    requires k in s.locks && InvBut(s, k) && t !in s.places && Slots(Take(s, t, k))
    ensures Reclaims(Take(s, t, k)) && InOrder(Take(s, t, k))
  {
    TakeInOrder(s, t, k);
    hide InOrder, OneHolder, Queues, Busy;
    var u := Take(s, t, k);
    forall j | j in u.locks ensures u.mutexes[u.locks[j]].held || SoonTidied(u, u.locks[j]) { TakeSlot(s, t, k, j); }
  }

  lemma TakeSlot(s: State, t: Task, k: Path, j: Path)
    requires k in s.locks && j in s.locks && Slots(s) && t !in s.places
    requires j != k ==> s.mutexes[s.locks[j]].held || SoonTidied(s, s.locks[j])
    ensures var u := Take(s, t, k); u.mutexes[u.locks[j]].held || SoonTidied(u, u.locks[j])
  {
    var u := Take(s, t, k);
    if j != k && !s.mutexes[s.locks[j]].held {
      var v :| v in s.places && s.places[v] == Leaving(s.locks[j]);
      assert u.places[v] == Leaving(u.locks[j]);
    }
  }

  lemma TakeInOrder(s: State, t: Task, k: Path)
    requires k in s.locks && Slots(s) && Busy(s) && InOrder(s) && Slots(Take(s, t, k))
    ensures InOrder(Take(s, t, k))
  {
    var u := Take(s, t, k);
    IdleHasNoQueue(s, k);
    hide Busy, Take, Log, Queue;
    forall j ensures Log(u.started, j) + Queue(u, j) == Log(u.arrived, j) {
      assert Log(s.started, j) + Queue(s, j) == Log(s.arrived, j);
      if j != k { TakeElsewhere(s, t, k, j); } else { TakeHere(s, t, k); }
    }
  }

  lemma TakeHere(s: State, t: Task, k: Path)
    requires k in s.locks && Slots(s) && (s.mutexes[s.locks[k]].held || Queue(s, k) == [])
    requires Log(s.started, k) + Queue(s, k) == Log(s.arrived, k)
    ensures var u := Take(s, t, k); Log(u.started, k) + Queue(u, k) == Log(u.arrived, k)
  {
  }

  lemma TakeElsewhere(s: State, t: Task, k: Path, j: Path)
    requires k in s.locks && Slots(s) && j != k
    ensures var u := Take(s, t, k);
            Queue(u, j) == Queue(s, j) && Log(u.started, j) == Log(s.started, j)
                && Log(u.arrived, j) == Log(s.arrived, j)
  {
    if j in s.locks { assert s.locks[j] != s.locks[k]; }
  }

  lemma IdleHasNoQueue(s: State, k: Path)
    requires Slots(s) && Busy(s) && k in s.locks
    ensures s.mutexes[s.locks[k]].held || Queue(s, k) == []
  {
  }

  lemma ArriveKeeps(s: State, t: Task, k: Path)
    requires Inv(s) && t !in s.places
    ensures Inv(Arrive(s, t, k))
  {
    var v := if k in s.locks then s else MakeSlot(s, k);
    if k !in s.locks { MakeSlotKeeps(s, k); }
    TakeHolds(v, t, k);
    hide Busy, OneHolder, Queues, Take, InOrder, Reclaims;
    TakeQueues(v, t, k);
    SlotIsKept(s, k);
    TakeReclaims(v, t, k);
  }

  lemma SlotIsKept(s: State, k: Path)
    requires Inv(s)
    ensures InvBut(if k in s.locks then s else MakeSlot(s, k), k)
  {
    if k !in s.locks { MakeSlotKeeps(s, k); }
  }

  lemma ReleaseKeeps(s: State, t: Task, m: nat)
    requires Inv(s) && Holds(s, t, m)
    ensures Inv(Release(s, t))
  {
    ReleaseHolds(s, t, m);
    ReleaseQueues(s, t, m);
    ReleaseReclaims(s, t, m);
  }

  lemma HandsOver(s: State, t: Task, m: nat)
    requires Inv(s) && Holds(s, t, m)
    ensures Slots(Release(s, t))
  {
    var x := s.mutexes[m];
    if x.waiters != [] { assert Queued(s, x.waiters[0], m); }
  }

  lemma ReleaseReclaims(s: State, t: Task, m: nat)
    requires Inv(s) && Holds(s, t, m)
    ensures Slots(Release(s, t)) && Reclaims(Release(s, t)) && InOrder(Release(s, t))
  {
    HandsOver(s, t, m);
    ReleaseInOrder(s, t, m);
    hide InOrder, OneHolder, Busy;
    var u, x := Release(s, t), s.mutexes[m];
    if x.waiters != [] { assert Queued(s, x.waiters[0], m) && !Queued(s, t, m); }
    assert u.places[t] == Leaving(m);
    forall j | j in u.locks ensures u.mutexes[u.locks[j]].held || SoonTidied(u, u.locks[j]) {
      if s.locks[j] != m && !s.mutexes[s.locks[j]].held {
        var v :| v in s.places && s.places[v] == Leaving(s.locks[j]);
        assert u.places[v] == Leaving(u.locks[j]);
      }
    }
  }

  lemma ReleaseInOrder(s: State, t: Task, m: nat)
    requires Inv(s) && Holds(s, t, m) && Slots(Release(s, t))
    ensures InOrder(Release(s, t))
  {
    var u, x := Release(s, t), s.mutexes[m];
    assert x.key in s.locks && s.locks[x.key] == m;
    hide OneHolder, Queues, Reclaims;
    forall j ensures Log(u.started, j) + Queue(u, j) == Log(u.arrived, j) {
      assert Log(s.started, j) + Queue(s, j) == Log(s.arrived, j);
      if j == x.key && x.waiters != [] { assert [x.waiters[0]] + x.waiters[1..] == x.waiters; }
      if j != x.key && j in s.locks { assert s.locks[j] != m; }
    }
  }

  lemma ReleaseHolds(s: State, t: Task, m: nat)
    requires Inv(s) && Holds(s, t, m)
    ensures Slots(Release(s, t)) && OneHolder(Release(s, t)) && Busy(Release(s, t))
  {
    HandsOver(s, t, m);
    var u, x := Release(s, t), s.mutexes[m];
    if x.waiters != [] {
      assert Queued(s, x.waiters[0], m);
      assert Holds(u, x.waiters[0], m);
    }
    forall v, i: nat | Holds(u, v, i) ensures u.mutexes[i].held && (i == m ==> x.waiters != [] && v == x.waiters[0]) {
      if i == m && !(x.waiters != [] && v == x.waiters[0]) { assert Holds(s, v, m); }
      else if i != m { assert Holds(s, v, i); }
    }
    forall v, w, i: nat | Holds(u, v, i) && Holds(u, w, i) && i != m ensures v == w {
      assert Holds(s, v, i) && Holds(s, w, i);
    }
    forall i: nat | i < |u.mutexes| && u.mutexes[i].held ensures exists v :: Holds(u, v, i) {
      if i != m {
        var v :| Holds(s, v, i);
        assert Holds(u, v, i);
      }
    }
  }

  lemma ReleaseQueues(s: State, t: Task, m: nat)
    requires Inv(s) && Holds(s, t, m)
    ensures Slots(Release(s, t)) && Queues(Release(s, t))
  {
    HandsOver(s, t, m);
    var u, x := Release(s, t), s.mutexes[m];
    if x.waiters != [] { assert Queued(s, x.waiters[0], m); }
    forall v, i: nat | Queued(u, v, i) ensures v in u.mutexes[i].waiters {
      assert Queued(s, v, i);
    }
    forall i: nat, v | i < |u.mutexes| && v in u.mutexes[i].waiters ensures Queued(u, v, i) {
      assert v in s.mutexes[i].waiters && Queued(s, v, i);
    }
  }

  lemma TidyUpKeeps(s: State, t: Task, m: nat)
    requires Inv(s) && t in s.places && s.places[t] == Leaving(m)
    ensures Inv(TidyUp(s, t))
  {
    var u := TidyUp(s, t);
    assert Slots(u);
    assert forall v, i: nat :: (Holds(u, v, i) <==> Holds(s, v, i)) && (Queued(u, v, i) <==> Queued(s, v, i));
    assert Busy(u);
    forall j | j in u.locks ensures u.mutexes[u.locks[j]].held || SoonTidied(u, u.locks[j]) {
      if !s.mutexes[s.locks[j]].held {
        var v :| v in s.places && s.places[v] == Leaving(s.locks[j]);
        assert s.mutexes[s.locks[j]].waiters == [];
        assert u.places[v] == Leaving(u.locks[j]);
      }
    }
    forall j ensures Log(u.started, j) + Queue(u, j) == Log(u.arrived, j) {
      assert Log(s.started, j) + Queue(s, j) == Log(s.arrived, j);
    }
  }

  lemma {:induction false} RunKeepsInv(s: State, es: seq<Move>)
    requires Possible(s, es) && Inv(s)
    ensures Inv(Run(s, es))
    decreases |es|
  {
    if es != [] {
      match es[0] {
        case Arrives(t, k) => ArriveKeeps(s, t, k);
        case Releases(t) => ReleaseKeeps(s, t, s.places[t].m);
        case Tidies(t) => TidyUpKeeps(s, t, s.places[t].m);
      }
      RunKeepsInv(Next(s, es[0]), es[1..]);
    }
  }

  predicate InBody(s: State, t: Task) { t in s.places && s.places[t].Running? }

  /** The path an operation is about. */
  function KeyOf(s: State, t: Task): Path
    requires t in s.places && s.places[t].m < |s.mutexes|
  { s.mutexes[s.places[t].m].key }

  /** A path nobody is using or leaving has no slot. */
  lemma SlotsAreUsed(s: State, k: Path)
    requires Inv(s) && k in s.locks
    ensures exists t :: t in s.places && !s.places[t].Waiting? && KeyOf(s, t) == k
  {
    var m := s.locks[k];
    if s.mutexes[m].held {
      var t :| Holds(s, t, m);
      assert KeyOf(s, t) == k;
    } else {
      var t :| t in s.places && s.places[t] == Leaving(m);
      assert KeyOf(s, t) == k;
    }
  }

  lemma BodiesApart(s: State, t: Task, u: Task)
    requires Inv(s) && InBody(s, t) && InBody(s, u) && KeyOf(s, t) == KeyOf(s, u)
    ensures t == u
  {
    assert Holds(s, t, s.places[t].m) && Holds(s, u, s.places[u].m);
  }

  /** In every interleaving, two bodies for one path never overlap, a path nobody is using or
      leaving has no slot, and bodies start in the order of arrival. */
  lemma MutualExclusion(es: seq<Move>)
    requires Possible(START, es)
    ensures var s := Run(START, es);
            && Slots(s)
            && (forall t, u :: InBody(s, t) && InBody(s, u) && KeyOf(s, t) == KeyOf(s, u) ==> t == u)
            && (forall k :: k in s.locks ==> exists t :: t in s.places && !s.places[t].Waiting? && KeyOf(s, t) == k)
            && (forall k :: Log(s.started, k) <= Log(s.arrived, k))
  {
    assert Inv(START);
    RunKeepsInv(START, es);
    var s := Run(START, es);
    assert Slots(s) && InOrder(s);
    hide Inv, InOrder, Possible, Run;
    forall t, u | InBody(s, t) && InBody(s, u) && KeyOf(s, t) == KeyOf(s, u) ensures t == u { BodiesApart(s, t, u); }
    forall k | k in s.locks ensures exists t :: t in s.places && !s.places[t].Waiting? && KeyOf(s, t) == k {
      SlotsAreUsed(s, k);
    }
    forall k ensures Log(s.started, k) <= Log(s.arrived, k) { StartedFirst(s, k); }
  }

  lemma StartedFirst(s: State, k: Path)
    requires InOrder(s)
    ensures Log(s.started, k) <= Log(s.arrived, k)
  {
    assert Log(s.started, k) + Queue(s, k) == Log(s.arrived, k);
  }

  /** The same, without asking whether the slot still holds this operation's mutex. */
  function TidyUpBlindly(s: State, t: Task): State
    requires t in s.places && s.places[t].m < |s.mutexes|
  {
    var x := s.mutexes[s.places[t].m];
    s.(locks := if !x.held && x.waiters == [] then s.locks - {x.key} else s.locks, places := s.places - {t})
  }

  /** Operation 1 has released a mutex whose slot was since dropped and remade for operation 3. */
  function Remade(): State {
    State(map["a" := 1], [Mutex("a", false, []), Mutex("a", true, [])], map[1 := Leaving(0), 3 := Running(1)],
          map["a" := [1, 2, 3]], map["a" := [1, 2, 3]])
  }

  lemma RemadeHolds()
    ensures Slots(Remade()) && Busy(Remade()) && OneHolder(Remade())
  {
    assert Holds(Remade(), 3, 1);
  }

  lemma RemadeQueues()
    ensures Slots(Remade()) && Queues(Remade()) && Reclaims(Remade()) && InOrder(Remade())
  {
  }

  lemma RemadeIsSound()
    ensures Inv(Remade())
  {
    RemadeHolds();
    RemadeQueues();
    hide Slots, Busy, OneHolder, Queues, Reclaims, InOrder, Remade;
  }

  /** Why the identity is checked: there, tidying up blindly drops the new slot, and operation 4
      enters beside 3. */
  lemma IdentityCheckMatters()
    ensures Inv(Remade())
    ensures Arrive(TidyUpBlindly(Remade(), 1), 4, "a").places == map[3 := Running(1), 4 := Running(2)]
    ensures Arrive(TidyUp(Remade(), 1), 4, "a").places == map[3 := Running(1), 4 := Waiting(1)]
  {
    RemadeIsSound();
    hide Inv;
    assert TidyUpBlindly(Remade(), 1).locks == map[];
    assert TidyUp(Remade(), 1).locks == map["a" := 1];
  }

  // --- The lock as it runs ---

  class PathLocks {
    var locks: map<Path, nat>
    var mutexes: seq<Mutex>
    var places: map<Task, Place>
    ghost var arrived: map<Path, seq<Task>>
    ghost var started: map<Path, seq<Task>>

    ghost function View(): State
      reads this
    { State(locks, mutexes, places, arrived, started) }

    constructor ()
      ensures View() == START
    {
      locks, mutexes, places, arrived, started := map[], [], map[], map[], map[];
    }

    method Enter(t: Task, k: Path)
      requires Inv(View()) && t !in places
      modifies this
      ensures View() == Arrive(old(View()), t, k) && Inv(View())
    {
      ArriveKeeps(View(), t, k);
      assert k in locks ==> locks[k] < |mutexes|;
      hide Inv, Slots, Busy, OneHolder, Queues, Reclaims, InOrder;
      if k !in locks {
        locks := locks[k := |mutexes|];
        mutexes := mutexes + [Mutex(k, false, [])];
        assert View() == MakeSlot(old(View()), k);
      }
      var m := locks[k];
      arrived := Note(arrived, k, t);
      if mutexes[m].held {
        mutexes := mutexes[m := mutexes[m].(waiters := mutexes[m].waiters + [t])];
        places := places[t := Waiting(m)];
      } else {
        mutexes := mutexes[m := mutexes[m].(held := true)];
        places := places[t := Running(m)];
        started := Note(started, k, t);
      }
    }

    method Exit(t: Task)
      requires Inv(View()) && t in places && places[t].Running?
      modifies this
      ensures View() == Release(old(View()), t) && Inv(View())
    {
      var m := places[t].m;
      ReleaseKeeps(View(), t, m);
      places := places[t := Leaving(m)];
      var x := mutexes[m];
      if |x.waiters| > 0 {
        mutexes := mutexes[m := x.(waiters := x.waiters[1..])];
        places := places[x.waiters[0] := Running(m)];
        started := Note(started, x.key, x.waiters[0]);
      } else {
        mutexes := mutexes[m := x.(held := false)];
      }
    }

    method Tidy(t: Task)
      requires Inv(View()) && t in places && places[t].Leaving?
      modifies this
      ensures View() == TidyUp(old(View()), t) && Inv(View())
    {
      var m := places[t].m;
      TidyUpKeeps(View(), t, m);
      var x := mutexes[m];
      if !x.held && |x.waiters| == 0 && x.key in locks && locks[x.key] == m {
        locks := locks - {x.key};
      }
      places := places - {t};
    }
  }
}
