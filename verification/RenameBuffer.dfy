/**
 The buffer of local deletes awaiting rename detection, with its timers. Every buffered delete
 has one armed timer and ends once: cancelled, replaced, consumed by one rename, fired or dropped.
 */
module RenameBuffer {
  import opened Types
  import opened World

  type Timer = nat

  datatype Held = Held(path: Path, bytes: Content, size: nat)

  /** What became of a buffered delete. */
  datatype Fate =
    | Recreated                                    // the same path came back
    | Superseded                                   // deleted again while buffered
    | RenamedTo(path: Path, bytes: Content, size: nat)
    | Fired
    | Dropped                                      // the engine stopped or resynced

  datatype State = State(
    pending: map<Path, Timer>,      // _pendingDeletes, each entry by its timer
    armed: set<Timer>,
    issued: seq<Held>,              // history: the n-th delete ever buffered has timer n
    fates: map<Timer, Fate>)        // history

  const EMPTY_BUFFER := State(map[], {}, [], map[])

  predicate Live(s: State, p: Path) { p in s.pending && s.pending[p] < |s.issued| }

  /** Entry and timer leave together. */
  function End(s: State, p: Path, f: Fate): State
    requires p in s.pending
  {
    s.(pending := s.pending - {p}, armed := s.armed - {s.pending[p]}, fates := s.fates[s.pending[p] := f])
  }

  /** `_handleLocalDelete`, from the prior timer on. */
  function Buffer(s: State, p: Path, bytes: Content, size: nat): State {
    Arm(if p in s.pending then End(s, p, Superseded) else s, p, bytes, size)
  }

  /** The entries a new file could be the other half of. */
  function Matches(s: State, p: Path, bytes: Content, size: nat): set<Path> {
    set q | q in s.pending && Live(s, q) && s.issued[s.pending[q]].bytes == bytes
            && s.issued[s.pending[q]].size == size && Nearby(q, p)
  }

  /** The same buffer in `World`, which keeps each entry's row instead of its timer: the rows' local
      contents are the entries', and a content has one size. */
  ghost predicate SameBuffer(s: State, w: World, sizes: map<Content, nat>) {
    && w.buffered.Keys == s.pending.Keys
    && (forall q :: q in s.pending ==>
          && Live(s, q) && w.buffered[q].Bytes() == Some(s.issued[s.pending[q]].bytes)
          && s.issued[s.pending[q]].bytes in sizes
          && s.issued[s.pending[q]].size == sizes[s.issued[s.pending[q]].bytes])
  }

  /** There, rename detection finds the same entries. */
  lemma MatchesAreCandidates(s: State, w: World, sizes: map<Content, nat>, p: Path, bytes: Content)
    requires SameBuffer(s, w, sizes) && bytes in sizes
    ensures Matches(s, p, bytes, sizes[bytes]) == Candidates(w, p, bytes)
  {
    forall q ensures q in Matches(s, p, bytes, sizes[bytes]) <==> q in Candidates(w, p, bytes) {}
  }

  /** A file appears at `p`: its own buffered delete is cancelled, and, when the content is new and
      not empty, a single match is consumed. */
  ghost function Appear(s: State, p: Path, bytes: Content, size: nat, known: bool): State {
    var t := if p in s.pending then End(s, p, Recreated) else s;
    var found := Matches(t, p, bytes, size);
    if !known && size > 0 && |found| == 1 then
      var q :| q in found;
      End(t, q, RenamedTo(p, bytes, size))
    else t
  }

  /** So exactly the path's own delete is cancelled, and another ends as a rename exactly when it is the only
      match of a new, non-empty file. */
  lemma AppearAnswer(s: State, p: Path, bytes: Content, size: nat, known: bool, q: Path)
    requires q in s.pending
    requires forall a, b :: a in s.pending && b in s.pending && a != b ==> s.pending[a] != s.pending[b]
    ensures var t := Appear(s, p, bytes, size, known); var calm := if p in s.pending then End(s, p, Recreated) else s;
            && (q == p ==> q !in t.pending && s.pending[q] in t.fates && t.fates[s.pending[q]] == Recreated)
            && (q != p ==>
                  (q !in t.pending <==> !known && size > 0 && Matches(calm, p, bytes, size) == {q})
                  && (q !in t.pending ==>
                        s.pending[q] in t.fates && t.fates[s.pending[q]] == RenamedTo(p, bytes, size))
                  && (q in t.pending ==> t.pending[q] == s.pending[q]))
  {
    hide Matches;
    var calm := if p in s.pending then End(s, p, Recreated) else s;
    var found := Matches(calm, p, bytes, size);
    if |found| == 1 {
      var only :| only in found;
      assert found - {only} == {} by { assert |found - {only}| == 0; }
      assert found == {only};
    }
    assert found == {q} ==> |found| == 1;
    MatchesPend(calm, p, bytes, size);
  }

  lemma MatchesPend(s: State, p: Path, bytes: Content, size: nat)
    ensures Matches(s, p, bytes, size) <= s.pending.Keys
  {
  }

  /** A timer's callback deletes whatever entry its path has by then. */
  function Fire(s: State, t: Timer): State
    requires t < |s.issued|
  {
    var p := s.issued[t].path;
    var gone := s.(armed := s.armed - {t}, fates := s.fates[t := Fired]);
    if p in s.pending then gone.(pending := s.pending - {p}) else gone
  }

  /** Teardown clears every timer, then the map. */
  function DropAll(s: State): State {
    s.(pending := map[], armed := s.armed - (set p | p in s.pending :: s.pending[p]),
       fates := map t | t in s.fates.Keys + (set p | p in s.pending :: s.pending[p]) ::
                  if t in s.fates then s.fates[t] else Dropped)
  }

  datatype Move =
    | Deletes(p: Path, bytes: Content, size: nat)
    | Appears(p: Path, bytes: Content, size: nat, known: bool)
    | Fires(t: Timer)
    | Stops

  predicate Enabled(s: State, e: Move) { e.Fires? ==> e.t in s.armed && e.t < |s.issued| }

  ghost function Next(s: State, e: Move): State
    requires Enabled(s, e)
  {
    match e
    case Deletes(p, b, n) => Buffer(s, p, b, n)
    case Appears(p, b, n, known) => Appear(s, p, b, n, known)
    case Fires(t) => Fire(s, t)
    case Stops => DropAll(s)
  }

  ghost predicate Possible(s: State, es: seq<Move>)
    decreases |es|
  { es != [] ==> Enabled(s, es[0]) && Possible(Next(s, es[0]), es[1..]) }

  ghost function Run(s: State, es: seq<Move>): State
    requires Possible(s, es)
    decreases |es|
  { if es == [] then s else Run(Next(s, es[0]), es[1..]) }

  /** Armed timers are exactly the entries', each entry's timer is its own path's, and every delete
      ever buffered either still has its timer or has met its fate, never both. */
  ghost predicate Inv(s: State) {
    && (forall p :: p in s.pending ==> Live(s, p) && s.issued[s.pending[p]].path == p && s.pending[p] in s.armed)
    && (forall t :: t in s.armed ==>
        t < |s.issued| && s.issued[t].path in s.pending && s.pending[s.issued[t].path] == t)
    && (forall t :: t in s.fates ==> t < |s.issued| && t !in s.armed)
    && (forall t: nat :: t < |s.issued| ==> t in s.armed || t in s.fates)
    && (forall t :: t in s.fates && s.fates[t].RenamedTo? ==>
          t < |s.issued| && s.fates[t].size > 0 && s.issued[t].size == s.fates[t].size
          && s.issued[t].bytes == s.fates[t].bytes && Nearby(s.issued[t].path, s.fates[t].path))
  }

  /** History is only added to: a fate, once met, is final. */
  ghost predicate Extends(s: State, u: State) {
    s.issued <= u.issued && forall t :: t in s.fates ==> t in u.fates && u.fates[t] == s.fates[t]
  }

  lemma EndKeeps(s: State, p: Path, f: Fate)
    requires Inv(s) && p in s.pending
    requires f.RenamedTo? ==> f.size > 0 && s.issued[s.pending[p]].size == f.size
                              && s.issued[s.pending[p]].bytes == f.bytes && Nearby(p, f.path)
    ensures Inv(End(s, p, f)) && Extends(s, End(s, p, f))
  {
  }

  /** A fresh timer for a path without an entry. */
  function Arm(s: State, p: Path, bytes: Content, size: nat): State {
    s.(pending := s.pending[p := |s.issued|], armed := s.armed + {|s.issued|},
       issued := s.issued + [Held(p, bytes, size)])
  }

  lemma ArmKeeps(s: State, p: Path, bytes: Content, size: nat)
    requires Inv(s) && p !in s.pending
    ensures Inv(Arm(s, p, bytes, size)) && Extends(s, Arm(s, p, bytes, size))
  {
    var u := Arm(s, p, bytes, size);
    assert forall t: nat :: t < |s.issued| ==> u.issued[t] == s.issued[t];
  }

  lemma BufferKeeps(s: State, p: Path, bytes: Content, size: nat)
    requires Inv(s)
    ensures Inv(Buffer(s, p, bytes, size)) && Extends(s, Buffer(s, p, bytes, size))
  {
    var cleared := if p in s.pending then End(s, p, Superseded) else s;
    if p in s.pending { EndKeeps(s, p, Superseded); }
    ArmKeeps(cleared, p, bytes, size);
  }

  lemma AppearKeeps(s: State, p: Path, bytes: Content, size: nat, known: bool)
    requires Inv(s)
    ensures Inv(Appear(s, p, bytes, size, known)) && Extends(s, Appear(s, p, bytes, size, known))
  {
    var t := if p in s.pending then End(s, p, Recreated) else s;
    if p in s.pending { EndKeeps(s, p, Recreated); }
    var found := Matches(t, p, bytes, size);
    hide Inv, Extends;
    if !known && size > 0 && |found| == 1 {
      var q :| q in found && Appear(s, p, bytes, size, known) == End(t, q, RenamedTo(p, bytes, size));
      MatchEnds(t, p, bytes, size, q);
      ExtendsFurther(s, t, End(t, q, RenamedTo(p, bytes, size)));
    } else {
      ExtendsFurther(s, s, t);
    }
  }

  lemma MatchEnds(s: State, p: Path, bytes: Content, size: nat, q: Path)
    requires Inv(s) && size > 0 && q in Matches(s, p, bytes, size)
    ensures Inv(End(s, q, RenamedTo(p, bytes, size))) && Extends(s, End(s, q, RenamedTo(p, bytes, size)))
  {
    assert s.issued[s.pending[q]].path == q;
    EndKeeps(s, q, RenamedTo(p, bytes, size));
  }

  lemma ExtendsFurther(s: State, t: State, u: State)
    requires (s == t || Extends(s, t)) && (t == u || Extends(t, u))
    ensures Extends(s, u)
  {
  }

  lemma StepKeeps(s: State, e: Move)
    requires Inv(s) && Enabled(s, e)
    ensures Inv(Next(s, e)) && Extends(s, Next(s, e))
  {
    match e
    case Deletes(p, b, n) => BufferKeeps(s, p, b, n);
    case Appears(p, b, n, known) => AppearKeeps(s, p, b, n, known);
    case Fires(t) => FireKeeps(s, t);
    case Stops => DropKeeps(s);
  }

  lemma FireKeeps(s: State, t: Timer)
    requires Inv(s) && t in s.armed
    ensures Inv(Fire(s, t)) && Extends(s, Fire(s, t))
  {
  }

  lemma DropKeeps(s: State)
    requires Inv(s)
    ensures Inv(DropAll(s)) && Extends(s, DropAll(s)) && DropAll(s).armed == {}
  {
    var u := DropAll(s);
    forall t | t in s.armed ensures t !in u.armed && t in u.fates {
      assert s.pending[s.issued[t].path] == t;
    }
  }

  /** In every run, armed timers and entries match one to one, and each buffered delete is either
      still waiting or has ended in exactly one way, which later steps do not revise; a rename
      consumed a delete of equal checksum and size, nearby. */
  lemma {:induction false} BufferedDeletesAreConserved(s: State, es: seq<Move>)
    requires Possible(s, es) && Inv(s)
    ensures Inv(Run(s, es)) && Extends(s, Run(s, es))
    decreases |es|
  {
    if es != [] {
      StepKeeps(s, es[0]);
      BufferedDeletesAreConserved(Next(s, es[0]), es[1..]);
    }
  }

  lemma FromEmpty(es: seq<Move>)
    requires Possible(EMPTY_BUFFER, es)
    ensures var u := Run(EMPTY_BUFFER, es);
            && |u.issued| == |u.armed| + |u.fates|
            && u.armed == (set p | p in u.pending :: u.pending[p])
  {
    BufferedDeletesAreConserved(EMPTY_BUFFER, es);
    var u := Run(EMPTY_BUFFER, es);
    assert Below(|u.issued|) == u.armed + u.fates.Keys;
  }

  function Below(n: nat): (s: set<nat>)
    ensures |s| == n && forall t: nat :: t in s <==> t < n
  { if n == 0 then {} else Below(n - 1) + {n - 1} }

  /** Why the prior timer is cleared: left armed, it fires first and takes the newer entry with
      it, whose own timer then deletes a second time. */
  lemma UnclearedTimerFiresTwice()
    ensures var s := Buffer(EMPTY_BUFFER, "a", 1, 1);
            var t := s.(pending := s.pending["a" := 1], armed := s.armed + {1}, issued := s.issued + [Held("a", 2, 2)]);
            var u := Fire(Fire(t, 0), 1);
            Fire(t, 0).pending == map[] && 1 in Fire(t, 0).armed && u.fates == map[0 := Fired, 1 := Fired]
  {
  }

  // --- The buffer as it runs ---

  class Buffered {
    var pending: map<Path, Timer>
    var armed: set<Timer>
    var issued: seq<Held>
    ghost var fates: map<Timer, Fate>

    ghost function View(): State
      reads this
    { State(pending, armed, issued, fates) }

    constructor ()
      ensures View() == EMPTY_BUFFER
    {
      pending, armed, issued, fates := map[], {}, [], map[];
    }

    method ClearPrior(p: Path)
      requires p in pending
      modifies `pending, `armed, `fates
      ensures View() == End(old(View()), p, Superseded)
    {
      armed := armed - {pending[p]};
      fates := fates[pending[p] := Superseded];
      pending := pending - {p};
    }

    method HandleDelete(p: Path, bytes: Content, size: nat)
      requires Inv(View())
      modifies this
      ensures View() == Buffer(old(View()), p, bytes, size) && Inv(View())
    {
      BufferKeeps(View(), p, bytes, size);
      hide Inv, Extends, Live;
      if p in pending { ClearPrior(p); }
      armed := armed + {|issued|};
      pending := pending[p := |issued|];
      issued := issued + [Held(p, bytes, size)];
    }

    method CancelRecreated(p: Path)
      requires Inv(View())
      modifies this
      ensures View() == if p in old(pending) then End(old(View()), p, Recreated) else old(View())
      ensures Inv(View())
    {
      if p in pending {
        EndKeeps(View(), p, Recreated);
        armed := armed - {pending[p]};
        fates := fates[pending[p] := Recreated];
        pending := pending - {p};
      }
    }

    method TimerFires(t: Timer)
      requires Inv(View()) && t in armed
      modifies this
      ensures View() == Fire(old(View()), t) && Inv(View())
      ensures old(issued[t].path in pending && pending[issued[t].path] == t)
    {
      FireKeeps(View(), t);
      armed := armed - {t};
      fates := fates[t := Fired];
      pending := pending - {issued[t].path};
    }

    /** The teardown loop over the entries' timers. */
    method ClearTimers()
      requires Inv(View())
      modifies `armed
      ensures armed == {}
    {
      ghost var held, of := armed, issued;
      assert forall t :: t in held ==> t < |of| && of[t].path in pending && pending[of[t].path] == t;
      var todo := pending.Keys;
      while todo != {}
        invariant todo <= pending.Keys
        invariant forall t :: t in armed ==> t in held && of[t].path in todo
        decreases |todo|
      {
        var p :| p in todo;
        armed := armed - {pending[p]};
        todo := todo - {p};
      }
    }

    method Stop()
      requires Inv(View())
      modifies this
      ensures View() == DropAll(old(View())) && Inv(View()) && armed == {}
    {
      DropKeeps(View());
      ghost var before := View();
      ClearTimers();
      pending := map[];
      fates := DropAll(before).fates;
    }
  }
}
