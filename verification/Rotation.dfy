/**
 Rotating the mTLS identity. The certificate, key and CA are three files, so a rotation stages
 the new trio, backs the current one up and swaps it in, one file at a time, and a boot repairs
 what a crash left. Both may be cut short at any operation, a copy even halfway through.
 */
module Rotation {

  /** What a file holds: one generation's PEM, or the garbage an interrupted copy leaves. */
  datatype Pem = Missing | Gen(g: nat) | Garbage

  datatype Role = Cert | Key | Ca

  datatype Trio = Trio(cert: Pem, key: Pem, ca: Pem) {
    function At(r: Role): Pem { match r case Cert => cert case Key => key case Ca => ca }

    function Put(r: Role, x: Pem): Trio {
      match r
      case Cert => this.(cert := x)
      case Key => this.(key := x)
      case Ca => this.(ca := x)
    }

    predicate Complete() { cert != Missing && key != Missing && ca != Missing }
  }

  function Whole(g: nat): Trio { Trio(Gen(g), Gen(g), Gen(g)) }

  const NONE := Trio(Missing, Missing, Missing)

  /** The nine files. */
  datatype Files = Files(live: Trio, next: Trio, prev: Trio)

  /** The live certificate and key are both there and do not belong together. */
  predicate Torn(live: Trio) {
    live.cert != Missing && live.key != Missing && !(live.cert.Gen? && live.cert == live.key)
  }

  predicate Staged(f: Files) { f.next != NONE }

  /** The volume, which stops obeying after `budget` more operations: the process has died. A
      copy caught by the crash is left half done when `tears`. */
  class Volume {
    var files: Files
    var budget: nat
    var tears: bool
    var dead: bool

    constructor (files: Files, budget: nat, tears: bool)
      ensures this.files == files && this.budget == budget && this.tears == tears && !dead
    {
      this.files, this.budget, this.tears, dead := files, budget, tears, false;
    }

    /** Whether the next operation still happens. */
    method Alive() returns (ok: bool)
      modifies `budget, `dead
      ensures ok == (!old(dead) && old(budget) > 0)
      ensures dead == !ok && budget == if ok then old(budget) - 1 else old(budget)
    {
      ok := !dead && budget > 0;
      if ok { budget := budget - 1; } else { dead := true; }
    }

    /** An atomic write of a staged file. */
    method Stage(r: Role, n: nat)
      modifies this
      ensures tears == old(tears) && dead == (old(dead) || old(budget) == 0)
      ensures budget == if dead then old(budget) else old(budget) - 1
      ensures files == if dead then old(files) else old(files).(next := old(files).next.Put(r, Gen(n)))
    {
      var ok := Alive();
      if ok { files := files.(next := files.next.Put(r, Gen(n))); }
    }

    method BackUp(r: Role)
      modifies this
      ensures tears == old(tears) && dead == (old(dead) || old(budget) == 0)
      ensures budget == if dead then old(budget) else old(budget) - 1
      ensures files == if !dead then old(files).(prev := old(files).prev.Put(r, old(files).live.At(r)))
                       else if !old(dead) && tears then old(files).(prev := old(files).prev.Put(r, Garbage))
                       else old(files)
    {
      var died := dead;
      var ok := Alive();
      if ok { files := files.(prev := files.prev.Put(r, files.live.At(r))); }
      else if !died && tears { files := files.(prev := files.prev.Put(r, Garbage)); }
    }

    method Restore(r: Role)
      modifies this
      ensures tears == old(tears) && dead == (old(dead) || old(budget) == 0)
      ensures budget == if dead then old(budget) else old(budget) - 1
      ensures files == if !dead then old(files).(live := old(files).live.Put(r, old(files).prev.At(r)))
                       else if !old(dead) && tears then old(files).(live := old(files).live.Put(r, Garbage))
                       else old(files)
    {
      var died := dead;
      var ok := Alive();
      if ok { files := files.(live := files.live.Put(r, files.prev.At(r))); }
      else if !died && tears { files := files.(live := files.live.Put(r, Garbage)); }
    }

    /** A rename over the live file. */
    method SwapIn(r: Role)
      modifies this
      ensures tears == old(tears) && dead == (old(dead) || old(budget) == 0)
      ensures budget == if dead then old(budget) else old(budget) - 1
      ensures files == if dead then old(files)
                       else old(files).(live := old(files).live.Put(r, old(files).next.At(r)),
                                        next := old(files).next.Put(r, Missing))
    {
      var ok := Alive();
      if ok { files := files.(live := files.live.Put(r, files.next.At(r)), next := files.next.Put(r, Missing)); }
    }

    method Unstage(r: Role)
      modifies this
      ensures tears == old(tears) && dead == (old(dead) || old(budget) == 0)
      ensures budget == if dead then old(budget) else old(budget) - 1
      ensures files == if dead then old(files) else old(files).(next := old(files).next.Put(r, Missing))
    {
      var ok := Alive();
      if ok { files := files.(next := files.next.Put(r, Missing)); }
    }

    /** The file operations of `_handleCaRotation`. */
    method HandleCaRotation(n: nat)
      requires !dead && files.next == NONE
      modifies this
      ensures files == Rotated(old(files), n, old(budget), old(tears))
    {
      Stage(Cert, n);
      Stage(Key, n);
      Stage(Ca, n);
      BackUp(Cert);
      BackUp(Key);
      BackUp(Ca);
      SwapIn(Cert);
      SwapIn(Key);
      SwapIn(Ca);
    }

    /** `_recoverMtlsFromBackup`, at boot or after a rotation that failed halfway. */
    method RecoverMtlsFromBackup()
      requires !dead
      modifies this
      ensures files == Recovered(old(files), old(budget), old(tears))
    {
      if !Torn(files.live) && !Staged(files) { return; }
      if files.prev.Complete() {
        Restore(Cert);
        Restore(Key);
        Restore(Ca);
      }
      Unstage(Cert);
      Unstage(Key);
      Unstage(Ca);
    }
  }

  // --- What they leave behind ---

  function Ordinal(r: Role): nat { match r case Cert => 0 case Key => 1 case Ca => 2 }

  function Each(f: Role -> Pem): Trio { Trio(f(Cert), f(Key), f(Ca)) }

  /** A rotation to generation `n` that completed `k` operations. */
  function Rotated(f: Files, n: nat, k: nat, tears: bool): Files {
    Files(Each(r => if k > 6 + Ordinal(r) then Gen(n) else f.live.At(r)),
          Each(r => if Ordinal(r) < k <= 6 + Ordinal(r) then Gen(n) else Missing),
          Each(r => if k > 3 + Ordinal(r) then f.live.At(r)
                    else if k == 3 + Ordinal(r) && tears then Garbage else f.prev.At(r)))
  }

  /** A recovery that completed `k` operations. */
  function Recovered(f: Files, k: nat, tears: bool): Files {
    if !Torn(f.live) && !Staged(f) then f
    else
      var copies := if f.prev.Complete() then 3 else 0;
      Files(Each(r => if Ordinal(r) < copies && k > Ordinal(r) then f.prev.At(r)
                      else if Ordinal(r) < copies && k == Ordinal(r) && tears then Garbage else f.live.At(r)),
            Each(r => if k > copies + Ordinal(r) then Missing else f.next.At(r)),
            f.prev)
  }

  /** What the next operation of a rotation does: stage, back up, swap in, one role after the other. */
  function RotationStep(f: Files, n: nat, k: nat): Files {
    var r := if k % 3 == 0 then Cert else if k % 3 == 1 then Key else Ca;
    if k < 3 then f.(next := f.next.Put(r, Gen(n)))
    else if k < 6 then f.(prev := f.prev.Put(r, f.live.At(r)))
    else if k < 9 then f.(live := f.live.Put(r, f.next.At(r)), next := f.next.Put(r, Missing))
    else f
  }

  /** And of a recovery that has something to do: restore what can be, then clear the stage. */
  function RecoveryStep(f: Files, restores: bool, k: nat): Files {
    var r := if k % 3 == 0 then Cert else if k % 3 == 1 then Key else Ca;
    if restores && k < 3 then f.(live := f.live.Put(r, f.prev.At(r)))
    else if k < (if restores then 6 else 3) then f.(next := f.next.Put(r, Missing))
    else f
  }

  /** Each is those operations, one after the other. */
  lemma StepByStep(f: Files, n: nat, k: nat)
    ensures f.next == NONE ==> Rotated(f, n, 0, false) == f
    ensures f.next == NONE ==> Rotated(f, n, k + 1, false) == RotationStep(Rotated(f, n, k, false), n, k)
    ensures Recovered(f, 0, false) == f
    ensures Torn(f.live) || Staged(f) ==>
              Recovered(f, k + 1, false) == RecoveryStep(Recovered(f, k, false), f.prev.Complete(), k)
    ensures !Torn(f.live) && !Staged(f) ==> Recovered(f, k, false) == f
  {
  }

  /** And a copy caught by the crash is the one thing that a torn cut leaves different. */
  lemma TornStep(f: Files, n: nat, k: nat)
    ensures var r := if k % 3 == 0 then Cert else if k % 3 == 1 then Key else Ca;
            && (3 <= k < 6 ==>
                  Rotated(f, n, k, true) == (var t := Rotated(f, n, k, false); t.(prev := t.prev.Put(r, Garbage))))
            && (!(3 <= k < 6) ==> Rotated(f, n, k, true) == Rotated(f, n, k, false))
            && (k < 3 && f.prev.Complete() && (Torn(f.live) || Staged(f)) ==>
                  Recovered(f, k, true) == (var t := Recovered(f, k, false); t.(live := t.live.Put(r, Garbage))))
            && (!(k < 3 && f.prev.Complete()) ==> Recovered(f, k, true) == Recovered(f, k, false))
  {
  }

  /** More operations than either ever makes. */
  const ENOUGH: nat := 9

  function Boot(f: Files): Files { Recovered(f, ENOUGH, false) }

  datatype Cut = Cut(k: nat, tears: bool)

  /** Boots that died during their own recovery, oldest last. */
  function Boots(f: Files, cuts: seq<Cut>): Files {
    if cuts == [] then f else Recovered(Boots(f, cuts[1..]), cuts[0].k, cuts[0].tears)
  }

  /** A completed recovery clears the stage, so the next rotation starts from an empty one. */
  lemma BootClearsStage(f: Files)
    ensures Boot(f).next == NONE && Boot(f).prev == f.prev
  {
  }

  /** A torn trio is still staged, or has nothing to be restored from, or is what a torn backup
      restores anyway. */
  predicate Recoverable(f: Files) {
    || !Torn(f.live) || Staged(f) || !f.prev.Complete()
    || (Torn(f.prev) && forall r :: f.live.At(r) == f.prev.At(r) || f.live.At(r) == Garbage)
  }

  lemma CutIsAbsorbed(f: Files, c: Cut)
    requires Recoverable(f)
    ensures var t := Recovered(f, c.k, c.tears);
            Recoverable(t) && t.prev == f.prev && Boot(t).live == Boot(f).live
  {
  }

  /** However many recoveries were cut short first, the one that completes ends where a single
      uninterrupted recovery would have. */
  lemma {:induction false} RecoveryAbsorbsCrashes(f: Files, cuts: seq<Cut>)
    requires Recoverable(f)
    ensures Boot(Boots(f, cuts)).live == Boot(f).live && Recoverable(Boots(f, cuts))
  {
    if cuts != [] {
      RecoveryAbsorbsCrashes(f, cuts[1..]);
      CutIsAbsorbed(Boots(f, cuts[1..]), cuts[0]);
    }
  }

  /** Without that, an interrupted recovery can stop early: here the copied certificate happens
      to match the live key, and the foreign CA stays. */
  lemma UnstagedTearIsNotAbsorbed()
    ensures var f := Files(Trio(Garbage, Gen(1), Gen(2)), NONE, Whole(1));
            Boot(f).live == Whole(1) && Boot(Boots(f, [Cut(1, false)])).live == Trio(Gen(1), Gen(1), Gen(2))
  {
    var f := Files(Trio(Garbage, Gen(1), Gen(2)), NONE, Whole(1));
    assert [Cut(1, false)][1..] == [];
    assert Boots(f, [Cut(1, false)]) == Recovered(f, 1, false);
  }

  lemma RotationIsRecoverable(f: Files, g: nat, n: nat, c: Cut)
    requires f.live == Whole(g) && f.next == NONE
    ensures Recoverable(Rotated(f, n, c.k, c.tears))
  {
  }

  /** The whole identity is the one from before or the new one. */
  predicate Consistent(live: Trio, g: nat, n: nat) { live == Whole(g) || live == Whole(n) }

  /** A first rotation, cut short anywhere, then any number of recoveries cut short, then one that
      completes: the three files are of one generation, unless the crash fell inside the copy of
      the CA's backup, the last of the three. Then the half-written backup counts as complete,
      and recovery puts it over the good CA. */
  lemma FirstRotationIsCrashSafe(f: Files, g: nat, n: nat, c: Cut, cuts: seq<Cut>)
    requires f.live == Whole(g) && f.next == NONE && f.prev == NONE
    ensures var live := Boot(Boots(Rotated(f, n, c.k, c.tears), cuts)).live;
            && (Consistent(live, g, n) <==> !(c.k == 5 && c.tears))
            && (c.k == 5 && c.tears ==> live == Trio(Gen(g), Gen(g), Garbage))
            && (g != n ==> (live == Whole(n) <==> c.k >= ENOUGH))
  {
    RotationIsRecoverable(f, g, n, c);
    RecoveryAbsorbsCrashes(Rotated(f, n, c.k, c.tears), cuts);
  }

  /** The backups as a crash in a rotation leaves them. */
  function BackupAt(prev: Trio, g: nat, c: Cut): Trio {
    Each(r => if c.k > 3 + Ordinal(r) then Gen(g) else if c.k == 3 + Ordinal(r) && c.tears then Garbage else prev.At(r))
  }

  /** A rotation cut short, then recoveries cut short, then one that completes, leave one identity. */
  predicate Survives(f: Files, g: nat, n: nat, c: Cut, cuts: seq<Cut>) {
    Consistent(Boot(Boots(Rotated(f, n, c.k, c.tears), cuts)).live, g, n)
  }

  /** A later rotation, with backups of an earlier one in place, survives exactly when the crash fell
      outside it, or the backups as the crash left them are incomplete or of one generation. */
  lemma LaterRotationIsCrashSafe(f: Files, g: nat, n: nat, c: Cut, cuts: seq<Cut>)
    requires f.live == Whole(g) && f.next == NONE
    ensures var backup := BackupAt(f.prev, g, c);
            Survives(f, g, n, c, cuts)
            <==> (c.k == 0 || c.k >= ENOUGH || !backup.Complete() || Consistent(backup, g, n))
  {
    RotationIsRecoverable(f, g, n, c);
    RecoveryAbsorbsCrashes(Rotated(f, n, c.k, c.tears), cuts);
    assert Rotated(f, n, c.k, c.tears).prev == BackupAt(f.prev, g, c);
  }

  /** The backups a previous rotation left that do no harm: they do not add up to a complete trio
      of anything but the current generation at any point of the new backup. */
  predicate Harmless(prev: Trio, g: nat) {
    || prev.ca == Missing
    || (prev.ca == Gen(g)
        && (prev.key == Missing || (prev.key == Gen(g) && (prev.cert == Missing || prev.cert == Gen(g)))))
  }

  /** So every crash that leaves no copy half done is survived, whatever recoveries it interrupts,
      exactly when those backups are harmless. */
  lemma CleanCrashesSurvive(f: Files, g: nat, n: nat)
    requires f.live == Whole(g) && f.next == NONE
    requires forall r :: f.prev.At(r) != Gen(n)
    ensures (forall k: nat, cuts :: Survives(f, g, n, Cut(k, false), cuts)) <==> Harmless(f.prev, g)
  {
    assert f.prev.At(Cert) != Gen(n) && f.prev.At(Key) != Gen(n) && f.prev.At(Ca) != Gen(n);
    forall k: nat, cuts ensures Harmless(f.prev, g) ==> Survives(f, g, n, Cut(k, false), cuts) {
      LaterRotationIsCrashSafe(f, g, n, Cut(k, false), cuts);
    }
    hide Survives;
    if forall k: nat, cuts :: Survives(f, g, n, Cut(k, false), cuts) {
      forall k: nat ensures Survives(f, g, n, Cut(k, false), []) {}
      LaterRotationIsCrashSafe(f, g, n, Cut(1, false), []);
      LaterRotationIsCrashSafe(f, g, n, Cut(4, false), []);
      LaterRotationIsCrashSafe(f, g, n, Cut(5, false), []);
    }
  }

  /** With half-done copies too, all but one crash point is survived exactly when no backup of the CA
      was there; and a half-done copy of the CA's own backup never is. */
  lemma TornCrashesSurvive(f: Files, g: nat, n: nat)
    requires f.live == Whole(g) && f.next == NONE
    ensures (forall c: Cut, cuts :: c != Cut(5, true) ==> Survives(f, g, n, c, cuts)) <==> f.prev.ca == Missing
    ensures forall cuts :: !Survives(f, g, n, Cut(5, true), cuts)
  {
    forall c: Cut, cuts | c != Cut(5, true) ensures f.prev.ca == Missing ==> Survives(f, g, n, c, cuts) {
      LaterRotationIsCrashSafe(f, g, n, c, cuts);
    }
    forall cuts ensures !Survives(f, g, n, Cut(5, true), cuts) {
      LaterRotationIsCrashSafe(f, g, n, Cut(5, true), cuts);
    }
    hide Survives;
    if forall c: Cut, cuts :: c != Cut(5, true) ==> Survives(f, g, n, c, cuts) {
      assert Survives(f, g, n, Cut(4, true), []);
      LaterRotationIsCrashSafe(f, g, n, Cut(4, true), []);
    }
  }

  /** What a second rotation restores, crash point by crash point. */
  lemma SecondRotationRestores(f: Files, o: nat, g: nat, n: nat, k: nat)
    requires f == Files(Whole(g), NONE, Whole(o))
    ensures Boot(Rotated(f, n, k, false)).live ==
              if k == 0 then Whole(g)
              else if k <= 3 then Whole(o)
              else if k == 4 then Trio(Gen(g), Gen(o), Gen(o))
              else if k == 5 then Trio(Gen(g), Gen(g), Gen(o))
              else if k < ENOUGH then Whole(g)
              else Whole(n)
  {
  }
}
