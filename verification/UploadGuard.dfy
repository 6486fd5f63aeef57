/**
 The upload's body framing: a stream of chunks counted against the size declared in
 Content-Length, under request, response and stream events in any order.
 */
module UploadGuard {

  /** An upload past its opening checks: sizes fixed, descriptor open, headers written. */
  datatype State = State(
    head: nat,         // relPathPart and fileHeader
    size: nat,         // declaredBodySize
    foot: nat,         // fileFooter
    streamed: nat,     // streamedBytes
    written: nat,      // what reached the request's socket
    tripped: bool,     // lengthMismatchErr
    torn: bool,        // the streams are destroyed
    ended: bool,       // req.end() was called
    destroyed: bool,   // req.destroy() was
    closes: nat)       // times the descriptor was closed

  function ContentLength(s: State): nat { s.head + s.size + s.foot }

  function Opened(head: nat, size: nat, foot: nat): State {
    State(head, size, foot, 0, head, false, false, false, false, 0)
  }

  /** `cleanupSrc`, which any handler may call, any number of times. */
  function CleanUp(s: State): State { s.(torn := true, closes := if s.closes == 0 then 1 else s.closes) }

  /** The length guard: it stops before the bytes that overrun. */
  function Chunk(s: State, n: nat): State {
    var t := s.(streamed := s.streamed + n);
    if t.streamed > s.size then t.(tripped := true) else t.(written := s.written + n)
  }

  /** The throttled stream has ended: the footer, unless the file came up short. */
  function SourceEnds(s: State): State {
    if s.streamed != s.size then CleanUp(s).(destroyed := true)
    else s.(written := s.written + s.foot, ended := true)
  }

  datatype Event =
    | Read(n: nat)          // the source delivers a chunk
    | Ends                  // and runs out
    | StreamFails           // the source or the throttle errors
    | RequestFails
    | TimesOut
    | ResponseOver          // read to its end, or not

  /** Destroyed streams deliver nothing more; a tripped guard passes nothing more; a request that
      is over takes no more. The other handlers can run at any time. */
  predicate Enabled(s: State, e: Event) {
    e.Read? || e.Ends? ==> !s.torn && !s.tripped && !s.ended && !s.destroyed
  }

  function Next(s: State, e: Event): State {
    match e
    case Read(n) => Chunk(s, n)
    case Ends => SourceEnds(s)
    case StreamFails => CleanUp(s).(destroyed := true)
    case RequestFails => CleanUp(s)
    case TimesOut => CleanUp(s).(destroyed := true)
    case ResponseOver => CleanUp(s)
  }

  predicate Possible(s: State, es: seq<Event>)
    decreases |es|
  { es != [] ==> Enabled(s, es[0]) && Possible(Next(s, es[0]), es[1..]) }

  function Run(s: State, es: seq<Event>): State
    decreases |es|
  { if es == [] then s else Run(Next(s, es[0]), es[1..]) }

  /** Bytes the source has delivered. */
  function Delivered(es: seq<Event>): nat {
    if es == [] then 0 else (if es[0].Read? then es[0].n else 0) + Delivered(es[1..])
  }

  predicate Inv(s: State) {
    && s.closes <= 1 && (s.torn <==> s.closes == 1)
    && (s.tripped <==> s.streamed > s.size)
    && (!s.tripped && !s.ended ==> s.written == s.head + s.streamed)
    && (s.tripped ==> !s.ended && s.written <= s.head + s.size)
    && (s.ended ==> s.streamed == s.size && s.written == ContentLength(s))
  }

  lemma {:induction false} RunKeepsInv(s: State, es: seq<Event>)
    requires Inv(s) && Possible(s, es)
    ensures var t := Run(s, es);
            && Inv(t) && t.head == s.head && t.size == s.size && t.foot == s.foot
            && t.streamed == s.streamed + Delivered(es)
    decreases |es|
  {
    if es != [] { RunKeepsInv(Next(s, es[0]), es[1..]); }
  }

  /** For every sequence of chunks and events: the body never overruns what was declared, the
      request is ended exactly full, that takes a source of exactly the declared size, and the
      descriptor is closed at most once. */
  lemma UploadIsFramed(head: nat, size: nat, foot: nat, es: seq<Event>)
    requires Possible(Opened(head, size, foot), es)
    ensures var t := Run(Opened(head, size, foot), es);
            && t.written <= ContentLength(t)
            && (t.ended ==> t.written == head + size + foot && Delivered(es) == size)
            && (!t.ended ==> t.written <= head + size)
            && t.closes <= 1
  {
    RunKeepsInv(Opened(head, size, foot), es);
  }

  /** The request is torn down exactly by a stream that fails, a timeout and a file that came up short; one
      that is refused or answered ends by itself. */
  predicate TearsDown(s: State, e: Event) {
    e.StreamFails? || e.TimesOut? || (e.Ends? && s.streamed != s.size)
  }

  predicate TornDown(s: State, es: seq<Event>)
    decreases |es|
  { es != [] && (TearsDown(s, es[0]) || TornDown(Next(s, es[0]), es[1..])) }

  lemma {:induction false} RequestIsTornDown(s: State, es: seq<Event>)
    ensures Run(s, es).destroyed <==> s.destroyed || TornDown(s, es)
    decreases |es|
  {
    if es != [] {
      assert Next(s, es[0]).destroyed <==> s.destroyed || TearsDown(s, es[0]);
      RequestIsTornDown(Next(s, es[0]), es[1..]);
    }
  }

  /** An upload starts with its headers written and everything open. */
  lemma FreshUpload(head: nat, size: nat, foot: nat)
    ensures var s := Opened(head, size, foot);
            && Inv(s) && s.written == head && s.streamed == s.closes == 0 && ContentLength(s) == head + size + foot
            && !s.tripped && !s.torn && !s.ended && !s.destroyed
  {
  }

  /** The events that finish with the descriptor. */
  predicate Finishes(s: State, e: Event) {
    e.StreamFails? || e.RequestFails? || e.TimesOut? || e.ResponseOver? || (e.Ends? && s.streamed != s.size)
  }

  predicate Finished(s: State, es: seq<Event>)
    decreases |es|
  { es != [] && (Finishes(s, es[0]) || Finished(Next(s, es[0]), es[1..])) }

  /** The descriptor is closed, once, exactly in the runs in which a handler that finishes with it has
      run: a stream or the request failed, it timed out, the file fell short, or it was answered. */
  lemma {:induction false} DescriptorIsClosed(s: State, es: seq<Event>)
    requires Inv(s) && Possible(s, es)
    ensures Run(s, es).closes == 1 <==> s.closes == 1 || Finished(s, es)
    ensures Run(s, es).closes <= 1
    decreases |es|
  {
    if es != [] {
      RunKeepsInv(s, [es[0]]);
      DescriptorIsClosed(Next(s, es[0]), es[1..]);
    }
  }

  /** A file that grows trips the guard, and that is none of them: nobody listens to the guard's own
      error, so the request just stays, unended, with its descriptor open, until something else ends it. */
  lemma {:induction false} TrippedStaysOpen(s: State, es: seq<Event>)
    requires Inv(s) && s.closes == 0 && !s.destroyed && !s.ended && Possible(s, es)
    requires (forall i :: 0 <= i < |es| ==> es[i].Read?) && s.streamed + Delivered(es) > s.size
    ensures var t := Run(s, es);
            && t.tripped && t.closes == 0 && !t.destroyed && !t.ended
            && (forall e :: Enabled(t, e) ==> !e.Read? && !e.Ends?)
            && (forall e :: Enabled(t, e) ==> Finishes(t, e) && Next(t, e).closes == 1)
    decreases |es|
  {
    if es != [] {
      RunKeepsInv(s, [es[0]]);
      TrippedStaysOpen(Next(s, es[0]), es[1..]);
    }
  }

  /** And a source that delivers exactly that much, with nothing else going on, does end it. */
  lemma {:induction false} ExactSourceEnds(s: State, es: seq<Event>)
    requires Inv(s) && !s.torn && !s.tripped && !s.ended && !s.destroyed
    requires (forall i :: 0 <= i < |es| ==> es[i].Read?) && s.streamed + Delivered(es) == s.size
    ensures Possible(s, es + [Ends])
    ensures var t := Run(s, es + [Ends]); t.ended && t.written == ContentLength(s)
    decreases |es|
  {
    if es == [] {
      assert es + [Ends] == [Ends] && [Ends][1..] == [];
    } else {
      assert (es + [Ends])[1..] == es[1..] + [Ends] && (es + [Ends])[0] == es[0];
      ExactSourceEnds(Next(s, es[0]), es[1..]);
    }
  }

  // --- The upload as it runs ---

  class Upload {
    const head: nat
    const declaredBodySize: nat
    const foot: nat
    var streamedBytes: nat
    var written: nat
    var lengthMismatch: bool
    var srcClosed: bool
    var ended: bool
    var destroyed: bool
    ghost var closes: nat

    ghost function View(): State
      reads this
    { State(head, declaredBodySize, foot, streamedBytes, written, lengthMismatch, srcClosed, ended, destroyed, closes) }

    constructor (head: nat, size: nat, foot: nat)
      ensures View() == Opened(head, size, foot)
    {
      this.head, declaredBodySize, this.foot := head, size, foot;
      streamedBytes, written, lengthMismatch := 0, head, false;
      srcClosed, ended, destroyed, closes := false, false, false, 0;
    }

    method CleanupSrc()
      requires Inv(View())
      modifies `srcClosed, `closes
      ensures View() == CleanUp(old(View())) && Inv(View())
    {
      if !srcClosed {
        srcClosed := true;
        closes := closes + 1;
      }
    }

    method Transform(n: nat)
      requires Inv(View()) && Enabled(View(), Read(n))
      modifies `streamedBytes, `lengthMismatch, `written
      ensures View() == Chunk(old(View()), n) && Inv(View())
    {
      streamedBytes := streamedBytes + n;
      if streamedBytes > declaredBodySize {
        lengthMismatch := true;
        return;
      }
      written := written + n;
    }

    method OnEnd()
      requires Inv(View()) && Enabled(View(), Ends)
      modifies `srcClosed, `closes, `destroyed, `written, `ended
      ensures View() == SourceEnds(old(View())) && Inv(View())
    {
      if streamedBytes != declaredBodySize {
        CleanupSrc();
        destroyed := true;
        return;
      }
      written := written + foot;
      ended := true;
    }

    method OnFailure(destroys: bool)
      requires Inv(View())
      modifies `srcClosed, `closes, `destroyed
      ensures View() == CleanUp(old(View())).(destroyed := old(destroyed) || destroys)
      ensures Inv(View())
    {
      CleanupSrc();
      if destroys { destroyed := true; }
    }
  }
}
