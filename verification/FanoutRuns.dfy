/** Every interleaving of the writer, the pump, history splices and any number of Stops.

    Each action is one critical section or one channel operation; between them anything
    else may happen. The stream a subscriber follows is numbered 1, 2, 3, ... and pushed in
    that order, with elements that have no number in between wherever the writer likes. */
module FanoutRuns {
  import opened Fanout

  type Log = nat -> int

  /** Elements a + 1 to b of the log. */
  function Segment(log: Log, a: nat, b: nat): (s: seq<Elem>)
    requires a <= b
    ensures |s| == b - a
    ensures forall i :: 0 <= i < |s| ==> s[i] == Event(a + 1 + i, log(a + 1 + i))
  {
    seq(b - a, i requires 0 <= i < b - a => Event(a + 1 + i, log(a + 1 + i)))
  }

  datatype Pump = NotStarted | AtTop | Sending(e: Elem) | Parked | Exited

  /** signals counts the wake-ups that pushes still owe, closers the Stops that have
      emptied the queue and not closed the channel yet. The fields after out record the run:
      where the followed segment starts and ends, the end of the newest history and of all
      history (or backlog) ever given, and the unnumbered elements accepted since the last splice
      of any history. */
  datatype State = State(
    sub: Queue, wake: bool, signals: nat, closing: bool, closers: nat, pump: Pump, out: seq<Elem>,
    logEnd: nat, lo: nat, mark: nat, given: nat, end: nat, loose: seq<Elem>, dropped: bool, stopped: bool)

  datatype Action =
    | PushNext
    | PushUnnumbered(body: int)
    | Signal
    | Splice(from: nat, to: nat)
    | SpliceNothing
    | StopLock
    | StopClose
    | StartPump
    | PumpTop
    | Deliver
    | Quit
    | Wake
    | SeeClosing

  /** A subscriber registered after logEnd elements: either with the history since, or with
      none and the highest number its later history will cover. */
  ghost predicate Start(log: Log, s: State, cap: nat, since: nat, logEnd: nat, skipTo: nat) {
    && cap >= 1 && since <= logEnd && (since < logEnd ==> skipTo <= logEnd)
    && s.sub == Opened(Config(cap, Segment(log, since, logEnd), skipTo))
    && s.wake == (since < logEnd) && s.signals == 0 && !s.closing && s.closers == 0
    && s.pump == NotStarted && s.out == [] && s.logEnd == logEnd
    && s.end == Max(logEnd, skipTo) && s.lo == (if since < logEnd then since else s.end)
    && s.mark == s.end && s.given == (if since < logEnd then logEnd else 0) && s.loose == []
    && !s.dropped && !s.stopped
  }

  ghost predicate Enabled(s: State, a: Action) {
    match a
    case PushNext => true
    case PushUnnumbered(_) => true
    case Signal => s.signals > 0
    case Splice(from, to) =>
      // Before the pump starts and before any drop; SpliceIsExact says why to must lie here.
      s.pump == NotStarted && !s.sub.dead && from < to && s.lo <= to <= s.end
    case SpliceNothing => true
    case StopLock => true
    case StopClose => s.closers > 0
    case StartPump => s.pump == NotStarted
    case PumpTop => s.pump == AtTop
    case Deliver => s.pump.Sending?
    case Quit => s.pump.Sending? && s.closing
    case Wake => s.pump == Parked && s.wake
    case SeeClosing => s.pump == Parked && s.closing
  }

  ghost function Do(log: Log, s: State, a: Action): State
    requires Enabled(s, a)
  {
    match a
    case PushNext =>
      var e := Event(s.logEnd + 1, log(s.logEnd + 1));
      s.(logEnd := s.logEnd + 1,
         sub := Pushed(s.sub, e),
         signals := if Ignored(s.sub, e) then s.signals else s.signals + 1,
         dropped := s.dropped || (!Ignored(s.sub, e) && Full(s.sub)),
         end := if s.sub.dead || (!Ignored(s.sub, e) && Full(s.sub)) then s.end
                else Max(s.logEnd + 1, s.sub.skipTo))
    case PushUnnumbered(body) =>
      var e := Event(0, body);
      s.(sub := Pushed(s.sub, e),
         signals := if s.sub.dead then s.signals else s.signals + 1,
         loose := if s.sub.dead || Full(s.sub) then s.loose else s.loose + [e],
         dropped := s.dropped || (!s.sub.dead && Full(s.sub)))
    case SpliceNothing => s.(sub := Prepended(s.sub, []), wake := true)
    case Signal => s.(signals := s.signals - 1, wake := true)
    case Splice(from, to) =>
      s.(sub := Prepended(s.sub, Segment(log, from, to)), wake := true, lo := from, mark := to,
         given := Max(s.given, to), loose := [])
    case StopLock => s.(sub := Stopped(s.sub), closers := s.closers + 1, stopped := true)
    case StopClose => s.(closers := s.closers - 1, closing := true)
    case StartPump => s.(pump := AtTop)
    case PumpTop =>
      if s.sub.q == [] then s.(pump := if s.sub.dead then Exited else Parked)
      else s.(pump := Sending(s.sub.q[0]), sub := Popped(s.sub))
    case Deliver => s.(out := s.out + [s.pump.e], pump := AtTop)
    case Quit => s.(pump := Exited)
    case Wake => s.(wake := false, pump := AtTop)
    case SeeClosing => s.(pump := Exited)
  }

  /** An action that is not possible where it stands does nothing. */
  ghost function Run(log: Log, s: State, actions: seq<Action>): State {
    if actions == [] then s
    else
      var before := Run(log, s, actions[..|actions| - 1]);
      var a := actions[|actions| - 1];
      if Enabled(before, a) then Do(log, before, a) else before
  }

  // ----- What always holds

  function InFlight(s: State): seq<Elem> {
    if s.pump.Sending? then [s.pump.e] else []
  }

  /** Delivered, being delivered and queued. */
  function All(s: State): seq<Elem> {
    s.out + InFlight(s) + s.sub.q
  }

  predicate HasNoNumber(e: Elem) {
    e.Event? && e.number == 0
  }

  /** Without the elements that have no number; markers stay. */
  function Numbered(q: seq<Elem>): seq<Elem> {
    if q == [] then []
    else Numbered(q[..|q| - 1]) + (if HasNoNumber(Last(q)) then [] else [Last(q)])
  }

  /** Only the elements that have no number. */
  function Loose(q: seq<Elem>): seq<Elem> {
    if q == [] then [] else Loose(q[..|q| - 1]) + (if HasNoNumber(Last(q)) then [Last(q)] else [])
  }

  /** The number of the last element the reader is due, 0 when there is none. */
  function LastDue(s: State): nat {
    if s.lo < s.end then s.end else 0
  }

  /** All the numbered elements the reader is due: the followed segment and, for a dropped reader, the
      marker that names its last element. */
  ghost function Due(log: Log, s: State): seq<Elem>
    requires s.lo <= s.end
  {
    Segment(log, s.lo, s.end) + (if s.dropped then [Marker(LastDue(s))] else [])
  }

  /** Of the numbered elements, delivered, being delivered and queued are together exactly what is due;
      a marker comes after everything. */
  ghost predicate InOrder(log: Log, s: State) {
    && s.lo <= s.mark <= s.end
    && (!s.stopped ==> Numbered(All(s)) == Due(log, s))
    && (s.stopped ==> s.sub.q == [] && Numbered(All(s)) <= Due(log, s))
    && (s.dropped && !s.stopped ==> All(s) != [] && Last(All(s)) == Marker(LastDue(s)))
  }

  ghost predicate Flags(s: State) {
    && s.sub.cap >= 1
    && s.sub.dead == (s.dropped || s.stopped)
    && (s.closing || s.closers > 0 ==> s.stopped)
    && (s.pump == Exited ==> s.sub.dead && (s.stopped || s.sub.q == []))
    && (s.pump == NotStarted ==> s.out == [])
    && (!s.sub.dead ==> s.end == Max(s.logEnd, s.sub.skipTo))
    && (!s.sub.dead ==> s.sub.lastSeq == LastDue(s))
  }

  /** Every unnumbered element that was accepted and not spliced away is there, in order. */
  ghost predicate LooseKept(s: State) {
    && (!s.stopped ==> Loose(All(s)) == s.loose)
    && (s.stopped ==> Loose(All(s)) <= s.loose)
  }

  predicate Above(e: Elem, number: nat) {
    e.Event? && (e.number == 0 || e.number > number)
  }

  /** headroom counts the newest history still queued, which is at the front. Behind it come pushed
      elements, and what a shorter splice left of history given before it. */
  ghost predicate HeadroomExact(log: Log, s: State) {
    !s.sub.dead ==>
      && s.sub.headroom <= |s.sub.q| && s.sub.headroom <= s.mark
      && s.sub.q[..s.sub.headroom] == Segment(log, s.mark - s.sub.headroom, s.mark)
      && (forall k :: s.sub.headroom <= k < |s.sub.q| ==> Above(s.sub.q[k], s.mark))
      && s.given <= s.end && (s.sub.headroom > 0 ==> s.mark <= s.given)
  }

  /** A parked pump with something to do has a wake-up present, owed, or a close under way. */
  ghost predicate NoLostWakeUp(s: State) {
    s.pump == Parked && (s.sub.q != [] || s.sub.dead) ==>
      s.wake || s.signals > 0 || s.closing || s.closers > 0
  }

  ghost predicate Inv(log: Log, s: State) {
    InOrder(log, s) && LooseKept(s) && Flags(s) && HeadroomExact(log, s) && NoLostWakeUp(s)
  }

  lemma SegmentExtends(log: Log, a: nat, b: nat)
    requires a <= b
    ensures Segment(log, a, b) + [Event(b + 1, log(b + 1))] == Segment(log, a, b + 1)
  {
  }

  lemma NewerThanAppended(q: seq<Elem>, e: Elem, last: nat)
    ensures NewerThan(q + [e], last) == NewerThan(q, last) + (if SeqOf(e) > last then [e] else [])
  {
    assert (q + [e])[..|q|] == q;
  }

  /** What is left of the segment (lo, end] behind a history that ends at to. */
  ghost function LeftBehind(log: Log, lo: nat, end: nat, to: nat): seq<Elem>
    requires lo <= end
  {
    if to <= lo then Segment(log, lo, end) else if to <= end then Segment(log, to, end) else []
  }

  lemma LeftBehindExtends(log: Log, lo: nat, end: nat, to: nat)
    requires lo < end
    ensures LeftBehind(log, lo, end, to) ==
            LeftBehind(log, lo, end - 1, to) + (if end > to then [Event(end, log(end))] else [])
  {
    SegmentExtends(log, lo, end - 1);
    if lo < to < end { SegmentExtends(log, to, end - 1); }
  }

  lemma NewerThanExtends(log: Log, a: nat, b: nat, last: nat)
    requires a < b
    ensures NewerThan(Segment(log, a, b), last) ==
            NewerThan(Segment(log, a, b - 1), last) + (if b > last then [Event(b, log(b))] else [])
  {
    SegmentExtends(log, a, b - 1);
    NewerThanAppended(Segment(log, a, b - 1), Event(b, log(b)), last);
  }

  lemma NothingBehind(log: Log, a: nat, last: nat)
    ensures NewerThan(Segment(log, a, a), last) == LeftBehind(log, a, a, last)
  {
    assert Segment(log, a, a) == [];
  }

  lemma {:induction false} NewerThanSegment(log: Log, a: nat, b: nat, last: nat)
    requires a <= b
    ensures NewerThan(Segment(log, a, b), last) == LeftBehind(log, a, b, last)
    decreases b
  {
    if a == b {
      NothingBehind(log, a, last);
    } else {
      NewerThanSegment(log, a, b - 1, last);
      NewerThanExtends(log, a, b, last);
      LeftBehindExtends(log, a, b, last);
    }
  }

  lemma {:induction false} NumberedConcat(a: seq<Elem>, b: seq<Elem>)
    ensures Numbered(a + b) == Numbered(a) + Numbered(b)
  {
    if b == [] {
      assert a + b == a;
    } else {
      NumberedConcat(a, b[..|b| - 1]);
      assert (a + b)[..|a + b| - 1] == a + b[..|b| - 1];
    }
  }

  lemma {:induction false} LooseConcat(a: seq<Elem>, b: seq<Elem>)
    ensures Loose(a + b) == Loose(a) + Loose(b)
  {
    if b == [] {
      assert a + b == a;
    } else {
      LooseConcat(a, b[..|b| - 1]);
      assert (a + b)[..|a + b| - 1] == a + b[..|b| - 1];
    }
  }

  lemma {:induction false} NumberedNotLoose(q: seq<Elem>)
    requires forall k :: 0 <= k < |q| ==> !HasNoNumber(q[k])
    ensures Loose(q) == []
  {
    if q != [] { NumberedNotLoose(q[..|q| - 1]); }
  }

  lemma {:induction false} NumberedSegment(log: Log, a: nat, b: nat)
    requires a <= b
    ensures Numbered(Segment(log, a, b)) == Segment(log, a, b)
    decreases b
  {
    if a < b {
      SegmentExtends(log, a, b - 1);
      NumberedSegment(log, a, b - 1);
      NumberedConcat(Segment(log, a, b - 1), [Event(b, log(b))]);
    }
  }

  lemma NumberedAppended(q: seq<Elem>, e: Elem)
    ensures Numbered(q + [e]) == Numbered(q) + (if HasNoNumber(e) then [] else [e])
  {
    assert (q + [e])[..|q|] == q;
  }

  /** A splice looks at numbered elements only. */
  lemma {:induction false} NewerThanNumbered(q: seq<Elem>, last: nat)
    ensures NewerThan(Numbered(q), last) == NewerThan(q, last)
  {
    if q != [] {
      var init, e := q[..|q| - 1], Last(q);
      assert q == init + [e];
      NewerThanNumbered(init, last);
      NumberedAppended(init, e);
      NewerThanAppended(init, e, last);
      NewerThanAppended(Numbered(init), e, last);
      assert Numbered(q) == Numbered(init) + (if HasNoNumber(e) then [] else [e]);
      assert Numbered(init) + [] == Numbered(init);
    }
  }

  lemma {:induction false} NewerThanMembers(q: seq<Elem>, last: nat)
    ensures forall e :: e in NewerThan(q, last) ==> e in q && SeqOf(e) > last
  {
    if q != [] {
      NewerThanMembers(q[..|q| - 1], last);
    }
  }

  lemma WholeSegment(log: Log, s: State)
    requires s.lo <= s.end && !s.dropped && All(s) == Segment(log, s.lo, s.end)
    ensures Numbered(All(s)) == Due(log, s)
    ensures Loose(All(s)) == []
  {
    NumberedSegment(log, s.lo, s.end);
    NumberedNotLoose(Segment(log, s.lo, s.end));
    assert Due(log, s) == Segment(log, s.lo, s.end);
  }

  lemma StartHasAll(log: Log, s: State, cap: nat, since: nat, logEnd: nat, skipTo: nat)
    requires Start(log, s, cap, since, logEnd, skipTo)
    ensures s.lo <= s.mark <= s.end && s.given <= s.end && All(s) == s.sub.q == Segment(log, s.lo, s.end)
  {
  }

  lemma StartInOrder(log: Log, s: State, cap: nat, since: nat, logEnd: nat, skipTo: nat)
    requires Start(log, s, cap, since, logEnd, skipTo)
    ensures InOrder(log, s) && LooseKept(s)
  {
    StartHasAll(log, s, cap, since, logEnd, skipTo);
    WholeSegment(log, s);
  }

  lemma StartHolds(log: Log, s: State, cap: nat, since: nat, logEnd: nat, skipTo: nat)
    requires Start(log, s, cap, since, logEnd, skipTo)
    ensures Inv(log, s)
  {
    StartInOrder(log, s, cap, since, logEnd, skipTo);
    assert s.sub.q == Segment(log, since, logEnd);
    if since < logEnd {
      assert Last(s.sub.q) == Event(logEnd, log(logEnd));
    }
    assert s.sub.q[..s.sub.headroom] == s.sub.q;
  }

  /** What is pushed comes after all there is. */
  lemma AllGrows(s: State, t: State, e: Elem)
    requires t.out == s.out && t.pump == s.pump && t.sub.q == s.sub.q + [e]
    ensures All(t) == All(s) + [e]
    ensures Numbered(All(t)) == Numbered(All(s)) + (if HasNoNumber(e) then [] else [e])
    ensures Loose(All(t)) == Loose(All(s)) + (if HasNoNumber(e) then [e] else [])
  {
    assert All(t) == All(s) + [e];
    NumberedAppended(All(s), e);
    LooseConcat(All(s), [e]);
  }

  lemma LaterGrows(log: Log, s: State, e: Elem)
    requires HeadroomExact(log, s) && !s.sub.dead && Above(e, s.mark)
    ensures var q := s.sub.q + [e];
            && q[..s.sub.headroom] == Segment(log, s.mark - s.sub.headroom, s.mark)
            && forall k :: s.sub.headroom <= k < |q| ==> Above(q[k], s.mark)
  {
    assert (s.sub.q + [e])[..s.sub.headroom] == s.sub.q[..s.sub.headroom];
  }

  lemma DropKeepsOrder(log: Log, s: State, t: State)
    requires InOrder(log, s) && LooseKept(s) && Flags(s) && !s.sub.dead
    requires t == s.(sub := t.sub, logEnd := t.logEnd, signals := t.signals, dropped := true)
    requires t.sub.q == s.sub.q + [Marker(s.sub.lastSeq)]
    ensures InOrder(log, t) && LooseKept(t)
  {
    AllGrows(s, t, Marker(s.sub.lastSeq));
    assert Due(log, t) == Due(log, s) + [Marker(s.sub.lastSeq)];
  }

  lemma NextKeepsOrder(log: Log, s: State, t: State)
    requires InOrder(log, s) && LooseKept(s) && Flags(s) && !s.sub.dead
    requires t == s.(sub := t.sub, logEnd := t.logEnd, signals := t.signals, end := s.end + 1)
    requires t.sub.q == s.sub.q + [Event(t.end, log(t.end))]
    ensures InOrder(log, t) && LooseKept(t)
  {
    AllGrows(s, t, Event(t.end, log(t.end)));
    SegmentExtends(log, s.lo, s.end);
    assert Due(log, t) == Due(log, s) + [Event(t.end, log(t.end))];
  }

  lemma PushKeepsOrder(log: Log, s: State)
    requires InOrder(log, s) && LooseKept(s) && Flags(s)
    ensures InOrder(log, Do(log, s, PushNext)) && LooseKept(Do(log, s, PushNext))
  {
    var after := Do(log, s, PushNext);
    if Ignored(s.sub, Event(s.logEnd + 1, log(s.logEnd + 1))) {
      assert All(after) == All(s);
    } else if Full(s.sub) {
      DropKeepsOrder(log, s, after);
    } else {
      NextKeepsOrder(log, s, after);
    }
  }

  lemma PushKeepsFlags(log: Log, s: State)
    requires Flags(s) && NoLostWakeUp(s) && s.lo <= s.end
    ensures Flags(Do(log, s, PushNext)) && NoLostWakeUp(Do(log, s, PushNext))
  {
  }

  lemma PushKeepsHeadroom(log: Log, s: State)
    requires Flags(s) && s.mark <= s.end && HeadroomExact(log, s)
    ensures HeadroomExact(log, Do(log, s, PushNext))
  {
    var e := Event(s.logEnd + 1, log(s.logEnd + 1));
    if !Ignored(s.sub, e) && !Full(s.sub) { LaterGrows(log, s, e); }
  }

  lemma PushHolds(log: Log, s: State)
    requires Inv(log, s)
    ensures Inv(log, Do(log, s, PushNext))
  {
    PushKeepsOrder(log, s);
    PushKeepsFlags(log, s);
    PushKeepsHeadroom(log, s);
  }

  lemma PushUnnumberedKeepsOrder(log: Log, s: State, body: int)
    requires InOrder(log, s) && LooseKept(s) && Flags(s)
    ensures InOrder(log, Do(log, s, PushUnnumbered(body))) && LooseKept(Do(log, s, PushUnnumbered(body)))
  {
    if !s.sub.dead {
      AllGrows(s, Do(log, s, PushUnnumbered(body)), if Full(s.sub) then Marker(s.sub.lastSeq) else Event(0, body));
    }
  }

  lemma PushUnnumberedHolds(log: Log, s: State, body: int)
    requires Inv(log, s)
    ensures Inv(log, Do(log, s, PushUnnumbered(body)))
  {
    PushUnnumberedKeepsOrder(log, s, body);
    if !s.sub.dead && !Full(s.sub) { LaterGrows(log, s, Event(0, body)); }
  }

  /** Before the pump starts the queue holds, of the numbered elements, the whole followed segment. */
  lemma QueueIsSegment(log: Log, s: State)
    requires InOrder(log, s) && Flags(s) && s.pump == NotStarted && !s.sub.dead
    ensures Numbered(s.sub.q) == Segment(log, s.lo, s.end)
  {
    assert All(s) == s.sub.q;
  }

  lemma SegmentsJoin(log: Log, a: nat, b: nat, c: nat)
    requires a <= b <= c
    ensures Segment(log, a, b) + Segment(log, b, c) == Segment(log, a, c)
  {
  }

  /** What a splice keeps of the queue. */
  lemma SplicedRest(log: Log, s: State, to: nat)
    requires InOrder(log, s) && Flags(s) && s.pump == NotStarted && !s.sub.dead
    ensures NewerThan(s.sub.q, to) == LeftBehind(log, s.lo, s.end, to)
  {
    QueueIsSegment(log, s);
    NewerThanNumbered(s.sub.q, to);
    NewerThanSegment(log, s.lo, s.end, to);
  }

  lemma SplicedParts(log: Log, s: State, from: nat, to: nat)
    requires InOrder(log, s) && Flags(s) && s.pump == NotStarted && !s.sub.dead && from < to
    ensures Prepended(s.sub, Segment(log, from, to)).q == Segment(log, from, to) + LeftBehind(log, s.lo, s.end, to)
  {
    SplicedRest(log, s, to);
    assert Last(Segment(log, from, to)) == Event(to, log(to));
  }

  lemma SplicedQueue(log: Log, s: State, from: nat, to: nat)
    requires InOrder(log, s) && Flags(s) && Enabled(s, Splice(from, to))
    ensures Prepended(s.sub, Segment(log, from, to)).q == Segment(log, from, s.end)
  {
    SplicedParts(log, s, from, to);
    SegmentsJoin(log, from, to, s.end);
  }

  lemma SpliceKeepsOrder(log: Log, s: State, from: nat, to: nat)
    requires InOrder(log, s) && Flags(s) && Enabled(s, Splice(from, to))
    ensures InOrder(log, Do(log, s, Splice(from, to))) && LooseKept(Do(log, s, Splice(from, to)))
  {
    var after := Do(log, s, Splice(from, to));
    SplicedQueue(log, s, from, to);
    assert All(after) == after.sub.q;
    WholeSegment(log, after);
  }

  lemma SpliceHolds(log: Log, s: State, from: nat, to: nat)
    requires Inv(log, s) && Enabled(s, Splice(from, to))
    ensures Inv(log, Do(log, s, Splice(from, to)))
  {
    SpliceKeepsOrder(log, s, from, to);
    SpliceKeepsFlags(log, s, from, to);
    SpliceKeepsHeadroom(log, s, from, to);
  }

  lemma SpliceKeepsFlags(log: Log, s: State, from: nat, to: nat)
    requires InOrder(log, s) && Flags(s) && Enabled(s, Splice(from, to))
    ensures Flags(Do(log, s, Splice(from, to)))
  {
    SplicedQueue(log, s, from, to);
    assert Last(Segment(log, from, s.end)) == Event(s.end, log(s.end));
  }

  lemma SegmentHasHeadroom(log: Log, from: nat, to: nat, end: nat)
    requires from < to <= end
    ensures var q := Segment(log, from, end);
            && q[..to - from] == Segment(log, from, to)
            && forall k :: to - from <= k < |q| ==> Above(q[k], to)
  {
  }

  lemma SpliceKeepsHeadroom(log: Log, s: State, from: nat, to: nat)
    requires InOrder(log, s) && Flags(s) && HeadroomExact(log, s) && Enabled(s, Splice(from, to))
    ensures HeadroomExact(log, Do(log, s, Splice(from, to)))
  {
    SplicedQueue(log, s, from, to);
    SegmentHasHeadroom(log, from, to, s.end);
  }

  lemma TopHolds(log: Log, s: State)
    requires Inv(log, s) && Enabled(s, PumpTop)
    ensures Inv(log, Do(log, s, PumpTop)) && All(Do(log, s, PumpTop)) == All(s)
  {
    var after := Do(log, s, PumpTop);
    if s.sub.q != [] {
      assert s.out + [s.sub.q[0]] + s.sub.q[1..] == All(s);
      if !s.sub.dead { PoppedHistory(log, s); }
    } else {
      assert All(after) == All(s);
    }
  }

  lemma PoppedHistory(log: Log, s: State)
    requires HeadroomExact(log, s) && !s.sub.dead && s.sub.q != []
    ensures var q := Popped(s.sub);
            && q.headroom <= |q.q| && q.headroom <= s.mark
            && q.q[..q.headroom] == Segment(log, s.mark - q.headroom, s.mark)
            && forall k :: q.headroom <= k < |q.q| ==> Above(q.q[k], s.mark)
  {
    var q := Popped(s.sub);
    if s.sub.headroom > 0 {
      assert q.q[..q.headroom] == s.sub.q[..s.sub.headroom][1..];
    }
  }

  lemma DeliverHolds(log: Log, s: State)
    requires Inv(log, s) && Enabled(s, Deliver)
    ensures Inv(log, Do(log, s, Deliver)) && All(Do(log, s, Deliver)) == All(s)
  {
    assert s.out + [s.pump.e] + [] == s.out + InFlight(s);
  }

  lemma StopHolds(log: Log, s: State)
    requires Inv(log, s)
    ensures Inv(log, Do(log, s, StopLock))
  {
    if !s.stopped {
      NumberedConcat(s.out + InFlight(s), s.sub.q);
      LooseConcat(s.out + InFlight(s), s.sub.q);
      assert All(Do(log, s, StopLock)) == s.out + InFlight(s);
    }
  }

  /** An exiting pump that held an element was stopped: what it delivered is a prefix still. */
  lemma QuitHolds(log: Log, s: State)
    requires Inv(log, s) && Enabled(s, Quit)
    ensures Inv(log, Do(log, s, Quit))
  {
    NumberedConcat(s.out, InFlight(s));
    LooseConcat(s.out, InFlight(s));
    assert All(s) == s.out + InFlight(s);
    assert All(Do(log, s, Quit)) == s.out;
  }

  /** The actions that only move wake-ups and closes. */
  predicate Quiet(a: Action) {
    a.Signal? || a.SpliceNothing? || a.StopClose? || a.StartPump? || a.Wake? || a.SeeClosing?
  }

  lemma QuietKeeps(log: Log, s: State, a: Action)
    requires Enabled(s, a) && Quiet(a)
    ensures var t := Do(log, s, a);
            && t.sub == s.sub && t.out == s.out && InFlight(t) == InFlight(s) && t.logEnd == s.logEnd
            && t.lo == s.lo && t.mark == s.mark && t.given == s.given && t.end == s.end
            && t.loose == s.loose && t.dropped == s.dropped && t.stopped == s.stopped
  {
  }

  lemma QuietKeepsFlags(log: Log, s: State, a: Action)
    requires Flags(s) && NoLostWakeUp(s) && Enabled(s, a) && Quiet(a)
    ensures Flags(Do(log, s, a)) && NoLostWakeUp(Do(log, s, a))
  {
  }

  lemma QuietHolds(log: Log, s: State, a: Action)
    requires Inv(log, s) && Enabled(s, a) && Quiet(a)
    ensures Inv(log, Do(log, s, a)) && All(Do(log, s, a)) == All(s)
  {
    QuietKeeps(log, s, a);
    QuietKeepsFlags(log, s, a);
  }

  lemma ActionHolds(log: Log, s: State, a: Action)
    requires Inv(log, s) && Enabled(s, a)
    ensures Inv(log, Do(log, s, a))
  {
    match a {
      case PushNext => PushHolds(log, s);
      case PushUnnumbered(body) => PushUnnumberedHolds(log, s, body);
      case Splice(from, to) => SpliceHolds(log, s, from, to);
      case PumpTop => TopHolds(log, s);
      case Deliver => DeliverHolds(log, s);
      case StopLock => StopHolds(log, s);
      case Quit => QuitHolds(log, s);
      case _ => QuietHolds(log, s, a);
    }
  }

  /** In every interleaving: of the numbered elements, what the reader has received is a prefix of the
      contiguous, duplicate-free segment it follows (with the marker last); no accepted element without a
      number is lost but to a splice or a Stop; and no wake-up is lost. */
  lemma {:induction false} EveryInterleaving(log: Log, s: State, cap: nat, since: nat, logEnd: nat, skipTo: nat,
                                             actions: seq<Action>)
    requires Start(log, s, cap, since, logEnd, skipTo)
    ensures Inv(log, Run(log, s, actions))
    decreases |actions|
  {
    if actions == [] {
      StartHolds(log, s, cap, since, logEnd, skipTo);
    } else {
      var before := Run(log, s, actions[..|actions| - 1]);
      EveryInterleaving(log, s, cap, since, logEnd, skipTo, actions[..|actions| - 1]);
      if Enabled(before, actions[|actions| - 1]) {
        ActionHolds(log, before, actions[|actions| - 1]);
      }
    }
  }

  // ----- Being dropped

  /** How many queued elements were neither given as backlog or history nor covered by it. */
  function LiveQueued(q: seq<Elem>, given: nat): nat {
    if q == [] then 0 else LiveQueued(q[..|q| - 1], given) + (if Above(Last(q), given) then 1 else 0)
  }

  predicate Between(e: Elem, mark: nat, given: nat) {
    e.Event? && mark < e.number <= given
  }

  /** How much queued history lies behind the newest, which ends at mark. */
  function Behind(q: seq<Elem>, mark: nat, given: nat): nat {
    if q == [] then 0 else Behind(q[..|q| - 1], mark, given) + (if Between(Last(q), mark, given) then 1 else 0)
  }

  lemma {:induction false} CountedBehind(log: Log, q: seq<Elem>, history: nat, mark: nat)
    requires history <= |q| && history <= mark && q[..history] == Segment(log, mark - history, mark)
    requires forall k :: history <= k < |q| ==> Above(q[k], mark)
    ensures LiveQueued(q, mark) == |q| - history
  {
    if q != [] {
      var init := q[..|q| - 1];
      if history == |q| {
        assert Last(q) == Segment(log, mark - history, mark)[history - 1];
        assert init == Segment(log, mark - history, mark)[..history - 1];
        HistoryIsNotLive(log, init, mark - history, mark);
      } else {
        assert init[..history] == q[..history];
        CountedBehind(log, init, history, mark);
      }
    }
  }

  lemma {:induction false} HistoryIsNotLive(log: Log, q: seq<Elem>, a: nat, mark: nat)
    requires a + |q| <= mark && q == Segment(log, a, mark)[..|q|]
    ensures LiveQueued(q, mark) == 0
  {
    if q != [] {
      assert Last(q) == Segment(log, a, mark)[|q| - 1];
      assert q[..|q| - 1] == Segment(log, a, mark)[..|q| - 1];
      HistoryIsNotLive(log, q[..|q| - 1], a, mark);
    }
  }

  lemma {:induction false} LiveAndBehind(q: seq<Elem>, mark: nat, given: nat)
    requires mark <= given
    ensures LiveQueued(q, mark) == LiveQueued(q, given) + Behind(q, mark, given)
  {
    if q != [] { LiveAndBehind(q[..|q| - 1], mark, given); }
  }

  lemma {:induction false} NoneBehind(q: seq<Elem>, mark: nat, given: nat)
    requires given <= mark
    ensures Behind(q, mark, given) == 0
  {
    if q != [] { NoneBehind(q[..|q| - 1], mark, given); }
  }

  /** What the cap is compared with: the live elements, and the history behind the newest. */
  lemma CountedAgainstCap(log: Log, s: State)
    requires HeadroomExact(log, s) && !s.sub.dead
    ensures |s.sub.q| - s.sub.headroom == LiveQueued(s.sub.q, s.given) + Behind(s.sub.q, s.mark, s.given)
  {
    if s.mark <= s.given {
      CountedBehind(log, s.sub.q, s.sub.headroom, s.mark);
      LiveAndBehind(s.sub.q, s.mark, s.given);
    } else {
      CountedBehind(log, s.sub.q, 0, s.given);
      NoneBehind(s.sub.q, s.mark, s.given);
    }
  }

  ghost predicate DropsReader(log: Log, s: State, a: Action) {
    Enabled(s, a) && Do(log, s, a).dropped
  }

  /** A push that a subscriber not yet dead takes: without a number, or with one past skipTo. */
  predicate Taken(s: State, a: Action) {
    a.PushUnnumbered? || (a.PushNext? && s.logEnd + 1 > s.sub.skipTo)
  }

  /** A push the subscriber takes drops the reader exactly when the queued live elements, together with the
      history that lies behind the newest, are as many as the cap. */
  lemma DroppedOnlyWhenBehind(log: Log, s: State, a: Action)
    requires Inv(log, s) && !s.sub.dead && Taken(s, a)
    ensures DropsReader(log, s, a) <==>
              LiveQueued(s.sub.q, s.given) + Behind(s.sub.q, s.mark, s.given) >= s.sub.cap
  {
    CountedAgainstCap(log, s);
  }

  /** Every splice of the run ends at or past all backlog and history given before it. */
  ghost predicate NeverShorter(log: Log, s: State, actions: seq<Action>) {
    actions == [] ||
      var before := Run(log, s, actions[..|actions| - 1]);
      var a := actions[|actions| - 1];
      NeverShorter(log, s, actions[..|actions| - 1]) && (a.Splice? && Enabled(before, a) ==> before.given <= a.to)
  }

  lemma StepKeepsNewestLast(log: Log, s: State, a: Action)
    requires Enabled(s, a) && s.given <= s.mark && (a.Splice? ==> s.given <= a.to)
    ensures Do(log, s, a).given <= Do(log, s, a).mark
  {
    if Quiet(a) { QuietKeeps(log, s, a); }
  }

  lemma {:induction false} NewestEndsLast(log: Log, s: State, cap: nat, since: nat, logEnd: nat, skipTo: nat,
                                          actions: seq<Action>)
    requires Start(log, s, cap, since, logEnd, skipTo) && NeverShorter(log, s, actions)
    ensures Run(log, s, actions).given <= Run(log, s, actions).mark
    decreases |actions|
  {
    if actions != [] {
      var before := Run(log, s, actions[..|actions| - 1]);
      var a := actions[|actions| - 1];
      NewestEndsLast(log, s, cap, since, logEnd, skipTo, actions[..|actions| - 1]);
      if Enabled(before, a) { StepKeepsNewestLast(log, before, a); }
    }
  }

  /** In a run of such splices history never counts against the cap: only live elements drop the reader. */
  lemma OnlyLiveElementsDrop(log: Log, start: State, cap: nat, since: nat, logEnd: nat, skipTo: nat,
                             actions: seq<Action>, a: Action)
    requires Start(log, start, cap, since, logEnd, skipTo) && NeverShorter(log, start, actions)
    requires var s := Run(log, start, actions); !s.sub.dead && Taken(s, a)
    ensures var s := Run(log, start, actions); DropsReader(log, s, a) <==> LiveQueued(s.sub.q, s.given) >= s.sub.cap
  {
    var s := Run(log, start, actions);
    EveryInterleaving(log, start, cap, since, logEnd, skipTo, actions);
    NewestEndsLast(log, start, cap, since, logEnd, skipTo, actions);
    NoneBehind(s.sub.q, s.mark, s.given);
    DroppedOnlyWhenBehind(log, s, a);
  }

  lemma {:induction false} BehindInSegment(log: Log, a: nat, b: nat, mark: nat, given: nat)
    requires a <= mark <= given && a <= b
    ensures Behind(Segment(log, a, b), mark, given)
            == if b <= mark then 0 else if b <= given then b - mark else given - mark
    decreases b
  {
    if a < b {
      var q := Segment(log, a, b);
      SegmentExtends(log, a, b - 1);
      assert q[..|q| - 1] == Segment(log, a, b - 1);
      BehindInSegment(log, a, b - 1, mark, given);
    }
  }

  /** In every run: after a splice that may happen where it stands, history counts against the cap exactly
      when the splice ended below history given before, and then all of that history past its end does. */
  lemma ShorterSpliceCounts(log: Log, start: State, cap: nat, since: nat, logEnd: nat, skipTo: nat,
                            actions: seq<Action>, from: nat, to: nat)
    requires Start(log, start, cap, since, logEnd, skipTo)
    requires Enabled(Run(log, start, actions), Splice(from, to))
    ensures var s := Run(log, start, actions);
            var after := Do(log, s, Splice(from, to));
            && !after.sub.dead
            && Behind(after.sub.q, after.mark, after.given) == (if to < s.given then s.given - to else 0)
            && (|after.sub.q| - after.sub.headroom == LiveQueued(after.sub.q, after.given) <==> s.given <= to)
  {
    var s := Run(log, start, actions);
    var after := Do(log, s, Splice(from, to));
    EveryInterleaving(log, start, cap, since, logEnd, skipTo, actions);
    SplicedQueue(log, s, from, to);
    BehindInSegment(log, from, s.end, to, after.given);
    SpliceHolds(log, s, from, to);
    CountedAgainstCap(log, after);
  }

  /** Such a drop: with cap 1, the backlog 1, 2 and a splice of 1 alone, the next push drops the reader
      although nothing but history is queued. */
  lemma HistoryDropsTheReader(log: Log, start: State)
    requires Start(log, start, 1, 0, 2, 0)
    ensures var s := Run(log, start, [Splice(0, 1)]);
            && s.sub.q == Segment(log, 0, 2) && LiveQueued(s.sub.q, s.given) == 0
            && !s.sub.dead && DropsReader(log, s, PushNext)
  {
    assert [Splice(0, 1)][..0] == [] && Run(log, start, []) == start;
    EveryInterleaving(log, start, 1, 0, 2, 0, []);
    SplicedQueue(log, start, 0, 1);
    HistoryIsNotLive(log, Segment(log, 0, 2), 0, 2);
  }

  /** A reader whose channel closed without a Stop was dropped, and the last thing it got is the marker
      carrying the last number delivered before it, 0 when there was none. */
  lemma DroppedReaderKnowsWhere(log: Log, s: State, cap: nat, since: nat, logEnd: nat, skipTo: nat,
                                actions: seq<Action>)
    requires Start(log, s, cap, since, logEnd, skipTo)
    ensures var e := Run(log, s, actions); e.pump == Exited && !e.stopped ==> EndsWithMarker(log, e)
  {
    EveryInterleaving(log, s, cap, since, logEnd, skipTo, actions);
    var e := Run(log, s, actions);
    if e.pump == Exited && !e.stopped { DroppedEnds(log, e); }
  }

  /** Of numbered elements the reader got the whole segment it follows, and last of all the marker with the
      last number of it. */
  ghost predicate EndsWithMarker(log: Log, e: State) {
    && e.lo <= e.end && e.out != [] && Last(e.out) == Marker(LastDue(e))
    && Numbered(e.out[..|e.out| - 1]) == Segment(log, e.lo, e.end)
  }

  lemma DroppedEnds(log: Log, e: State)
    requires InOrder(log, e) && Flags(e) && e.pump == Exited && !e.stopped
    ensures EndsWithMarker(log, e)
  {
    assert All(e) == e.out;
    var before := e.out[..|e.out| - 1];
    NumberedConcat(before, [Last(e.out)]);
    assert e.out == before + [Last(e.out)];
    assert Numbered(before) + [Marker(LastDue(e))] == Segment(log, e.lo, e.end) + [Marker(LastDue(e))];
    assert Numbered(before) == (Numbered(before) + [Marker(LastDue(e))])[..|Numbered(before)|];
  }

  // ----- The pump never sleeps on work

  /** The next step the program takes on its own, with a reader that keeps reading. */
  ghost function OwnStep(s: State): seq<Action> {
    match s.pump
    case NotStarted => [StartPump]
    case AtTop => [PumpTop]
    case Sending(_) => [Deliver]
    case Exited => []
    case Parked =>
      if s.wake then [Wake]
      else if s.signals > 0 then [Signal]
      else if s.closing then [SeeClosing]
      else if s.closers > 0 then [StopClose]
      else []
  }

  ghost function Work(s: State): nat {
    3 * |s.sub.q| + 4 * s.signals + s.closers + (if s.wake then 2 else 0)
    + match s.pump
      case NotStarted => 4
      case Sending(_) => 3
      case AtTop => 2
      case Parked => 1
      case Exited => 0
  }

  lemma OwnStepWorks(log: Log, s: State)
    requires OwnStep(s) != []
    ensures Enabled(s, OwnStep(s)[0]) && Work(Do(log, s, OwnStep(s)[0])) < Work(s)
  {
  }

  /** Where the program comes to rest when nobody pushes. */
  ghost function AtRest(log: Log, s: State): State
    decreases Work(s)
  {
    if OwnStep(s) == [] then s
    else
      OwnStepWorks(log, s);
      AtRest(log, Do(log, s, OwnStep(s)[0]))
  }

  lemma OwnStepKeepsFrame(log: Log, s: State)
    requires OwnStep(s) != [] && Enabled(s, OwnStep(s)[0])
    ensures var after := Do(log, s, OwnStep(s)[0]);
            && after.stopped == s.stopped && after.lo == s.lo && after.end == s.end
            && after.dropped == s.dropped && after.loose == s.loose
  {
    if Quiet(OwnStep(s)[0]) { QuietKeeps(log, s, OwnStep(s)[0]); }
  }

  lemma OwnStepKeepsAll(log: Log, s: State)
    requires Inv(log, s) && OwnStep(s) != []
    ensures All(Do(log, s, OwnStep(s)[0])) == All(s)
  {
    if s.pump == AtTop {
      TopHolds(log, s);
    } else if s.pump.Sending? {
      DeliverHolds(log, s);
    } else {
      OwnStepWorks(log, s);
      QuietHolds(log, s, OwnStep(s)[0]);
    }
  }

  lemma OwnStepKeepsDue(log: Log, s: State)
    requires Inv(log, s) && OwnStep(s) != []
    ensures var after := Do(log, s, OwnStep(s)[0]);
            && Inv(log, after) && after.stopped == s.stopped && after.dropped == s.dropped && after.loose == s.loose
            && All(after) == All(s) && Due(log, after) == Due(log, s)
  {
    OwnStepWorks(log, s);
    OwnStepKeepsFrame(log, s);
    OwnStepKeepsAll(log, s);
    ActionHolds(log, s, OwnStep(s)[0]);
  }

  /** Left alone, the program delivers everything, numbered or not, before it rests; a stopped
      subscriber ends. No element waits for another push to be noticed. */
  lemma {:induction false} RestsOnlyWhenDone(log: Log, s: State)
    requires Inv(log, s)
    ensures var r := AtRest(log, s);
            && Inv(log, r)
            && (!s.stopped ==>
                  && r.out == All(s) && Numbered(r.out) == Due(log, s) && Loose(r.out) == s.loose
                  && (r.pump == Exited <==> s.dropped))
            && (s.stopped ==> r.pump == Exited)
    decreases Work(s)
  {
    if OwnStep(s) != [] {
      OwnStepWorks(log, s);
      OwnStepKeepsDue(log, s);
      RestsOnlyWhenDone(log, Do(log, s, OwnStep(s)[0]));
    } else if !s.stopped {
      assert s.sub.q == [];
      assert All(s) == s.out;
    }
  }

  // ----- Where the splice is exact

  /** The next numbered element the subscriber will not ignore. */
  ghost predicate NextTaken(log: Log, s: State, n: nat) {
    && n > s.logEnd && !Ignored(s.sub, Event(n, log(n)))
    && forall m :: s.logEnd < m < n ==> Ignored(s.sub, Event(m, log(m)))
  }

  /** Numbered from + 1, from + 2, and so on, without a gap or a repeat. */
  ghost predicate Contiguous(q: seq<Elem>, from: nat) {
    forall k :: 0 <= k < |q| ==> q[k].Event? && q[k].number == from + 1 + k
  }

  lemma NextAfterEnd(log: Log, s: State, n: nat)
    requires Flags(s) && !s.sub.dead && NextTaken(log, s, n)
    ensures n == s.end + 1
  {
    assert s.logEnd < s.end + 1 && !Ignored(s.sub, Event(s.end + 1, log(s.end + 1)));
  }

  lemma JoinsExactly(log: Log, from: nat, to: nat, lo: nat, end: nat)
    requires from < to && lo <= end
    ensures Contiguous(Segment(log, from, to) + LeftBehind(log, lo, end, to) + [Event(end + 1, log(end + 1))], from)
            <==> lo <= to <= end
  {
    var q := Segment(log, from, to) + LeftBehind(log, lo, end, to) + [Event(end + 1, log(end + 1))];
    if lo <= to <= end {
      SegmentsJoin(log, from, to, end);
    } else {
      assert q[to - from].number != to + 1;
    }
  }

  lemma SplicedIsContiguous(log: Log, s: State, from: nat, to: nat)
    requires InOrder(log, s) && Flags(s) && s.pump == NotStarted && !s.sub.dead && from < to
    ensures Contiguous(Prepended(s.sub, Segment(log, from, to)).q + [Event(s.end + 1, log(s.end + 1))], from)
            <==> s.lo <= to <= s.end
  {
    SplicedParts(log, s, from, to);
    JoinsExactly(log, from, to, s.lo, s.end);
  }

  lemma ExactAt(log: Log, s: State, from: nat, to: nat, n: nat)
    requires InOrder(log, s) && Flags(s) && s.pump == NotStarted && !s.sub.dead && from < to && NextTaken(log, s, n)
    ensures Contiguous(Prepended(s.sub, Segment(log, from, to)).q + [Event(n, log(n))], from)
            <==> s.lo <= to <= s.end
    ensures Numbered(s.sub.q) == Segment(log, s.lo, s.end) && s.end == Max(s.logEnd, s.sub.skipTo)
  {
    NextAfterEnd(log, s, n);
    SplicedIsContiguous(log, s, from, to);
    QueueIsSegment(log, s);
  }

  /** In every interleaving before the pump starts and before any drop: a splice of the history (from, to]
      leaves the queue, up to and with the next element the subscriber takes, without a gap or a repeat,
      exactly when the history reaches what is queued and does not run past what was pushed or is skipped:
      lo is one less than the first queued number, or end when none is queued, and end is the larger of the
      last number pushed and skipTo. */
  lemma SpliceIsExact(log: Log, start: State, cap: nat, since: nat, logEnd: nat, skipTo: nat, actions: seq<Action>,
                      from: nat, to: nat, n: nat)
    requires Start(log, start, cap, since, logEnd, skipTo)
    requires var s := Run(log, start, actions);
             s.pump == NotStarted && !s.sub.dead && from < to && NextTaken(log, s, n)
    ensures var s := Run(log, start, actions);
            && (Contiguous(Prepended(s.sub, Segment(log, from, to)).q + [Event(n, log(n))], from)
                <==> s.lo <= to <= s.end)
            && s.lo <= s.end && Numbered(s.sub.q) == Segment(log, s.lo, s.end) && s.end == Max(s.logEnd, s.sub.skipTo)
  {
    EveryInterleaving(log, start, cap, since, logEnd, skipTo, actions);
    ExactAt(log, Run(log, start, actions), from, to, n);
  }

  /** Such a gap: skipTo promises the history up to 3, element 1 is pushed, and the history brings 1 alone.
      The queue then holds 1 and the next element taken is 4. */
  lemma ShortHistoryLeavesAGap(log: Log, start: State, cap: nat)
    requires Start(log, start, cap, 0, 0, 3)
    ensures var s := Run(log, start, [PushNext]);
            && s.pump == NotStarted && !s.sub.dead && NextTaken(log, s, 4)
            && Prepended(s.sub, Segment(log, 0, 1)).q == [Event(1, log(1))]
            && !Contiguous([Event(1, log(1)), Event(4, log(4))], 0)
  {
    assert [PushNext][..0] == [] && Run(log, start, []) == start;
    var s := Run(log, start, [PushNext]);
    assert s == Do(log, start, PushNext) && s.sub == start.sub && s.logEnd == 1;
    assert NewerThan([], 1) == [];
    assert Segment(log, 0, 1) == [Event(1, log(1))];
    assert [Event(1, log(1)), Event(4, log(4))][1].number == 4;
  }

  ghost predicate HasMarker(q: seq<Elem>) {
    exists e :: e in q && e.Marker?
  }

  /** A splice that lands after a drop takes the resume marker away, unless it brings no
      history: the reader's channel then closes without telling it where to resume. */
  lemma SpliceAfterDropLosesMarker(s: Queue, history: seq<Elem>)
    requires s.dead && HasMarker(s.q) && forall e :: e in history ==> e.Event?
    ensures HasMarker(Prepended(s, history).q) <==> history == []
    ensures Prepended(s, history).dead
  {
    if history != [] {
      NewerThanMembers(s.q, SeqOf(Last(history)));
    }
  }

  /** Such a splice at the end of a run: with cap 1 the second push drops the reader, and history that arrives
      late takes the marker with it. */
  lemma LateHistoryLosesMarker(log: Log, start: State)
    requires Start(log, start, 1, 0, 0, 0)
    ensures var s := Run(log, start, [PushNext, PushNext]);
            && s.sub.dead && s.dropped && HasMarker(s.sub.q)
            && !HasMarker(Prepended(s.sub, Segment(log, 0, 1)).q)
  {
    var pushes := [PushNext, PushNext];
    assert pushes[..1] == [PushNext] && [PushNext][..0] == [] && Run(log, start, []) == start;
    var one := Run(log, start, [PushNext]);
    assert one == Do(log, start, PushNext) && one.sub.q == [Event(1, log(1))];
    var s := Run(log, start, pushes);
    assert s == Do(log, one, PushNext) && s.sub.q == [Event(1, log(1)), Marker(1)];
    assert s.sub.q[1].Marker?;
    SpliceAfterDropLosesMarker(s.sub, Segment(log, 0, 1));
  }
}
