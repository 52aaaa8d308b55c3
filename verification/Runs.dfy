/** The registry of live runs as its critical sections and the unlocked work between them:
    opening a session, closing one, and giving back what was allocated beside it. */
module Runs {
  import opened Counting
  import opened Wrappers

  const MAX_LIVE_RUNS := 32

  /** A row of the table: whether it has a session, and what closing it gives back
      (None when opening allocated nothing). */
  datatype Row = Row(live: bool, release: Option<nat>)

  /** What one call in progress has still to do. */
  datatype Proc =
    | Opening(run: nat)                         // building the session, unlocked
    | Built(run: nat, release: Option<nat>)     // session built, its row not added yet
    | Discarding(release: Option<nat>)          // the build failed, or the registry closed meanwhile
    | Unwinding                                 // a failed Create giving its place back
    | Leaving                                   // a call with nothing left but to return
    | Removing(release: Option<nat>)            // Remove detached the session
    | Stopping(run: nat, release: Option<nat>)  // Stop detached the session and closes it
    | StopClosed(run: nat)                      // Stop closed it, its row not marked yet
    | Sweeping(releases: set<nat>)              // Close detached these sessions
    | Gone

  /** given counts how often each release was called; tokens numbers the releases handed out;
      next the runs; swept says that Close detached every session. */
  datatype State = State(
    rows: map<nat, Row>, next: nat, pending: nat, closed: bool, opening: nat,
    procs: seq<Proc>, tokens: nat, given: multiset<nat>, swept: bool)

  /** What a daemon starts from: the rows of the saved table, none with a session. */
  ghost predicate Opens(s: State) {
    && (forall r :: r in s.rows ==> r <= s.next && s.rows[r] == Row(false, None))
    && s == State(s.rows, s.next, 0, false, 0, [], 0, multiset{}, false)
  }

  datatype Action =
    | CreateEnter
    | OpenDone(i: nat, alloc: bool)
    | OpenFailed(i: nat, alloc: bool)
    | CreateInstall(i: nat)
    | Discard(i: nat)
    | Unwind(i: nat)
    | Return(i: nat)
    | RemoveDetach(run: nat, saved: bool)
    | RemoveRelease(i: nat)
    | StopDetach(run: nat)
    | StopRelease(i: nat)
    | StopMark(i: nat)
    | CloseBegin
    | CloseSweep
    | SweepRelease(i: nat, token: nat)

  ghost function LiveRuns(rows: map<nat, Row>): set<nat> {
    set r | r in rows && rows[r].live
  }

  function Some1(o: Option<nat>): set<nat> {
    if o.Some? then {o.value} else {}
  }

  function Given(given: multiset<nat>, o: Option<nat>): multiset<nat> {
    if o.Some? then given + multiset{o.value} else given
  }

  ghost function Holds(p: Proc): set<nat> {
    match p
    case Built(_, r) => Some1(r)
    case Discarding(r) => Some1(r)
    case Removing(r) => Some1(r)
    case Stopping(_, r) => Some1(r)
    case Sweeping(rs) => rs
    case _ => {}
  }

  ghost predicate Enabled(s: State, a: Action) {
    match a
    case CreateEnter => true
    case OpenDone(i, _) => i < |s.procs| && s.procs[i].Opening?
    case OpenFailed(i, _) => i < |s.procs| && s.procs[i].Opening?
    case CreateInstall(i) => i < |s.procs| && s.procs[i].Built?
    case Discard(i) => i < |s.procs| && s.procs[i].Discarding?
    case Unwind(i) => i < |s.procs| && s.procs[i].Unwinding?
    case Return(i) => i < |s.procs| && s.procs[i].Leaving?
    case RemoveDetach(_, _) => true
    case RemoveRelease(i) => i < |s.procs| && s.procs[i].Removing?
    case StopDetach(_) => true
    case StopRelease(i) => i < |s.procs| && s.procs[i].Stopping?
    case StopMark(i) => i < |s.procs| && s.procs[i].StopClosed?
    case CloseBegin => true
    // Close waits for the calls in progress, but only so long: it may sweep at any time.
    case CloseSweep => s.closed && !s.swept
    case SweepRelease(i, token) => i < |s.procs| && s.procs[i].Sweeping? && token in s.procs[i].releases
  }

  ghost function Detached(rows: map<nat, Row>): map<nat, Row> {
    map r | r in rows :: if rows[r].live then Row(false, None) else rows[r]
  }

  ghost function AllReleases(rows: map<nat, Row>): set<nat> {
    set r | r in rows && rows[r].live && rows[r].release.Some? :: rows[r].release.value
  }

  ghost function Do(s: State, a: Action): State
    requires Enabled(s, a)
  {
    match a
    case CreateEnter =>
      if s.closed || |LiveRuns(s.rows)| + s.pending >= MAX_LIVE_RUNS then s
      else
        s.(next := s.next + 1, pending := s.pending + 1, opening := s.opening + 1,
           procs := s.procs + [Opening(s.next + 1)])
    case OpenDone(i, alloc) =>
      s.(tokens := if alloc then s.tokens + 1 else s.tokens,
         procs := s.procs[i := Built(s.procs[i].run, if alloc then Some(s.tokens) else None)])
    case OpenFailed(i, alloc) =>
      s.(tokens := if alloc then s.tokens + 1 else s.tokens,
         procs := s.procs[i := Discarding(if alloc then Some(s.tokens) else None)])
    case CreateInstall(i) =>
      if s.closed then s.(procs := s.procs[i := Discarding(s.procs[i].release)])
      else
        s.(rows := s.rows[s.procs[i].run := Row(true, s.procs[i].release)],
           pending := if s.pending > 0 then s.pending - 1 else 0,
           procs := s.procs[i := Leaving])
    case Discard(i) => s.(given := Given(s.given, s.procs[i].release), procs := s.procs[i := Unwinding])
    case Unwind(i) =>
      s.(pending := if s.pending > 0 then s.pending - 1 else 0, procs := s.procs[i := Leaving])
    case Return(i) =>
      s.(opening := if s.opening > 0 then s.opening - 1 else 0, procs := s.procs[i := Gone])
    case RemoveDetach(run, saved) =>
      // An unsaved removal is undone.
      if s.closed || run !in s.rows || !saved then s
      else
        s.(rows := s.rows - {run}, opening := s.opening + 1,
           procs := s.procs + [Removing(s.rows[run].release)])
    case RemoveRelease(i) => s.(given := Given(s.given, s.procs[i].release), procs := s.procs[i := Leaving])
    case StopDetach(run) =>
      if s.closed || run !in s.rows || !s.rows[run].live then s
      else
        s.(rows := s.rows[run := Row(false, None)], opening := s.opening + 1,
           procs := s.procs + [Stopping(run, s.rows[run].release)])
    case StopRelease(i) =>
      s.(given := Given(s.given, s.procs[i].release), procs := s.procs[i := StopClosed(s.procs[i].run)])
    case StopMark(i) => s.(procs := s.procs[i := Leaving])
    case CloseBegin => s.(closed := true)
    case CloseSweep =>
      s.(rows := Detached(s.rows), swept := true, procs := s.procs + [Sweeping(AllReleases(s.rows))])
    case SweepRelease(i, token) =>
      s.(given := s.given + multiset{token}, procs := s.procs[i := Sweeping(s.procs[i].releases - {token})])
  }

  ghost function Run(s: State, actions: seq<Action>): State {
    if actions == [] then s
    else
      var before := Run(s, actions[..|actions| - 1]);
      var a := actions[|actions| - 1];
      if Enabled(before, a) then Do(before, a) else before
  }

  // ----- Counting

  /** A Create that has no row yet and still counts against the ceiling. */
  predicate Counts(p: Proc) {
    p.Opening? || p.Built? || p.Discarding? || p.Unwinding?
  }

  /** A call Close waits for. */
  predicate Busy(p: Proc) {
    !p.Gone? && !p.Sweeping?
  }

  function Reserved(procs: seq<Proc>): nat {
    CountOf(procs, p => Counts(p))
  }

  function BusyCalls(procs: seq<Proc>): nat {
    CountOf(procs, p => Busy(p))
  }

  // ----- The invariants

  ghost predicate CountsExact(s: State) {
    && s.pending == Reserved(s.procs)
    && s.opening == BusyCalls(s.procs)
    && |LiveRuns(s.rows)| + s.pending <= MAX_LIVE_RUNS
  }

  predicate Reserves(p: Proc) {
    p.Opening? || p.Built?
  }

  /** A run a Create has reserved has no row yet, and no second Create reserved it. */
  ghost predicate IdsFresh(s: State) {
    && (forall r :: r in s.rows ==> r <= s.next)
    && (forall i :: 0 <= i < |s.procs| && Reserves(s.procs[i]) ==>
          s.procs[i].run <= s.next && s.procs[i].run !in s.rows)
    && (forall i, j :: 0 <= i < j < |s.procs| && Reserves(s.procs[i]) && Reserves(s.procs[j]) ==>
          s.procs[i].run != s.procs[j].run)
  }

  /** Where a release waits to be called: beside its session in a row, or with a call in progress. */
  datatype Place = AtRow(run: nat) | AtCall(i: nat)

  ghost predicate Keeps(s: State, p: Place, t: nat) {
    match p
    case AtRow(r) => r in s.rows && s.rows[r].release == Some(t)
    case AtCall(i) => i < |s.procs| && t in Holds(s.procs[i])
  }

  ghost predicate Kept(s: State, t: nat) {
    exists p :: Keeps(s, p, t)
  }

  ghost predicate DeadRowsEmpty(s: State) {
    forall r :: r in s.rows && !s.rows[r].live ==> s.rows[r].release.None?
  }

  ghost predicate OneKeeper(s: State) {
    forall p, q, t: nat :: Keeps(s, p, t) && Keeps(s, q, t) ==> p == q
  }

  /** What is kept was handed out and has not been called. */
  ghost predicate KeptUncalled(s: State) {
    forall p, t: nat :: Keeps(s, p, t) ==> t < s.tokens && s.given[t] == 0
  }

  ghost predicate CalledOnce(s: State) {
    forall t: nat :: s.given[t] <= 1 && (s.given[t] > 0 ==> t < s.tokens)
  }

  /** What was handed out and has not been called is kept. */
  ghost predicate NoneLost(s: State) {
    forall t: nat :: t < s.tokens && s.given[t] == 0 ==> Kept(s, t)
  }

  ghost predicate ReleasesOwned(s: State) {
    DeadRowsEmpty(s) && OneKeeper(s) && KeptUncalled(s) && CalledOnce(s) && NoneLost(s)
  }

  ghost predicate SweptClean(s: State) {
    s.swept ==> s.closed && LiveRuns(s.rows) == {}
  }

  ghost predicate Inv(s: State) {
    CountsExact(s) && IdsFresh(s) && ReleasesOwned(s) && SweptClean(s)
  }

  // ----- Every action keeps the counts

  lemma LiveAfter(rows: map<nat, Row>, r: nat, row: Row)
    ensures LiveRuns(rows[r := row]) == if row.live then LiveRuns(rows) + {r} else LiveRuns(rows) - {r}
    ensures LiveRuns(rows - {r}) == LiveRuns(rows) - {r}
  {
  }

  lemma Updated(procs: seq<Proc>, i: nat, p: Proc)
    requires i < |procs|
    ensures Reserved(procs[i := p]) == Reserved(procs)
            - (if Counts(procs[i]) then 1 else 0) + (if Counts(p) then 1 else 0)
    ensures BusyCalls(procs[i := p]) == BusyCalls(procs)
            - (if Busy(procs[i]) then 1 else 0) + (if Busy(p) then 1 else 0)
  {
    CountUpdate(procs, p => Counts(p), i, p);
    CountUpdate(procs, p => Busy(p), i, p);
  }

  lemma Entered(procs: seq<Proc>, p: Proc)
    ensures Reserved(procs + [p]) == Reserved(procs) + (if Counts(p) then 1 else 0)
    ensures BusyCalls(procs + [p]) == BusyCalls(procs) + (if Busy(p) then 1 else 0)
  {
    CountAppend(procs, p => Counts(p), p);
    CountAppend(procs, p => Busy(p), p);
  }

  /** The call an action moves on; none for the actions that begin a call. */
  function Mover(a: Action): Option<nat> {
    match a
    case OpenDone(i, _) => Some(i)
    case OpenFailed(i, _) => Some(i)
    case CreateInstall(i) => Some(i)
    case Discard(i) => Some(i)
    case Unwind(i) => Some(i)
    case Return(i) => Some(i)
    case RemoveRelease(i) => Some(i)
    case StopRelease(i) => Some(i)
    case StopMark(i) => Some(i)
    case SweepRelease(i, _) => Some(i)
    case _ => None
  }

  lemma MoverMoves(s: State, a: Action)
    requires Enabled(s, a) && Mover(a).Some?
    ensures Mover(a).value < |s.procs| && |Do(s, a).procs| == |s.procs|
    ensures Do(s, a).procs == s.procs[Mover(a).value := Do(s, a).procs[Mover(a).value]]
  {
  }

  lemma MoveKeepsCounts(s: State, a: Action)
    requires CountsExact(s) && IdsFresh(s) && Enabled(s, a) && Mover(a).Some?
    ensures CountsExact(Do(s, a))
  {
    MoverMoves(s, a);
    var i := Mover(a).value;
    Updated(s.procs, i, Do(s, a).procs[i]);
    if a.CreateInstall? {
      LiveAfter(s.rows, s.procs[i].run, Row(true, s.procs[i].release));
    }
  }

  /** A call that begins is counted by what it is. */
  lemma BegunCounts(s: State, t: State, p: Proc)
    requires CountsExact(s) && t.procs == s.procs + [p]
    requires t.pending == s.pending + (if Counts(p) then 1 else 0)
    requires t.opening == s.opening + (if Busy(p) then 1 else 0)
    requires |LiveRuns(t.rows)| + t.pending <= MAX_LIVE_RUNS
    ensures CountsExact(t)
  {
    Entered(s.procs, p);
  }

  /** What a Create that is let in does. */
  lemma EnterParts(s: State)
    requires Do(s, CreateEnter) != s
    ensures var after := Do(s, CreateEnter);
            && after.procs == s.procs + [Opening(s.next + 1)] && after.rows == s.rows
            && after.pending == s.pending + 1 && after.opening == s.opening + 1
            && |LiveRuns(s.rows)| + after.pending <= MAX_LIVE_RUNS
  {
  }

  lemma FewerLive(s: State, t: State)
    requires LiveRuns(t.rows) <= LiveRuns(s.rows)
    ensures |LiveRuns(t.rows)| <= |LiveRuns(s.rows)|
  {
    assert LiveRuns(s.rows) == LiveRuns(t.rows) + (LiveRuns(s.rows) - LiveRuns(t.rows));
  }

  /** What a detaching action does, when it does anything. */
  lemma DetachParts(s: State, a: Action)
    requires Enabled(s, a) && (a.RemoveDetach? || a.StopDetach?) && Do(s, a) != s
    ensures var after := Do(s, a);
            && after.opening == s.opening + 1 && after.pending == s.pending
            && |after.procs| == |s.procs| + 1 && after.procs == s.procs + [after.procs[|s.procs|]]
            && (after.procs[|s.procs|].Removing? || after.procs[|s.procs|].Stopping?)
            && LiveRuns(after.rows) <= LiveRuns(s.rows)
  {
    LiveAfter(s.rows, a.run, Row(false, None));
  }

  lemma DetachKeepsCounts(s: State, a: Action)
    requires CountsExact(s) && Enabled(s, a) && (a.RemoveDetach? || a.StopDetach?)
    ensures CountsExact(Do(s, a))
  {
    var after := Do(s, a);
    if after != s {
      DetachParts(s, a);
      FewerLive(s, after);
      BegunCounts(s, after, after.procs[|s.procs|]);
    }
  }

  lemma SweepKeepsCounts(s: State)
    requires CountsExact(s) && Enabled(s, CloseSweep)
    ensures CountsExact(Do(s, CloseSweep))
  {
    assert LiveRuns(Detached(s.rows)) == {};
    BegunCounts(s, Do(s, CloseSweep), Sweeping(AllReleases(s.rows)));
  }

  lemma BeginKeepsCounts(s: State, a: Action)
    requires CountsExact(s) && Enabled(s, a) && Mover(a).None?
    ensures CountsExact(Do(s, a))
  {
    match a {
      case CreateEnter =>
        if Do(s, a) != s {
          EnterParts(s);
          BegunCounts(s, Do(s, a), Opening(s.next + 1));
        }
      case RemoveDetach(_, _) => DetachKeepsCounts(s, a);
      case StopDetach(_) => DetachKeepsCounts(s, a);
      case CloseBegin =>
      case CloseSweep => SweepKeepsCounts(s);
    }
  }

  /** A call that moves on without a new row reserves no other run. */
  lemma MovedIds(s: State, t: State, i: nat, p: Proc)
    requires IdsFresh(s) && i < |s.procs| && t.procs == s.procs[i := p] && t.next == s.next && t.rows == s.rows
    requires Reserves(p) ==> Reserves(s.procs[i]) && p.run == s.procs[i].run
    ensures IdsFresh(t)
  {
  }

  lemma InstalledIds(s: State, t: State, i: nat, row: Row)
    requires IdsFresh(s) && i < |s.procs| && Reserves(s.procs[i])
    requires t.procs == s.procs[i := Leaving] && t.next == s.next && t.rows == s.rows[s.procs[i].run := row]
    ensures IdsFresh(t)
  {
  }

  lemma MoveKeepsRows(s: State, a: Action)
    requires Enabled(s, a) && Mover(a).Some? && (a.CreateInstall? ==> s.closed)
    ensures Do(s, a).next == s.next && Do(s, a).rows == s.rows
  {
  }

  lemma BuiltReserves(s: State, a: Action)
    requires Enabled(s, a) && a.OpenDone?
    ensures Reserves(s.procs[a.i]) && Do(s, a).procs[a.i].run == s.procs[a.i].run
  {
  }

  lemma OnlyBuiltReserves(s: State, a: Action)
    requires Enabled(s, a) && Mover(a).Some? && !a.OpenDone?
    ensures !Reserves(Do(s, a).procs[Mover(a).value])
  {
  }

  lemma MoveKeepsIds(s: State, a: Action)
    requires IdsFresh(s) && Enabled(s, a) && Mover(a).Some?
    ensures IdsFresh(Do(s, a))
  {
    var after := Do(s, a);
    if a.CreateInstall? && !s.closed {
      InstalledIds(s, after, a.i, Row(true, s.procs[a.i].release));
    } else {
      MoverMoves(s, a);
      MoveKeepsRows(s, a);
      if a.OpenDone? { BuiltReserves(s, a); } else { OnlyBuiltReserves(s, a); }
      MovedIds(s, after, Mover(a).value, after.procs[Mover(a).value]);
    }
  }

  lemma BeginKeepsIds(s: State, a: Action)
    requires IdsFresh(s) && Enabled(s, a) && Mover(a).None?
    ensures IdsFresh(Do(s, a))
  {
    var after := Do(s, a);
    assert after.rows.Keys <= s.rows.Keys && s.next <= after.next;
    if after.procs != s.procs {
      var p := after.procs[|s.procs|];
      assert after.procs == s.procs + [p];
      assert Reserves(p) ==> p.run == after.next && after.next == s.next + 1;
    }
  }

  lemma SweptKept(s: State, a: Action)
    requires SweptClean(s) && Enabled(s, a)
    ensures SweptClean(Do(s, a))
  {
    if s.swept {
      assert LiveRuns(Do(s, a).rows) <= LiveRuns(s.rows);
    }
  }

  // ----- Every action keeps one keeper for each release

  /** Where an action leaves a release it finds at p and does not call. */
  ghost function NextPlace(s: State, a: Action, p: Place): Place
    requires Enabled(s, a)
  {
    match a
    case CreateInstall(i) => if p == AtCall(i) && !s.closed then AtRow(s.procs[i].run) else p
    case RemoveDetach(run, saved) =>
      if p == AtRow(run) && !s.closed && saved then AtCall(|s.procs|) else p
    case StopDetach(run) => if p == AtRow(run) && !s.closed then AtCall(|s.procs|) else p
    case CloseSweep => if p.AtRow? then AtCall(|s.procs|) else p
    case _ => p
  }

  lemma Forward(s: State, a: Action, p: Place, t: nat)
    requires IdsFresh(s) && DeadRowsEmpty(s) && Enabled(s, a) && Keeps(s, p, t)
    ensures Keeps(Do(s, a), NextPlace(s, a, p), t) || Do(s, a).given[t] > 0
  {
  }

  /** Only a call that keeps a release calls it. */
  lemma CallsWhatItKeeps(s: State, a: Action, t: nat)
    requires Enabled(s, a)
    ensures Do(s, a).given[t] == s.given[t]
            || (Do(s, a).given[t] == s.given[t] + 1 && Mover(a).Some? && Keeps(s, AtCall(Mover(a).value), t))
    ensures s.tokens <= Do(s, a).tokens <= s.tokens + 1
  {
  }

  lemma BackwardInstall(s: State, a: Action, q: Place, t: nat) returns (p: Place)
    requires IdsFresh(s) && Enabled(s, a) && a.CreateInstall? && Keeps(Do(s, a), q, t)
    ensures Keeps(s, p, t) && NextPlace(s, a, p) == q
  {
    p := if !s.closed && q == AtRow(s.procs[a.i].run) then AtCall(a.i) else q;
  }

  /** A call that moves on keeps what it had kept, or the new release. */
  lemma BackwardStep(s: State, a: Action, q: Place, t: nat)
    requires Enabled(s, a) && Mover(a).Some? && !a.CreateInstall? && Keeps(Do(s, a), q, t)
    ensures NextPlace(s, a, q) == q
    ensures Keeps(s, q, t)
            || (t == s.tokens && Do(s, a).tokens == s.tokens + 1 && Do(s, a).given == s.given
                && q == AtCall(Mover(a).value))
  {
    MoverMoves(s, a);
  }

  lemma BackwardMove(s: State, a: Action, q: Place, t: nat) returns (p: Place)
    requires IdsFresh(s) && OneKeeper(s) && Enabled(s, a) && Mover(a).Some? && Keeps(Do(s, a), q, t)
    ensures || (Keeps(s, p, t) && NextPlace(s, a, p) == q && Do(s, a).given[t] == s.given[t])
            || (t == s.tokens && Do(s, a).tokens == s.tokens + 1 && Do(s, a).given == s.given
                && q == AtCall(Mover(a).value))
  {
    if a.CreateInstall? {
      p := BackwardInstall(s, a, q, t);
    } else {
      p := q;
      BackwardStep(s, a, q, t);
      if Keeps(s, q, t) { KeptIsUncalled(s, a, q, t); }
    }
  }

  lemma KeptIsUncalled(s: State, a: Action, q: Place, t: nat)
    requires OneKeeper(s) && Enabled(s, a) && Mover(a).Some? && !a.CreateInstall?
    requires Keeps(s, q, t) && Keeps(Do(s, a), q, t)
    ensures Do(s, a).given[t] == s.given[t]
  {
    CallsWhatItKeeps(s, a, t);
    if Keeps(s, AtCall(Mover(a).value), t) {
      assert q == AtCall(Mover(a).value);
    }
  }

  lemma BackwardBegin(s: State, a: Action, q: Place, t: nat) returns (p: Place)
    requires DeadRowsEmpty(s) && Enabled(s, a) && Mover(a).None? && Keeps(Do(s, a), q, t)
    ensures Keeps(s, p, t) && NextPlace(s, a, p) == q
  {
    p := q;
    if q == AtCall(|s.procs|) {
      if a.CloseSweep? {
        var r :| r in s.rows && s.rows[r].live && s.rows[r].release == Some(t);
        p := AtRow(r);
      } else if a.RemoveDetach? || a.StopDetach? {
        p := AtRow(a.run);
      }
    }
  }

  lemma Backward(s: State, a: Action, q: Place, t: nat) returns (p: Place)
    requires IdsFresh(s) && DeadRowsEmpty(s) && OneKeeper(s) && Enabled(s, a) && Keeps(Do(s, a), q, t)
    ensures || (Keeps(s, p, t) && NextPlace(s, a, p) == q && Do(s, a).given[t] == s.given[t])
            || (t == s.tokens && Do(s, a).tokens == s.tokens + 1 && Do(s, a).given == s.given
                && Mover(a).Some? && q == AtCall(Mover(a).value))
  {
    if Mover(a).Some? {
      p := BackwardMove(s, a, q, t);
    } else {
      CallsWhatItKeeps(s, a, t);
      p := BackwardBegin(s, a, q, t);
    }
  }

  lemma DeadRowsKept(s: State, a: Action)
    requires DeadRowsEmpty(s) && Enabled(s, a)
    ensures DeadRowsEmpty(Do(s, a))
  {
  }

  lemma KeeperKept(s: State, a: Action)
    requires IdsFresh(s) && ReleasesOwned(s) && Enabled(s, a)
    ensures OneKeeper(Do(s, a)) && KeptUncalled(Do(s, a))
  {
    var after := Do(s, a);
    forall q, t: nat | Keeps(after, q, t) ensures t < after.tokens && after.given[t] == 0 {
      var p := Backward(s, a, q, t);
      CallsWhatItKeeps(s, a, t);
    }
    forall q1, q2, t: nat | Keeps(after, q1, t) && Keeps(after, q2, t) ensures q1 == q2 {
      var p1 := Backward(s, a, q1, t);
      var p2 := Backward(s, a, q2, t);
    }
  }

  lemma CallsKept(s: State, a: Action)
    requires IdsFresh(s) && ReleasesOwned(s) && Enabled(s, a)
    ensures CalledOnce(Do(s, a))
  {
    forall t: nat ensures Do(s, a).given[t] <= 1 && (Do(s, a).given[t] > 0 ==> t < Do(s, a).tokens) {
      CallsWhatItKeeps(s, a, t);
    }
  }

  lemma NewIsKept(s: State, a: Action)
    requires Enabled(s, a) && Do(s, a).tokens > s.tokens
    ensures Kept(Do(s, a), s.tokens)
  {
    assert Keeps(Do(s, a), AtCall(a.i), s.tokens);
  }

  lemma NoneLostKept(s: State, a: Action)
    requires IdsFresh(s) && ReleasesOwned(s) && Enabled(s, a)
    ensures NoneLost(Do(s, a))
  {
    var after := Do(s, a);
    forall t: nat | t < after.tokens && after.given[t] == 0 ensures Kept(after, t) {
      CallsWhatItKeeps(s, a, t);
      if t < s.tokens {
        assert Kept(s, t);
        var p :| Keeps(s, p, t);
        Forward(s, a, p, t);
      } else {
        NewIsKept(s, a);
      }
    }
  }

  lemma ActionKept(s: State, a: Action)
    requires Inv(s) && Enabled(s, a)
    ensures Inv(Do(s, a))
  {
    if Mover(a).Some? { MoveKeepsCounts(s, a); } else { BeginKeepsCounts(s, a); }
    if Mover(a).Some? { MoveKeepsIds(s, a); } else { BeginKeepsIds(s, a); }
    SweptKept(s, a);
    DeadRowsKept(s, a);
    KeeperKept(s, a);
    CallsKept(s, a);
    NoneLostKept(s, a);
  }

  // ----- Every interleaving

  lemma {:induction false} EveryInterleaving(start: State, actions: seq<Action>)
    requires Opens(start)
    ensures Inv(Run(start, actions))
  {
    if actions == [] {
      StartIsSound(start);
    } else {
      var before := Run(start, actions[..|actions| - 1]);
      EveryInterleaving(start, actions[..|actions| - 1]);
      if Enabled(before, actions[|actions| - 1]) { ActionKept(before, actions[|actions| - 1]); }
    }
  }

  lemma StartIsSound(start: State)
    requires Opens(start)
    ensures Inv(start)
  {
    assert LiveRuns(start.rows) == {};
  }

  /** However the calls interleave, the ceiling holds, no release is called twice, and one not called
      yet waits in exactly one place. */
  lemma CeilingAndReleases(start: State, actions: seq<Action>)
    requires Opens(start)
    ensures var s := Run(start, actions);
            && |LiveRuns(s.rows)| + s.pending <= MAX_LIVE_RUNS
            && (forall t: nat :: s.given[t] <= 1)
            && (forall t: nat :: t < s.tokens ==> (s.given[t] == 0 <==> Kept(s, t)))
            && (forall p, q, t: nat :: Keeps(s, p, t) && Keeps(s, q, t) ==> p == q)
  {
    EveryInterleaving(start, actions);
  }

  predicate Finished(p: Proc) {
    p.Gone? || (p.Sweeping? && p.releases == {})
  }

  ghost predicate KeptByLiveRow(s: State, t: nat) {
    exists r :: r in s.rows && s.rows[r].live && s.rows[r].release == Some(t)
  }

  /** When every call has returned, each release was called exactly once unless a live row keeps it;
      after Close there is no live row, so each was called exactly once. */
  lemma QuietMeansReleased(start: State, actions: seq<Action>, t: nat)
    requires Opens(start)
    requires var s := Run(start, actions);
             t < s.tokens && forall i :: 0 <= i < |s.procs| ==> Finished(s.procs[i])
    ensures var s := Run(start, actions);
            && (s.given[t] == 1 <==> !KeptByLiveRow(s, t))
            && (s.swept ==> s.given[t] == 1)
  {
    var s := Run(start, actions);
    EveryInterleaving(start, actions);
    if s.given[t] == 0 {
      assert Kept(s, t);
      var p :| Keeps(s, p, t);
      assert p.AtRow?;
      assert p.run in LiveRuns(s.rows);
    } else if KeptByLiveRow(s, t) {
      var r :| r in s.rows && s.rows[r].live && s.rows[r].release == Some(t);
      assert Keeps(s, AtRow(r), t);
    }
  }

  /** The wait group is exact: when Close stops waiting because it reached zero, no Create, Stop or
      Remove is still at work, so the sweep sees every session that was ever opened. */
  lemma WaitIsComplete(start: State, actions: seq<Action>, i: nat)
    requires Opens(start)
    requires var s := Run(start, actions); s.opening == 0 && i < |s.procs|
    ensures var s := Run(start, actions); s.procs[i].Gone? || s.procs[i].Sweeping?
  {
    EveryInterleaving(start, actions);
    CountNone(Run(start, actions).procs, p => Busy(p), i);
  }

  /** After Close has swept, no action brings a live session back. */
  lemma {:induction false} SweptForGood(s: State, actions: seq<Action>)
    requires Inv(s) && s.swept
    ensures Inv(Run(s, actions)) && Run(s, actions).swept && LiveRuns(Run(s, actions).rows) == {}
  {
    if actions != [] {
      SweptForGood(s, actions[..|actions| - 1]);
      var before := Run(s, actions[..|actions| - 1]);
      if Enabled(before, actions[|actions| - 1]) { ActionKept(before, actions[|actions| - 1]); }
    }
  }

  // ----- The life of a run

  /** Why a row is what it is after an action: it came live with what its Create built, its session was
      detached by Stop or by Close, it went with a saved Remove, or nothing happened to it. */
  lemma RowStep(s: State, a: Action, r: nat)
    requires IdsFresh(s) && Enabled(s, a)
    ensures var after := Do(s, a);
            && (r in s.rows && r !in after.rows ==> a == RemoveDetach(r, true) && !s.closed)
            && (r !in s.rows && r in after.rows ==>
                  a.CreateInstall? && !s.closed && s.procs[a.i].run == r && after.rows[r] == Row(true, s.procs[a.i].release))
            && (r in s.rows && r in after.rows && after.rows[r] != s.rows[r] ==>
                  s.rows[r].live && after.rows[r] == Row(false, None) && (a.CloseSweep? || (a == StopDetach(r) && !s.closed)))
  {
  }

  /** And what an action has to do to the row it names, in an open registry. */
  lemma RowEffects(s: State, r: nat)
    requires !s.closed && r in s.rows
    ensures s.rows[r].live ==> Do(s, StopDetach(r)).rows == s.rows[r := Row(false, None)]
    ensures !s.rows[r].live ==> Do(s, StopDetach(r)) == s
    ensures Do(s, RemoveDetach(r, true)).rows == s.rows - {r} && Do(s, RemoveDetach(r, false)) == s
  {
  }

  datatype Stage = NotYet | Live | Stopped | Past

  function Order(g: Stage): nat {
    match g
    case NotYet => 0
    case Live => 1
    case Stopped => 2
    case Past => 3
  }

  ghost predicate IsReserved(s: State, r: nat) {
    exists i :: 0 <= i < |s.procs| && Reserves(s.procs[i]) && s.procs[i].run == r
  }

  /** Where a run is in its life: not minted or still being opened, live, closed, or past. */
  ghost function StageOf(s: State, r: nat): Stage {
    if r in s.rows then (if s.rows[r].live then Live else Stopped)
    else if r > s.next || IsReserved(s, r) then NotYet
    else Past
  }

  lemma NothingReserved(s: State, a: Action, r: nat)
    requires IdsFresh(s) && Enabled(s, a) && r <= s.next && !IsReserved(s, r)
    ensures r <= Do(s, a).next && !IsReserved(Do(s, a), r)
  {
    var after := Do(s, a);
    if IsReserved(after, r) {
      var i :| 0 <= i < |after.procs| && Reserves(after.procs[i]) && after.procs[i].run == r;
      if Mover(a).Some? {
        MoverMoves(s, a);
        ReservedBefore(s, a);
      } else {
        BegunReserves(s, a);
      }
    }
  }

  lemma ReservedBefore(s: State, a: Action)
    requires Enabled(s, a) && Mover(a).Some?
    ensures var p, q := s.procs[Mover(a).value], Do(s, a).procs[Mover(a).value];
            Reserves(q) ==> Reserves(p) && q.run == p.run
  {
    if a.OpenDone? { BuiltReserves(s, a); } else { OnlyBuiltReserves(s, a); }
  }

  /** A call that begins reserves at most a number that was never given out. */
  lemma BegunReserves(s: State, a: Action)
    requires Enabled(s, a) && Mover(a).None?
    ensures var after := Do(s, a);
            && s.next <= after.next
            && (after.procs == s.procs
                || (|after.procs| == |s.procs| + 1 && after.procs[..|s.procs|] == s.procs
                    && (Reserves(after.procs[|s.procs|]) ==> after.procs[|s.procs|].run == s.next + 1)))
  {
  }

  lemma StageForward(s: State, a: Action, r: nat)
    requires IdsFresh(s) && Enabled(s, a)
    ensures Order(StageOf(s, r)) <= Order(StageOf(Do(s, a), r))
  {
    RowStep(s, a, r);
    if r in s.rows {
      assert !IsReserved(s, r);
      NothingReserved(s, a, r);
    } else if r <= s.next && !IsReserved(s, r) {
      NothingReserved(s, a, r);
      InstallReserved(s, a, r);
    }
  }

  /** Only a Create that reserved it brings a run into the table. */
  lemma InstallReserved(s: State, a: Action, r: nat)
    requires Enabled(s, a) && r !in s.rows && !IsReserved(s, r)
    ensures r !in Do(s, a).rows
  {
    if a.CreateInstall? { assert Reserves(s.procs[a.i]); }
  }

  /** In every interleaving a run's life goes one way: from being opened to live, closed and past. What is closed
      is never live again, and an id that is past never comes back. */
  lemma {:induction false} RunsOnlyGoForward(s: State, actions: seq<Action>, r: nat)
    requires Inv(s)
    ensures Inv(Run(s, actions)) && Order(StageOf(s, r)) <= Order(StageOf(Run(s, actions), r))
  {
    if actions != [] {
      var before, a := Run(s, actions[..|actions| - 1]), actions[|actions| - 1];
      RunsOnlyGoForward(s, actions[..|actions| - 1], r);
      if Enabled(before, a) {
        ActionKept(before, a);
        StageForward(before, a, r);
      }
    }
  }

  /** In every interleaving only a saved Remove takes a run out of the table. */
  lemma {:induction false} OnlyRemoveTakesOut(s: State, actions: seq<Action>, r: nat)
    requires Inv(s) && r in s.rows && r !in Run(s, actions).rows
    ensures RemoveDetach(r, true) in actions
  {
    if actions != [] {
      var before, a := Run(s, actions[..|actions| - 1]), actions[|actions| - 1];
      if r in before.rows {
        RunsOnlyGoForward(s, actions[..|actions| - 1], r);
        RowStep(before, a, r);
        assert a in actions;
      } else {
        OnlyRemoveTakesOut(s, actions[..|actions| - 1], r);
      }
    }
  }

  // ----- The registry's own fields

  /** The fields the calls change under the lock, one method a critical section. sys is the step system
      the registry has reached; Valid says the fields are its, so every section is one of its actions. */
  class Registry {
    var rows: map<nat, Row>
    var next: nat
    var pending: nat
    var closed: bool
    var opening: nat
    ghost var sys: State

    ghost predicate Valid()
      reads this
    {
      && Inv(sys)
      && rows == sys.rows && next == sys.next && pending == sys.pending
      && closed == sys.closed && opening == sys.opening
    }

    constructor (saved: map<nat, Row>, last: nat)
      requires forall r :: r in saved ==> r <= last && saved[r] == Row(false, None)
      ensures Valid() && Opens(sys) && rows == saved && next == last
    {
      rows, next, pending, closed, opening := saved, last, 0, false, 0;
      sys := State(saved, last, 0, false, 0, [], 0, multiset{}, false);
      new;
      StartIsSound(sys);
    }

    method LiveLocked() returns (n: nat)
      ensures n == |LiveRuns(rows)|
    {
      n := 0;
      var left := rows.Keys;
      while left != {}
        invariant left <= rows.Keys
        invariant n == |LiveRuns(rows) - left|
        decreases |left|
      {
        var r :| r in left;
        if rows[r].live {
          assert LiveRuns(rows) - (left - {r}) == LiveRuns(rows) - left + {r};
          n := n + 1;
        } else {
          assert LiveRuns(rows) - (left - {r}) == LiveRuns(rows) - left;
        }
        left := left - {r};
      }
      assert LiveRuns(rows) - left == LiveRuns(rows);
    }

    /** The head of Create: refused when closed or at the ceiling, else an id and a place are taken. */
    method Enter() returns (run: Option<nat>)
      requires Valid()
      modifies this
      ensures Valid() && sys == Do(old(sys), CreateEnter)
      ensures run.None? <==> old(closed || |LiveRuns(rows)| + pending >= MAX_LIVE_RUNS)
      ensures run.Some? ==> (run.value == old(next) + 1 && sys.procs == old(sys.procs) + [Opening(run.value)])
      ensures rows == old(rows) && closed == old(closed) && next == old(next) + (if run.Some? then 1 else 0)
      ensures pending - old(pending) == opening - old(opening) == if run.Some? then 1 else 0
    {
      ActionKept(sys, CreateEnter);
      sys := Do(sys, CreateEnter);
      if closed { return None; }
      var live := LiveLocked();
      if live + pending >= MAX_LIVE_RUNS { return None; }
      next := next + 1;
      pending := pending + 1;
      opening := opening + 1;
      return Some(next);
    }

    /** The row replaces the place; a registry that closed meanwhile takes no row. */
    method Install(ghost i: nat, run: nat, release: Option<nat>) returns (added: bool)
      requires Valid() && i < |sys.procs| && sys.procs[i] == Built(run, release)
      modifies this
      ensures Valid() && sys == Do(old(sys), CreateInstall(i))
      ensures added == !old(closed)
      ensures rows == if added then old(rows)[run := Row(true, release)] else old(rows)
      ensures next == old(next) && opening == old(opening) && closed == old(closed)
    {
      ActionKept(sys, CreateInstall(i));
      sys := Do(sys, CreateInstall(i));
      if closed { return false; }
      rows := rows[run := Row(true, release)];
      Uncount();
      return true;
    }

    method Uncount()
      modifies this`pending
      ensures pending == if old(pending) > 0 then old(pending) - 1 else 0
    {
      if pending > 0 { pending := pending - 1; }
    }

    /** A Create that got no row gives its place back. */
    method GiveBack(ghost i: nat)
      requires Valid() && i < |sys.procs| && sys.procs[i].Unwinding?
      modifies this
      ensures Valid() && sys == Do(old(sys), Unwind(i)) && pending == old(pending) - 1
      ensures rows == old(rows) && next == old(next) && opening == old(opening) && closed == old(closed)
    {
      UnwindingCounts(sys, i);
      ActionKept(sys, Unwind(i));
      sys := Do(sys, Unwind(i));
      Uncount();
    }

    method Done(ghost i: nat)
      requires Valid() && i < |sys.procs| && sys.procs[i].Leaving?
      modifies this
      ensures Valid() && sys == Do(old(sys), Return(i)) && opening == old(opening) - 1
      ensures rows == old(rows) && next == old(next) && pending == old(pending) && closed == old(closed)
    {
      LeavingCounts(sys, i);
      ActionKept(sys, Return(i));
      sys := Do(sys, Return(i));
      opening := opening - 1;
    }

    /** Remove takes the row out, undoes that when the save fails, and otherwise hands
        over what is left to give back: nothing when Stop detached the session first. */
    method BeginRemove(run: nat, saved: bool) returns (taken: Option<Row>)
      requires Valid()
      modifies this
      ensures Valid() && sys == Do(old(sys), RemoveDetach(run, saved))
      ensures taken == if old(closed) || run !in old(rows) || !saved then None else Some(old(rows)[run])
      ensures rows == if taken.Some? then old(rows) - {run} else old(rows)
      ensures opening == (if taken.Some? then old(opening) + 1 else old(opening)) && pending == old(pending)
    {
      ActionKept(sys, RemoveDetach(run, saved));
      sys := Do(sys, RemoveDetach(run, saved));
      if closed || run !in rows { return None; }
      var row := rows[run];
      rows := rows - {run};
      if !saved {
        rows := rows[run := row];
        return None;
      }
      opening := opening + 1;
      return Some(row);
    }

    /** Stop detaches a live session and leaves its row, closed. */
    method BeginStop(run: nat) returns (taken: Option<Row>)
      requires Valid()
      modifies this
      ensures Valid() && sys == Do(old(sys), StopDetach(run))
      ensures taken.Some? <==> old(!closed && run in rows && rows[run].live)
      ensures taken.Some? ==> taken.value == old(rows)[run]
      ensures rows == if taken.Some? then old(rows)[run := Row(false, None)] else old(rows)
      ensures opening == (if taken.Some? then old(opening) + 1 else old(opening)) && pending == old(pending)
    {
      ActionKept(sys, StopDetach(run));
      sys := Do(sys, StopDetach(run));
      if closed || run !in rows || !rows[run].live { return None; }
      taken := Some(rows[run]);
      opening := opening + 1;
      rows := rows[run := Row(false, None)];
    }

    /** Close refuses new runs from here on; sessions and calls under way stay as they are. */
    method BeginClose()
      requires Valid()
      modifies this
      ensures Valid() && sys == Do(old(sys), CloseBegin)
      ensures closed && rows == old(rows) && next == old(next) && pending == old(pending) && opening == old(opening)
    {
      ActionKept(sys, CloseBegin);
      sys := Do(sys, CloseBegin);
      closed := true;
    }

    /** Close detaches every live session, row by row. */
    method Sweep() returns (releases: set<nat>)
      requires Valid() && closed && !sys.swept
      modifies this
      ensures Valid() && sys == Do(old(sys), CloseSweep)
      ensures releases == AllReleases(old(rows)) && rows.Keys == old(rows).Keys
      ensures forall r :: r in rows ==> rows[r] == if old(rows)[r].live then Row(false, None) else old(rows)[r]
    {
      ActionKept(sys, CloseSweep);
      rows, releases := DetachAll(rows);
      sys := Do(sys, CloseSweep);
    }
  }

  method DetachAll(rows: map<nat, Row>) returns (left: map<nat, Row>, releases: set<nat>)
    ensures left == Detached(rows) && releases == AllReleases(rows)
  {
    left, releases := rows, {};
    var todo := rows.Keys;
    assert DetachedBut(rows, todo) == rows;
    while todo != {}
      invariant todo <= rows.Keys && left == DetachedBut(rows, todo)
      invariant releases == AllReleases(rows - todo)
      decreases |todo|
    {
      var r :| r in todo;
      ReleasesOneMore(rows, todo, r);
      DetachedOneMore(rows, todo, r);
      if left[r].live {
        releases := releases + Some1(left[r].release);
        left := left[r := Row(false, None)];
      }
      todo := todo - {r};
    }
    assert rows - {} == rows;
  }

  ghost function DetachedBut(rows: map<nat, Row>, todo: set<nat>): map<nat, Row> {
    map r | r in rows :: if rows[r].live && r !in todo then Row(false, None) else rows[r]
  }

  lemma DetachedOneMore(rows: map<nat, Row>, todo: set<nat>, r: nat)
    requires r in todo && todo <= rows.Keys
    ensures DetachedBut(rows, todo)[r] == rows[r]
    ensures DetachedBut(rows, todo - {r})
            == if rows[r].live then DetachedBut(rows, todo)[r := Row(false, None)] else DetachedBut(rows, todo)
  {
  }

  lemma ReleasesOneMore(rows: map<nat, Row>, todo: set<nat>, r: nat)
    requires r in todo && todo <= rows.Keys
    ensures AllReleases(rows - (todo - {r}))
            == AllReleases(rows - todo) + (if rows[r].live then Some1(rows[r].release) else {})
  {
    var before, after := rows - todo, rows - (todo - {r});
    assert after == before[r := rows[r]];
    forall t | t in AllReleases(before) ensures t in AllReleases(after) {
      var q :| q in before && before[q].live && before[q].release == Some(t);
      assert q in after;
    }
    if rows[r].live && rows[r].release.Some? { assert r in after; }
  }

  lemma UnwindingCounts(s: State, i: nat)
    requires Inv(s) && i < |s.procs| && s.procs[i].Unwinding?
    ensures s.pending > 0
  {
    if s.pending == 0 { CountNone(s.procs, p => Counts(p), i); }
  }

  lemma LeavingCounts(s: State, i: nat)
    requires Inv(s) && i < |s.procs| && s.procs[i].Leaving?
    ensures s.opening > 0
  {
    if s.opening == 0 { CountNone(s.procs, p => Busy(p), i); }
  }
}
