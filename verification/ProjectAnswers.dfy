/** What the callers of open are told, in every interleaving: which load an answer comes from. */
module ProjectAnswers {
  import opened Wrappers
  import opened Projects

  /** How a load ended. One that panicked left nothing; a dropped one came too late for its project. */
  datatype Outcome = Kept(env: Option<nat>) | Failed | Dropped | Broke

  /** A caller was told what the load from left; own is the load it ran or waited for itself, if any. */
  datatype Telling = Telling(rec: nat, own: Option<nat>, from: nat, answer: Answer)

  /** of: the record each load is for; ended: how each load that is over ended; latest: the load that ended
      last on a record, panics aside; told: every answer that came from a load. */
  datatype Log = Log(of: map<nat, nat>, ended: map<nat, Outcome>, latest: map<nat, nat>, told: seq<Telling>)

  const Nothing := Log(map[], map[], map[], [])

  ghost function OutcomeOf(s: State, a: Action): Outcome
    requires Enabled(s, a) && a.LoadDone?
  {
    if s.closed || !IsLive(s, s.procs[a.i].rec) then Dropped
    else if a.failed then Failed
    else Kept(if a.built then Some(s.envs) else None)
  }

  /** What a caller at the head of open finds installed. */
  ghost predicate FindsReady(s: State, i: nat) {
    && Enabled(s, Look(i)) && !s.closed && s.procs[i].id in s.live && s.live[s.procs[i].id] < |s.records|
    && s.records[s.live[s.procs[i].id]].env.Some?
  }

  ghost function Latest(log: Log, r: nat): nat {
    if r in log.latest then log.latest[r] else 0
  }

  ghost function Logged(s: State, log: Log, a: Action): Log
    requires Enabled(s, a)
  {
    match a
    case Look(i) =>
      if FindsReady(s, i) then
        var r := s.live[s.procs[i].id];
        log.(told := log.told + [Telling(r, None, Latest(log, r), Answered(s, a).value)])
      else if Do(s, a).loads > s.loads then log.(of := log.of[s.loads := s.live[s.procs[i].id]])
      else log
    case Wake(i) =>
      var p := s.procs[i];
      if Answered(s, a).None? then log
      else log.(told := log.told + [Telling(p.rec, Some(p.load), Latest(log, p.rec), Answered(s, a).value)])
    case LoadDone(i, built, failed) =>
      var p, o := s.procs[i], OutcomeOf(s, a);
      log.(ended := log.ended[p.load := o], latest := log.latest[p.rec := p.load],
           told := if o.Dropped? then log.told
                   else log.told + [Telling(p.rec, Some(p.load), p.load, Answered(s, a).value)])
    case LoadPanic(i) => log.(ended := log.ended[s.procs[i].load := Broke])
    case _ => log
  }

  ghost function LogOf(start: State, actions: seq<Action>): Log {
    if actions == [] then Nothing
    else
      var before, a := Run(start, actions[..|actions| - 1]), actions[|actions| - 1];
      var log := LogOf(start, actions[..|actions| - 1]);
      if Enabled(before, a) then Logged(before, log, a) else log
  }

  // ----- What always holds

  ghost predicate Running(s: State, load: nat) {
    exists i :: 0 <= i < |s.procs| && s.procs[i].Loading? && s.procs[i].load == load
  }

  /** A load is for one record, and is over or running. */
  ghost predicate LoadsKnown(s: State, log: Log) {
    && (forall l :: l in log.of && l !in log.ended ==> Running(s, l))
    && (forall l :: l in log.ended ==> l < s.loads)
    && (forall l :: l in log.of ==> l < s.loads)
    && (forall i :: 0 <= i < |s.procs| && s.procs[i].Loading? ==>
          && s.procs[i].load !in log.ended && s.procs[i].load in log.of
          && log.of[s.procs[i].load] == s.procs[i].rec)
  }

  ghost predicate WaitersKnown(s: State, log: Log) {
    forall i :: 0 <= i < |s.procs| && s.procs[i].Waiting? ==>
      s.procs[i].load in log.of && log.of[s.procs[i].load] == s.procs[i].rec
  }

  ghost predicate LatestKnown(s: State, log: Log) {
    forall r :: r in log.latest ==>
      && r < |s.records| && log.latest[r] in log.ended && !log.ended[log.latest[r]].Broke?
      && log.latest[r] in log.of && log.of[log.latest[r]] == r
  }

  ghost predicate Left(log: Log, r: nat, o: Outcome) {
    r in log.latest && log.latest[r] in log.ended && log.ended[log.latest[r]] == o
  }

  /** A record holds what the load that ended last on it left. */
  ghost predicate RecordsAgree(s: State, log: Log) {
    && (forall r :: 0 <= r < |s.records| && s.records[r].env.Some? ==> Left(log, r, Kept(s.records[r].env)))
    && (forall r :: 0 <= r < |s.records| ==> (s.records[r].failed <==> Left(log, r, Failed)))
  }

  /** After a load that left an environment no load of that record begins any more: the environment stays
      until the project is gone or the registry closed. */
  ghost predicate KeptForGood(s: State, log: Log) {
    forall r: nat, e: nat :: Left(log, r, Kept(Some(e))) && r < |s.records| ==>
      s.records[r].loading.None? && (s.records[r].env == Some(e) || !IsLive(s, r) || s.closed)
  }

  /** What a load left, it left last. */
  ghost predicate KeptLast(s: State, log: Log) {
    forall l, e: nat :: l in log.ended && log.ended[l] == Kept(Some(e)) ==>
      e < s.envs && l in log.of && log.of[l] in log.latest && log.latest[log.of[l]] == l
  }

  /** Every environment is left by one load. */
  ghost predicate KeptOnce(log: Log) {
    forall l, m, e: nat ::
      (l in log.ended && m in log.ended && log.ended[l] == Kept(Some(e)) && log.ended[m] == Kept(Some(e))) ==> l == m
  }

  /** An answer is what a load of that record left: the caller's own load when that left an environment, and
      never an older load than its own unless that panicked. */
  ghost predicate TellingSound(log: Log, t: Telling) {
    && (t.own.Some? ==> t.own.value in log.ended)
    && t.from in log.ended && t.from in log.of && log.of[t.from] == t.rec
    && (match log.ended[t.from]
        case Kept(env) => t.answer == Env(env)
        case Failed => t.answer == LoadError
        case _ => false)
    && (t.own.Some? && log.ended[t.own.value].Kept? && log.ended[t.own.value].env.Some? ==> t.from == t.own.value)
    && (t.own.Some? && !log.ended[t.own.value].Broke? ==> t.own.value <= t.from)
  }

  ghost predicate TellingsSound(log: Log) {
    forall k :: 0 <= k < |log.told| ==> TellingSound(log, log.told[k])
  }

  ghost predicate LogInv(s: State, log: Log) {
    && LoadsKnown(s, log) && WaitersKnown(s, log) && LatestKnown(s, log) && RecordsAgree(s, log)
    && KeptForGood(s, log) && KeptLast(s, log) && KeptOnce(log) && NewestRuns(s, log) && LatestIsNewest(log) && TellingsSound(log)
  }

  lemma StartSound(start: State)
    requires Opens(start)
    ensures LogInv(start, Nothing)
  {
  }

  // ----- Actions that end no load

  /** Nothing is loaded: an environment can only go, with its project or with the registry. */
  ghost predicate Calm(s: State, t: State) {
    && |s.records| <= |t.records| && t.envs == s.envs && (s.closed ==> t.closed)
    && (forall r :: 0 <= r < |s.records| ==>
          && t.records[r].failed == s.records[r].failed && t.records[r].loading == s.records[r].loading
          && (t.records[r].env == s.records[r].env || (t.records[r].env.None? && (t.closed || !IsLive(t, r))))
          && (IsLive(t, r) ==> IsLive(s, r)))
    && (forall r :: |s.records| <= r < |t.records| ==> t.records[r] == Record(t.records[r].id, None, None, 0, false))
  }

  /** The log speaks of the same loads, ended in the same way. */
  ghost predicate SameLoads(a: Log, b: Log) {
    a.of == b.of && a.ended == b.ended && a.latest == b.latest
  }

  lemma CalmKeeps(s: State, t: State, a: Log, b: Log)
    requires LatestKnown(s, a) && RecordsAgree(s, a) && KeptForGood(s, a) && KeptLast(s, a) && KeptOnce(a)
    requires Calm(s, t) && SameLoads(a, b)
    ensures LatestKnown(t, b) && RecordsAgree(t, b) && KeptForGood(t, b) && KeptLast(t, b) && KeptOnce(b)
  {
    forall r, o: Outcome ensures Left(b, r, o) == Left(a, r, o) {
    }
    forall r | |s.records| <= r < |t.records| ensures r !in a.latest {
    }
  }

  ghost predicate LoadBegins(s: State, a: Action)
    requires Enabled(s, a)
  {
    a.Look? && Do(s, a).loads > s.loads
  }

  ghost predicate EndsNoLoad(s: State, a: Action)
    requires Enabled(s, a)
  {
    !a.LoadDone? && !a.LoadPanic? && !LoadBegins(s, a)
  }

  lemma MoveIsCalm(s: State, a: Action)
    requires TableSound(s) && Enabled(s, a) && EndsNoLoad(s, a) && Mover(a).Some?
    ensures Calm(s, Do(s, a))
  {
  }

  lemma BeginIsCalm(s: State, a: Action)
    requires TableSound(s) && Enabled(s, a) && Mover(a).None?
    ensures Calm(s, Do(s, a))
  {
  }

  lemma SameLoadsLogged(s: State, log: Log, a: Action)
    requires Enabled(s, a) && EndsNoLoad(s, a)
    ensures SameLoads(log, Logged(s, log, a))
  {
  }

  /** Nobody starts to load, and who waits from now on waits for a load under way. */
  lemma CallsKnown(s: State, log: Log, a: Action)
    requires TableSound(s) && LoadsNamed(s) && LoadsRun(s) && LoadsKnown(s, log) && WaitersKnown(s, log)
    requires Enabled(s, a) && EndsNoLoad(s, a)
    ensures LoadsKnown(Do(s, a), Logged(s, log, a)) && WaitersKnown(Do(s, a), Logged(s, log, a))
  {
    SameLoadsLogged(s, log, a);
    LoadersStay(s, a);
    CallsKept(s, log, a);
  }

  /** One call has moved, or one more has begun; it loads nothing. */
  ghost predicate OneCall(s: State, t: State, log: Log, i: nat) {
    && i < |t.procs| && (t.procs == s.procs || (i < |s.procs| && t.procs == s.procs[i := t.procs[i]])
                         || t.procs == s.procs + [t.procs[i]])
    && (t.procs == s.procs || (!t.procs[i].Loading? && (t.procs[i].Waiting? ==>
          t.procs[i].load in log.of && log.of[t.procs[i].load] == t.procs[i].rec)))
  }

  lemma CallMoves(s: State, log: Log, a: Action) returns (i: nat)
    requires TableSound(s) && LoadsRun(s) && LoadsKnown(s, log) && Enabled(s, a) && EndsNoLoad(s, a)
    ensures Do(s, a).procs == s.procs || OneCall(s, Do(s, a), log, i)
    ensures Do(s, a).loads == s.loads
  {
    if Mover(a).Some? {
      MovesOne(s, a);
      MovedCall(s, log, a);
      i := Mover(a).value;
    } else {
      Begins(s, a);
      i := |s.procs|;
    }
  }

  lemma CallsKept(s: State, log: Log, a: Action)
    requires TableSound(s) && LoadsRun(s) && LoadsKnown(s, log) && WaitersKnown(s, log)
    requires Enabled(s, a) && EndsNoLoad(s, a)
    requires SameLoads(log, Logged(s, log, a)) && forall l: nat :: Running(s, l) ==> Running(Do(s, a), l)
    ensures LoadsKnown(Do(s, a), Logged(s, log, a)) && WaitersKnown(Do(s, a), Logged(s, log, a))
  {
    var i := CallMoves(s, log, a);
    CallKnown(s, Do(s, a), log, Logged(s, log, a), i);
  }

  lemma CallKnown(s: State, t: State, a: Log, b: Log, i: nat)
    requires LoadsKnown(s, a) && WaitersKnown(s, a) && SameLoads(a, b) && t.loads == s.loads
    requires t.procs == s.procs || OneCall(s, t, a, i)
    requires forall l: nat :: Running(s, l) ==> Running(t, l)
    ensures LoadsKnown(t, b) && WaitersKnown(t, b)
  {
  }

  lemma LoadersStay(s: State, a: Action)
    requires TableSound(s) && Enabled(s, a) && EndsNoLoad(s, a)
    ensures forall l: nat :: Running(s, l) ==> Running(Do(s, a), l)
  {
    if Mover(a).Some? { MovesOne(s, a); } else { Begins(s, a); }
    forall l: nat | Running(s, l) ensures Running(Do(s, a), l) {
      var i :| 0 <= i < |s.procs| && s.procs[i].Loading? && s.procs[i].load == l;
      assert Do(s, a).procs[i] == s.procs[i];
    }
  }

  lemma MovedCall(s: State, log: Log, a: Action)
    requires LoadsRun(s) && LoadsKnown(s, log) && Enabled(s, a) && EndsNoLoad(s, a) && Mover(a).Some?
    ensures var p := Do(s, a).procs[Mover(a).value];
            && !p.Loading? && (p.Waiting? ==> p.load in log.of && log.of[p.load] == p.rec)
    ensures Do(s, a).loads == s.loads
  {
    if a.Look? && Do(s, a).procs[a.i].Waiting? {
      var p := Do(s, a).procs[a.i];
      assert InFlight(s, p.rec, p.load);
    }
  }

  // ----- Actions that begin or end one

  lemma BegunKnown(s: State, log: Log, a: Action)
    requires TableSound(s) && LoadsKnown(s, log) && WaitersKnown(s, log) && Enabled(s, a) && LoadBegins(s, a)
    ensures LoadsKnown(Do(s, a), Logged(s, log, a)) && WaitersKnown(Do(s, a), Logged(s, log, a))
  {
    var after, r := Do(s, a), s.live[s.procs[a.i].id];
    LookLoads(s, a.i, r);
    assert after.procs[a.i] == Loading(r, s.loads, s.procs[a.i].retain);
    OthersRun(s, after, a.i);
  }

  /** A move of one call that was loading nothing stops no load. */
  lemma OthersRun(s: State, t: State, i: nat)
    requires i < |s.procs| == |t.procs| && t.procs == s.procs[i := t.procs[i]]
    ensures forall l: nat :: Running(s, l) && !(s.procs[i].Loading? && s.procs[i].load == l) ==> Running(t, l)
  {
    forall l: nat | Running(s, l) && !(s.procs[i].Loading? && s.procs[i].load == l) ensures Running(t, l) {
      var j :| 0 <= j < |s.procs| && s.procs[j].Loading? && s.procs[j].load == l;
      assert t.procs[j] == s.procs[j];
    }
  }

  lemma BegunLeaves(s: State, log: Log, a: Action)
    requires LatestKnown(s, log) && LoadsKnown(s, log) && Enabled(s, a) && LoadBegins(s, a)
    ensures var next := Logged(s, log, a);
            && next.ended == log.ended && next.latest == log.latest
            && (forall l :: l in log.of ==> l in next.of && next.of[l] == log.of[l])
            && forall r: nat, o: Outcome :: Left(next, r, o) == Left(log, r, o)
  {
    LookLoads(s, a.i, s.live[s.procs[a.i].id]);
  }

  lemma BegunRecords(s: State, a: Action)
    requires TableSound(s) && Enabled(s, a) && LoadBegins(s, a)
    ensures var after, r := Do(s, a), s.live[s.procs[a.i].id];
            && after == s.(records := after.records, loads := s.loads + 1, procs := after.procs)
            && r < |s.records| && after.records == s.records[r := s.records[r].(loading := Some(s.loads))]
            && s.records[r].env.None? && IsLive(s, r) && !s.closed
            && forall q :: 0 <= q < |s.records| ==> IsLive(after, q) == IsLive(s, q)
  {
    LookLoads(s, a.i, s.live[s.procs[a.i].id]);
  }

  lemma BegunAgrees(s: State, log: Log, a: Action)
    requires TableSound(s) && LatestKnown(s, log) && RecordsAgree(s, log)
    requires LoadsKnown(s, log) && Enabled(s, a) && LoadBegins(s, a)
    ensures LatestKnown(Do(s, a), Logged(s, log, a)) && RecordsAgree(Do(s, a), Logged(s, log, a))
  {
    BegunRecords(s, a);
    BegunLeaves(s, log, a);
  }

  lemma BegunKeeps(s: State, log: Log, a: Action)
    requires TableSound(s) && LatestKnown(s, log) && KeptForGood(s, log)
    requires LoadsKnown(s, log) && Enabled(s, a) && LoadBegins(s, a)
    ensures KeptForGood(Do(s, a), Logged(s, log, a))
  {
    BegunRecords(s, a);
    BegunLeaves(s, log, a);
  }

  lemma BegunKeptOnce(s: State, log: Log, a: Action)
    requires TableSound(s) && LatestKnown(s, log) && KeptLast(s, log) && KeptOnce(log)
    requires LoadsKnown(s, log) && Enabled(s, a) && LoadBegins(s, a)
    ensures KeptLast(Do(s, a), Logged(s, log, a)) && KeptOnce(Logged(s, log, a))
  {
    BegunRecords(s, a);
    BegunLeaves(s, log, a);
  }

  /** A load that runs is newer than every load of its record that is over. */
  ghost predicate NewestRuns(s: State, log: Log) {
    forall i, l :: (0 <= i < |s.procs| && s.procs[i].Loading? && l in log.ended && l in log.of
                    && log.of[l] == s.procs[i].rec) ==> l < s.procs[i].load
  }

  /** The load that ended last on a record is the newest of those that did not panic. */
  ghost predicate LatestIsNewest(log: Log) {
    forall l :: l in log.ended && l in log.of && !log.ended[l].Broke? ==>
      log.of[l] in log.latest && l <= log.latest[log.of[l]]
  }

  lemma LoaderGone(s: State, a: Action)
    requires LoadsNamed(s) && Enabled(s, a) && (a.LoadDone? || a.LoadPanic?)
    ensures var after := Do(s, a);
            forall i :: 0 <= i < |after.procs| && after.procs[i].Loading? ==>
              i < |s.procs| && after.procs[i] == s.procs[i] && after.procs[i].rec != s.procs[a.i].rec
  {
    LoaderLeaves(s, a);
  }

  lemma EndedNewest(s: State, log: Log, a: Action)
    requires LoadsNamed(s) && NewestRuns(s, log) && Enabled(s, a) && (a.LoadDone? || a.LoadPanic?)
    requires LoadsKnown(s, log)
    ensures NewestRuns(Do(s, a), Logged(s, log, a))
  {
    LoaderGone(s, a);
    EndedOnce(s, log, a);
  }

  lemma EndedIsLatest(s: State, log: Log, a: Action)
    requires LoadsKnown(s, log) && NewestRuns(s, log) && LatestIsNewest(log)
    requires Enabled(s, a) && (a.LoadDone? || a.LoadPanic?)
    ensures LatestIsNewest(Logged(s, log, a))
  {
    EndedOnce(s, log, a);
  }

  lemma BegunNewest(s: State, log: Log, a: Action)
    requires LoadsKnown(s, log) && NewestRuns(s, log) && LatestIsNewest(log) && Enabled(s, a) && LoadBegins(s, a)
    ensures NewestRuns(Do(s, a), Logged(s, log, a)) && LatestIsNewest(Logged(s, log, a))
  {
    LookLoads(s, a.i, s.live[s.procs[a.i].id]);
    BegunLeavesAlone(s, log, a);
  }

  lemma BegunLeavesAlone(s: State, log: Log, a: Action)
    requires LoadsKnown(s, log) && Enabled(s, a) && LoadBegins(s, a)
    ensures var next := Logged(s, log, a);
            next == log.(of := log.of[s.loads := s.live[s.procs[a.i].id]]) && s.loads !in log.of && s.loads !in log.ended
  {
    LookLoads(s, a.i, s.live[s.procs[a.i].id]);
  }

  lemma OneCallNewest(s: State, t: State, a: Log, b: Log, i: nat)
    requires NewestRuns(s, a) && LatestIsNewest(a) && SameLoads(a, b)
    requires t.procs == s.procs || OneCall(s, t, a, i)
    ensures NewestRuns(t, b) && LatestIsNewest(b)
  {
  }

  lemma QuietNewest(s: State, log: Log, a: Action)
    requires TableSound(s) && LoadsRun(s) && LoadsKnown(s, log) && NewestRuns(s, log) && LatestIsNewest(log)
    requires Enabled(s, a) && EndsNoLoad(s, a)
    ensures NewestRuns(Do(s, a), Logged(s, log, a)) && LatestIsNewest(Logged(s, log, a))
  {
    SameLoadsLogged(s, log, a);
    var i := CallMoves(s, log, a);
    OneCallNewest(s, Do(s, a), log, Logged(s, log, a), i);
  }

  /** The call whose load ends loads no longer; the table keeps its size. */
  lemma LoaderLeaves(s: State, a: Action)
    requires Enabled(s, a) && (a.LoadDone? || a.LoadPanic?)
    ensures Do(s, a).loads == s.loads && |Do(s, a).records| == |s.records|
    ensures |Do(s, a).procs| == |s.procs| && Do(s, a).procs == s.procs[a.i := Do(s, a).procs[a.i]]
    ensures !Do(s, a).procs[a.i].Loading? && !Do(s, a).procs[a.i].Waiting?
  {
  }

  lemma EndedOnce(s: State, log: Log, a: Action)
    requires Enabled(s, a) && (a.LoadDone? || a.LoadPanic?)
    ensures var next, load := Logged(s, log, a), s.procs[a.i].load;
            && next.of == log.of && load in next.ended && next.ended == log.ended[load := next.ended[load]]
            && next.latest == (if next.ended[load].Broke? then log.latest else log.latest[s.procs[a.i].rec := load])
            && (next.ended[load].Broke? <==> a.LoadPanic?)
  {
  }

  lemma DoneKnown(s: State, log: Log, a: Action)
    requires LoadsNamed(s) && LoadsKnown(s, log) && WaitersKnown(s, log)
    requires Enabled(s, a) && (a.LoadDone? || a.LoadPanic?)
    ensures LoadsKnown(Do(s, a), Logged(s, log, a)) && WaitersKnown(Do(s, a), Logged(s, log, a))
  {
    LoaderLeaves(s, a);
    EndedOnce(s, log, a);
    OthersRun(s, Do(s, a), a.i);
  }

  lemma DoneLatest(s: State, log: Log, a: Action)
    requires LoadsKnown(s, log) && LatestKnown(s, log) && Enabled(s, a) && (a.LoadDone? || a.LoadPanic?)
    ensures LatestKnown(Do(s, a), Logged(s, log, a))
  {
    LoaderLeaves(s, a);
    EndedOnce(s, log, a);
  }

  /** The record of a load under way holds nothing, and no load left it an environment before. */
  lemma NothingLeftYet(s: State, log: Log, i: nat, o: Outcome)
    requires LoadsNamed(s) && InstalledSound(s) && KeptForGood(s, log)
    requires i < |s.procs| && s.procs[i].Loading? && Left(log, s.procs[i].rec, o)
    ensures s.records[s.procs[i].rec].env.None? && (o.Kept? ==> o.env.None?)
  {
    if o.Kept? && o.env.Some? { assert Left(log, s.procs[i].rec, Kept(Some(o.env.value))); }
  }

  /** What a load that ends leaves: its outcome is the last of its record, all others are as they were. */
  lemma DoneLeaves(s: State, log: Log, a: Action, r: nat, o: Outcome)
    requires LoadsNamed(s) && LoadsKnown(s, log) && LatestKnown(s, log) && Enabled(s, a) && a.LoadDone?
    ensures Left(Logged(s, log, a), r, o)
            <==> if r == s.procs[a.i].rec then o == OutcomeOf(s, a) else Left(log, r, o)
  {
  }

  lemma DoneRecord(s: State, a: Action)
    requires LoadsNamed(s) && InstalledSound(s) && Enabled(s, a) && a.LoadDone?
    ensures var after, r, o := Do(s, a), s.procs[a.i].rec, OutcomeOf(s, a);
            && after.records == s.records[r := after.records[r]] && after.live == s.live && after.closed == s.closed
            && after.records[r].id == s.records[r].id && after.records[r].loading.None?
            && (after.records[r].failed <==> o == Failed)
            && after.records[r].env == (if o.Kept? then o.env else None)
            && (o.Kept? && o.env.Some? ==> o.env == Some(s.envs) && after.envs == s.envs + 1)
            && s.envs <= after.envs
  {
    LoadedRecord(s, a.i, a.built, a.failed);
  }

  lemma DoneAgrees(s: State, log: Log, a: Action)
    requires LoadsNamed(s) && InstalledSound(s) && LoadsKnown(s, log) && LatestKnown(s, log)
    requires RecordsAgree(s, log) && KeptForGood(s, log) && Enabled(s, a) && a.LoadDone?
    ensures RecordsAgree(Do(s, a), Logged(s, log, a)) && KeptForGood(Do(s, a), Logged(s, log, a))
  {
    var after, next := Do(s, a), Logged(s, log, a);
    DoneRecord(s, a);
    forall r: nat, o: Outcome
      ensures Left(next, r, o) <==> if r == s.procs[a.i].rec then o == OutcomeOf(s, a) else Left(log, r, o)
    {
      DoneLeaves(s, log, a, r, o);
    }
    forall r | 0 <= r < |s.records| ensures IsLive(after, r) == IsLive(s, r) {
    }
  }

  lemma NoneKeptYet(s: State, log: Log, i: nat)
    requires LoadsNamed(s) && InstalledSound(s) && KeptForGood(s, log) && KeptLast(s, log) && KeptOnce(log)
    requires i < |s.procs| && s.procs[i].Loading?
    ensures forall l, e: nat :: l in log.ended && log.ended[l] == Kept(Some(e)) ==> log.of[l] != s.procs[i].rec
  {
    var r := s.procs[i].rec;
    forall l, e: nat | l in log.ended && log.ended[l] == Kept(Some(e)) ensures log.of[l] != r {
      if log.of[l] == r {
        assert Left(log, r, Kept(Some(e)));
        NothingLeftYet(s, log, i, Kept(Some(e)));
      }
    }
  }

  /** One load more has ended, in a record none had left an environment. */
  lemma OneMoreLast(s: State, t: State, log: Log, next: Log, load: nat, r: nat, o: Outcome)
    requires KeptLast(s, log) && load !in log.ended && load in log.of && log.of[load] == r
    requires next.of == log.of && next.ended == log.ended[load := o] && next.latest == log.latest[r := load]
    requires s.envs <= t.envs && (o.Kept? && o.env.Some? ==> o.env == Some(s.envs) && t.envs == s.envs + 1)
    requires forall l, e: nat :: l in log.ended && log.ended[l] == Kept(Some(e)) ==> log.of[l] != r
    ensures KeptLast(t, next)
  {
  }

  lemma OneMoreKept(s: State, log: Log, next: Log, load: nat, o: Outcome)
    requires KeptLast(s, log) && KeptOnce(log) && load !in log.ended && next.ended == log.ended[load := o]
    requires o.Kept? && o.env.Some? ==> o.env == Some(s.envs)
    ensures KeptOnce(next)
  {
    forall l, m, e: nat | l in next.ended && m in next.ended && next.ended[l] == Kept(Some(e)) && next.ended[m] == Kept(Some(e))
      ensures l == m
    {
      assert l != load ==> e < s.envs;
      assert m != load ==> e < s.envs;
    }
  }

  lemma DoneKeptOnce(s: State, log: Log, a: Action)
    requires LoadsNamed(s) && InstalledSound(s) && LoadsKnown(s, log) && LatestKnown(s, log)
    requires KeptForGood(s, log) && KeptLast(s, log) && KeptOnce(log) && Enabled(s, a) && a.LoadDone?
    ensures KeptLast(Do(s, a), Logged(s, log, a)) && KeptOnce(Logged(s, log, a))
  {
    var p := s.procs[a.i];
    DoneRecord(s, a);
    NoneKeptYet(s, log, a.i);
    OneMoreLast(s, Do(s, a), log, Logged(s, log, a), p.load, p.rec, OutcomeOf(s, a));
    OneMoreKept(s, log, Logged(s, log, a), p.load, OutcomeOf(s, a));
  }

  lemma PanicLeaves(s: State, log: Log, a: Action)
    requires LoadsKnown(s, log) && LatestKnown(s, log) && Enabled(s, a) && a.LoadPanic?
    ensures forall r: nat, o: Outcome :: Left(Logged(s, log, a), r, o) == Left(log, r, o)
  {
    EndedOnce(s, log, a);
  }

  lemma PanicRecord(s: State, a: Action)
    requires Enabled(s, a) && a.LoadPanic?
    ensures var after, r := Do(s, a), s.procs[a.i].rec;
            && after.records == s.records[r := s.records[r].(loading := None)]
            && after.live == s.live && after.closed == s.closed && after.envs == s.envs
            && forall q :: 0 <= q < |s.records| ==> IsLive(after, q) == IsLive(s, q)
  {
  }

  lemma PanicKeeps(s: State, log: Log, a: Action)
    requires LoadsKnown(s, log) && LatestKnown(s, log)
    requires RecordsAgree(s, log) && KeptForGood(s, log) && Enabled(s, a) && a.LoadPanic?
    ensures RecordsAgree(Do(s, a), Logged(s, log, a)) && KeptForGood(Do(s, a), Logged(s, log, a))
  {
    PanicRecord(s, a);
    PanicLeaves(s, log, a);
  }

  lemma PanicKeptOnce(s: State, log: Log, a: Action)
    requires LoadsKnown(s, log) && KeptLast(s, log) && KeptOnce(log) && Enabled(s, a) && a.LoadPanic?
    ensures KeptLast(Do(s, a), Logged(s, log, a)) && KeptOnce(Logged(s, log, a))
  {
    EndedOnce(s, log, a);
    PanicRecord(s, a);
  }

  // ----- What is told

  /** What was told stays true: a load that is over does not end again. */
  lemma ToldStays(s: State, log: Log, a: Action, t: Telling)
    requires LoadsKnown(s, log) && Enabled(s, a) && TellingSound(log, t)
    ensures TellingSound(Logged(s, log, a), t)
  {
    OverStaysOver(s, log, a);
  }

  lemma OverStaysOver(s: State, log: Log, a: Action)
    requires LoadsKnown(s, log) && Enabled(s, a)
    ensures var next := Logged(s, log, a);
            && (forall l :: l in log.ended ==> l in next.ended && next.ended[l] == log.ended[l])
            && (forall l :: l in log.of ==> l in next.of && next.of[l] == log.of[l])
  {
  }

  ghost predicate TellsSoundly(log: Log, next: Log) {
    next.told == log.told
    || (|next.told| == |log.told| + 1 && next.told[..|log.told|] == log.told && TellingSound(next, next.told[|log.told|]))
  }

  /** What is told now. */
  lemma NewTelling(s: State, log: Log, a: Action)
    requires Inv(s) && LogInv(s, log) && Enabled(s, a)
    ensures TellsSoundly(log, Logged(s, log, a))
  {
    match a {
      case Look(i) => LookTells(s, log, i);
      case Wake(i) => WakeTells(s, log, i);
      case LoadDone(i, built, failed) => DoneTells(s, log, a);
      case _ =>
    }
  }

  lemma LookTells(s: State, log: Log, i: nat)
    requires Inv(s) && LogInv(s, log) && Enabled(s, Look(i))
    ensures TellsSoundly(log, Logged(s, log, Look(i)))
  {
    if FindsReady(s, i) {
      var r := s.live[s.procs[i].id];
      ReadyTold(s, log, i);
      OneTold(log, Telling(r, None, Latest(log, r), Answered(s, Look(i)).value));
    }
  }

  lemma WakeTells(s: State, log: Log, i: nat)
    requires Inv(s) && LogInv(s, log) && Enabled(s, Wake(i))
    ensures TellsSoundly(log, Logged(s, log, Wake(i)))
  {
    if Answered(s, Wake(i)).Some? {
      var p := s.procs[i];
      WaiterTold(s, log, i);
      OneTold(log, Telling(p.rec, Some(p.load), Latest(log, p.rec), Answered(s, Wake(i)).value));
    }
  }

  lemma OneTold(log: Log, t: Telling)
    requires TellingSound(log, t)
    ensures TellsSoundly(log, log.(told := log.told + [t]))
  {
  }

  lemma DoneTells(s: State, log: Log, a: Action)
    requires LoadsKnown(s, log) && Enabled(s, a) && a.LoadDone?
    ensures TellsSoundly(log, Logged(s, log, a))
  {
    var next := Logged(s, log, a);
    if next.told != log.told {
      var t := Telling(s.procs[a.i].rec, Some(s.procs[a.i].load), s.procs[a.i].load, Answered(s, a).value);
      assert next.told == log.told + [t];
      assert TellingSound(next, t);
    }
  }

  lemma ReadyTold(s: State, log: Log, i: nat)
    requires Inv(s) && LogInv(s, log) && FindsReady(s, i)
    ensures var r := s.live[s.procs[i].id];
            TellingSound(log, Telling(r, None, Latest(log, r), Answered(s, Look(i)).value))
  {
    var r := s.live[s.procs[i].id];
    assert Left(log, r, Kept(s.records[r].env));
  }

  lemma WaitIsOver(s: State, log: Log, i: nat)
    requires LoadsNamed(s) && LoadsKnown(s, log) && WaitersKnown(s, log) && Enabled(s, Wake(i))
    ensures s.procs[i].load in log.of && log.of[s.procs[i].load] == s.procs[i].rec
    ensures s.procs[i].load in log.ended
  {
    forall j | 0 <= j < |s.procs| && s.procs[j].Loading? ensures s.procs[j].load != s.procs[i].load {
      assert log.of[s.procs[j].load] == s.procs[j].rec;
    }
  }

  /** A waiter whose load is over: the record holds what the load that ended last left. */
  lemma WaiterTold(s: State, log: Log, i: nat)
    requires Inv(s) && LogInv(s, log) && Enabled(s, Wake(i)) && Answered(s, Wake(i)).Some?
    ensures var p := s.procs[i];
            TellingSound(log, Telling(p.rec, Some(p.load), Latest(log, p.rec), Answered(s, Wake(i)).value))
  {
    var p := s.procs[i];
    WaitIsOver(s, log, i);
    var rec := s.records[p.rec];
    if rec.env.Some? { assert Left(log, p.rec, Kept(rec.env)); } else { assert Left(log, p.rec, Failed); }
  }

  lemma TellingsKept(s: State, log: Log, a: Action)
    requires Inv(s) && LogInv(s, log) && Enabled(s, a)
    ensures TellingsSound(Logged(s, log, a))
  {
    var next := Logged(s, log, a);
    NewTelling(s, log, a);
    forall k | 0 <= k < |next.told| ensures TellingSound(next, next.told[k]) {
      if k < |log.told| {
        assert next.told[k] == log.told[k];
        ToldStays(s, log, a, log.told[k]);
      }
    }
  }

  lemma LogKept(s: State, log: Log, a: Action)
    requires Inv(s) && LogInv(s, log) && Enabled(s, a)
    ensures LogInv(Do(s, a), Logged(s, log, a))
  {
    TellingsKept(s, log, a);
    if a.LoadDone? {
      DoneKnown(s, log, a);
      DoneLatest(s, log, a);
      EndedNewest(s, log, a);
      EndedIsLatest(s, log, a);
      DoneAgrees(s, log, a);
      DoneKeptOnce(s, log, a);
    } else if a.LoadPanic? {
      DoneKnown(s, log, a);
      DoneLatest(s, log, a);
      EndedNewest(s, log, a);
      EndedIsLatest(s, log, a);
      PanicKeeps(s, log, a);
      PanicKeptOnce(s, log, a);
    } else if LoadBegins(s, a) {
      BegunKnown(s, log, a);
      BegunAgrees(s, log, a);
      BegunKeeps(s, log, a);
      BegunKeptOnce(s, log, a);
      BegunNewest(s, log, a);
    } else {
      CallsKnown(s, log, a);
      QuietNewest(s, log, a);
      if Mover(a).Some? { MoveIsCalm(s, a); } else { BeginIsCalm(s, a); }
      SameLoadsLogged(s, log, a);
      CalmKeeps(s, Do(s, a), log, Logged(s, log, a));
    }
  }

  lemma {:induction false} LogHolds(start: State, actions: seq<Action>)
    requires Opens(start)
    ensures LogInv(Run(start, actions), LogOf(start, actions))
  {
    if actions == [] {
      StartSound(start);
    } else {
      var init, a := actions[..|actions| - 1], actions[|actions| - 1];
      LogHolds(start, init);
      EveryInterleaving(start, init);
      if Enabled(Run(start, init), a) { LogKept(Run(start, init), LogOf(start, init), a); }
    }
  }

  /** In every interleaving, every answer that is an environment or a failed load is what one load of that
      project left. A caller whose own load, run or waited for, left an environment is told that one. */
  lemma AnswersComeFromLoads(start: State, actions: seq<Action>, k: nat)
    requires Opens(start) && k < |LogOf(start, actions).told|
    ensures TellingSound(LogOf(start, actions), LogOf(start, actions).told[k])
  {
    LogHolds(start, actions);
  }

  /** All callers ever told of an environment of one project are told of the same one, and nobody is told of
      it for another project. */
  lemma OneEnvironmentEach(start: State, actions: seq<Action>, j: nat, k: nat, d: nat, e: nat)
    requires Opens(start) && j < |LogOf(start, actions).told| && k < |LogOf(start, actions).told|
    requires LogOf(start, actions).told[j].answer == Env(Some(d)) && LogOf(start, actions).told[k].answer == Env(Some(e))
    ensures d == e <==> LogOf(start, actions).told[j].rec == LogOf(start, actions).told[k].rec
  {
    LogHolds(start, actions);
    var log := LogOf(start, actions);
    assert TellingSound(log, log.told[j]) && TellingSound(log, log.told[k]);
  }


  /** A waiter that is told anything but to give up is told what the newest load of its project that did not
      panic left; that is its own load unless a newer one has ended, or its own panicked. */
  lemma WaiterToldByNewest(start: State, actions: seq<Action>, i: nat)
    requires Opens(start)
    requires var s := Run(start, actions); Enabled(s, Wake(i)) && Answered(s, Wake(i)).Some?
    ensures var s, log := Run(start, actions), LogOf(start, actions);
            var t := Telling(s.procs[i].rec, Some(s.procs[i].load), Latest(log, s.procs[i].rec), Answered(s, Wake(i)).value);
            && TellingSound(log, t)
            && (t.from == s.procs[i].load <==>
                  && !log.ended[s.procs[i].load].Broke?
                  && forall m :: m in log.ended && m in log.of && log.of[m] == t.rec && !log.ended[m].Broke? ==>
                       m <= s.procs[i].load)
  {
    LogHolds(start, actions);
    EveryInterleaving(start, actions);
    WaiterTold(Run(start, actions), LogOf(start, actions), i);
    WaitIsOver(Run(start, actions), LogOf(start, actions), i);
  }

  // ----- A waiter is not always told what its own load left

  lemma OneStep(start: State, actions: seq<Action>, a: Action, all: seq<Action>, s: State, log: Log)
    requires all == actions + [a] && Run(start, actions) == s && LogOf(start, actions) == log && Enabled(s, a)
    ensures Run(start, all) == Do(s, a) && LogOf(start, all) == Logged(s, log, a)
  {
    assert all[..|actions|] == actions;
  }

  /** One project, and so many calls, loads and environments. */
  function OneProject(start: State, r: Record, procs: seq<Proc>, loads: nat, envs: nat): State {
    start.(records := [r], procs := procs, loads := loads, envs := envs)
  }

  ghost predicate HasOneProject(start: State) {
    Opens(start) && start.records == [Record(1, None, None, 0, false)] && start.live == map[1 := 0]
  }

  /** Two callers arrive, the first loads, and its load fails. */
  lemma FirstLoadFails(start: State, a: seq<Action>)
    requires HasOneProject(start)
    requires a == [Open(1, false), Open(1, false), Look(0), Look(1), LoadDone(0, false, true)]
    ensures Run(start, a) == OneProject(start, Record(1, None, None, 0, true), [Returned, Waiting(0, 1, 0, false)], 1, 0)
    ensures LogOf(start, a).of == map[0 := 0] && LogOf(start, a).ended == map[0 := Failed]
  {
    var idle, busy := Record(1, None, None, 0, false), Record(1, None, Some(0), 0, false);
    var asks := Opening(1, false);
    assert start == OneProject(start, idle, [], 0, 0);
    OneStep(start, [], a[0], a[..1], start, Nothing);
    OneStep(start, a[..1], a[1], a[..2], OneProject(start, idle, [asks], 0, 0), Nothing);
    OneStep(start, a[..2], a[2], a[..3], OneProject(start, idle, [asks, asks], 0, 0), Nothing);
    var log := Nothing.(of := map[0 := 0]);
    OneStep(start, a[..3], a[3], a[..4], OneProject(start, busy, [Loading(0, 0, false), asks], 1, 0), log);
    OneStep(start, a[..4], a[4], a, OneProject(start, busy, [Loading(0, 0, false), Waiting(0, 1, 0, false)], 1, 0), log);
  }

  /** Callers share one load, yet one that waited may be told of another: before it wakes, a third caller loads
      again, and then it is told of that environment although the load it waited for failed. */
  lemma LaterLoadAnswers(start: State, a: seq<Action>, b: seq<Action>)
    requires HasOneProject(start)
    requires a == [Open(1, false), Open(1, false), Look(0), Look(1), LoadDone(0, false, true)]
    requires b == a + [Open(1, false)] + [Look(2)] + [LoadDone(2, true, false)]
    ensures var s, log := Run(start, b), LogOf(start, b);
            && Enabled(s, Wake(1)) && s.procs[1].load in log.ended && log.ended[s.procs[1].load] == Failed
            && Answered(s, Wake(1)) == Some(Env(Some(0)))
  {
    var failed, busy := Record(1, None, None, 0, true), Record(1, None, Some(1), 0, true);
    var waits := Waiting(0, 1, 0, false);
    FirstLoadFails(start, a);
    var log := LogOf(start, a);
    OneStep(start, a, Open(1, false), a + [Open(1, false)], OneProject(start, failed, [Returned, waits], 1, 0), log);
    OneStep(start, a + [Open(1, false)], Look(2), a + [Open(1, false)] + [Look(2)],
            OneProject(start, failed, [Returned, waits, Opening(1, false)], 1, 0), log);
    OneStep(start, a + [Open(1, false)] + [Look(2)], LoadDone(2, true, false), b,
            OneProject(start, busy, [Returned, waits, Loading(0, 1, false)], 2, 0), log.(of := log.of[1 := 0]));
  }
}
