/** The project registry: an environment is loaded on first use, outside the lock, shared by every
    caller that arrives meanwhile, and kept until its project is removed or the registry closes. */
module Projects {
  import opened Wrappers

  /** One project's record. It outlives the project: a load or a waiter may still hold it. loading is
      the number of the load in flight, which is also the channel its waiters are parked on. */
  datatype Record = Record(id: nat, env: Option<nat>, loading: Option<nat>, refs: int, failed: bool)

  datatype Proc =
    | Opening(id: nat, retain: bool)                       // at the head of the loop of open
    | Loading(rec: nat, load: nat, retain: bool)           // building the environment, unlocked
    | Waiting(rec: nat, id: nat, load: nat, retain: bool)  // parked until that load is over
    | Using(rec: nat, env: Option<nat>)                    // retained, not released yet
    | Released
    | Returned
    | Closing(envs: set<nat>)                              // taken out under the lock, not closed yet

  /** records: every record there ever was; live: the table, id to record. envs counts the environments
      loads produced, closes how often each was closed. spoiled are those a load returned beside an
      error, to a registry that kept neither. */
  datatype State = State(
    records: seq<Record>, live: map<nat, nat>, next: nat, closed: bool, procs: seq<Proc>,
    loads: nat, envs: nat, closes: multiset<nat>, spoiled: set<nat>)

  datatype Action =
    | Add(saved: bool)
    | Remove(id: nat, saved: bool)
    | Open(id: nat, retain: bool)
    | Look(i: nat)
    | Wake(i: nat)
    | GiveUp(i: nat)
    | LoadDone(i: nat, built: bool, failed: bool)
    | LoadPanic(i: nat)
    | Release(i: nat)
    | CloseBegin
    | CloseEnv(i: nat, env: nat)

  ghost predicate Enabled(s: State, a: Action) {
    match a
    case Add(_) => true
    case Remove(_, _) => true
    case Open(_, _) => true
    case Look(i) => i < |s.procs| && s.procs[i].Opening?
    case Wake(i) =>
      i < |s.procs| && s.procs[i].Waiting? && s.procs[i].rec < |s.records|
      && s.records[s.procs[i].rec].loading != Some(s.procs[i].load)
    case GiveUp(i) => i < |s.procs| && s.procs[i].Waiting?
    case LoadDone(i, _, _) => i < |s.procs| && s.procs[i].Loading? && s.procs[i].rec < |s.records|
    case LoadPanic(i) => i < |s.procs| && s.procs[i].Loading? && s.procs[i].rec < |s.records|
    case Release(i) => i < |s.procs| && (s.procs[i].Released? || (s.procs[i].Using? && s.procs[i].rec < |s.records|))
    case CloseBegin => true
    case CloseEnv(i, env) => i < |s.procs| && s.procs[i].Closing? && env in s.procs[i].envs
  }

  ghost predicate IsLive(s: State, r: nat) {
    r < |s.records| && s.records[r].id in s.live && s.live[s.records[r].id] == r
  }

  /** The caller takes the environment of record r, and counts as a holder when it retains. */
  ghost function Taken(s: State, i: nat, r: nat, retain: bool): State
    requires i < |s.procs| && r < |s.records|
  {
    if retain then
      s.(records := s.records[r := s.records[r].(refs := s.records[r].refs + 1)],
         procs := s.procs[i := Using(r, s.records[r].env)])
    else s.(procs := s.procs[i := Returned])
  }

  ghost function LookAt(s: State, i: nat): State
    requires Enabled(s, Look(i))
  {
    var p := s.procs[i];
    if s.closed || p.id !in s.live || s.live[p.id] >= |s.records| then s.(procs := s.procs[i := Returned])
    else
      var r := s.live[p.id];
      if s.records[r].env.Some? then Taken(s, i, r, p.retain)
      else if s.records[r].loading.Some? then
        s.(procs := s.procs[i := Waiting(r, p.id, s.records[r].loading.value, p.retain)])
      else
        s.(records := s.records[r := s.records[r].(loading := Some(s.loads))], loads := s.loads + 1,
           procs := s.procs[i := Loading(r, s.loads, p.retain)])
  }

  ghost function Woken(s: State, i: nat): State
    requires Enabled(s, Wake(i))
  {
    var p := s.procs[i];
    if s.records[p.rec].env.Some? then Taken(s, i, p.rec, p.retain)
    else if s.records[p.rec].failed then s.(procs := s.procs[i := Returned])
    else s.(procs := s.procs[i := Opening(p.id, p.retain)])
  }

  ghost function Loaded(s: State, i: nat, built: bool, failed: bool): State
    requires Enabled(s, LoadDone(i, built, failed))
  {
    var p := s.procs[i];
    var was := s.records[p.rec];
    var counted := s.(envs := if built then s.envs + 1 else s.envs);
    if s.closed || !IsLive(s, p.rec) then
      counted.(records := s.records[p.rec := was.(loading := None, failed := false)],
               procs := s.procs[i := Closing(if built then {s.envs} else {})])
    else if failed then
      counted.(records := s.records[p.rec := was.(loading := None, failed := true)],
               spoiled := if built then s.spoiled + {s.envs} else s.spoiled,
               procs := s.procs[i := Returned])
    else
      var kept := counted.(records := s.records[p.rec := was.(loading := None, failed := false,
                             env := if built then Some(s.envs) else None)]);
      Taken(kept, i, p.rec, p.retain)
  }

  ghost function Emptied(s: State): seq<Record> {
    seq(|s.records|, r requires 0 <= r < |s.records| =>
      if IsLive(s, r) then s.records[r].(env := None) else s.records[r])
  }

  ghost function LiveEnvs(s: State): set<nat> {
    set r | 0 <= r < |s.records| && IsLive(s, r) && s.records[r].env.Some? :: s.records[r].env.value
  }

  function Some1(o: Option<nat>): set<nat> {
    if o.Some? then {o.value} else {}
  }

  ghost function Do(s: State, a: Action): State
    requires Enabled(s, a)
  {
    match a
    case Add(saved) =>
      // Without its save the add is undone, but its number stays used.
      if !saved then s.(next := s.next + 1)
      else s.(next := s.next + 1, live := s.live[s.next + 1 := |s.records|],
              records := s.records + [Record(s.next + 1, None, None, 0, false)])
    case Remove(id, saved) =>
      if id !in s.live || s.live[id] >= |s.records| || s.records[s.live[id]].refs > 0 || !saved then s
      else
        var r := s.live[id];
        s.(live := s.live - {id}, records := s.records[r := s.records[r].(env := None)],
           procs := s.procs + [Closing(Some1(s.records[r].env))])
    case Open(id, retain) => s.(procs := s.procs + [Opening(id, retain)])
    case Look(i) => LookAt(s, i)
    case Wake(i) => Woken(s, i)
    case GiveUp(i) => s.(procs := s.procs[i := Returned])
    case LoadDone(i, built, failed) => Loaded(s, i, built, failed)
    case LoadPanic(i) =>
      s.(records := s.records[s.procs[i].rec := s.records[s.procs[i].rec].(loading := None)],
         procs := s.procs[i := Returned])
    case Release(i) =>
      if s.procs[i].Released? then s
      else
        var r := s.procs[i].rec;
        s.(records := s.records[r := s.records[r].(refs := s.records[r].refs - 1)],
           procs := s.procs[i := Released])
    case CloseBegin =>
      s.(closed := true, records := Emptied(s), procs := s.procs + [Closing(LiveEnvs(s))])
    case CloseEnv(i, env) =>
      s.(closes := s.closes + multiset{env}, procs := s.procs[i := Closing(s.procs[i].envs - {env})])
  }

  /** What open returns to its caller. */
  datatype Answer = Env(env: Option<nat>) | LoadError | NoProject | RegistryClosed | GaveUp | Panicked

  /** What an action tells the call it moves, when it ends that call of open. */
  ghost function Answered(s: State, a: Action): Option<Answer>
    requires Enabled(s, a)
  {
    match a
    case Look(i) =>
      var id := s.procs[i].id;
      if s.closed then Some(RegistryClosed)
      else if id !in s.live then Some(NoProject)
      else if s.live[id] < |s.records| && s.records[s.live[id]].env.Some? then Some(Env(s.records[s.live[id]].env))
      else None
    case Wake(i) =>
      var r := s.records[s.procs[i].rec];
      if r.env.Some? then Some(Env(r.env)) else if r.failed then Some(LoadError) else None
    case GiveUp(_) => Some(GaveUp)
    case LoadDone(i, built, failed) =>
      if s.closed then Some(RegistryClosed)
      else if !IsLive(s, s.procs[i].rec) then Some(NoProject)
      else if failed then Some(LoadError)
      else Some(Env(if built then Some(s.envs) else None))
    case LoadPanic(_) => Some(Panicked)
    case _ => None
  }

  ghost function Run(s: State, actions: seq<Action>): State {
    if actions == [] then s
    else
      var before := Run(s, actions[..|actions| - 1]);
      var a := actions[|actions| - 1];
      if Enabled(before, a) then Do(before, a) else before
  }

  /** What a daemon starts from: the projects of the saved table, nothing loaded. */
  ghost predicate Opens(s: State) {
    && (forall r :: 0 <= r < |s.records| ==> s.records[r] == Record(s.records[r].id, None, None, 0, false))
    && (forall id :: id in s.live ==> id <= s.next && s.live[id] < |s.records| && s.records[s.live[id]].id == id)
    && s == State(s.records, s.live, s.next, false, [], 0, 0, multiset{}, {})
  }

  // ----- The invariants

  /** The table names records, each under its own id. */
  ghost predicate TableSound(s: State) {
    forall id :: id in s.live ==> id <= s.next && s.live[id] < |s.records| && s.records[s.live[id]].id == id
  }

  ghost predicate CallsSound(s: State) {
    forall i :: 0 <= i < |s.procs| && (s.procs[i].Loading? || s.procs[i].Waiting? || s.procs[i].Using?) ==>
      s.procs[i].rec < |s.records|
  }

  /** A load in flight is the one its record names, and no other call runs it. */
  ghost predicate LoadsNamed(s: State) {
    && (forall i :: 0 <= i < |s.procs| && s.procs[i].Loading? ==>
          s.procs[i].rec < |s.records| && s.records[s.procs[i].rec].loading == Some(s.procs[i].load)
          && s.procs[i].load < s.loads)
    && (forall i, j :: 0 <= i < j < |s.procs| && s.procs[i].Loading? && s.procs[j].Loading? ==>
          s.procs[i].load != s.procs[j].load)
  }

  ghost predicate InFlight(s: State, r: nat, load: nat) {
    exists i :: 0 <= i < |s.procs| && s.procs[i].Loading? && s.procs[i].rec == r && s.procs[i].load == load
  }

  /** A record that says it is loading has a call that is: nobody waits for a load that is over. */
  ghost predicate LoadsRun(s: State) {
    forall r :: 0 <= r < |s.records| && s.records[r].loading.Some? ==> InFlight(s, r, s.records[r].loading.value)
  }

  /** An environment is installed only in a record of the table, never in a closed registry, and never
      while another is being loaded. */
  ghost predicate InstalledSound(s: State) {
    forall r :: 0 <= r < |s.records| && s.records[r].env.Some? ==>
      IsLive(s, r) && !s.closed && s.records[r].loading.None?
  }

  function UseOf(p: Proc, r: nat): nat {
    if p.Using? && p.rec == r then 1 else 0
  }

  function UsersOf(procs: seq<Proc>, r: nat): nat {
    if procs == [] then 0
    else
      UsersOf(procs[..|procs| - 1], r) + UseOf(procs[|procs| - 1], r)
  }

  /** refs is the number of callers that retained and have not released. */
  ghost predicate RefsExact(s: State) {
    forall r :: 0 <= r < |s.records| ==> s.records[r].refs == UsersOf(s.procs, r)
  }

  /** A retained environment stays installed until the registry closes. */
  ghost predicate RetainedStays(s: State) {
    forall i :: 0 <= i < |s.procs| && s.procs[i].Using? && s.procs[i].env.Some? && !s.closed ==>
      s.procs[i].rec < |s.records| && s.records[s.procs[i].rec].env == s.procs[i].env
  }

  /** Where an environment is that has not been closed: installed, or in the hands of a call. */
  datatype Place = AtRecord(r: nat) | AtCall(i: nat)

  ghost predicate Keeps(s: State, p: Place, t: nat) {
    match p
    case AtRecord(r) => r < |s.records| && s.records[r].env == Some(t)
    case AtCall(i) => i < |s.procs| && s.procs[i].Closing? && t in s.procs[i].envs
  }

  ghost predicate Kept(s: State, t: nat) {
    exists p :: Keeps(s, p, t)
  }

  ghost predicate OneKeeper(s: State) {
    forall p, q, t: nat :: Keeps(s, p, t) && Keeps(s, q, t) ==> p == q
  }

  ghost predicate KeptOpen(s: State) {
    forall p, t: nat :: Keeps(s, p, t) ==> t < s.envs && s.closes[t] == 0 && t !in s.spoiled
  }

  ghost predicate ClosedOnce(s: State) {
    && (forall t: nat :: s.closes[t] <= 1 && (s.closes[t] > 0 ==> t < s.envs && t !in s.spoiled))
    && (forall t :: t in s.spoiled ==> t < s.envs)
  }

  ghost predicate NoneLost(s: State) {
    forall t: nat :: t < s.envs && s.closes[t] == 0 && t !in s.spoiled ==> Kept(s, t)
  }

  ghost predicate EnvsOwned(s: State) {
    OneKeeper(s) && KeptOpen(s) && ClosedOnce(s) && NoneLost(s)
  }

  ghost predicate Inv(s: State) {
    && TableSound(s) && CallsSound(s) && LoadsNamed(s) && LoadsRun(s) && InstalledSound(s)
    && RefsExact(s) && RetainedStays(s) && EnvsOwned(s)
  }

  // ----- Counting the holders

  lemma {:induction false} UsersUpdate(procs: seq<Proc>, i: nat, p: Proc, r: nat)
    requires i < |procs|
    ensures UsersOf(procs[i := p], r) == UsersOf(procs, r)
            - UseOf(procs[i], r) + UseOf(p, r)
    decreases |procs|
  {
    var after := procs[i := p];
    if i < |procs| - 1 {
      assert after[..|procs| - 1] == procs[..|procs| - 1][i := p];
      UsersUpdate(procs[..|procs| - 1], i, p, r);
    } else {
      assert after[..|procs| - 1] == procs[..|procs| - 1];
    }
  }

  lemma UsersAppend(procs: seq<Proc>, p: Proc, r: nat)
    ensures UsersOf(procs + [p], r) == UsersOf(procs, r) + UseOf(p, r)
  {
    assert (procs + [p])[..|procs|] == procs;
  }

  lemma {:induction false} UsersPositive(procs: seq<Proc>, i: nat)
    requires i < |procs| && procs[i].Using?
    ensures UsersOf(procs, procs[i].rec) > 0
    decreases |procs|
  {
    if i < |procs| - 1 { UsersPositive(procs[..|procs| - 1], i); }
  }

  lemma {:induction false} UsersNone(procs: seq<Proc>, r: nat)
    requires forall i :: 0 <= i < |procs| && procs[i].Using? ==> procs[i].rec != r
    ensures UsersOf(procs, r) == 0
    decreases |procs|
  {
    if procs != [] { UsersNone(procs[..|procs| - 1], r); }
  }

  // ----- The call and the record an action touches

  /** The call an action moves on; none for the actions that begin one. */
  function Mover(a: Action): Option<nat> {
    match a
    case Look(i) => Some(i)
    case Wake(i) => Some(i)
    case GiveUp(i) => Some(i)
    case LoadDone(i, _, _) => Some(i)
    case LoadPanic(i) => Some(i)
    case Release(i) => Some(i)
    case CloseEnv(i, _) => Some(i)
    case _ => None
  }

  /** The record an action writes, when it writes one. */
  ghost function Touched(s: State, a: Action): Option<nat>
    requires Enabled(s, a)
  {
    match a
    case Look(i) => if s.procs[i].id in s.live then Some(s.live[s.procs[i].id]) else None
    case Wake(i) => Some(s.procs[i].rec)
    case LoadDone(i, _, _) => Some(s.procs[i].rec)
    case LoadPanic(i) => Some(s.procs[i].rec)
    case Release(i) => if s.procs[i].Using? then Some(s.procs[i].rec) else None
    case Remove(id, _) => if id in s.live then Some(s.live[id]) else None
    case _ => None
  }

  lemma MovesOne(s: State, a: Action)
    requires Enabled(s, a) && Mover(a).Some?
    ensures Mover(a).value < |s.procs| && |Do(s, a).procs| == |s.procs|
    ensures Do(s, a).procs == s.procs[Mover(a).value := Do(s, a).procs[Mover(a).value]]
  {
  }

  lemma MoveKeepsTable(s: State, a: Action)
    requires Enabled(s, a) && Mover(a).Some?
    ensures Do(s, a).live == s.live && Do(s, a).next == s.next && Do(s, a).closed == s.closed
    ensures |Do(s, a).records| == |s.records|
  {
  }

  lemma TouchesOne(s: State, a: Action, r: nat)
    requires Enabled(s, a) && Mover(a).Some? && r < |s.records| && |Do(s, a).records| == |s.records|
    ensures Touched(s, a) != Some(r) ==> Do(s, a).records[r] == s.records[r]
    ensures Do(s, a).records[r].id == s.records[r].id
  {
  }

  /** Everything but the moved call stays; nothing but the touched record changes. */
  lemma Moves(s: State, a: Action)
    requires TableSound(s) && Enabled(s, a) && Mover(a).Some?
    ensures Mover(a).value < |s.procs| && |Do(s, a).procs| == |s.procs|
    ensures Do(s, a).procs == s.procs[Mover(a).value := Do(s, a).procs[Mover(a).value]]
    ensures Do(s, a).live == s.live && Do(s, a).next == s.next && Do(s, a).closed == s.closed
    ensures |Do(s, a).records| == |s.records|
    ensures forall r :: 0 <= r < |s.records| && Touched(s, a) != Some(r) ==> Do(s, a).records[r] == s.records[r]
    ensures forall r :: 0 <= r < |s.records| ==> Do(s, a).records[r].id == s.records[r].id
  {
    MovesOne(s, a);
    MoveKeepsTable(s, a);
    forall r | 0 <= r < |s.records|
      ensures (Touched(s, a) != Some(r) ==> Do(s, a).records[r] == s.records[r])
              && Do(s, a).records[r].id == s.records[r].id
    {
      TouchesOne(s, a, r);
    }
  }

  /** An action that begins a call adds at most one, at the end. */
  lemma Begins(s: State, a: Action)
    requires TableSound(s) && Enabled(s, a) && Mover(a).None?
    ensures Do(s, a).procs == s.procs
            || (|Do(s, a).procs| == |s.procs| + 1 && Do(s, a).procs == s.procs + [Do(s, a).procs[|s.procs|]]
                && (Do(s, a).procs[|s.procs|].Opening? || Do(s, a).procs[|s.procs|].Closing?))
    ensures Do(s, a).loads == s.loads && Do(s, a).envs == s.envs
    ensures Do(s, a).closes == s.closes && Do(s, a).spoiled == s.spoiled
    ensures |s.records| <= |Do(s, a).records|
    ensures forall r :: 0 <= r < |s.records| ==>
              Do(s, a).records[r] == s.records[r] || Do(s, a).records[r] == s.records[r].(env := None)
    ensures forall r :: |s.records| <= r < |Do(s, a).records| ==>
              Do(s, a).records[r] == Record(Do(s, a).records[r].id, None, None, 0, false)
  {
  }

  lemma TableKept(s: State, a: Action)
    requires TableSound(s) && Enabled(s, a)
    ensures TableSound(Do(s, a))
  {
    if Mover(a).Some? { Moves(s, a); } else { Begins(s, a); }
  }

  lemma CallsKept(s: State, a: Action)
    requires TableSound(s) && CallsSound(s) && Enabled(s, a)
    ensures CallsSound(Do(s, a))
  {
    if Mover(a).Some? { Moves(s, a); } else { Begins(s, a); }
  }

  lemma RefsKept(s: State, a: Action)
    requires TableSound(s) && CallsSound(s) && RefsExact(s) && Enabled(s, a)
    ensures RefsExact(Do(s, a))
  {
    var after := Do(s, a);
    forall r | 0 <= r < |after.records| ensures after.records[r].refs == UsersOf(after.procs, r) {
      if Mover(a).Some? {
        Moves(s, a);
        RefsChange(s, a, r);
        UsersUpdate(s.procs, Mover(a).value, after.procs[Mover(a).value], r);
      } else {
        Begins(s, a);
        if |after.procs| > |s.procs| { UsersAppend(s.procs, after.procs[|s.procs|], r); }
        if r >= |s.records| { UsersNone(s.procs, r); }
      }
    }
  }

  /** A record's count changes by what the moved call's use of it does. */
  lemma RefsChange(s: State, a: Action, r: nat)
    requires TableSound(s) && Enabled(s, a) && Mover(a).Some? && r < |s.records|
    ensures var p, q := s.procs[Mover(a).value], Do(s, a).procs[Mover(a).value];
            && r < |Do(s, a).records|
            && (UseOf(p, r) <= s.records[r].refs ==>
                  Do(s, a).records[r].refs == s.records[r].refs - UseOf(p, r) + UseOf(q, r))
  {
  }

  // ----- Loads

  lemma LoadsKept(s: State, a: Action)
    requires TableSound(s) && CallsSound(s) && LoadsNamed(s) && Enabled(s, a)
    ensures LoadsNamed(Do(s, a))
  {
    var after := Do(s, a);
    if Mover(a).Some? {
      Moves(s, a);
      MoverLoads(s, a);
      var i := Mover(a).value;
      forall j | 0 <= j < |s.procs| && j != i && s.procs[j].Loading?
        ensures after.records[s.procs[j].rec].loading == Some(s.procs[j].load)
      {
        OtherLoadStays(s, a, j);
      }
    } else {
      Begins(s, a);
    }
  }

  /** A call that is loading after the action was loading before, or runs a new load. */
  lemma MoverLoads(s: State, a: Action)
    requires TableSound(s) && Enabled(s, a) && Mover(a).Some?
    ensures var p := Do(s, a).procs[Mover(a).value];
            p.Loading? ==> (p.load == s.loads && Do(s, a).loads == s.loads + 1 && p.rec < |s.records|
                            && Do(s, a).records[p.rec].loading == Some(p.load))
    ensures s.loads <= Do(s, a).loads
  {
  }

  lemma OtherLoadStays(s: State, a: Action, j: nat)
    requires TableSound(s) && LoadsNamed(s) && Enabled(s, a) && Mover(a).Some?
    requires j < |s.procs| && Mover(a) != Some(j) && s.procs[j].Loading?
    ensures Do(s, a).records[s.procs[j].rec].loading == Some(s.procs[j].load)
  {
  }

  /** A record's load changes only when a load of it starts, or the call that runs it moves. */
  lemma LoadingChange(s: State, a: Action, r: nat)
    requires TableSound(s) && LoadsNamed(s) && Enabled(s, a) && Mover(a).Some? && r < |s.records|
    ensures var i := Mover(a).value;
            var now := Do(s, a).records[r].loading;
            || (now == s.records[r].loading && !(s.procs[i].Loading? && s.procs[i].rec == r))
            || now.None?
            || (Do(s, a).procs[i].Loading? && Do(s, a).procs[i].rec == r && now == Some(Do(s, a).procs[i].load))
  {
  }

  lemma LoadsRunKept(s: State, a: Action)
    requires TableSound(s) && LoadsNamed(s) && LoadsRun(s) && Enabled(s, a)
    ensures LoadsRun(Do(s, a))
  {
    var after := Do(s, a);
    forall r | 0 <= r < |after.records| && after.records[r].loading.Some?
      ensures InFlight(after, r, after.records[r].loading.value)
    {
      var load := after.records[r].loading.value;
      if Mover(a).Some? {
        Moves(s, a);
        LoadingChange(s, a, r);
        var i := Mover(a).value;
        if after.procs[i].Loading? && after.procs[i].rec == r && after.procs[i].load == load {
        } else {
          assert InFlight(s, r, load);
          var j :| 0 <= j < |s.procs| && s.procs[j].Loading? && s.procs[j].rec == r && s.procs[j].load == load;
          assert after.procs[j] == s.procs[j];
        }
      } else {
        Begins(s, a);
        assert InFlight(s, r, load);
        var j :| 0 <= j < |s.procs| && s.procs[j].Loading? && s.procs[j].rec == r && s.procs[j].load == load;
        assert after.procs[j] == s.procs[j];
      }
    }
  }

  // ----- Installed environments

  /** An environment that is installed after the action was installed before it, or was built by a load
      that ended in a live project of an open registry. */
  lemma InstalledChange(s: State, a: Action, r: nat)
    requires TableSound(s) && Enabled(s, a) && r < |Do(s, a).records| && Do(s, a).records[r].env.Some?
    ensures r < |s.records|
    ensures || (s.records[r].env == Do(s, a).records[r].env
                && (Do(s, a).records[r].loading == s.records[r].loading || Do(s, a).records[r].loading.None?))
            || (a.LoadDone? && r == s.procs[a.i].rec && IsLive(s, r) && !s.closed
                && Do(s, a).records[r].loading.None? && Do(s, a).records[r].env == Some(s.envs)
                && Do(s, a).envs == s.envs + 1)
  {
  }

  lemma LiveChange(s: State, a: Action, r: nat)
    requires TableSound(s) && Enabled(s, a) && IsLive(s, r)
    ensures IsLive(Do(s, a), r) || (a.Remove? && Do(s, a).records[r].env.None?)
  {
  }

  lemma ClosedChange(s: State, a: Action)
    requires TableSound(s) && InstalledSound(s) && Enabled(s, a) && Do(s, a).closed
    ensures s.closed || forall r :: 0 <= r < |Do(s, a).records| ==> Do(s, a).records[r].env.None?
  {
  }

  lemma InstalledKept(s: State, a: Action)
    requires TableSound(s) && InstalledSound(s) && Enabled(s, a)
    ensures InstalledSound(Do(s, a))
  {
    var after := Do(s, a);
    forall r | 0 <= r < |after.records| && after.records[r].env.Some?
      ensures IsLive(after, r) && !after.closed && after.records[r].loading.None?
    {
      InstalledChange(s, a, r);
      LiveChange(s, a, r);
      if after.closed { ClosedChange(s, a); }
    }
  }

  /** Only Remove, of a project nobody retains, and Close take an environment out of its record. */
  lemma TakenOut(s: State, a: Action, r: nat)
    requires TableSound(s) && LoadsNamed(s) && InstalledSound(s) && Enabled(s, a)
    requires r < |s.records| && s.records[r].env.Some? && Do(s, a).records[r].env != s.records[r].env
    ensures a.CloseBegin? || (a.Remove? && s.records[r].refs <= 0)
  {
  }

  lemma RetainedKept(s: State, a: Action)
    requires TableSound(s) && CallsSound(s) && LoadsNamed(s) && InstalledSound(s) && RefsExact(s)
    requires RetainedStays(s) && Enabled(s, a)
    ensures RetainedStays(Do(s, a))
  {
    var after := Do(s, a);
    forall i | 0 <= i < |after.procs| && after.procs[i].Using? && after.procs[i].env.Some? && !after.closed
      ensures after.procs[i].rec < |after.records| && after.records[after.procs[i].rec].env == after.procs[i].env
    {
      if i < |s.procs| && after.procs[i] == s.procs[i] {
        UsersPositive(s.procs, i);
        if after.records[s.procs[i].rec].env != s.procs[i].env { TakenOut(s, a, s.procs[i].rec); }
      } else {
        NewUser(s, a, i);
      }
    }
  }

  lemma NewUser(s: State, a: Action, i: nat)
    requires TableSound(s) && CallsSound(s) && Enabled(s, a)
    requires i < |Do(s, a).procs| && Do(s, a).procs[i].Using? && (i < |s.procs| ==> Do(s, a).procs[i] != s.procs[i])
    ensures Do(s, a).procs[i].rec < |Do(s, a).records|
    ensures Do(s, a).records[Do(s, a).procs[i].rec].env == Do(s, a).procs[i].env
  {
  }

  // ----- Every environment has one keeper, or was closed

  /** Where an action leaves an environment it finds at p and does not close. */
  ghost function NextPlace(s: State, a: Action, p: Place): Place
    requires Enabled(s, a)
  {
    match a
    case Remove(id, saved) =>
      if p.AtRecord? && id in s.live && p.r == s.live[id] && p.r < |s.records| && s.records[p.r].refs <= 0 && saved
      then AtCall(|s.procs|) else p
    case CloseBegin => if p.AtRecord? then AtCall(|s.procs|) else p
    case _ => p
  }

  lemma ForwardBegin(s: State, a: Action, p: Place, t: nat)
    requires TableSound(s) && InstalledSound(s) && Enabled(s, a) && Mover(a).None? && Keeps(s, p, t)
    ensures Keeps(Do(s, a), NextPlace(s, a, p), t)
  {
  }

  lemma ForwardMove(s: State, a: Action, p: Place, t: nat)
    requires TableSound(s) && LoadsNamed(s) && InstalledSound(s) && Enabled(s, a) && Mover(a).Some? && Keeps(s, p, t)
    ensures Keeps(Do(s, a), p, t) || Do(s, a).closes[t] > 0
  {
    Moves(s, a);
    if p.AtRecord? && Do(s, a).records[p.r].env != s.records[p.r].env { TakenOut(s, a, p.r); }
  }

  lemma Forward(s: State, a: Action, p: Place, t: nat)
    requires TableSound(s) && LoadsNamed(s) && InstalledSound(s) && Enabled(s, a) && Keeps(s, p, t)
    ensures Keeps(Do(s, a), NextPlace(s, a, p), t) || Do(s, a).closes[t] > 0
  {
    if Mover(a).None? { ForwardBegin(s, a, p, t); } else { ForwardMove(s, a, p, t); }
  }

  /** Only a call that keeps an environment closes it. */
  lemma ClosesWhatItKeeps(s: State, a: Action, t: nat)
    requires Enabled(s, a)
    ensures || Do(s, a).closes[t] == s.closes[t]
            || (Do(s, a).closes[t] == s.closes[t] + 1 && a.CloseEnv? && Keeps(s, AtCall(a.i), t))
    ensures s.envs <= Do(s, a).envs <= s.envs + 1
  {
  }

  lemma SpoiledChange(s: State, a: Action)
    requires Enabled(s, a)
    ensures Do(s, a).spoiled == s.spoiled
            || (Do(s, a).spoiled == s.spoiled + {s.envs} && Do(s, a).envs == s.envs + 1)
  {
  }

  /** Where what a call takes out on the spot was before. */
  lemma TakenFrom(s: State, a: Action, t: nat) returns (p: Place)
    requires TableSound(s) && InstalledSound(s) && Enabled(s, a) && Mover(a).None?
    requires Keeps(Do(s, a), AtCall(|s.procs|), t)
    ensures Keeps(s, p, t) && NextPlace(s, a, p) == AtCall(|s.procs|)
  {
    if a.CloseBegin? {
      var r :| 0 <= r < |s.records| && IsLive(s, r) && s.records[r].env == Some(t);
      p := AtRecord(r);
    } else {
      p := AtRecord(s.live[a.id]);
    }
  }

  lemma BackwardBegin(s: State, a: Action, q: Place, t: nat) returns (p: Place)
    requires TableSound(s) && InstalledSound(s) && Enabled(s, a) && Mover(a).None? && Keeps(Do(s, a), q, t)
    ensures Keeps(s, p, t) && NextPlace(s, a, p) == q && Do(s, a).closes == s.closes
  {
    if q == AtCall(|s.procs|) {
      p := TakenFrom(s, a, t);
    } else {
      p := q;
      if q.AtRecord? { InstalledChange(s, a, q.r); }
    }
  }

  ghost predicate NewlyBuilt(s: State, a: Action, q: Place, t: nat)
    requires Enabled(s, a)
  {
    && t == s.envs && Do(s, a).envs == s.envs + 1 && Do(s, a).closes == s.closes && a.LoadDone?
    && Do(s, a).spoiled == s.spoiled
    && q == if !s.closed && IsLive(s, s.procs[a.i].rec) then AtRecord(s.procs[a.i].rec) else AtCall(a.i)
  }

  lemma BackwardMove(s: State, a: Action, q: Place, t: nat)
    requires TableSound(s) && OneKeeper(s) && Enabled(s, a) && Mover(a).Some? && Keeps(Do(s, a), q, t)
    ensures (Keeps(s, q, t) && Do(s, a).closes[t] == s.closes[t]) || NewlyBuilt(s, a, q, t)
  {
    ClosesWhatItKeeps(s, a, t);
    if q.AtRecord? { InstalledChange(s, a, q.r); }
    if a.CloseEnv? && Keeps(s, q, t) && Keeps(s, AtCall(a.i), t) {
      assert q == AtCall(a.i);
    }
  }

  lemma Backward(s: State, a: Action, q: Place, t: nat) returns (p: Place)
    requires TableSound(s) && InstalledSound(s) && OneKeeper(s) && Enabled(s, a) && Keeps(Do(s, a), q, t)
    ensures || (Keeps(s, p, t) && NextPlace(s, a, p) == q && Do(s, a).closes[t] == s.closes[t])
            || NewlyBuilt(s, a, q, t)
  {
    if Mover(a).None? {
      p := BackwardBegin(s, a, q, t);
    } else {
      p := q;
      BackwardMove(s, a, q, t);
    }
  }

  lemma KeeperKept(s: State, a: Action)
    requires TableSound(s) && InstalledSound(s) && EnvsOwned(s) && Enabled(s, a)
    ensures OneKeeper(Do(s, a)) && KeptOpen(Do(s, a))
  {
    var after := Do(s, a);
    SpoiledChange(s, a);
    forall q, t: nat | Keeps(after, q, t) ensures t < after.envs && after.closes[t] == 0 && t !in after.spoiled {
      var p := Backward(s, a, q, t);
      ClosesWhatItKeeps(s, a, t);
    }
    forall q1, q2, t: nat | Keeps(after, q1, t) && Keeps(after, q2, t) ensures q1 == q2 {
      var p1 := Backward(s, a, q1, t);
      var p2 := Backward(s, a, q2, t);
    }
  }

  lemma ClosesKept(s: State, a: Action)
    requires EnvsOwned(s) && Enabled(s, a)
    ensures ClosedOnce(Do(s, a))
  {
    var after := Do(s, a);
    SpoiledChange(s, a);
    forall t: nat ensures after.closes[t] <= 1 && (after.closes[t] > 0 ==> t < after.envs && t !in after.spoiled) {
      ClosesWhatItKeeps(s, a, t);
    }
  }

  lemma NewIsKept(s: State, a: Action)
    requires TableSound(s) && Enabled(s, a) && Do(s, a).envs > s.envs
    ensures Kept(Do(s, a), s.envs) || s.envs in Do(s, a).spoiled
  {
    var after := Do(s, a);
    assert a.LoadDone?;
    if s.closed || !IsLive(s, s.procs[a.i].rec) {
      assert Keeps(after, AtCall(a.i), s.envs);
    } else if !a.failed {
      assert Keeps(after, AtRecord(s.procs[a.i].rec), s.envs);
    }
  }

  lemma NoneLostKept(s: State, a: Action)
    requires TableSound(s) && LoadsNamed(s) && InstalledSound(s) && EnvsOwned(s) && Enabled(s, a)
    ensures NoneLost(Do(s, a))
  {
    var after := Do(s, a);
    SpoiledChange(s, a);
    forall t: nat | t < after.envs && after.closes[t] == 0 && t !in after.spoiled ensures Kept(after, t) {
      ClosesWhatItKeeps(s, a, t);
      if t < s.envs {
        assert Kept(s, t);
        var p :| Keeps(s, p, t);
        Forward(s, a, p, t);
      } else {
        NewIsKept(s, a);
      }
    }
  }

  lemma ActionKept(s: State, a: Action)
    requires Inv(s) && Enabled(s, a)
    ensures Inv(Do(s, a))
  {
    TableKept(s, a);
    CallsKept(s, a);
    RefsKept(s, a);
    LoadsKept(s, a);
    LoadsRunKept(s, a);
    InstalledKept(s, a);
    RetainedKept(s, a);
    KeeperKept(s, a);
    ClosesKept(s, a);
    NoneLostKept(s, a);
  }

  // ----- Every interleaving

  lemma {:induction false} EveryInterleaving(start: State, actions: seq<Action>)
    requires Opens(start)
    ensures Inv(Run(start, actions))
  {
    if actions == [] {
      assert forall r :: 0 <= r < |start.records| ==> UsersOf(start.procs, r) == 0;
    } else {
      var before := Run(start, actions[..|actions| - 1]);
      EveryInterleaving(start, actions[..|actions| - 1]);
      if Enabled(before, actions[|actions| - 1]) { ActionKept(before, actions[|actions| - 1]); }
    }
  }

  /** Single flight: two calls that load the same record are one and the same. */
  lemma OneLoadInFlight(start: State, actions: seq<Action>, i: nat, j: nat)
    requires Opens(start)
    requires var s := Run(start, actions);
             && i < |s.procs| && j < |s.procs| && s.procs[i].Loading? && s.procs[j].Loading?
             && s.procs[i].rec == s.procs[j].rec
    ensures i == j
  {
    EveryInterleaving(start, actions);
  }

  /** A load that hands back an environment and an error. The contract of LoadEnv is that none does. */
  ghost predicate BreaksContract(a: Action) {
    a.LoadDone? && a.built && a.failed
  }

  ghost predicate LoaderKeepsContract(actions: seq<Action>) {
    forall a :: a in actions ==> !BreaksContract(a)
  }

  /** Whether an action loses an environment: a load breaks the contract and its project is still there, in
      an open registry. */
  ghost predicate Loses(s: State, a: Action) {
    Enabled(s, a) && BreaksContract(a) && !s.closed && IsLive(s, s.procs[a.i].rec)
  }

  lemma SpoiledExactly(s: State, a: Action)
    requires ClosedOnce(s) && Enabled(s, a)
    ensures Do(s, a).spoiled == if Loses(s, a) then s.spoiled + {s.envs} else s.spoiled
    ensures Loses(s, a) ==> s.envs !in s.spoiled && Do(s, a).envs == s.envs + 1
  {
  }

  /** The step of a run that loses an environment. */
  ghost predicate LosesAt(start: State, actions: seq<Action>, k: nat) {
    k < |actions| && Loses(Run(start, actions[..k]), actions[k])
  }

  ghost predicate LosesSomewhere(start: State, actions: seq<Action>) {
    exists k :: LosesAt(start, actions, k)
  }

  lemma LosesLater(start: State, actions: seq<Action>, a: Action)
    ensures LosesSomewhere(start, actions + [a])
            <==> LosesSomewhere(start, actions) || Loses(Run(start, actions), a)
  {
    var n, longer := |actions|, actions + [a];
    assert longer[..n] == actions;
    forall k | 0 <= k < n ensures LosesAt(start, longer, k) == LosesAt(start, actions, k) {
      assert longer[..k] == actions[..k];
    }
    if LosesSomewhere(start, longer) {
      var k :| LosesAt(start, longer, k);
      assert k == n || LosesAt(start, actions, k);
    } else {
      assert !LosesAt(start, longer, n);
      assert forall k :: 0 <= k < n ==> !LosesAt(start, longer, k);
    }
  }

  lemma {:induction false} SpoiledByALoss(start: State, actions: seq<Action>)
    requires Opens(start)
    ensures Run(start, actions).spoiled != {} <==> LosesSomewhere(start, actions)
  {
    if actions != [] {
      var init, a := actions[..|actions| - 1], actions[|actions| - 1];
      SpoiledByALoss(start, init);
      assert actions == init + [a];
      LosesLater(start, init, a);
      EveryInterleaving(start, init);
      if Enabled(Run(start, init), a) { SpoiledExactly(Run(start, init), a); }
    }
  }

  /** Each environment was closed, exactly once, or is kept, in exactly one place; never both. */
  ghost predicate AllAccountedFor(s: State) {
    && (forall t: nat :: s.closes[t] <= 1)
    && (forall t: nat :: t < s.envs ==> (s.closes[t] == 1 <==> !Kept(s, t)))
    && (forall p, q, t: nat :: Keeps(s, p, t) && Keeps(s, q, t) ==> p == q)
  }

  lemma AccountedIff(s: State)
    requires EnvsOwned(s)
    ensures AllAccountedFor(s) <==> s.spoiled == {}
  {
    if s.spoiled != {} {
      var t :| t in s.spoiled;
      forall p ensures !Keeps(s, p, t) {
      }
    } else {
      forall t: nat | t < s.envs ensures s.closes[t] == 1 <==> !Kept(s, t) {
        if Kept(s, t) {
          var p :| Keeps(s, p, t);
        }
      }
    }
  }

  /** With a loader that keeps its contract, every environment a load produced was closed exactly once or
      is kept in exactly one place, in every interleaving. */
  lemma EnvironmentsConserved(start: State, actions: seq<Action>)
    requires Opens(start) && LoaderKeepsContract(actions)
    ensures AllAccountedFor(Run(start, actions))
  {
    ConservedUnlessLost(start, actions);
  }

  /** For any loader: environments are conserved if and only if no load gave back an environment with an
      error while its project was there and the registry open. */
  lemma ConservedUnlessLost(start: State, actions: seq<Action>)
    requires Opens(start)
    ensures AllAccountedFor(Run(start, actions)) <==> !LosesSomewhere(start, actions)
  {
    EveryInterleaving(start, actions);
    AccountedIff(Run(start, actions));
    SpoiledByALoss(start, actions);
  }

  /** The first project of a registry is added, and its first caller starts to load it. */
  lemma FirstLoad(s: State)
    requires s.records == [] && s.live == map[] && s.procs == [] && s.loads == 0 && !s.closed
    ensures var asked := Do(Do(s, Add(true)), Open(s.next + 1, false));
            && Enabled(asked, Look(0))
            && var t := Do(asked, Look(0));
               && t.procs == [Loading(0, 0, false)] && !t.closed
               && t.records == [Record(s.next + 1, None, Some(0), 0, false)] && t.live == map[s.next + 1 := 0]
  {
    var added := Do(s, Add(true));
    assert added.live == map[s.next + 1 := 0] && added.records == [Record(s.next + 1, None, None, 0, false)];
    var asked := Do(added, Open(s.next + 1, false));
    assert asked.procs == [Opening(s.next + 1, false)];
  }

  lemma RunThree(start: State, a: Action, b: Action, c: Action)
    requires Enabled(start, a) && Enabled(Do(start, a), b) && Enabled(Do(Do(start, a), b), c)
    ensures Run(start, [a, b, c]) == Do(Do(Do(start, a), b), c)
  {
    assert Run(start, []) == start && [] + [a] == [a] && [a] + [b] == [a, b] && [a, b] + [c] == [a, b, c];
    RunStep(start, [], a);
    RunStep(start, [a], b);
    RunStep(start, [a, b], c);
  }

  lemma LoadUnderWay(start: State)
    requires Opens(start) && start.records == [] && start.live == map[]
    ensures var s := Run(start, [Add(true), Open(start.next + 1, false), Look(0)]);
            && s.procs == [Loading(0, 0, false)] && !s.closed
            && s.records == [Record(start.next + 1, None, Some(0), 0, false)] && s.live == map[start.next + 1 := 0]
  {
    FirstLoad(start);
    RunThree(start, Add(true), Open(start.next + 1, false), Look(0));
  }

  /** Then a load that breaks the contract loses its environment. */
  lemma BrokenContractLoses(start: State)
    requires Opens(start) && start.records == [] && start.live == map[]
    ensures var actions := [Add(true), Open(start.next + 1, false), Look(0), LoadDone(0, true, true)];
            LosesAt(start, actions, 3) && !AllAccountedFor(Run(start, actions))
  {
    var actions := [Add(true), Open(start.next + 1, false), Look(0), LoadDone(0, true, true)];
    LoadUnderWay(start);
    assert actions[..3] == [Add(true), Open(start.next + 1, false), Look(0)];
    assert LosesAt(start, actions, 3);
    ConservedUnlessLost(start, actions);
  }

  lemma RunStep(start: State, actions: seq<Action>, a: Action)
    requires Enabled(Run(start, actions), a)
    ensures Run(start, actions + [a]) == Do(Run(start, actions), a)
  {
    assert (actions + [a])[..|actions|] == actions;
  }

  /** A project enters the table under a new number with a saved add, and leaves it only with a saved Remove
      while nobody retains it. */
  lemma TableStep(s: State, a: Action, id: nat)
    requires TableSound(s) && Enabled(s, a)
    ensures var after := Do(s, a);
            && (id in s.live && id !in after.live ==> a == Remove(id, true) && s.records[s.live[id]].refs <= 0)
            && (id !in s.live && id in after.live ==> a == Add(true) && id == s.next + 1 == after.next)
            && (id in s.live && id in after.live ==> after.live[id] == s.live[id])
            && (a == Add(true) ==>
                  s.next + 1 in after.live && after.records[after.live[s.next + 1]] == Record(s.next + 1, None, None, 0, false))
            && (a == Remove(id, true) && id in s.live && s.records[s.live[id]].refs <= 0 ==> id !in after.live)
  {
  }

  /** In every interleaving only a saved Remove takes a project out. */
  lemma {:induction false} OnlyRemoveTakesOut(start: State, actions: seq<Action>, id: nat)
    requires Opens(start) && id in start.live && id !in Run(start, actions).live
    ensures Remove(id, true) in actions
  {
    if actions != [] {
      var before, a := Run(start, actions[..|actions| - 1]), actions[|actions| - 1];
      EveryInterleaving(start, actions[..|actions| - 1]);
      if id in before.live {
        TableStep(before, a, id);
        assert a in actions;
      } else {
        OnlyRemoveTakesOut(start, actions[..|actions| - 1], id);
      }
    }
  }

  /** While somebody retains an environment and the registry is open, it is installed, it has not been
      closed, and Remove of its project does nothing. */
  lemma RetainedIsSafe(start: State, actions: seq<Action>, i: nat, saved: bool)
    requires Opens(start)
    requires var s := Run(start, actions);
             i < |s.procs| && s.procs[i].Using? && s.procs[i].env.Some? && !s.closed
    ensures var s := Run(start, actions);
            var r := s.procs[i].rec;
            && IsLive(s, r) && s.records[r].env == s.procs[i].env && s.records[r].refs > 0
            && s.closes[s.procs[i].env.value] == 0
            && Do(s, Remove(s.records[r].id, saved)) == s
  {
    var s := Run(start, actions);
    EveryInterleaving(start, actions);
    UsersPositive(s.procs, i);
    assert Keeps(s, AtRecord(s.procs[i].rec), s.procs[i].env.value);
  }

  /** A load that ends after its project was removed or the registry closed installs nothing: the call
      is left with what it built, to close it. */
  lemma LateLoadIsClosed(start: State, actions: seq<Action>, i: nat, built: bool, failed: bool)
    requires Opens(start)
    requires var s := Run(start, actions);
             Enabled(s, LoadDone(i, built, failed)) && (s.closed || !IsLive(s, s.procs[i].rec))
    ensures var s := Run(start, actions);
            var after := Do(s, LoadDone(i, built, failed));
            && after.records[s.procs[i].rec].env.None?
            && (built ==> Keeps(after, AtCall(i), s.envs))
            && forall r :: 0 <= r < |after.records| && after.records[r].env.Some? ==> IsLive(after, r) && !after.closed
  {
    var s := Run(start, actions);
    EveryInterleaving(start, actions);
    ActionKept(s, LoadDone(i, built, failed));
  }

  /** A waiter can always go on, or the load it waits for is still running: whatever becomes of a load,
      a panic too, its waiters are let go. */
  lemma NobodyWaitsForNothing(start: State, actions: seq<Action>, i: nat)
    requires Opens(start)
    requires var s := Run(start, actions); i < |s.procs| && s.procs[i].Waiting?
    ensures var s := Run(start, actions);
            Enabled(s, Wake(i)) || InFlight(s, s.procs[i].rec, s.procs[i].load)
  {
    EveryInterleaving(start, actions);
  }

  /** Once the registry is closed and nothing is left to close, every environment of a loader that keeps its
      contract was closed exactly once. */
  lemma ClosedMeansAllClosed(start: State, actions: seq<Action>, t: nat)
    requires Opens(start) && LoaderKeepsContract(actions)
    requires var s := Run(start, actions);
             && s.closed && t < s.envs
             && forall i :: 0 <= i < |s.procs| && s.procs[i].Closing? ==> s.procs[i].envs == {}
    ensures Run(start, actions).closes[t] == 1
  {
    EveryInterleaving(start, actions);
    SpoiledByALoss(start, actions);
  }

  // ----- The registry's own objects

  /** A project as the registry and the calls in progress share it. */
  class Project {
    const id: nat
    ghost const at: nat
    var env: Option<nat>
    var loading: Option<nat>
    var refs: int
    var failed: bool

    constructor (id: nat, ghost at: nat)
      ensures View() == Record(id, None, None, 0, false) && this.at == at
    {
      this.id, this.at, env, loading, refs, failed := id, at, None, None, 0, false;
    }

    ghost function View(): Record
      reads this
    {
      Record(id, env, loading, refs, failed)
    }
  }

  /** What a caller of open finds at the head of its loop. */
  datatype Seen =
    | Told(answer: Answer)
    | Wait(on: Project, load: nat)
    | Load(of: Project, load: nat)

  /** What the end of a load leaves in its record. */
  function SettledRecord(was: Record, retain: bool, abandoned: bool, env: Option<nat>, failed: bool): Record {
    was.(loading := None, failed := !abandoned && failed,
         env := if abandoned || failed then was.env else env,
         refs := if !abandoned && !failed && retain then was.refs + 1 else was.refs)
  }

  lemma LoadedRecord(s: State, i: nat, built: bool, failed: bool)
    requires Enabled(s, LoadDone(i, built, failed))
    ensures var after, p := Do(s, LoadDone(i, built, failed)), s.procs[i];
            && after.records == s.records[p.rec := SettledRecord(s.records[p.rec], p.retain,
                 s.closed || !IsLive(s, p.rec), if built then Some(s.envs) else None, failed)]
            && after.live == s.live && after.next == s.next && after.closed == s.closed && after.loads == s.loads
  {
  }

  lemma LookRefused(s: State, i: nat)
    requires Enabled(s, Look(i)) && (s.closed || s.procs[i].id !in s.live)
    ensures Do(s, Look(i)) == s.(procs := s.procs[i := Returned])
  {
  }

  /** The record a caller of open finds. */
  ghost predicate Finds(s: State, i: nat, r: nat) {
    Enabled(s, Look(i)) && !s.closed && s.procs[i].id in s.live && s.live[s.procs[i].id] == r < |s.records|
  }

  lemma LookReady(s: State, i: nat, r: nat)
    requires Finds(s, i, r) && s.records[r].env.Some?
    ensures var after, p := Do(s, Look(i)), s.procs[i];
            && after.records
               == (if p.retain then s.records[r := s.records[r].(refs := s.records[r].refs + 1)] else s.records)
            && after == s.(records := after.records, procs := after.procs)
            && after.procs == s.procs[i := if p.retain then Using(r, s.records[r].env) else Returned]
  {
  }

  lemma LookWaits(s: State, i: nat, r: nat)
    requires Finds(s, i, r) && s.records[r].env.None? && s.records[r].loading.Some?
    ensures var p := s.procs[i];
            Do(s, Look(i)) == s.(procs := s.procs[i := Waiting(r, p.id, s.records[r].loading.value, p.retain)])
  {
  }

  lemma LookLoads(s: State, i: nat, r: nat)
    requires Finds(s, i, r) && s.records[r].env.None? && s.records[r].loading.None?
    ensures Do(s, Look(i)) == s.(records := s.records[r := s.records[r].(loading := Some(s.loads))],
                                 loads := s.loads + 1, procs := s.procs[i := Loading(r, s.loads, s.procs[i].retain)])
  {
  }

  /** What a removal leaves; nothing else of the table changes. */
  lemma RemovedRecord(s: State, id: nat)
    requires id in s.live && s.live[id] < |s.records| && s.records[s.live[id]].refs <= 0
    ensures var after, r := Do(s, Remove(id, true)), s.live[id];
            && after.records == s.records[r := s.records[r].(env := None)] && after.live == s.live - {id}
            && after.next == s.next && after.closed == s.closed && after.loads == s.loads
            && after.procs == s.procs + [Closing(Some1(s.records[r].env))]
  {
  }

  /** Each record is that of the object at its place. */
  ghost predicate Shown(all: seq<Project>, records: seq<Record>)
    reads all
  {
    |all| == |records| && forall r :: 0 <= r < |all| ==> all[r].at == r && all[r].View() == records[r]
  }

  lemma OneMoreShown(all: seq<Project>, pr: Project, records: seq<Record>)
    requires |all| == |records| + 1 && all[|records|] == pr && pr.at == |records| && Shown(all[..|records|], records)
    ensures Shown(all, records + [pr.View()])
  {
    forall r | 0 <= r < |all| ensures all[r].at == r && all[r].View() == (records + [pr.View()])[r] {
      assert r < |records| ==> all[..|records|][r] == all[r];
    }
  }

  /** When one object changes, its record alone does. */
  lemma OneChanged(all: seq<Project>, pr: Project, was: seq<Record>, now: seq<Record>)
    requires |all| == |was| && pr in all
    requires forall r :: 0 <= r < |all| ==> all[r].at == r && (all[r] != pr ==> all[r].View() == was[r])
    requires now == was[pr.at := pr.View()]
    ensures Shown(all, now)
  {
  }

  /** The fields the calls change under the lock, one method a critical section. sys is the state of the
      step system and all its records; Valid says the objects are that state. Every section is one of the
      system's actions, so what holds of all its runs holds of the registry. */
  class Registry {
    var byId: map<nat, Project>
    var next: nat
    var closed: bool
    var loads: nat
    ghost var all: seq<Project>
    ghost var sys: State

    ghost predicate Valid()
      reads this, all
    {
      ValidWith(byId)
    }

    /** Valid but for the table, which is this one. */
    ghost predicate ValidWith(table: map<nat, Project>)
      reads this, all
    {
      && next == sys.next && closed == sys.closed && loads == sys.loads
      && Shown(all, sys.records)
      && table.Keys == sys.live.Keys
      && (forall id :: id in table ==> sys.live[id] < |all| && table[id] == all[sys.live[id]] && table[id].id == id)
    }

    constructor ()
      ensures Valid() && Opens(sys) && byId == map[]
    {
      byId, next, closed, loads, all := map[], 0, false, 0, [];
      sys := State([], map[], 0, false, [], 0, 0, multiset{}, {});
    }

    /** A project that cannot be saved is taken out again; its number is not used again. */
    method AddProject(saved: bool) returns (added: Option<Project>)
      requires Valid()
      modifies this
      ensures Valid() && sys == Do(old(sys), Add(saved))
      ensures added.Some? <==> saved
      ensures byId == if saved then old(byId)[old(next) + 1 := added.value] else old(byId)
    {
      next := next + 1;
      var pr := new Project(next, |all|);
      var before := byId;
      byId := byId[next := pr];
      if !saved {
        byId := before;
        added := None;
      } else {
        all := all + [pr];
        added := Some(pr);
        OneMoreShown(all, pr, sys.records);
      }
      sys := Do(sys, Add(saved));
    }

    /** Remove refuses a project somebody retains, puts it back when the table cannot be saved, and
        otherwise hands over its environment to be closed. */
    method RemoveProject(id: nat, saved: bool) returns (removed: bool, env: Option<nat>)
      requires Valid()
      modifies this, all
      ensures Valid() && sys == Do(old(sys), Remove(id, saved))
      ensures removed == old(id in byId && byId[id].refs <= 0 && saved)
      ensures env == if removed then old(byId[id].env) else None
      ensures byId == if removed then old(byId) - {id} else old(byId)
      ensures removed ==> old(byId)[id].env.None? && sys.procs == old(sys.procs) + [Closing(Some1(env))]
    {
      if id !in byId { return false, None; }
      var pr := byId[id];
      if pr.refs > 0 { return false, None; }
      byId := byId - {id};
      if !saved {
        byId := byId[id := pr];
        return false, None;
      }
      assert byId[id := pr] == old(byId);
      env := Detach(id, pr);
      removed := true;
    }

    /** What is left of a removal once the table without the project is saved. */
    method Detach(ghost id: nat, pr: Project) returns (env: Option<nat>)
      requires id !in byId && ValidWith(byId[id := pr]) && pr.refs <= 0
      modifies this, pr
      ensures Valid() && sys == Do(old(sys), Remove(id, true)) && byId == old(byId)
      ensures env == old(pr.env) && pr.env.None? && sys.procs == old(sys.procs) + [Closing(Some1(env))]
    {
      RemovedRecord(sys, id);
      ghost var was := sys.records;
      sys := Do(sys, Remove(id, true));
      env := TakeEnv(pr);
      OneChanged(all, pr, was, sys.records);
    }

    method RetainLocked(pr: Project, retain: bool)
      modifies pr`refs
      ensures pr.refs == if retain then old(pr.refs) + 1 else old(pr.refs)
    {
      if retain { pr.refs := pr.refs + 1; }
    }

    /** An environment that is there is taken by the caller. */
    method TakeReady(ghost i: nat, pr: Project, retain: bool) returns (env: Option<nat>)
      requires Valid() && pr in all && Finds(sys, i, pr.at) && pr.env.Some? && sys.procs[i].retain == retain
      modifies this, pr
      ensures Valid() && sys == Do(old(sys), Look(i)) && byId == old(byId)
      ensures env == pr.env == old(pr.env)
      ensures sys.procs == old(sys.procs)[i := if retain then Using(pr.at, env) else Returned]
    {
      ghost var was := sys;
      LookReady(sys, i, pr.at);
      RetainLocked(pr, retain);
      sys := Do(sys, Look(i));
      OneChanged(all, pr, was.records, sys.records);
      env := pr.env;
    }

    /** Nothing there and nothing under way: the caller loads. */
    method BeginLoad(ghost i: nat, pr: Project) returns (load: nat)
      requires Valid() && pr in all && Finds(sys, i, pr.at) && pr.env.None? && pr.loading.None?
      modifies this, pr
      ensures Valid() && sys == Do(old(sys), Look(i)) && all == old(all) && pr.env.None? && pr.loading == Some(load)
      ensures load == old(loads)
      ensures sys.procs == old(sys.procs)[i := Loading(pr.at, load, old(sys.procs[i].retain))]
    {
      ghost var was := sys;
      LookLoads(sys, i, pr.at);
      pr.loading := Some(loads);
      loads := loads + 1;
      sys := Do(sys, Look(i));
      OneChanged(all, pr, was.records, sys.records);
      load := loads - 1;
    }

    /** The head of open: the environment, the channel to wait on, or the load to run. */
    method LookUp(ghost i: nat, id: nat, retain: bool) returns (seen: Seen)
      requires Valid() && i < |sys.procs| && sys.procs[i] == Opening(id, retain)
      modifies this, all
      ensures Valid() && sys == Do(old(sys), Look(i))
      ensures seen == if old(closed) then Told(RegistryClosed)
                      else if id !in old(byId) then Told(NoProject)
                      else if old(byId[id].env).Some? then Told(Env(old(byId[id].env)))
                      else if old(byId[id].loading).Some? then Wait(old(byId)[id], old(byId[id].loading.value))
                      else Load(old(byId)[id], old(loads))
      ensures seen.Told? <==> Answered(old(sys), Look(i)).Some?
      ensures seen.Told? ==> Answered(old(sys), Look(i)) == Some(seen.answer)
      ensures seen.Load? ==> (sys.procs[i] == Loading(seen.of.at, seen.load, retain)
                              && seen.of in all && seen.of.env.None? && seen.of.loading == Some(seen.load))
      ensures seen.Wait? ==> sys.procs[i] == Waiting(seen.on.at, id, seen.load, retain)
    {
      if closed || id !in byId {
        LookRefused(sys, i);
        sys := Do(sys, Look(i));
        return Told(if closed then RegistryClosed else NoProject);
      }
      var pr := byId[id];
      if pr.env.Some? {
        var env := TakeReady(i, pr, retain);
        return Told(Env(env));
      }
      if pr.loading.Some? {
        LookWaits(sys, i, pr.at);
        sys := Do(sys, Look(i));
        return Wait(pr, pr.loading.value);
      }
      var load := BeginLoad(i, pr);
      return Load(pr, load);
    }

    /** A waiter whose load is over takes the answer, or starts again (None). */
    method AfterWait(ghost i: nat, pr: Project, retain: bool) returns (answer: Option<Answer>)
      requires Valid() && Enabled(sys, Wake(i)) && sys.procs[i].retain == retain && pr == all[sys.procs[i].rec]
      modifies this, pr
      ensures Valid() && sys == Do(old(sys), Wake(i))
      ensures answer == (if old(pr.env).Some? then Some(Env(old(pr.env)))
                         else if old(pr.failed) then Some(LoadError) else None)
      ensures answer == Answered(old(sys), Wake(i))
    {
      sys := Do(sys, Wake(i));
      if pr.env.Some? {
        RetainLocked(pr, retain);
        return Some(Env(pr.env));
      }
      if pr.failed { return Some(LoadError); }
      return None;
    }

    /** The end of a load: one critical section lets the waiters go and decides what becomes of the
        environment. The caller closes the one it is handed back. */
    method FinishLoad(ghost i: nat, pr: Project, retain: bool, env: Option<nat>, failed: bool)
      returns (answer: Answer, close: Option<nat>)
      requires Valid() && Enabled(sys, LoadDone(i, env.Some?, failed)) && sys.procs[i].retain == retain
      requires pr == all[sys.procs[i].rec] && (env.Some? ==> env.value == sys.envs)
      modifies this, pr
      ensures Valid() && sys == Do(old(sys), LoadDone(i, env.Some?, failed))
      ensures var abandoned := old(closed || pr.id !in byId || byId[pr.id] != pr);
              && close == (if abandoned then env else None)
              && answer == (if old(closed) then RegistryClosed else if abandoned then NoProject
                            else if failed then LoadError else Env(env))
              && pr.env == (if abandoned || failed then old(pr.env) else env)
      ensures Answered(old(sys), LoadDone(i, env.Some?, failed)) == Some(answer)
    {
      ghost var was := sys;
      LoadedRecord(sys, i, env.Some?, failed);
      var abandoned := IsAbandoned(pr);
      answer, close := Settle(pr, retain, abandoned, closed, env, failed);
      sys := Do(sys, LoadDone(i, env.Some?, failed));
      OneChanged(all, pr, was.records, sys.records);
    }

    method IsAbandoned(pr: Project) returns (abandoned: bool)
      requires Valid() && pr in all
      ensures abandoned == (pr.id !in byId || byId[pr.id] != pr) && (abandoned <==> !IsLive(sys, pr.at))
    {
      abandoned := pr.id !in byId || byId[pr.id] != pr;
    }

    method Settle(pr: Project, retain: bool, abandoned: bool, closed: bool, env: Option<nat>, failed: bool)
      returns (answer: Answer, close: Option<nat>)
      modifies pr
      ensures pr.View() == SettledRecord(old(pr.View()), retain, abandoned || closed, env, failed)
      ensures close == if abandoned || closed then env else None
      ensures answer == if closed then RegistryClosed else if abandoned then NoProject
                        else if failed then LoadError else Env(env)
    {
      pr.loading := None;
      if abandoned || closed {
        pr.failed := false;
        return if closed then RegistryClosed else NoProject, env;
      }
      if failed {
        pr.failed := true;
        return LoadError, None;
      }
      pr.env := env;
      pr.failed := false;
      RetainLocked(pr, retain);
      return Env(env), None;
    }

    /** A load that panicked lets its waiters go. */
    method RecoverLoad(ghost i: nat, pr: Project)
      requires Valid() && Enabled(sys, LoadPanic(i)) && pr == all[sys.procs[i].rec]
      modifies this, pr
      ensures Valid() && sys == Do(old(sys), LoadPanic(i))
      ensures pr.View() == old(pr.View()).(loading := None)
    {
      sys := Do(sys, LoadPanic(i));
      pr.loading := None;
    }

    method ReleaseEnv(ghost i: nat, pr: Project)
      requires Valid() && Enabled(sys, Release(i)) && sys.procs[i].Using? && pr == all[sys.procs[i].rec]
      modifies this, pr
      ensures Valid() && sys == Do(old(sys), Release(i)) && pr.View() == old(pr.View()).(refs := old(pr.refs) - 1)
    {
      sys := Do(sys, Release(i));
      pr.refs := pr.refs - 1;
    }

    /** Close takes every installed environment out, project by project. */
    method Close() returns (envs: set<nat>)
      requires Valid()
      modifies this, all
      ensures Valid() && sys == Do(old(sys), CloseBegin)
      ensures envs == LiveEnvs(old(sys)) && forall id :: id in byId ==> byId[id].env.None?
    {
      closed := true;
      envs := TakeAll();
      LiveIsEmptied(sys);
      sys := Do(sys, CloseBegin);
    }

    method TakeEnv(pr: Project) returns (env: Option<nat>)
      modifies pr
      ensures env == old(pr.env) && pr.View() == old(pr.View()).(env := None)
    {
      env := pr.env;
      if env.Some? { pr.env := None; }
    }

    method TakeNext(pr: Project, ghost left: set<nat>) returns (env: Option<nat>)
      requires Shown(all, TakenDown(sys, left)) && pr in all && pr.id in left && pr.id in sys.live
      requires pr.at < |sys.records| && sys.live[pr.id] == pr.at && sys.records[pr.at].id == pr.id
      modifies pr
      ensures Shown(all, TakenDown(sys, left - {pr.id})) && env == sys.records[pr.at].env
    {
      LeftOut(sys, left, pr.id);
      env := TakeEnv(pr);
      OneChanged(all, pr, TakenDown(sys, left), TakenDown(sys, left - {pr.id}));
    }

    method TakeAll() returns (envs: set<nat>)
      requires Shown(all, sys.records) && byId.Keys == sys.live.Keys
      requires forall id :: id in byId ==> sys.live[id] < |all| && byId[id] == all[sys.live[id]] && byId[id].id == id
      modifies all
      ensures Shown(all, Emptied(sys)) && envs == LiveEnvs(sys)
    {
      envs := {};
      var left := byId.Keys;
      NoneTakenDown(sys);
      while left != {}
        invariant left <= byId.Keys
        invariant Shown(all, TakenDown(sys, left)) && envs == EnvsOutside(sys, left)
        decreases |left|
      {
        var id :| id in left;
        EnvsLeftOut(sys, left, id);
        var env := TakeNext(byId[id], left);
        envs := envs + Some1(env);
        left := left - {id};
      }
      AllTakenDown(sys);
    }
  }

  lemma LiveIsEmptied(s: State)
    ensures forall id :: id in s.live && s.live[id] < |s.records| && s.records[s.live[id]].id == id ==>
              Emptied(s)[s.live[id]].env.None?
  {
  }

  /** The environments of the live projects whose ids are not in left. */
  ghost function EnvsOutside(s: State, left: set<nat>): set<nat> {
    set r | 0 <= r < |s.records| && IsLive(s, r) && s.records[r].id !in left && s.records[r].env.Some? ::
      s.records[r].env.value
  }

  ghost function TakenDown(s: State, left: set<nat>): (now: seq<Record>)
    ensures |now| == |s.records|
  {
    seq(|s.records|, r requires 0 <= r < |s.records| =>
      if IsLive(s, r) && s.records[r].id !in left then s.records[r].(env := None) else s.records[r])
  }

  lemma NoneTakenDown(s: State)
    ensures TakenDown(s, s.live.Keys) == s.records && EnvsOutside(s, s.live.Keys) == {}
  {
  }

  lemma AllTakenDown(s: State)
    ensures TakenDown(s, {}) == Emptied(s) && EnvsOutside(s, {}) == LiveEnvs(s)
  {
  }

  lemma LeftOut(s: State, left: set<nat>, id: nat)
    requires id in s.live && s.live[id] < |s.records| && s.records[s.live[id]].id == id && id in left
    ensures var r := s.live[id];
            && TakenDown(s, left)[r] == s.records[r]
            && TakenDown(s, left - {id}) == TakenDown(s, left)[r := s.records[r].(env := None)]
  {
  }

  lemma EnvsLeftOut(s: State, left: set<nat>, id: nat)
    requires id in s.live && s.live[id] < |s.records| && s.records[s.live[id]].id == id && id in left
    ensures EnvsOutside(s, left - {id}) == EnvsOutside(s, left) + Some1(s.records[s.live[id]].env)
  {
    var r := s.live[id];
    assert IsLive(s, r);
    forall t | t in EnvsOutside(s, left) + Some1(s.records[r].env) ensures t in EnvsOutside(s, left - {id}) {
      if t in EnvsOutside(s, left) {
        var q :| 0 <= q < |s.records| && IsLive(s, q) && s.records[q].id !in left && s.records[q].env == Some(t);
        assert s.records[q].id !in left - {id};
      }
    }
  }
}
