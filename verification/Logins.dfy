/** Browser logins: how many may be under way, who gives each place back, which finished ones are kept,
    and the one moment a login writes a credential. */
module Logins {
  import opened Counting
  import opened Wrappers

  const MAX_PENDING := 8
  const MAX_PENDING_PER_PROVIDER := 4
  const MAX_RETAINED := 32

  /** The two providers with a browser login. OpenAI's redirects to one fixed port. */
  datatype Provider = OpenAI | XAI

  function PendingLoginsFor(p: Provider): nat {
    if p.OpenAI? then 1 else MAX_PENDING_PER_PROVIDER
  }

  datatype Status = Pending | Done | Failed | Cancelled

  // ----- One flow

  datatype Flow = Flow(status: Status, url: string, code: string)

  /** Finish carries whether the provider granted a token and whether storing it works. */
  datatype FlowOp = Finish(granted: bool, stored: bool) | Cancel

  function Stepped(f: Flow, op: FlowOp): Flow {
    if !f.status.Pending? then f
    else
      match op
      case Finish(granted, stored) => Flow(if granted && stored then Done else Failed, "", "")
      case Cancel => Flow(Cancelled, "", "")
  }

  function Played(f: Flow, ops: seq<FlowOp>): Flow {
    if ops == [] then f else Stepped(Played(f, ops[..|ops| - 1]), ops[|ops| - 1])
  }

  /** Whether an operation stores a credential: the code of Finish reaches the store only when the flow is
      still pending and the provider granted a token. */
  predicate Writes(f: Flow, op: FlowOp) {
    f.status.Pending? && op.Finish? && op.granted && op.stored
  }

  function WritesIn(f: Flow, ops: seq<FlowOp>): nat {
    if ops == [] then 0
    else
      WritesIn(f, ops[..|ops| - 1]) + (if Writes(Played(f, ops[..|ops| - 1]), ops[|ops| - 1]) then 1 else 0)
  }

  /** In whatever order a flow's goroutine and its cancellers get its lock, it writes a credential at most
      once, exactly when it ends done; and once it ended nothing changes it and it shows no link. */
  lemma {:induction false} FlowWritesOnce(f: Flow, ops: seq<FlowOp>)
    requires f.status.Pending?
    ensures WritesIn(f, ops) == if Played(f, ops).status.Done? then 1 else 0
    ensures !Played(f, ops).status.Pending? ==> Played(f, ops).url == "" && Played(f, ops).code == ""
    ensures Played(f, ops).status.Pending? ==> ops == [] && Played(f, ops) == f
  {
    if ops != [] { FlowWritesOnce(f, ops[..|ops| - 1]); }
  }

  lemma {:induction false} FirstOpDecides(f: Flow, ops: seq<FlowOp>)
    requires f.status.Pending? && ops != []
    ensures Played(f, ops) == Stepped(f, ops[0])
    decreases |ops|
  {
    if |ops| > 1 {
      FirstOpDecides(f, ops[..|ops| - 1]);
    } else {
      assert ops[..|ops| - 1] == [];
    }
  }

  /** How a flow ends: cancelled when a cancel came first, done when the provider granted a token first and it was
      stored, failed otherwise. */
  lemma FlowEndsAs(f: Flow, ops: seq<FlowOp>)
    requires f.status.Pending? && ops != []
    ensures Played(f, ops).status ==
            match ops[0]
            case Cancel => Cancelled
            case Finish(granted, stored) => if granted && stored then Done else Failed
    ensures Played(f, ops).url == "" && Played(f, ops).code == ""
  {
    FirstOpDecides(f, ops);
  }

  /** The credential store, as the providers written to. */
  class Credentials {
    var puts: seq<Provider>

    method Put(p: Provider, works: bool) returns (ok: bool)
      modifies this
      ensures ok == works && puts == if works then old(puts) + [p] else old(puts)
    {
      if works { puts := puts + [p]; }
      ok := works;
    }
  }

  /** A flow as its own lock guards it. */
  class LoginFlow {
    const provider: Provider
    var url: string
    var code: string
    var status: Status

    constructor (provider: Provider, url: string, code: string)
      ensures View() == Flow(Pending, url, code) && this.provider == provider
    {
      this.provider, this.url, this.code, status := provider, url, code, Pending;
    }

    function View(): Flow
      reads this
    {
      Flow(status, url, code)
    }

    method FinishWith(store: Credentials, granted: bool, stored: bool)
      modifies this, store
      ensures View() == Stepped(old(View()), Finish(granted, stored))
      ensures store.puts
              == if Writes(old(View()), Finish(granted, stored)) then old(store.puts) + [provider] else old(store.puts)
      ensures store.puts != old(store.puts) <==> old(status).Pending? && status.Done?
      ensures old(status).Pending? ==> View() == Flow(if granted && stored then Done else Failed, "", "")
      ensures !old(status).Pending? ==> View() == old(View())
    {
      if !status.Pending? { return; }
      var failed := !granted;
      if granted {
        var ok := store.Put(provider, stored);
        failed := !ok;
      }
      url, code := "", "";
      status := if failed then Failed else Done;
    }

    method Abandon()
      modifies this
      ensures View() == Stepped(old(View()), Cancel)
      ensures View() == if old(status).Pending? then Flow(Cancelled, "", "") else old(View())
    {
      if status.Pending? {
        status := Cancelled;
        url, code := "", "";
      }
    }
  }

  // ----- Which finished flows are kept

  /** Drops finished ones from the front of order until excess of them are gone. */
  function Swept(order: seq<nat>, finished: set<nat>, excess: nat): seq<nat> {
    if order == [] then []
    else if order[0] in finished && excess > 0 then Swept(order[1..], finished, excess - 1)
    else [order[0]] + Swept(order[1..], finished, excess)
  }

  function FinishedIn(order: seq<nat>, finished: set<nat>): nat {
    CountOf(order, id => id in finished)
  }

  function Without(order: seq<nat>, dropped: set<nat>): seq<nat> {
    if order == [] then []
    else if order[0] in dropped then Without(order[1..], dropped)
    else [order[0]] + Without(order[1..], dropped)
  }

  function Excess(finished: nat): nat {
    if finished > MAX_RETAINED then finished - MAX_RETAINED else 0
  }

  function Min(a: nat, b: nat): nat {
    if a < b then a else b
  }

  lemma {:induction false} FinishedFront(order: seq<nat>, finished: set<nat>)
    requires order != []
    ensures FinishedIn(order, finished) == (if order[0] in finished then 1 else 0) + FinishedIn(order[1..], finished)
    decreases |order|
  {
    if |order| > 1 {
      FinishedFront(order[..|order| - 1], finished);
      assert order[..|order| - 1][1..] == order[1..][..|order| - 2];
    }
  }

  /** What goes is exactly the oldest: up to some place in the order every finished flow and no other is
      dropped, past it none is, and as many go as asked for while there are any. */
  lemma {:induction false} SweptDropsTheOldest(order: seq<nat>, finished: set<nat>, excess: nat) returns (cut: nat)
    ensures cut <= |order|
    ensures Swept(order, finished, excess) == Without(order[..cut], finished) + order[cut..]
    ensures FinishedIn(order[..cut], finished) == Min(excess, FinishedIn(order, finished))
  {
    if order == [] || excess == 0 {
      cut := 0;
      NothingSwept(order, finished);
    } else {
      FinishedFront(order, finished);
      var first := order[0] in finished;
      var rest := SweptDropsTheOldest(order[1..], finished, if first then excess - 1 else excess);
      cut := rest + 1;
      assert order[..cut][1..] == order[1..][..rest];
      FinishedFront(order[..cut], finished);
    }
  }

  lemma {:induction false} NothingSwept(order: seq<nat>, finished: set<nat>)
    ensures Swept(order, finished, 0) == order
  {
    if order != [] { NothingSwept(order[1..], finished); }
  }

  /** A sweep of what was over the limit leaves no more finished flows than the limit, and no fewer while
      there were enough. */
  lemma {:induction false} SweptCount(order: seq<nat>, finished: set<nat>, excess: nat)
    ensures FinishedIn(Swept(order, finished, excess), finished)
            == FinishedIn(order, finished) - Min(excess, FinishedIn(order, finished))
  {
    if order != [] {
      var first := order[0] in finished && excess > 0;
      SweptCount(order[1..], finished, if first then excess - 1 else excess);
      FinishedFront(order, finished);
      if !first { FinishedFront(Swept(order, finished, excess), finished); }
    }
  }

  lemma {:induction false} SweptMembers(order: seq<nat>, finished: set<nat>, excess: nat)
    ensures forall id :: id in Swept(order, finished, excess) ==> id in order
    ensures forall id :: id in order && id !in finished ==> id in Swept(order, finished, excess)
  {
    if order != [] {
      SweptMembers(order[1..], finished, if order[0] in finished && excess > 0 then excess - 1 else excess);
    }
  }

  ghost predicate Rising(order: seq<nat>) {
    forall i, j :: 0 <= i < j < |order| ==> order[i] < order[j]
  }

  lemma {:induction false} SweptRises(order: seq<nat>, finished: set<nat>, excess: nat)
    requires Rising(order)
    ensures Rising(Swept(order, finished, excess))
  {
    if order != [] {
      var rest := if order[0] in finished && excess > 0 then excess - 1 else excess;
      SweptRises(order[1..], finished, rest);
      SweptMembers(order[1..], finished, rest);
      var after := Swept(order[1..], finished, rest);
      forall k | 0 <= k < |after| ensures order[0] < after[k] {
        assert after[k] in order[1..];
      }
    }
  }

  lemma RisingSplit(order: seq<nat>, k: nat)
    requires Rising(order) && k < |order|
    ensures order[k..][0] == order[k] && order[k..][1..] == order[k + 1..]
    ensures order[k] !in order[..k] && order[k] !in order[k + 1..]
    ensures forall id :: id in order[k..] <==> id == order[k] || id in order[k + 1..]
    ensures forall id :: id in order[..k + 1] <==> id == order[k] || id in order[..k]
  {
    assert order[k..] == [order[k]] + order[k + 1..];
    assert order[..k + 1] == order[..k] + [order[k]];
  }

  lemma SweptStep(kept: seq<nat>, order: seq<nat>, k: nat, finished: set<nat>, excess: nat)
    requires k < |order|
    ensures kept + Swept(order[k..], finished, excess)
            == if order[k] in finished && excess > 0 then kept + Swept(order[k + 1..], finished, excess - 1)
               else (kept + [order[k]]) + Swept(order[k + 1..], finished, excess)
  {
    assert order[k..][1..] == order[k + 1..];
  }

  function Listed<T>(flows: map<nat, T>, ids: seq<nat>): map<nat, T> {
    map id | id in flows && id in ids :: flows[id]
  }

  /** Moving on over one id either keeps it or takes exactly it out. */
  lemma ListedStep<T>(flows: map<nat, T>, kept: seq<nat>, order: seq<nat>, k: nat)
    requires Rising(order) && k < |order| && forall id :: id in kept ==> id in order[..k]
    ensures Listed(flows, kept + order[k..]) - {order[k]} == Listed(flows, kept + order[k + 1..])
    ensures kept + order[k..] == (kept + [order[k]]) + order[k + 1..]
  {
    RisingSplit(order, k);
  }

  /** How far a filter of was, whose flows were had, has come after k entries. */
  ghost predicate FilteredTo<T>(was: seq<nat>, had: map<nat, T>, late: set<nat>, excess: nat,
                                k: nat, kept: seq<nat>, left: nat, has: map<nat, T>)
  {
    && k <= |was|
    && kept + Swept(was[k..], late, left) == Swept(was, late, excess)
    && has == Listed(had, kept + was[k..])
    && forall id :: id in kept ==> id in was[..k]
  }

  lemma FilterDrops<T>(was: seq<nat>, had: map<nat, T>, late: set<nat>, excess: nat,
                       k: nat, kept: seq<nat>, left: nat, has: map<nat, T>)
    requires Rising(was) && k < |was| && FilteredTo(was, had, late, excess, k, kept, left, has)
    requires left > 0 && was[k] in late
    ensures FilteredTo(was, had, late, excess, k + 1, kept, left - 1, has - {was[k]})
  {
    RisingSplit(was, k);
    SweptStep(kept, was, k, late, left);
    ListedStep(had, kept, was, k);
  }

  lemma FilterKeeps<T>(was: seq<nat>, had: map<nat, T>, late: set<nat>, excess: nat,
                       k: nat, kept: seq<nat>, left: nat, has: map<nat, T>)
    requires Rising(was) && k < |was| && FilteredTo(was, had, late, excess, k, kept, left, has)
    requires left == 0 || was[k] !in late
    ensures FilteredTo(was, had, late, excess, k + 1, kept + [was[k]], left, has)
  {
    RisingSplit(was, k);
    SweptStep(kept, was, k, late, left);
    ListedStep(had, kept, was, k);
  }

  lemma FilterStarts<T>(was: seq<nat>, had: map<nat, T>, late: set<nat>, excess: nat)
    requires forall id :: id in was <==> id in had
    ensures FilteredTo(was, had, late, excess, 0, [], excess, had)
  {
    assert was[0..] == was && [] + Swept(was, late, excess) == Swept(was, late, excess);
    assert Listed(had, [] + was) == had;
  }

  lemma FilterEnds<T>(was: seq<nat>, had: map<nat, T>, late: set<nat>, excess: nat,
                      kept: seq<nat>, left: nat, has: map<nat, T>)
    requires FilteredTo(was, had, late, excess, |was|, kept, left, has)
    ensures kept == Swept(was, late, excess) && has == Listed(had, kept)
  {
    assert was[|was|..] == [] && kept + [] == kept;
  }

  // ----- The step system

  datatype Login = Login(provider: Provider, status: Status)

  datatype Proc =
    | Starting(provider: Provider)   // BeginLogin waits for the provider; it holds a place
    | Abandoned(provider: Provider)  // nobody waits any more; the place is still held
    | Tearing(provider: Provider)    // cancelling a flow that has no id; it holds no place
    | Watching(id: nat)
    | Leaving
    | Gone

  datatype State = State(
    flows: map<nat, Login>, order: seq<nat>, minted: nat,
    starting: map<Provider, int>, total: int, working: int, closed: bool, procs: seq<Proc>)

  const Empty := State(map[], [], 0, map[], 0, 0, false, [])

  /** seen, early and late are the flows whose status was read as pending, and as finished in the first
      and second pass. A status is read under the flow's lock alone, so it may be out of date by the end
      of the section, in the one way a status changes. */
  datatype Action =
    | Begin(provider: Provider, seen: set<nat>)
    | Arrive(i: nat, outcome: Option<Status>)
    | Abandon(i: nat)
    | ArriveAbandoned(i: nat, produced: bool)
    | Torn(i: nat)
    | Clean(i: nat, early: set<nat>, late: set<nat>)
    | Return(i: nat)
    | FlowEnds(id: nat, status: Status)
    | CloseBegin

  function Of(starting: map<Provider, int>, p: Provider): int {
    if p in starting then starting[p] else 0
  }

  ghost function PendingIds(flows: map<nat, Login>): set<nat> {
    set id | id in flows && flows[id].status.Pending?
  }

  ghost function OfProvider(flows: map<nat, Login>, ids: set<nat>, p: Provider): set<nat> {
    set id | id in ids && id in flows && flows[id].provider == p
  }

  /** The pending flows of one provider. */
  ghost function Mine(s: State, p: Provider): set<nat> {
    OfProvider(s.flows, PendingIds(s.flows), p)
  }

  ghost predicate Enabled(s: State, a: Action) {
    match a
    case Begin(_, seen) => PendingIds(s.flows) <= seen <= s.flows.Keys
    case Arrive(i, _) => i < |s.procs| && s.procs[i].Starting?
    case Abandon(i) => i < |s.procs| && s.procs[i].Starting?
    case ArriveAbandoned(i, _) => i < |s.procs| && s.procs[i].Abandoned?
    case Torn(i) => i < |s.procs| && s.procs[i].Tearing?
    case Clean(i, early, late) =>
      i < |s.procs| && s.procs[i].Watching? && early <= late <= s.flows.Keys - PendingIds(s.flows)
    case Return(i) => i < |s.procs| && s.procs[i].Leaving?
    case FlowEnds(id, status) => id in s.flows && s.flows[id].status.Pending? && !status.Pending?
    case CloseBegin => true
  }

  ghost predicate Full(s: State, p: Provider, seen: set<nat>) {
    || s.total + |seen| >= MAX_PENDING
    || Of(s.starting, p) + |OfProvider(s.flows, seen, p)| >= PendingLoginsFor(p)
  }

  ghost function GivenBack(s: State, p: Provider): State {
    s.(starting := s.starting[p := Of(s.starting, p) - 1], total := s.total - 1)
  }

  ghost function Do(s: State, a: Action): State
    requires Enabled(s, a)
  {
    match a
    case Begin(p, seen) =>
      if s.closed || Full(s, p, seen) then s
      else
        s.(starting := s.starting[p := Of(s.starting, p) + 1], total := s.total + 1,
           working := s.working + 1, procs := s.procs + [Starting(p)])
    case Arrive(i, outcome) =>
      var p := s.procs[i].provider;
      var back := GivenBack(s, p);
      if outcome.None? then back.(procs := s.procs[i := Leaving])
      else if s.closed then back.(procs := s.procs[i := Tearing(p)])
      else
        back.(minted := s.minted + 1, flows := s.flows[s.minted + 1 := Login(p, outcome.value)],
              order := s.order + [s.minted + 1], working := s.working + 1,
              procs := s.procs[i := Leaving] + [Watching(s.minted + 1)])
    case Abandon(i) =>
      s.(working := s.working + 1, procs := s.procs[i := Leaving] + [Abandoned(s.procs[i].provider)])
    case ArriveAbandoned(i, produced) =>
      GivenBack(s, s.procs[i].provider).(procs := s.procs[i := if produced then Tearing(s.procs[i].provider) else Leaving])
    case Torn(i) => s.(procs := s.procs[i := Leaving])
    case Clean(i, early, late) =>
      var kept := Swept(s.order, late, Excess(FinishedIn(s.order, early)));
      s.(order := kept, flows := Listed(s.flows, kept), procs := s.procs[i := Leaving])
    case Return(i) => s.(working := s.working - 1, procs := s.procs[i := Gone])
    case FlowEnds(id, status) => s.(flows := s.flows[id := s.flows[id].(status := status)])
    case CloseBegin => s.(closed := true)
  }

  ghost function Run(s: State, actions: seq<Action>): State {
    if actions == [] then s
    else
      var before := Run(s, actions[..|actions| - 1]);
      var a := actions[|actions| - 1];
      if Enabled(before, a) then Do(before, a) else before
  }

  // ----- The invariants

  /** A start that has not been answered holds a place. */
  predicate HoldsPlace(p: Proc) {
    p.Starting? || p.Abandoned?
  }

  predicate HoldsPlaceOf(p: Proc, provider: Provider) {
    HoldsPlace(p) && p.provider == provider
  }

  predicate AtWork(p: Proc) {
    p != Gone
  }

  function PlacesHeld(procs: seq<Proc>): nat {
    CountOf(procs, p => HoldsPlace(p))
  }

  function PlacesOfOpenAI(procs: seq<Proc>): nat {
    CountOf(procs, p => HoldsPlaceOf(p, OpenAI))
  }

  function PlacesOfXAI(procs: seq<Proc>): nat {
    CountOf(procs, p => HoldsPlaceOf(p, XAI))
  }

  function CallsAtWork(procs: seq<Proc>): nat {
    CountOf(procs, p => AtWork(p))
  }

  ghost predicate PlacesExact(s: State) {
    && s.total == PlacesHeld(s.procs)
    && Of(s.starting, OpenAI) == PlacesOfOpenAI(s.procs)
    && Of(s.starting, XAI) == PlacesOfXAI(s.procs)
    && s.working == CallsAtWork(s.procs)
  }

  /** Places and the pending flows of the table never exceed the caps. */
  ghost predicate WithinCaps(s: State) {
    && s.total + |PendingIds(s.flows)| <= MAX_PENDING
    && forall p :: Of(s.starting, p) + |Mine(s, p)| <= PendingLoginsFor(p)
  }

  /** The order lists every flow of the table once, oldest first. */
  ghost predicate OrderSound(s: State) {
    && Rising(s.order)
    && (forall id :: id in s.order <==> id in s.flows)
    && (forall id :: id in s.flows ==> id <= s.minted)
  }

  ghost predicate Inv(s: State) {
    PlacesExact(s) && WithinCaps(s) && OrderSound(s)
  }

  // ----- Every action keeps them

  lemma Replaced(procs: seq<Proc>, i: nat, e: Proc)
    requires i < |procs|
    ensures PlacesHeld(procs[i := e]) == PlacesHeld(procs)
            - (if HoldsPlace(procs[i]) then 1 else 0) + (if HoldsPlace(e) then 1 else 0)
    ensures PlacesOfOpenAI(procs[i := e]) == PlacesOfOpenAI(procs)
            - (if HoldsPlaceOf(procs[i], OpenAI) then 1 else 0) + (if HoldsPlaceOf(e, OpenAI) then 1 else 0)
    ensures PlacesOfXAI(procs[i := e]) == PlacesOfXAI(procs)
            - (if HoldsPlaceOf(procs[i], XAI) then 1 else 0) + (if HoldsPlaceOf(e, XAI) then 1 else 0)
    ensures CallsAtWork(procs[i := e]) == CallsAtWork(procs)
            - (if procs[i] != Gone then 1 else 0) + (if e != Gone then 1 else 0)
  {
    CountUpdate(procs, p => HoldsPlace(p), i, e);
    CountUpdate(procs, p => HoldsPlaceOf(p, OpenAI), i, e);
    CountUpdate(procs, p => HoldsPlaceOf(p, XAI), i, e);
    CountUpdate(procs, p => AtWork(p), i, e);
  }

  lemma Appended(procs: seq<Proc>, e: Proc)
    ensures PlacesHeld(procs + [e]) == PlacesHeld(procs) + (if HoldsPlace(e) then 1 else 0)
    ensures PlacesOfOpenAI(procs + [e])
            == PlacesOfOpenAI(procs) + (if HoldsPlaceOf(e, OpenAI) then 1 else 0)
    ensures PlacesOfXAI(procs + [e])
            == PlacesOfXAI(procs) + (if HoldsPlaceOf(e, XAI) then 1 else 0)
    ensures CallsAtWork(procs + [e]) == CallsAtWork(procs) + (if e != Gone then 1 else 0)
  {
    CountAppend(procs, p => HoldsPlace(p), e);
    CountAppend(procs, p => HoldsPlaceOf(p, OpenAI), e);
    CountAppend(procs, p => HoldsPlaceOf(p, XAI), e);
    CountAppend(procs, p => AtWork(p), e);
  }

  lemma BeginKeepsPlaces(s: State, a: Action)
    requires PlacesExact(s) && Enabled(s, a) && a.Begin?
    ensures PlacesExact(Do(s, a))
  {
    Appended(s.procs, Starting(a.provider));
    assert Do(s, a) == s || Do(s, a).procs == s.procs + [Starting(a.provider)];
  }

  lemma GivingBackKeepsPlaces(s: State, i: nat, e: Proc)
    requires PlacesExact(s) && i < |s.procs| && HoldsPlace(s.procs[i]) && !HoldsPlace(e) && e != Gone
    ensures PlacesExact(GivenBack(s, s.procs[i].provider).(procs := s.procs[i := e]))
  {
    Replaced(s.procs, i, e);
  }

  lemma WatchingKeepsPlaces(s: State, id: nat)
    requires PlacesExact(s)
    ensures PlacesExact(s.(working := s.working + 1, procs := s.procs + [Watching(id)]))
  {
    Appended(s.procs, Watching(id));
  }

  lemma ArriveKeepsPlaces(s: State, a: Action)
    requires PlacesExact(s) && Enabled(s, a) && a.Arrive?
    ensures PlacesExact(Do(s, a))
  {
    if a.outcome.Some? && s.closed {
      GivingBackKeepsPlaces(s, a.i, Tearing(s.procs[a.i].provider));
    } else {
      GivingBackKeepsPlaces(s, a.i, Leaving);
      if a.outcome.Some? {
        WatchingKeepsPlaces(GivenBack(s, s.procs[a.i].provider).(procs := s.procs[a.i := Leaving]), s.minted + 1);
      }
    }
  }

  lemma AbandonKeepsPlaces(s: State, a: Action)
    requires PlacesExact(s) && Enabled(s, a) && a.Abandon?
    ensures PlacesExact(Do(s, a))
  {
    Replaced(s.procs, a.i, Leaving);
    Appended(s.procs[a.i := Leaving], Abandoned(s.procs[a.i].provider));
  }

  lemma MoveKeepsPlaces(s: State, a: Action)
    requires PlacesExact(s) && Enabled(s, a) && (a.ArriveAbandoned? || a.Torn? || a.Clean? || a.Return?)
    ensures PlacesExact(Do(s, a))
  {
    Replaced(s.procs, a.i, Do(s, a).procs[a.i]);
  }

  lemma PlacesKept(s: State, a: Action)
    requires PlacesExact(s) && Enabled(s, a)
    ensures PlacesExact(Do(s, a))
  {
    if a.Begin? {
      BeginKeepsPlaces(s, a);
    } else if a.Arrive? {
      ArriveKeepsPlaces(s, a);
    } else if a.Abandon? {
      AbandonKeepsPlaces(s, a);
    } else if a.ArriveAbandoned? || a.Torn? || a.Clean? || a.Return? {
      MoveKeepsPlaces(s, a);
    }
  }

  lemma CleanKeepsOrder(s: State, a: Action)
    requires OrderSound(s) && Enabled(s, a) && a.Clean?
    ensures OrderSound(Do(s, a))
  {
    SweptMembers(s.order, a.late, Excess(FinishedIn(s.order, a.early)));
    SweptRises(s.order, a.late, Excess(FinishedIn(s.order, a.early)));
  }

  lemma ListingKeepsOrder(s: State, t: State, login: Login)
    requires OrderSound(s) && t.minted == s.minted + 1
    requires t.order == s.order + [t.minted] && t.flows == s.flows[t.minted := login]
    ensures OrderSound(t)
  {
    assert forall k :: 0 <= k < |s.order| ==> s.order[k] in s.order;
  }

  lemma ArriveKeepsOrder(s: State, a: Action)
    requires OrderSound(s) && Enabled(s, a) && a.Arrive?
    ensures OrderSound(Do(s, a))
  {
    if a.outcome.Some? && !s.closed {
      ListingKeepsOrder(s, Do(s, a), Login(s.procs[a.i].provider, a.outcome.value));
    }
  }

  lemma OthersListNothing(s: State, a: Action)
    requires Enabled(s, a) && !a.Clean? && !a.Arrive?
    ensures Do(s, a).order == s.order && Do(s, a).minted == s.minted && Do(s, a).flows.Keys == s.flows.Keys
  {
  }

  lemma OrderKept(s: State, a: Action)
    requires OrderSound(s) && Enabled(s, a)
    ensures OrderSound(Do(s, a))
  {
    if a.Clean? {
      CleanKeepsOrder(s, a);
    } else if a.Arrive? {
      ArriveKeepsOrder(s, a);
    } else {
      OthersListNothing(s, a);
    }
  }

  lemma FewerIds(a: set<nat>, b: set<nat>)
    requires a <= b
    ensures |a| <= |b|
  {
    assert b == a + (b - a);
  }

  /** How the pending flows of the table change: one more when a start is answered, fewer otherwise. */
  lemma PendingChange(s: State, a: Action)
    requires OrderSound(s) && Enabled(s, a)
    ensures var now := PendingIds(Do(s, a).flows);
            || now <= PendingIds(s.flows)
            || (a.Arrive? && now == PendingIds(s.flows) + {s.minted + 1}
                && Do(s, a).flows == s.flows[s.minted + 1 := Login(s.procs[a.i].provider, Pending)])
    ensures forall id :: id in s.flows && id in Do(s, a).flows ==> Do(s, a).flows[id].provider == s.flows[id].provider
    ensures !a.Arrive? ==> Do(s, a).flows.Keys <= s.flows.Keys
  {
  }

  lemma GlobalCapKept(s: State, a: Action)
    requires WithinCaps(s) && OrderSound(s) && Enabled(s, a)
    ensures Do(s, a).total + |PendingIds(Do(s, a).flows)| <= MAX_PENDING
  {
    PendingChange(s, a);
    var was, now := PendingIds(s.flows), PendingIds(Do(s, a).flows);
    if now <= was { FewerIds(now, was); }
    if a.Begin? { FewerIds(was, a.seen); }
  }

  /** How the places and the pending flows of one provider change. */
  lemma MineChange(s: State, a: Action, p: Provider)
    requires OrderSound(s) && Enabled(s, a)
    ensures || Mine(Do(s, a), p) <= Mine(s, p)
            || (a.Arrive? && Mine(Do(s, a), p) <= Mine(s, p) + {s.minted + 1}
                && Of(Do(s, a).starting, p) == Of(s.starting, p) - 1)
  {
    PendingChange(s, a);
  }

  lemma BeginWithinCap(s: State, q: Provider, seen: set<nat>, p: Provider)
    requires Of(s.starting, p) + |Mine(s, p)| <= PendingLoginsFor(p) && Enabled(s, Begin(q, seen))
    ensures Of(Do(s, Begin(q, seen)).starting, p) + |Mine(s, p)| <= PendingLoginsFor(p)
  {
    if p == q {
      assert Mine(s, p) <= OfProvider(s.flows, seen, p);
      FewerIds(Mine(s, p), OfProvider(s.flows, seen, p));
    }
  }

  lemma PlacesOnlyShrink(s: State, a: Action, p: Provider)
    requires Enabled(s, a) && !a.Begin?
    ensures Of(Do(s, a).starting, p) <= Of(s.starting, p)
  {
  }

  lemma ProviderCapKept(s: State, a: Action, p: Provider)
    requires Of(s.starting, p) + |Mine(s, p)| <= PendingLoginsFor(p) && OrderSound(s) && Enabled(s, a)
    ensures Of(Do(s, a).starting, p) + |Mine(Do(s, a), p)| <= PendingLoginsFor(p)
  {
    if a.Begin? {
      BeginWithinCap(s, a.provider, a.seen, p);
    } else {
      MineChange(s, a, p);
      PlacesOnlyShrink(s, a, p);
      if Mine(Do(s, a), p) <= Mine(s, p) {
        FewerIds(Mine(Do(s, a), p), Mine(s, p));
      } else {
        FewerIds(Mine(Do(s, a), p), Mine(s, p) + {s.minted + 1});
      }
    }
  }

  lemma CapsKept(s: State, a: Action)
    requires WithinCaps(s) && OrderSound(s) && Enabled(s, a)
    ensures WithinCaps(Do(s, a))
  {
    GlobalCapKept(s, a);
    forall p ensures Of(Do(s, a).starting, p) + |Mine(Do(s, a), p)| <= PendingLoginsFor(p) {
      ProviderCapKept(s, a, p);
    }
  }

  lemma ActionKept(s: State, a: Action)
    requires Inv(s) && Enabled(s, a)
    ensures Inv(Do(s, a))
  {
    PlacesKept(s, a);
    OrderKept(s, a);
    CapsKept(s, a);
  }

  // ----- Every interleaving

  lemma {:induction false} EveryInterleaving(actions: seq<Action>)
    ensures Inv(Run(Empty, actions))
  {
    if actions == [] {
      assert PendingIds(Empty.flows) == {};
      assert forall p :: OfProvider(Empty.flows, {}, p) == {};
    } else {
      var before := Run(Empty, actions[..|actions| - 1]);
      EveryInterleaving(actions[..|actions| - 1]);
      if Enabled(before, actions[|actions| - 1]) { ActionKept(before, actions[|actions| - 1]); }
    }
  }

  /** However starts, timeouts, abandonments and endings interleave, the caps hold of places and listed
      flows. A discarded start's flow is in neither: DiscardedComesOnTop. */
  lemma CapsHold(actions: seq<Action>, p: Provider)
    ensures var s := Run(Empty, actions);
            && s.total + |PendingIds(s.flows)| <= MAX_PENDING
            && Of(s.starting, p) + |Mine(s, p)| <= (if p.OpenAI? then 1 else 4)
  {
    EveryInterleaving(actions);
  }

  /** No flow listed yet, and so many starts of OpenAI's logins unanswered. */
  function OpenAIStarts(unanswered: nat, working: nat, procs: seq<Proc>): State {
    State(map[], [], 0, map[OpenAI := unanswered], unanswered, working, false, procs)
  }

  lemma FirstStart(s: State, working: nat, procs: seq<Proc>)
    requires (s == Empty && working == 0 && procs == []) || s == OpenAIStarts(0, working, procs)
    ensures Enabled(s, Begin(OpenAI, {}))
            && Do(s, Begin(OpenAI, {})) == OpenAIStarts(1, working + 1, procs + [Starting(OpenAI)])
  {
    assert PendingIds(s.flows) == {} && OfProvider(s.flows, {}, OpenAI) == {};
  }

  lemma RunOn(actions: seq<Action>, a: Action, all: seq<Action>, before: State)
    requires all == actions + [a] && Run(Empty, actions) == before && Enabled(before, a)
    ensures Run(Empty, all) == Do(before, a)
  {
    assert all[..|actions|] == actions;
  }

  lemma StartAbandoned()
    ensures Do(OpenAIStarts(1, 1, [Starting(OpenAI)]), Abandon(0)) == OpenAIStarts(1, 2, [Leaving, Abandoned(OpenAI)])
  {
  }

  lemma AbandonedAnswered()
    ensures Do(OpenAIStarts(1, 2, [Leaving, Abandoned(OpenAI)]), ArriveAbandoned(1, true))
            == OpenAIStarts(0, 2, [Leaving, Tearing(OpenAI)])
  {
  }

  lemma StartDiscarded(a0: Action, a1: Action, a2: Action)
    requires a0 == Begin(OpenAI, {}) && a1 == Abandon(0) && a2 == ArriveAbandoned(1, true)
    ensures Run(Empty, [a0, a1, a2]) == OpenAIStarts(0, 2, [Leaving, Tearing(OpenAI)])
  {
    FirstStart(Empty, 0, []);
    RunOn([], a0, [a0], Empty);
    StartAbandoned();
    RunOn([a0], a1, [a0, a1], OpenAIStarts(1, 1, [Starting(OpenAI)]));
    AbandonedAnswered();
    RunOn([a0, a1], a2, [a0, a1, a2], OpenAIStarts(1, 2, [Leaving, Abandoned(OpenAI)]));
  }

  /** The place of an abandoned start is given back before its flow is cancelled, so for that moment the
      provider may see one flow more than its cap: here two of OpenAI's. */
  lemma DiscardedComesOnTop()
    ensures var s := Run(Empty, [Begin(OpenAI, {}), Abandon(0), ArriveAbandoned(1, true), Begin(OpenAI, {})]);
            && s.procs == [Leaving, Tearing(OpenAI), Starting(OpenAI)]
            && Of(s.starting, OpenAI) == PendingLoginsFor(OpenAI) == 1
  {
    var a0, a1, a2 := Begin(OpenAI, {}), Abandon(0), ArriveAbandoned(1, true);
    StartDiscarded(a0, a1, a2);
    FirstStart(OpenAIStarts(0, 2, [Leaving, Tearing(OpenAI)]), 2, [Leaving, Tearing(OpenAI)]);
    RunOn([a0, a1, a2], a0, [a0, a1, a2, a0], OpenAIStarts(0, 2, [Leaving, Tearing(OpenAI)]));
  }

  ghost predicate NothingStarting(s: State) {
    forall i :: 0 <= i < |s.procs| ==> !HoldsPlace(s.procs[i])
  }

  lemma NothingHeld(s: State)
    requires PlacesExact(s) && NothingStarting(s)
    ensures s.total == 0 && Of(s.starting, OpenAI) == 0 && Of(s.starting, XAI) == 0
  {
    CountZero(s.procs, p => HoldsPlace(p));
    CountZero(s.procs, p => HoldsPlaceOf(p, OpenAI));
    CountZero(s.procs, p => HoldsPlaceOf(p, XAI));
  }

  /** Every place is given back, once: when no start is still to be answered, no place is held. */
  lemma PlacesGivenBack(actions: seq<Action>)
    requires NothingStarting(Run(Empty, actions))
    ensures var s := Run(Empty, actions);
            s.total == 0 && Of(s.starting, OpenAI) == 0 && Of(s.starting, XAI) == 0
  {
    EveryInterleaving(actions);
    NothingHeld(Run(Empty, actions));
  }

  /** Shutdown's wait ends only when every start, teardown and watcher has. */
  lemma WaitIsComplete(actions: seq<Action>, i: nat)
    requires var s := Run(Empty, actions); s.working == 0 && i < |s.procs|
    ensures Run(Empty, actions).procs[i] == Gone
  {
    EveryInterleaving(actions);
    var s := Run(Empty, actions);
    assert PlacesExact(s);
    CountNone(s.procs, p => AtWork(p), i);
  }

  // ----- Every flow is somewhere

  /** An action brings a flow a provider produced. */
  ghost predicate Produces(a: Action) {
    (a.Arrive? && a.outcome.Some?) || (a.ArriveAbandoned? && a.produced)
  }

  ghost function ProducedIn(actions: seq<Action>): nat {
    if actions == [] then 0
    else
      var init, a := actions[..|actions| - 1], actions[|actions| - 1];
      ProducedIn(init) + (if Enabled(Run(Empty, init), a) && Produces(a) then 1 else 0)
  }

  ghost function TornIn(actions: seq<Action>): nat {
    if actions == [] then 0
    else
      var init, a := actions[..|actions| - 1], actions[|actions| - 1];
      TornIn(init) + (if Enabled(Run(Empty, init), a) && a.Torn? then 1 else 0)
  }

  predicate IsTearing(p: Proc) {
    p.Tearing?
  }

  function BeingTorn(procs: seq<Proc>): nat {
    CountOf(procs, p => IsTearing(p))
  }

  lemma TornUpdate(procs: seq<Proc>, i: nat, e: Proc)
    requires i < |procs|
    ensures BeingTorn(procs[i := e])
            == BeingTorn(procs) - (if procs[i].Tearing? then 1 else 0) + (if e.Tearing? then 1 else 0)
  {
    CountUpdate(procs, p => IsTearing(p), i, e);
  }

  lemma TornAppend(procs: seq<Proc>, e: Proc)
    ensures BeingTorn(procs + [e]) == BeingTorn(procs) + (if e.Tearing? then 1 else 0)
  {
    CountAppend(procs, p => IsTearing(p), e);
  }

  lemma FlowStep(s: State, a: Action)
    requires Enabled(s, a)
    ensures Do(s, a).minted + BeingTorn(Do(s, a).procs) + (if a.Torn? then 1 else 0)
            == s.minted + BeingTorn(s.procs) + (if Produces(a) then 1 else 0)
  {
    match a {
      case Begin(p, _) => TornAppend(s.procs, Starting(p));
      case Arrive(i, _) => ArriveFlow(s, a);
      case Abandon(i) =>
        TornUpdate(s.procs, i, Leaving);
        TornAppend(s.procs[i := Leaving], Abandoned(s.procs[i].provider));
      case ArriveAbandoned(i, _) => TornUpdate(s.procs, i, Do(s, a).procs[i]);
      case Torn(i) => TornUpdate(s.procs, i, Leaving);
      case Clean(i, _, _) => TornUpdate(s.procs, i, Leaving);
      case Return(i) => TornUpdate(s.procs, i, Gone);
      case FlowEnds(_, _) =>
      case CloseBegin =>
    }
  }

  lemma ArriveFlow(s: State, a: Action)
    requires Enabled(s, a) && a.Arrive?
    ensures Do(s, a).minted + BeingTorn(Do(s, a).procs)
            == s.minted + BeingTorn(s.procs) + (if a.outcome.Some? then 1 else 0)
  {
    var after := Do(s, a);
    if a.outcome.Some? && !s.closed {
      TornUpdate(s.procs, a.i, Leaving);
      TornAppend(s.procs[a.i := Leaving], Watching(s.minted + 1));
    } else {
      TornUpdate(s.procs, a.i, after.procs[a.i]);
    }
  }

  /** No flow leaks: in every interleaving each flow a provider produced was listed, was torn down, or is being torn
      down. */
  lemma {:induction false} FlowsConserved(actions: seq<Action>)
    ensures var s := Run(Empty, actions); ProducedIn(actions) == s.minted + TornIn(actions) + BeingTorn(s.procs)
  {
    if actions != [] {
      var before := Run(Empty, actions[..|actions| - 1]);
      FlowsConserved(actions[..|actions| - 1]);
      if Enabled(before, actions[|actions| - 1]) { FlowStep(before, actions[|actions| - 1]); }
    }
  }

  /** No action forgets a flow that is pending. */
  lemma PendingIsKept(actions: seq<Action>, a: Action, id: nat)
    requires var s := Run(Empty, actions); Enabled(s, a) && id in PendingIds(s.flows)
    ensures id in Do(Run(Empty, actions), a).flows
  {
    var s := Run(Empty, actions);
    EveryInterleaving(actions);
    if a.Clean? { SweptMembers(s.order, a.late, Excess(FinishedIn(s.order, a.early))); }
  }

  lemma ClosedListsNone(s: State, a: Action)
    requires s.closed && Enabled(s, a)
    ensures Do(s, a).closed && Do(s, a).flows.Keys <= s.flows.Keys
  {
    if a.Clean? { assert Do(s, a).flows == Listed(s.flows, Do(s, a).order); }
  }

  /** Once closed, a backend lists no flow it had not listed before: who cancels the listed ones at the close
      has cancelled all. */
  lemma {:induction false} ClosedForGood(s: State, actions: seq<Action>)
    requires s.closed
    ensures Run(s, actions).closed && Run(s, actions).flows.Keys <= s.flows.Keys
  {
    if actions != [] {
      ClosedForGood(s, actions[..|actions| - 1]);
      var before := Run(s, actions[..|actions| - 1]);
      if Enabled(before, actions[|actions| - 1]) { ClosedListsNone(before, actions[|actions| - 1]); }
    }
  }

  lemma DroppedAreOlder(order: seq<nat>, finished: set<nat>, excess: nat, gone: nat, kept: nat)
    requires Rising(order)
    requires gone in order && gone !in Swept(order, finished, excess)
    requires kept in finished && kept in Swept(order, finished, excess)
    ensures gone in finished && gone < kept
  {
    SweptMembers(order, finished, excess);
    var cut := SweptDropsTheOldest(order, finished, excess);
    WithoutMembers(order[..cut], finished);
    assert order == order[..cut] + order[cut..];
    assert gone in order[..cut] && kept in order[cut..];
    var i :| 0 <= i < cut && order[i] == gone;
    var j :| cut <= j < |order| && order[j] == kept;
  }

  /** A clean-up forgets only finished flows, each older than every finished flow it keeps. */
  lemma CleanForgetsTheOldest(actions: seq<Action>, a: Action, gone: nat, kept: nat)
    requires var s := Run(Empty, actions);
             && a.Clean? && Enabled(s, a)
             && gone in s.flows && gone !in Do(s, a).flows
             && kept in a.late && kept in Do(s, a).flows
    ensures gone in a.late && gone < kept
  {
    var s := Run(Empty, actions);
    EveryInterleaving(actions);
    DroppedAreOlder(s.order, a.late, Excess(FinishedIn(s.order, a.early)), gone, kept);
  }

  lemma {:induction false} WithoutMembers(order: seq<nat>, dropped: set<nat>)
    ensures forall id :: id in Without(order, dropped) <==> id in order && id !in dropped
  {
    if order != [] { WithoutMembers(order[1..], dropped); }
  }

  /** A clean-up keeps as many finished flows as the limit allows: exactly as many, when no flow ended
      between its two passes. */
  lemma CleanKeepsTheLimit(s: State, a: Action)
    requires a.Clean? && Enabled(s, a)
    ensures var before := FinishedIn(s.order, a.late);
            var after := FinishedIn(Do(s, a).order, a.late);
            && after == before - Excess(FinishedIn(s.order, a.early))
            && after >= Min(before, MAX_RETAINED)
            && (a.early == a.late ==> after == Min(before, MAX_RETAINED))
  {
    CountAtMost(s.order, id => id in a.early, id => id in a.late);
    SweptCount(s.order, a.late, Excess(FinishedIn(s.order, a.early)));
  }

  // ----- The backend's own fields

  ghost function FlowsOf(flows: map<nat, Provider>, ids: set<nat>, p: Provider): set<nat> {
    set id | id in ids && id in flows && flows[id] == p
  }

  lemma SeenOneMore(flows: map<nat, Provider>, seen: set<nat>, left: set<nat>, id: nat, p: Provider)
    requires id in left && left <= flows.Keys
    ensures |seen - (left - {id})| == |seen - left| + (if id in seen then 1 else 0)
    ensures |FlowsOf(flows, seen - (left - {id}), p)|
            == |FlowsOf(flows, seen - left, p)| + (if id in seen && flows[id] == p then 1 else 0)
  {
    var before, after := seen - left, seen - (left - {id});
    assert after == if id in seen then before + {id} else before;
    assert FlowsOf(flows, after, p)
        == if id in seen && flows[id] == p then FlowsOf(flows, before, p) + {id} else FlowsOf(flows, before, p);
  }

  ghost predicate Shows(flows: map<nat, Provider>, logins: map<nat, Login>) {
    flows.Keys == logins.Keys && forall id :: id in flows ==> flows[id] == logins[id].provider
  }

  lemma ShowsOneMore(flows: map<nat, Provider>, logins: map<nat, Login>, id: nat, login: Login)
    requires Shows(flows, logins)
    ensures Shows(flows[id := login.provider], logins[id := login])
  {
  }

  /** An answer in time gives the place back. Without a flow, or in a closed backend, it lists none. */
  lemma ArriveListsNone(s: State, i: nat, outcome: Option<Status>)
    requires Enabled(s, Arrive(i, outcome)) && (outcome.None? || s.closed)
    ensures var after, p := Do(s, Arrive(i, outcome)), s.procs[i].provider;
            after == GivenBack(s, p).(procs := after.procs)
  {
  }

  /** Otherwise it lists the flow last, under a new number. */
  lemma ArriveLists(s: State, i: nat, status: Status)
    requires OrderSound(s) && Enabled(s, Arrive(i, Some(status))) && !s.closed
    ensures var after, p, n := Do(s, Arrive(i, Some(status))), s.procs[i].provider, s.minted + 1;
            && n !in s.flows
            && after == GivenBack(s, p).(minted := n, order := s.order + [n], flows := s.flows[n := Login(p, status)],
                                         working := s.working + 1, procs := after.procs)
  {
  }

  lemma CleanShows(s: State, a: Action, flows: map<nat, Provider>)
    requires Enabled(s, a) && a.Clean? && Shows(flows, s.flows)
    ensures var after := Do(s, a);
            && after.order == Swept(s.order, a.late, Excess(FinishedIn(s.order, a.early)))
            && Shows(Listed(flows, after.order), after.flows)
            && after == s.(order := after.order, flows := after.flows, procs := after.procs)
  {
  }

  /** The login bookkeeping as the backend's lock guards it, one method a critical section. flows keeps
      each flow's provider; its status is behind its own lock and arrives as what was read. */
  class Desk {
    var flows: map<nat, Provider>
    var order: seq<nat>
    var minted: nat
    var starting: map<Provider, int>
    var total: int
    var closed: bool
    ghost var sys: State

    ghost predicate Valid()
      reads this
    {
      OrderSound(sys) && Matches(sys)
    }

    /** The fields are those of s. */
    ghost predicate Matches(s: State)
      reads this
    {
      && Shows(flows, s.flows) && order == s.order && minted == s.minted && starting == s.starting
      && total == s.total && closed == s.closed
    }

    constructor ()
      ensures Valid() && sys == Empty
    {
      flows, order, minted, starting, total, closed := map[], [], 0, map[], 0, false;
      sys := Empty;
    }

    /** Reserves a place, unless the backend is closed or the caps are reached. */
    method TakePlace(p: Provider, seen: set<nat>) returns (ok: bool)
      requires Valid() && Enabled(sys, Begin(p, seen))
      modifies this
      ensures Valid() && sys == Do(old(sys), Begin(p, seen))
      ensures ok <==> !old(closed) && old(total) + |seen| < MAX_PENDING
                      && Of(old(starting), p) + |FlowsOf(old(flows), seen, p)| < (if p.OpenAI? then 1 else 4)
      ensures ok ==> total == old(total) + 1 && starting == old(starting)[p := Of(old(starting), p) + 1]
      ensures !ok ==> total == old(total) && starting == old(starting)
      ensures ok ==> sys.procs == old(sys.procs) + [Starting(p)]
    {
      OrderKept(sys, Begin(p, seen));
      ghost var was := sys;
      sys := Do(sys, Begin(p, seen));
      if closed { return false; }
      var all, mine := CountPending(p, seen);
      assert FlowsOf(flows, seen, p) == OfProvider(was.flows, seen, p);
      if all >= MAX_PENDING || mine >= PendingLoginsFor(p) { return false; }
      total := total + 1;
      starting := starting[p := Of(starting, p) + 1];
      return true;
    }

    method CountPending(p: Provider, seen: set<nat>) returns (all: int, mine: int)
      requires seen <= flows.Keys
      ensures all == total + |seen| && mine == Of(starting, p) + |FlowsOf(flows, seen, p)|
    {
      all, mine := total, Of(starting, p);
      var left := flows.Keys;
      while left != {}
        invariant left <= flows.Keys
        invariant all == total + |seen - left|
        invariant mine == Of(starting, p) + |FlowsOf(flows, seen - left, p)|
        decreases |left|
      {
        var id :| id in left;
        SeenOneMore(flows, seen, left, id, p);
        if id in seen {
          all := all + 1;
          if flows[id] == p { mine := mine + 1; }
        }
        left := left - {id};
      }
      assert seen - {} == seen;
    }

    method GiveBack(p: Provider)
      modifies this`starting, this`total
      ensures starting == old(starting)[p := Of(old(starting), p) - 1] && total == old(total) - 1
    {
      total := total - 1;
      starting := starting[p := Of(starting, p) - 1];
    }

    /** A start is answered in time: its place is given back in the section that lists the flow. */
    method Answered(ghost i: nat, p: Provider, outcome: Option<Status>) returns (id: Option<nat>)
      requires Valid() && Enabled(sys, Arrive(i, outcome)) && sys.procs[i].provider == p
      modifies this
      ensures Valid() && sys == Do(old(sys), Arrive(i, outcome))
      ensures id.Some? <==> outcome.Some? && !old(closed)
      ensures id.Some? ==> id.value !in old(flows) && order == old(order) + [id.value] && flows == old(flows)[id.value := p]
      ensures id.None? ==> order == old(order) && flows == old(flows)
      ensures total == old(total) - 1 && starting == old(starting)[p := Of(old(starting), p) - 1]
    {
      ghost var was := sys;
      GiveBack(p);
      if outcome.None? || closed {
        ArriveKeepsOrder(was, Arrive(i, outcome));
        ArriveListsNone(was, i, outcome);
        sys := Do(was, Arrive(i, outcome));
        id := None;
      } else {
        var number := ListAnswer(was, i, p, outcome.value);
        id := Some(number);
      }
    }

    /** Lists the flow of a start that was answered, its place given back already. */
    method ListAnswer(ghost was: State, ghost i: nat, p: Provider, status: Status) returns (number: nat)
      requires OrderSound(was) && Enabled(was, Arrive(i, Some(status))) && was.procs[i].provider == p
      requires Matches(GivenBack(was, p)) && !closed
      modifies this
      ensures Valid() && sys == Do(was, Arrive(i, Some(status))) && number !in old(flows)
      ensures order == old(order) + [number] && flows == old(flows)[number := p]
      ensures total == old(total) && starting == old(starting)
    {
      ArriveKeepsOrder(was, Arrive(i, Some(status)));
      ArriveLists(was, i, status);
      number := Register(p, GivenBack(was, p), Login(p, status));
      sys := Do(was, Arrive(i, Some(status)));
    }

    method Register(p: Provider, ghost s: State, ghost login: Login) returns (id: nat)
      requires Matches(s) && login.provider == p
      modifies this`minted, this`flows, this`order
      ensures Matches(s.(minted := id, order := s.order + [id], flows := s.flows[id := login]))
      ensures id == minted == old(minted) + 1
      ensures flows == old(flows)[id := p] && order == old(order) + [id]
    {
      ShowsOneMore(flows, s.flows, minted + 1, login);
      minted := minted + 1;
      flows := flows[minted := p];
      order := order + [minted];
      id := minted;
    }

    /** A start nobody waits for is answered: its place is given back all the same. */
    method Discard(ghost i: nat, p: Provider, produced: bool)
      requires Valid() && Enabled(sys, ArriveAbandoned(i, produced)) && sys.procs[i].provider == p
      modifies this
      ensures Valid() && sys == Do(old(sys), ArriveAbandoned(i, produced))
      ensures total == old(total) - 1 && starting == old(starting)[p := Of(old(starting), p) - 1]
      ensures order == old(order) && flows == old(flows)
    {
      sys := Do(sys, ArriveAbandoned(i, produced));
      GiveBack(p);
    }

    /** Two passes over the order, the second filtering it in place. */
    method CleanUp(ghost i: nat, early: set<nat>, late: set<nat>)
      requires Valid() && Enabled(sys, Clean(i, early, late))
      modifies this
      ensures Valid() && sys == Do(old(sys), Clean(i, early, late))
    {
      CleanKeepsOrder(sys, Clean(i, early, late));
      var finished := CountFinished(early);
      CleanShows(sys, Clean(i, early, late), flows);
      Filter(late, Excess(finished));
      sys := Do(sys, Clean(i, early, late));
    }

    method CountFinished(early: set<nat>) returns (finished: nat)
      ensures finished == FinishedIn(order, early)
    {
      finished := 0;
      var k := 0;
      while k < |order|
        invariant 0 <= k <= |order| && finished == FinishedIn(order[..k], early)
      {
        assert order[..k + 1][..k] == order[..k];
        if order[k] in early { finished := finished + 1; }
        k := k + 1;
      }
      assert order[..k] == order;
    }

    /** One flow of the order: dropped from the table, or kept. */
    method FilterOne(id: nat, late: set<nat>, finished: nat, kept: seq<nat>, ghost was: seq<nat>,
                     ghost had: map<nat, Provider>, ghost excess: nat, ghost k: nat)
      returns (left: nat, now: seq<nat>)
      requires Rising(was) && k < |was| && id == was[k] && FilteredTo(was, had, late, excess, k, kept, finished, flows)
      modifies this`flows
      ensures FilteredTo(was, had, late, excess, k + 1, now, left, flows)
    {
      if finished > 0 && id in late {
        FilterDrops(was, had, late, excess, k, kept, finished, flows);
        flows := flows - {id};
        return finished - 1, kept;
      }
      FilterKeeps(was, had, late, excess, k, kept, finished, flows);
      return finished, kept + [id];
    }

    method Filter(late: set<nat>, excess: nat)
      requires Rising(order) && forall id :: id in order <==> id in flows
      modifies this`order, this`flows
      ensures order == Swept(old(order), late, excess)
      ensures flows == Listed(old(flows), order)
    {
      var kept, finished, k := [], excess, 0;
      ghost var was, had := order, flows;
      FilterStarts(was, had, late, excess);
      while k < |order|
        invariant order == was
        invariant FilteredTo(was, had, late, excess, k, kept, finished, flows)
      {
        finished, kept := FilterOne(order[k], late, finished, kept, was, had, excess, k);
        k := k + 1;
      }
      FilterEnds(was, had, late, excess, kept, finished, flows);
      order := kept;
    }

    /** Closing collects, in the same section, every flow there is to cancel. */
    method CloseBackend() returns (listed: set<nat>)
      requires Valid()
      modifies this
      ensures Valid() && sys == Do(old(sys), CloseBegin)
      ensures closed && flows == old(flows) && order == old(order) && listed == flows.Keys
      ensures PendingIds(sys.flows) <= listed
    {
      closed := true;
      sys := Do(sys, CloseBegin);
      listed := ListFlows();
    }

    method ListFlows() returns (listed: set<nat>)
      ensures listed == flows.Keys
    {
      listed := {};
      var left := flows.Keys;
      while left != {}
        invariant left <= flows.Keys && listed == flows.Keys - left
        decreases |left|
      {
        var id :| id in left;
        left, listed := left - {id}, listed + {id};
      }
    }
  }
}
