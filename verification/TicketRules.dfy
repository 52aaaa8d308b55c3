/** The rules a project's ticket table obeys: who is whose subticket, which
    dependencies are admissible, what a parent's status is and which ticket may run.

    Functions say what the rules mean; the methods below them are the loops that
    compute it. */
module TicketRules {
  import opened Wrappers

  /** Other is any text that names no status; a request may carry one, a table never does. */
  datatype Status =
    | Open | Planning | Review | Ready | Running | Blocked | Done | Closed
    | Other(text: string)

  datatype Ticket = Ticket(
    id: string,
    title: string,
    status: Status,
    parent: string,            // "" for a top-level ticket
    dependsOn: seq<string>,
    runs: seq<string>,
    mergePending: bool)

  datatype Progress = Progress(done: nat, total: nat)

  datatype TicketView = TicketView(ticket: Ticket, runnable: bool, progress: Option<Progress>)

  /** Why a change is refused. */
  datatype Refusal =
    | NoTicket
    | BadMove(from: Status, to: Status)
    | SelfDependency
    | MissingDependency
    | ParentDependency
    | SubticketDependency
    | ForeignDraft
    | Cycle
    | BeingPlanned
    | NotThePlanner
    | NotPlanning
    | EmptyTitle
    | NoParent
    | NestedParent
    | PlannerChangesStatus
    | UnknownStatus
    | PartOfPlan
    | FollowsSubtickets
    | EmptyText
    | OtherRun
    | AlreadyRunning
    | NotRunnable
    | NotInReview
    | NotPlannable
    | NoPlan
    | EmptyPlan
    | BadOutcome
    | NoRunDrives
    | NotReady
    | Busy
    | HasSubtickets
    | Awaited
    | NotSaved

  datatype Result<+T> = Ok(value: T) | Err(refusal: Refusal)

  // ----- Looking tickets up

  function FindFrom(rows: seq<Ticket>, id: string, k: nat): (i: int)
    requires k <= |rows|
    ensures -1 <= i < |rows|
    ensures i >= 0 ==> k <= i && rows[i].id == id && forall j :: k <= j < i ==> rows[j].id != id
    ensures i < 0 ==> forall j :: k <= j < |rows| ==> rows[j].id != id
    decreases |rows| - k
  {
    if k == |rows| then -1
    else if rows[k].id == id then k
    else FindFrom(rows, id, k + 1)
  }

  /** The first row with this id, or -1. */
  function FindTicket(rows: seq<Ticket>, id: string): (i: int)
    ensures -1 <= i < |rows|
    ensures i >= 0 ==> rows[i].id == id && forall j :: 0 <= j < i ==> rows[j].id != id
    ensures i < 0 ==> forall j :: 0 <= j < |rows| ==> rows[j].id != id
  {
    FindFrom(rows, id, 0)
  }

  function Subtickets(rows: seq<Ticket>, id: string): (kids: seq<Ticket>)
    ensures forall t :: t in kids <==> t in rows && t.parent == id
  {
    if rows == [] then []
    else
      var last := rows[|rows| - 1];
      assert rows == rows[..|rows| - 1] + [last];
      Subtickets(rows[..|rows| - 1], id) + (if last.parent == id then [last] else [])
  }

  function Ids(rows: seq<Ticket>): (ids: seq<string>)
    ensures |ids| == |rows|
    ensures forall i :: 0 <= i < |ids| ==> ids[i] == rows[i].id
  {
    seq(|rows|, i requires 0 <= i < |rows| => rows[i].id)
  }

  predicate Held(s: Status) {
    s == Planning || s == Review
  }

  /** A subticket whose parent a plan holds. */
  predicate IsDraft(rows: seq<Ticket>, t: Ticket) {
    var i := FindTicket(rows, t.parent);
    i >= 0 && Held(rows[i].status)
  }

  predicate LastRun(t: Ticket, run: string) {
    |t.runs| > 0 && t.runs[|t.runs| - 1] == run
  }

  // ----- Moves, locks and plans

  function PersonMove(from: Status, to: Status): Option<Refusal> {
    if || (to == Closed && from != Running && from != Planning && from != Review)
       || (from == Open && to == Ready)
       || (from == Ready && to == Open)
       || (from == Blocked && (to == Open || to == Ready))
       || (from == Closed && to == Open)
       || ((from == Ready || from == Blocked) && to == Done)
    then None
    else Some(BadMove(from, to))
  }

  /** What keeps a run, or with run == "" a person, from changing which subtickets parent has and what
      they wait for. */
  function PlanLock(rows: seq<Ticket>, parent: string, run: string): Option<Refusal> {
    var i := FindTicket(rows, parent);
    var planning := i >= 0 && rows[i].status == Planning;
    if run == "" && planning then Some(BeingPlanned)
    else if run == "" then None
    else if i < 0 then Some(NotThePlanner)
    else if !LastRun(rows[i], run) then Some(NotThePlanner)
    else if !planning then Some(NotPlanning)
    else None
  }

  predicate Plannable(t: Ticket, hasKids: bool) {
    t.parent == "" && t.status == Open && !hasKids
  }

  // ----- A parent's status

  predicate SomeKid(kids: seq<Ticket>, s: Status) {
    exists k :: k in kids && k.status == s
  }

  predicate EveryKidIn(kids: seq<Ticket>, statuses: set<Status>) {
    forall k :: k in kids ==> k.status in statuses
  }

  /** The status a parent takes from its subtickets. */
  function Derived(kids: seq<Ticket>): Status {
    if SomeKid(kids, Done) && EveryKidIn(kids, {Done, Closed}) then Done
    else if EveryKidIn(kids, {Closed}) then Closed
    else if SomeKid(kids, Blocked) then Blocked
    else if SomeKid(kids, Running) then Running
    else if SomeKid(kids, Ready) then Ready
    else Open
  }

  // ----- Waiting

  /** t is held back by every dependency of its own and every one its parent has. */
  function WaitsOn(rows: seq<Ticket>, t: Ticket): seq<string> {
    var p := FindTicket(rows, t.parent);
    if p >= 0 then t.dependsOn + rows[p].dependsOn else t.dependsOn
  }

  /** Everything a ticket waits for: its dependencies, its parent's, and its subtickets. */
  function Edges(rows: seq<Ticket>, id: string): seq<string> {
    var i := FindTicket(rows, id);
    if i < 0 then [] else WaitsOn(rows, rows[i]) + Ids(Subtickets(rows, id))
  }

  /** A chain of waits: each element waits for the next. */
  ghost predicate IsWalk(rows: seq<Ticket>, path: seq<string>) {
    && path != []
    && forall i :: 0 <= i < |path| - 1 ==> path[i + 1] in Edges(rows, path[i])
  }

  ghost predicate WalkBetween(rows: seq<Ticket>, path: seq<string>, from: string, to: string) {
    IsWalk(rows, path) && path[0] == from && path[|path| - 1] == to
  }

  ghost predicate Reaches(rows: seq<Ticket>, from: string, to: string) {
    exists path :: WalkBetween(rows, path, from, to)
  }

  /** No ticket waits, through however many others, for itself. */
  ghost predicate Acyclic(rows: seq<Ticket>) {
    forall path :: IsWalk(rows, path) && |path| > 1 ==> path[0] != path[|path| - 1]
  }

  predicate IsDone(rows: seq<Ticket>, id: string) {
    var i := FindTicket(rows, id);
    i >= 0 && rows[i].status == Done
  }

  predicate Childless(rows: seq<Ticket>, id: string) {
    forall t :: t in rows ==> t.parent != id
  }

  /** A ready ticket without subtickets whose waits are all done. */
  predicate Runnable(rows: seq<Ticket>, t: Ticket) {
    && Childless(rows, t.id)
    && t.status == Ready
    && forall d :: d in WaitsOn(rows, t) ==> IsDone(rows, d)
  }

  // ----- Admissible dependencies

  /** The tickets a new wait of t must not come back to. */
  ghost predicate WaitsBackTo(rows: seq<Ticket>, t: Ticket, d: string) {
    exists target :: target in [t.id] + Ids(Subtickets(rows, t.id)) && Reaches(rows, d, target)
  }

  /** Why t may not wait for d, if it may not. */
  ghost function DependencyRefusal(rows: seq<Ticket>, t: Ticket, d: string): Option<Refusal> {
    var i := FindTicket(rows, d);
    if d == t.id then Some(SelfDependency)
    else if i < 0 then Some(MissingDependency)
    else if d == t.parent then Some(ParentDependency)
    else if rows[i].parent == t.id then Some(SubticketDependency)
    else if IsDraft(rows, rows[i]) && rows[i].parent != t.parent then Some(ForeignDraft)
    else if WaitsBackTo(rows, t, d) then Some(Cycle)
    else None
  }

  /** The refusal of the first dependency that has one; otherwise the dependencies,
      each at its first place only. */
  ghost function CheckedDeps(rows: seq<Ticket>, t: Ticket, deps: seq<string>): Result<seq<string>> {
    if deps == [] then Ok([])
    else
      var init, d := deps[..|deps| - 1], deps[|deps| - 1];
      match CheckedDeps(rows, t, init)
      case Err(e) => Err(e)
      case Ok(out) =>
        match DependencyRefusal(rows, t, d)
        case Some(e) => Err(e)
        case None => Ok(if d in out then out else out + [d])
  }

  /** What CheckedDeps accepts, said without its recursion. */
  lemma {:induction false} CheckedDepsMeaning(rows: seq<Ticket>, t: Ticket, deps: seq<string>)
    ensures CheckedDeps(rows, t, deps).Ok? <==>
            forall d :: d in deps ==> DependencyRefusal(rows, t, d) == None
    ensures CheckedDeps(rows, t, deps).Ok? ==>
              var out := CheckedDeps(rows, t, deps).value;
              && (forall d :: d in out <==> d in deps)
              && (forall i, j :: 0 <= i < j < |out| ==> out[i] != out[j])
  {
    if deps != [] {
      assert deps == deps[..|deps| - 1] + [deps[|deps| - 1]];
      CheckedDepsMeaning(rows, t, deps[..|deps| - 1]);
    }
  }

  /** The first place of d. */
  function FirstAt(deps: seq<string>, d: string): (k: nat)
    requires d in deps
    ensures k < |deps| && deps[k] == d && d !in deps[..k]
  {
    if deps[0] == d then 0 else FirstAt(deps[1..], d) + 1
  }

  lemma {:induction false} FirstAtAppended(deps: seq<string>, d: string, last: string)
    requires d in deps
    ensures FirstAt(deps + [last], d) == FirstAt(deps, d)
  {
    if deps[0] != d {
      assert (deps + [last])[1..] == deps[1..] + [last];
      FirstAtAppended(deps[1..], d, last);
    }
  }

  /** Accepted dependencies keep the order in which they were first asked for. */
  lemma {:induction false} CheckedDepsOrder(rows: seq<Ticket>, t: Ticket, deps: seq<string>)
    requires CheckedDeps(rows, t, deps).Ok?
    ensures var out := CheckedDeps(rows, t, deps).value;
            && (forall d :: d in out ==> d in deps)
            && forall i, j :: 0 <= i < j < |out| ==> FirstAt(deps, out[i]) < FirstAt(deps, out[j])
  {
    if deps != [] {
      var init, d := deps[..|deps| - 1], deps[|deps| - 1];
      assert deps == init + [d];
      CheckedDepsOrder(rows, t, init);
      CheckedDepsMeaning(rows, t, init);
      CheckedDepsMeaning(rows, t, deps);
      forall x | x in init ensures FirstAt(deps, x) == FirstAt(init, x) { FirstAtAppended(init, x, d); }
      if d !in init { assert FirstAt(deps, d) == |init|; }
    }
  }

  /** How pressing a status is for the parent. */
  function Rank(s: Status): nat {
    match s
    case Blocked => 3
    case Running => 2
    case Ready => 1
    case _ => 0
  }

  /** A parent is finished when its subtickets are, closed only when all of them are; otherwise it has the
      most pressing status among them, open when none is pressing. */
  lemma DerivedMeaning(kids: seq<Ticket>)
    ensures var finished := forall k :: k in kids ==> k.status in {Done, Closed};
            && (Derived(kids) == Closed <==> forall k :: k in kids ==> k.status == Closed)
            && (Derived(kids) == Done <==> finished && exists k :: k in kids && k.status == Done)
            && (!finished ==>
                  && (forall k :: k in kids ==> Rank(k.status) <= Rank(Derived(kids)))
                  && (Derived(kids) == Open || (Rank(Derived(kids)) > 0 && exists k :: k in kids && k.status == Derived(kids))))
  {
    if Derived(kids) == Blocked { assert SomeKid(kids, Blocked); }
  }

  // ----- The loops

  method ComputeSubtickets(rows: seq<Ticket>, id: string) returns (out: seq<Ticket>)
    ensures out == Subtickets(rows, id)
  {
    out := [];
    for k := 0 to |rows|
      invariant out == Subtickets(rows[..k], id)
    {
      assert rows[..k + 1][..k] == rows[..k];
      if rows[k].parent == id {
        out := out + [rows[k]];
      }
    }
    assert rows[..|rows|] == rows;
  }

  /** How many of the tickets have this status. */
  function Count(kids: seq<Ticket>, s: Status): (n: nat)
    ensures n <= |kids|
    ensures n > 0 <==> SomeKid(kids, s)
  {
    if kids == [] then 0
    else
      var last := kids[|kids| - 1];
      assert kids == kids[..|kids| - 1] + [last];
      Count(kids[..|kids| - 1], s) + (if last.status == s then 1 else 0)
  }

  lemma {:induction false} CountAll(kids: seq<Ticket>)
    ensures Count(kids, Done) + Count(kids, Closed) <= |kids|
    ensures Count(kids, Done) + Count(kids, Closed) == |kids| <==> EveryKidIn(kids, {Done, Closed})
    ensures Count(kids, Closed) == |kids| <==> EveryKidIn(kids, {Closed})
  {
    if kids != [] {
      assert kids == kids[..|kids| - 1] + [kids[|kids| - 1]];
      CountAll(kids[..|kids| - 1]);
    }
  }

  /** The status derived from counts of each status meets its meaning. */
  method Derive(kids: seq<Ticket>) returns (s: Status)
    ensures s == Derived(kids)
  {
    var count: map<Status, nat> := map[];
    for k := 0 to |kids|
      invariant forall x :: (if x in count then count[x] else 0) == Count(kids[..k], x)
    {
      assert kids[..k + 1][..k] == kids[..k];
      var was := if kids[k].status in count then count[kids[k].status] else 0;
      count := count[kids[k].status := was + 1];
    }
    assert kids[..|kids|] == kids;
    CountAll(kids);
    var done := if Done in count then count[Done] else 0;
    var closed := if Closed in count then count[Closed] else 0;
    if done > 0 && done + closed == |kids| {
      s := Done;
    } else if closed == |kids| {
      s := Closed;
    } else if Blocked in count && count[Blocked] > 0 {
      s := Blocked;
    } else if Running in count && count[Running] > 0 {
      s := Running;
    } else if Ready in count && count[Ready] > 0 {
      s := Ready;
    } else {
      s := Open;
    }
  }

  ghost function IdSet(rows: seq<Ticket>): set<string> {
    set t | t in rows :: t.id
  }

  /** Every ticket finished between two states of the search has all its waits inside it. */
  ghost predicate Finished(rows: seq<Ticket>, before: set<string>, after: set<string>) {
    forall x, y :: x in after && x !in before && y in Edges(rows, x) ==> y in after
  }

  /** A set that contains from, not to, and every wait of its members cuts to off. */
  lemma {:induction false} ClosedSetBlocks(rows: seq<Ticket>, path: seq<string>, closed: set<string>)
    requires IsWalk(rows, path) && path[0] in closed && Finished(rows, {}, closed)
    ensures path[|path| - 1] in closed
  {
    if |path| > 1 {
      ClosedSetBlocks(rows, path[1..], closed);
    }
  }

  lemma SingleStop(rows: seq<Ticket>, id: string)
    ensures WalkBetween(rows, [id], id, id) && Reaches(rows, id, id)
  {
    assert WalkBetween(rows, [id], id, id);
  }

  lemma ExtendWalk(rows: seq<Ticket>, from: string, rest: seq<string>, to: string)
    requires rest != [] && WalkBetween(rows, rest, rest[0], to) && rest[0] in Edges(rows, from)
    ensures WalkBetween(rows, [from] + rest, from, to) && Reaches(rows, from, to)
  {
    var path := [from] + rest;
    forall i | 0 <= i < |path| - 1 ensures path[i + 1] in Edges(rows, path[i]) {
      if i > 0 {
        assert rest[i] in Edges(rows, rest[i - 1]);
      }
    }
    assert WalkBetween(rows, path, from, to);
  }

  lemma ClosedSetSeparates(rows: seq<Ticket>, from: string, to: string, closed: set<string>)
    requires from in closed && to !in closed && Finished(rows, {}, closed)
    ensures !Reaches(rows, from, to)
  {
    if Reaches(rows, from, to) {
      var walk :| WalkBetween(rows, walk, from, to);
      ClosedSetBlocks(rows, walk, closed);
    }
  }

  /** The depth-first search for a chain of waits. seen is shared by the whole search:
      what it marks stays marked for every later branch.

      It ends on any table, cyclic or not, and started with nothing seen it returns a
      path exactly when there is one. */
  method WaitPath(rows: seq<Ticket>, from: string, to: string, seen: set<string>)
    returns (path: seq<string>, marked: set<string>)
    requires to !in seen
    ensures seen <= marked && to !in marked
    ensures path != [] ==> WalkBetween(rows, path, from, to)
    ensures path == [] ==> from in marked && Finished(rows, seen, marked)
    ensures seen == {} ==> (path != [] <==> Reaches(rows, from, to))
    decreases IdSet(rows) - seen
  {
    if from == to {
      SingleStop(rows, to);
      return [to], seen;
    }
    if from in seen {
      return [], seen;
    }
    marked := seen + {from};
    var i := FindTicket(rows, from);
    if i >= 0 {
      assert from in IdSet(rows);
      var kids := ComputeSubtickets(rows, from);
      var edges := WaitsOn(rows, rows[i]) + Ids(kids);
      for n := 0 to |edges|
        invariant seen + {from} <= marked && to !in marked
        invariant Finished(rows, seen + {from}, marked)
        invariant forall m :: 0 <= m < n ==> edges[m] in marked
      {
        var rest;
        rest, marked := WaitPath(rows, edges[n], to, marked);
        if rest != [] {
          path := [from] + rest;
          ExtendWalk(rows, from, rest, to);
          return;
        }
      }
    }
    path := [];
    assert Finished(rows, seen, marked);
    if seen == {} {
      ClosedSetSeparates(rows, from, to, marked);
    }
  }

  /** Whether a wait of t for d would come back to t or to one of its subtickets. */
  method SearchBack(rows: seq<Ticket>, t: Ticket, d: string) returns (back: bool)
    ensures back <==> WaitsBackTo(rows, t, d)
  {
    var kids := ComputeSubtickets(rows, t.id);
    var targets := [t.id] + Ids(kids);
    for n := 0 to |targets|
      invariant forall m :: 0 <= m < n ==> !Reaches(rows, d, targets[m])
    {
      var path, _ := WaitPath(rows, d, targets[n], {});
      if path != [] {
        assert targets[n] in [t.id] + Ids(Subtickets(rows, t.id));
        return true;
      }
    }
    return false;
  }

  method CheckDeps(rows: seq<Ticket>, t: Ticket, deps: seq<string>) returns (r: Result<seq<string>>)
    ensures r == CheckedDeps(rows, t, deps)
  {
    var out: seq<string> := [];
    for k := 0 to |deps|
      invariant CheckedDeps(rows, t, deps[..k]) == Ok(out)
    {
      var d := deps[k];
      CheckedDepsStep(rows, t, deps, k);
      var i := FindTicket(rows, d);
      if d == t.id {
        return Err(SelfDependency);
      } else if i < 0 {
        return Err(MissingDependency);
      } else if d == t.parent {
        return Err(ParentDependency);
      } else if rows[i].parent == t.id {
        return Err(SubticketDependency);
      } else if IsDraft(rows, rows[i]) && rows[i].parent != t.parent {
        return Err(ForeignDraft);
      }
      if d !in out {
        var back := SearchBack(rows, t, d);
        if back {
          return Err(Cycle);
        }
        out := out + [d];
      }
    }
    assert deps[..|deps|] == deps;
    return Ok(out);
  }

  /** What one more dependency does to the answer so far. */
  lemma CheckedDepsStep(rows: seq<Ticket>, t: Ticket, deps: seq<string>, k: nat)
    requires k < |deps| && CheckedDeps(rows, t, deps[..k]).Ok?
    ensures var out := CheckedDeps(rows, t, deps[..k]).value;
            match DependencyRefusal(rows, t, deps[k])
            case Some(e) => deps[k] !in out && CheckedDeps(rows, t, deps) == Err(e)
            case None => CheckedDeps(rows, t, deps[..k + 1]) == Ok(if deps[k] in out then out else out + [deps[k]])
  {
    assert deps[..k + 1][..k] == deps[..k];
    CheckedDepsMeaning(rows, t, deps[..k]);
    if DependencyRefusal(rows, t, deps[k]).Some? {
      RefusedPrefix(rows, t, deps, k + 1);
    }
  }

  /** One refused dependency decides the whole list. */
  lemma {:induction false} RefusedPrefix(rows: seq<Ticket>, t: Ticket, deps: seq<string>, k: nat)
    requires k <= |deps| && CheckedDeps(rows, t, deps[..k]).Err?
    ensures CheckedDeps(rows, t, deps) == CheckedDeps(rows, t, deps[..k])
    decreases |deps|
  {
    if k < |deps| {
      var init := deps[..|deps| - 1];
      assert init[..k] == deps[..k];
      RefusedPrefix(rows, t, init, k);
    } else {
      assert deps[..k] == deps;
    }
  }

  function ViewOf(rows: seq<Ticket>, t: Ticket): TicketView {
    var kids := Subtickets(rows, t.id);
    TicketView(t, Runnable(rows, t),
               if kids == [] then None else Some(Progress(Count(kids, Done), |kids|)))
  }

  lemma NoKids(rows: seq<Ticket>, id: string)
    ensures Subtickets(rows, id) == [] <==> Childless(rows, id)
  {
    var kids := Subtickets(rows, id);
    assert kids != [] ==> kids[0] in rows && kids[0].parent == id;
    forall x | x in rows ensures x in kids <==> x.parent == id {
    }
  }

  method CountDone(kids: seq<Ticket>) returns (done: nat)
    ensures done == Count(kids, Done)
  {
    done := 0;
    for k := 0 to |kids|
      invariant done == Count(kids[..k], Done)
    {
      assert kids[..k + 1][..k] == kids[..k];
      if kids[k].status == Done {
        done := done + 1;
      }
    }
    assert kids[..|kids|] == kids;
  }

  method View(rows: seq<Ticket>, t: Ticket) returns (v: TicketView)
    ensures v == ViewOf(rows, t)
  {
    var kids := ComputeSubtickets(rows, t.id);
    NoKids(rows, t.id);
    if |kids| > 0 {
      var done := CountDone(kids);
      return TicketView(t, false, Some(Progress(done, |kids|)));
    }
    if t.status != Ready {
      return TicketView(t, false, None);
    }
    var waits := WaitsOn(rows, t);
    for k := 0 to |waits|
      invariant forall m :: 0 <= m < k ==> IsDone(rows, waits[m])
    {
      if !IsDone(rows, waits[k]) {
        return TicketView(t, false, None);
      }
    }
    return TicketView(t, true, None);
  }
}
