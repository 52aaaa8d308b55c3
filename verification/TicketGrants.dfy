/** Exactly when each request is granted, said of the ticket it names and of the table it finds. */
module TicketGrants {
  import opened Wrappers
  import opened Text
  import opened TicketRules
  import opened TicketTable
  import opened TicketInvariants
  import opened TicketLinks
  import opened TicketRows
  import opened WaitGraph

  // ----- What the grants depend on

  /** run is the newest of the ticket's runs. */
  predicate DrivenBy(t: Ticket, run: string) {
    t.runs != [] && t.runs[|t.runs| - 1..] == [run]
  }

  lemma DrivenMeans(t: Ticket, run: string)
    ensures DrivenBy(t, run) <==> LastRun(t, run)
    ensures DrivenBy(t, run) ==> run in t.runs
  {
  }

  ghost predicate HasSubticket(rows: seq<Ticket>, id: string) {
    exists k :: 0 <= k < |rows| && rows[k].parent == id
  }

  ghost predicate DoneIn(rows: seq<Ticket>, id: string) {
    exists k :: 0 <= k < |rows| && rows[k].id == id && rows[k].status == Done
  }

  /** Everything the ticket and its parent depend on is done. */
  ghost predicate WaitsAreDone(rows: seq<Ticket>, t: Ticket) {
    && (forall d :: d in t.dependsOn ==> DoneIn(rows, d))
    && (forall p, d :: 0 <= p < |rows| && rows[p].id == t.parent && d in rows[p].dependsOn ==> DoneIn(rows, d))
  }

  /** A person changes the subtickets of a ticket nobody is planning; a run those of the ticket it is
      planning, and no others. */
  ghost predicate MayRearrange(rows: seq<Ticket>, parent: string, run: string) {
    if run == "" then forall p :: 0 <= p < |rows| && rows[p].id == parent ==> rows[p].status != Planning
    else exists p :: 0 <= p < |rows| && rows[p].id == parent && rows[p].status == Planning && DrivenBy(rows[p], run)
  }

  /** A subticket of a ticket in planning or review. */
  ghost predicate PlannedUnder(rows: seq<Ticket>, parent: string) {
    exists p :: 0 <= p < |rows| && rows[p].id == parent && rows[p].status in {Planning, Review}
  }

  /** t may wait for d: it is there, it is no draft of another plan, and it does not wait, through however
      many others, for t or for a subticket of t. */
  ghost predicate MayWaitFor(rows: seq<Ticket>, t: Ticket, d: string) {
    && (exists k :: 0 <= k < |rows| && rows[k].id == d && (PlannedUnder(rows, rows[k].parent) ==> rows[k].parent == t.parent))
    && !Reaches(rows, d, t.id)
    && forall k :: 0 <= k < |rows| && rows[k].parent == t.id ==> !Reaches(rows, d, rows[k].id)
  }

  /** Which moves a person makes, from one status to another. */
  const PERSON_MOVES: set<(Status, Status)> := {
    (Open, Ready), (Open, Closed),
    (Ready, Open), (Ready, Done), (Ready, Closed),
    (Blocked, Open), (Blocked, Ready), (Blocked, Done), (Blocked, Closed),
    (Done, Closed),
    (Closed, Open)
  }

  ghost predicate At(rows: seq<Ticket>, t: Ticket, i: nat) {
    i < |rows| && rows[i] == t && FindTicket(rows, t.id) == i
  }

  lemma Found(rows: seq<Ticket>, t: Ticket) returns (i: nat)
    requires UniqueIds(rows) && t in rows
    ensures At(rows, t, i)
  {
    i :| 0 <= i < |rows| && rows[i] == t;
    FindUnique(rows, i);
  }

  lemma FoundAt(rows: seq<Ticket>, id: string)
    requires UniqueIds(rows)
    ensures forall k :: 0 <= k < |rows| && rows[k].id == id ==> FindTicket(rows, id) == k
  {
    forall k | 0 <= k < |rows| && rows[k].id == id ensures FindTicket(rows, id) == k {
      FindUnique(rows, k);
    }
  }

  lemma DoneIsFound(rows: seq<Ticket>, id: string)
    requires UniqueIds(rows)
    ensures DoneIn(rows, id) <==> IsDone(rows, id)
  {
    FoundAt(rows, id);
    if FindTicket(rows, id) >= 0 { assert rows[FindTicket(rows, id)].id == id; }
  }

  lemma WaitsAre(rows: seq<Ticket>, t: Ticket)
    requires UniqueIds(rows)
    ensures WaitsAreDone(rows, t) <==> forall d :: d in WaitsOn(rows, t) ==> IsDone(rows, d)
  {
    FoundAt(rows, t.parent);
    forall d ensures DoneIn(rows, d) <==> IsDone(rows, d) { DoneIsFound(rows, d); }
    var p := FindTicket(rows, t.parent);
    if p >= 0 {
      assert rows[p].id == t.parent;
      assert forall d :: d in WaitsOn(rows, t) <==> d in t.dependsOn || d in rows[p].dependsOn;
    }
  }

  lemma SubticketsAre(rows: seq<Ticket>, id: string)
    ensures HasSubticket(rows, id) <==> !Childless(rows, id)
    ensures HasSubticket(rows, id) <==> Subtickets(rows, id) != []
  {
    NoKids(rows, id);
    if t :| t in rows && t.parent == id {
      var k :| 0 <= k < |rows| && rows[k] == t;
    }
  }

  lemma RunnableMeans(rows: seq<Ticket>, t: Ticket)
    requires UniqueIds(rows)
    ensures Runnable(rows, t) <==> t.status == Ready && !HasSubticket(rows, t.id) && WaitsAreDone(rows, t)
  {
    WaitsAre(rows, t);
    SubticketsAre(rows, t.id);
  }

  lemma LockMeans(rows: seq<Ticket>, parent: string, run: string)
    requires UniqueIds(rows)
    ensures PlanLock(rows, parent, run).None? <==> MayRearrange(rows, parent, run)
  {
    FoundAt(rows, parent);
    var i := FindTicket(rows, parent);
    if i >= 0 { assert rows[i].id == parent; }
  }

  lemma DraftMeans(rows: seq<Ticket>, t: Ticket)
    requires UniqueIds(rows)
    ensures IsDraft(rows, t) <==> PlannedUnder(rows, t.parent)
  {
    FoundAt(rows, t.parent);
    var i := FindTicket(rows, t.parent);
    if i >= 0 { assert rows[i].id == t.parent; }
  }

  lemma PersonMoveMeans(from: Status, to: Status)
    requires !from.Other? && !to.Other? && from != to
    ensures PersonMove(from, to).None? <==> (from, to) in PERSON_MOVES
  {
  }

  // ----- Admissible dependencies

  lemma BackMeans(rows: seq<Ticket>, t: Ticket, d: string)
    ensures WaitsBackTo(rows, t, d) <==>
              Reaches(rows, d, t.id) || exists k :: 0 <= k < |rows| && rows[k].parent == t.id && Reaches(rows, d, rows[k].id)
  {
    var kids := Subtickets(rows, t.id);
    if WaitsBackTo(rows, t, d) {
      var target :| target in [t.id] + Ids(kids) && Reaches(rows, d, target);
      if target != t.id {
        var m :| 0 <= m < |kids| && Ids(kids)[m] == target;
        assert kids[m] in kids;
        var k :| 0 <= k < |rows| && rows[k] == kids[m];
      }
    }
    if k :| 0 <= k < |rows| && rows[k].parent == t.id && Reaches(rows, d, rows[k].id) {
      KidListed(rows, t.id, k);
    }
    assert t.id in [t.id] + Ids(kids);
  }

  lemma KidListed(rows: seq<Ticket>, id: string, k: nat)
    requires k < |rows| && rows[k].parent == id
    ensures rows[k].id in Ids(Subtickets(rows, id))
  {
    var kids := Subtickets(rows, id);
    assert rows[k] in kids;
    var m :| 0 <= m < |kids| && kids[m] == rows[k];
    assert Ids(kids)[m] == rows[k].id;
  }

  /** Its own parent and its own subtickets wait back for the ticket in any case. */
  lemma FamilyWaitsBack(rows: seq<Ticket>, t: Ticket, d: string)
    requires t in rows && FindTicket(rows, d) >= 0
    requires d == t.id || d == t.parent || rows[FindTicket(rows, d)].parent == t.id
    ensures WaitsBackTo(rows, t, d)
  {
    BackMeans(rows, t, d);
    SingleStop(rows, d);
    if d == t.parent {
      var k :| 0 <= k < |rows| && rows[k] == t;
      KidListed(rows, d, k);
      assert t.id in Edges(rows, d);
      EdgeReaches(rows, d, t.id);
    }
  }

  /** A dependency is accepted exactly when it may be waited for; the other refusals are cases of that. */
  lemma AdmissibleExactly(rows: seq<Ticket>, t: Ticket, d: string)
    requires UniqueIds(rows) && t in rows
    ensures DependencyRefusal(rows, t, d) == None <==> MayWaitFor(rows, t, d)
  {
    var i := FindTicket(rows, d);
    FoundAt(rows, d);
    BackMeans(rows, t, d);
    if i >= 0 {
      assert rows[i].id == d;
      DraftMeans(rows, rows[i]);
      if d == t.id || d == t.parent || rows[i].parent == t.id { FamilyWaitsBack(rows, t, d); }
    }
  }

  lemma AllAdmissible(rows: seq<Ticket>, t: Ticket, deps: seq<string>)
    requires UniqueIds(rows) && t in rows
    ensures CheckedDeps(rows, t, deps).Ok? <==> forall d :: d in deps ==> MayWaitFor(rows, t, d)
  {
    CheckedDepsMeaning(rows, t, deps);
    forall d | d in deps ensures DependencyRefusal(rows, t, d) == None <==> MayWaitFor(rows, t, d) {
      AdmissibleExactly(rows, t, d);
    }
  }

  // ----- Create and update

  /** The ticket a create asks for, before its dependencies. */
  function Asked(tab: Table, n: NewTicket): Ticket {
    Ticket(TicketId(tab.next + 1), TrimSpace(n.title), Open, n.parent, [], [], false)
  }

  ghost predicate TopLevelIn(rows: seq<Ticket>, id: string) {
    exists k :: 0 <= k < |rows| && rows[k].id == id && rows[k].parent == ""
  }

  lemma TopLevelFound(rows: seq<Ticket>, id: string)
    requires UniqueIds(rows)
    ensures TopLevelIn(rows, id) <==> FindTicket(rows, id) >= 0 && rows[FindTicket(rows, id)].parent == ""
  {
    FoundAt(rows, id);
    if FindTicket(rows, id) >= 0 { assert rows[FindTicket(rows, id)].id == id; }
  }

  lemma AppendedUnique(tab: Table, tk: Ticket)
    requires UniqueIds(tab.tickets) && Minted(tab) && tk.id == TicketId(tab.next + 1)
    ensures UniqueIds(tab.tickets + [tk])
  {
    FreshId(tab);
  }

  /** A create is granted exactly when its title is not blank, its parent, if any, is a top-level ticket whose
      subtickets the caller may change, and the new ticket may wait for all it asks to. */
  lemma CreateGranted(tab: Table, n: NewTicket, run: string)
    requires UniqueIds(tab.tickets) && Minted(tab)
    ensures CreateChange(tab, n, run).Touch? <==>
              && TrimSpace(n.title) != ""
              && (n.parent == "" || TopLevelIn(tab.tickets, n.parent))
              && MayRearrange(tab.tickets, n.parent, run)
              && forall d :: d in n.dependsOn ==> MayWaitFor(tab.tickets + [Asked(tab, n)], Asked(tab, n), d)
  {
    var rows := tab.tickets + [Asked(tab, n)];
    TopLevelFound(tab.tickets, n.parent);
    LockMeans(tab.tickets, n.parent, run);
    AppendedUnique(tab, Asked(tab, n));
    AllAdmissible(rows, Asked(tab, n), n.dependsOn);
  }

  ghost predicate MayRelink(rows: seq<Ticket>, t: Ticket, deps: Option<seq<string>>, run: string) {
    deps.Some? ==> MayRearrange(rows, t.parent, run) && forall d :: d in deps.value ==> MayWaitFor(rows, t, d)
  }

  ghost predicate MayMove(rows: seq<Ticket>, t: Ticket, to: Option<Status>) {
    to.Some? && to.value != t.status ==>
      (t.status, to.value) in PERSON_MOVES && !PlannedUnder(rows, t.parent) && !HasSubticket(rows, t.id)
  }

  lemma RelinkGranted(tab: Table, i: nat, patch: Patch, run: string)
    requires UniqueIds(tab.tickets) && i < |tab.tickets|
    ensures RelinkChange(tab, i, patch, run).Ok? <==> MayRelink(tab.tickets, tab.tickets[i], patch.dependsOn, run)
    ensures RelinkChange(tab, i, patch, run).Ok? ==>
              var after := RelinkChange(tab, i, patch, run).value;
              |after| == |tab.tickets| && after == tab.tickets[i := tab.tickets[i].(dependsOn := after[i].dependsOn)]
  {
    var t := tab.tickets[i];
    LockMeans(tab.tickets, t.parent, run);
    assert t.(dependsOn := t.dependsOn) == t;
    if patch.dependsOn.Some? { AllAdmissible(tab.tickets, t, patch.dependsOn.value); }
  }

  lemma RestatusGranted(rows: seq<Ticket>, i: nat, patch: Patch)
    requires UniqueIds(rows) && i < |rows| && !rows[i].status.Other?
    ensures RestatusChange(rows, i, patch).Ok? <==> MayMove(rows, rows[i], patch.status)
  {
    DraftMeans(rows, rows[i]);
    SubticketsAre(rows, rows[i].id);
    if patch.status.Some? && !patch.status.value.Other? && patch.status.value != rows[i].status {
      PersonMoveMeans(rows[i].status, patch.status.value);
    }
  }

  lemma RelinkedMoves(rows: seq<Ticket>, i: nat, deps: seq<string>, to: Option<Status>)
    requires i < |rows|
    ensures var after := rows[i := rows[i].(dependsOn := deps)];
            MayMove(after, after[i], to) <==> MayMove(rows, rows[i], to)
  {
    var after := rows[i := rows[i].(dependsOn := deps)];
    assert forall k :: 0 <= k < |rows| ==>
        after[k].id == rows[k].id && after[k].parent == rows[k].parent && after[k].status == rows[k].status;
    if HasSubticket(rows, rows[i].id) {
      var k :| 0 <= k < |rows| && rows[k].parent == rows[i].id;
      assert after[k].parent == rows[i].id;
    }
    if PlannedUnder(rows, rows[i].parent) {
      var k :| 0 <= k < |rows| && rows[k].id == rows[i].parent && rows[k].status in {Planning, Review};
      assert after[k].id == rows[i].parent;
    }
  }

  /** An update is granted exactly when what it asks may be asked: a run asks for no status; new dependencies
      only of a ticket the caller may rearrange, all of which it may wait for; a new status only as a person's
      move of a ticket that is no draft and follows no subtickets. */
  lemma UpdateGranted(tab: Table, t: Ticket, patch: Patch, run: string)
    requires UniqueIds(tab.tickets) && t in tab.tickets && !t.status.Other?
    ensures UpdateChange(tab, t.id, patch, run).Touch? <==>
              && (run == "" || patch.status.None?)
              && MayRelink(tab.tickets, t, patch.dependsOn, run) && MayMove(tab.tickets, t, patch.status)
  {
    var i := Found(tab.tickets, t);
    RelinkGranted(tab, i, patch, run);
    if RelinkChange(tab, i, patch, run).Ok? {
      var after := RelinkChange(tab, i, patch, run).value;
      assert UniqueIds(after);
      RestatusGranted(after, i, patch);
      RelinkedMoves(tab.tickets, i, after[i].dependsOn, patch.status);
    }
  }

  // ----- Runs

  /** A start is granted to the run that drives a running or blocked ticket, and to a run new to a ready
      ticket, or its last, when it has no subtickets and all it waits for is done. */
  lemma StartGranted(tab: Table, t: Ticket, run: string)
    requires UniqueIds(tab.tickets) && t in tab.tickets
    ensures StartChange(tab, t.id, run).Touch? <==>
              || (DrivenBy(t, run) && t.status in {Running, Blocked})
              || ((run !in t.runs || DrivenBy(t, run)) && t.status == Ready
                  && !HasSubticket(tab.tickets, t.id) && WaitsAreDone(tab.tickets, t))
  {
    var i := Found(tab.tickets, t);
    DrivenMeans(t, run);
    RunnableMeans(tab.tickets, t);
  }

  lemma FinishGranted(tab: Table, t: Ticket, run: string, status: Status, mergePending: bool)
    requires UniqueIds(tab.tickets) && t in tab.tickets
    ensures FinishChange(tab, t.id, run, status, mergePending).Touch? <==>
              status in {Done, Blocked} && DrivenBy(t, run) && t.status in {Running, Blocked}
  {
    var i := Found(tab.tickets, t);
    DrivenMeans(t, run);
  }

  lemma BlockGranted(tab: Table, t: Ticket)
    requires UniqueIds(tab.tickets) && t in tab.tickets
    ensures BlockChange(tab, t.id).Touch? <==>
              t.status == Ready && !HasSubticket(tab.tickets, t.id) && WaitsAreDone(tab.tickets, t)
  {
    var i := Found(tab.tickets, t);
    RunnableMeans(tab.tickets, t);
  }

  // ----- Plans

  /** A plan is started by a run the ticket never had, when the ticket is open and has neither parent nor
      subtickets; in planning or review only its last run may do so. */
  lemma StartPlanGranted(tab: Table, t: Ticket, run: string)
    requires UniqueIds(tab.tickets) && t in tab.tickets
    ensures StartPlanChange(tab, t.id, run).Touch? <==>
              || (DrivenBy(t, run) && t.status in {Planning, Review})
              || (run !in t.runs && t.parent == "" && t.status == Open && !HasSubticket(tab.tickets, t.id))
  {
    var i := Found(tab.tickets, t);
    DrivenMeans(t, run);
    SubticketsAre(tab.tickets, t.id);
  }

  lemma PlanReviewGranted(tab: Table, t: Ticket, run: string)
    requires UniqueIds(tab.tickets) && t in tab.tickets
    ensures PlanReviewChange(tab, t.id, run).Touch? <==> DrivenBy(t, run) && t.status in {Planning, Review}
  {
    var i := Found(tab.tickets, t);
    DrivenMeans(t, run);
  }

  /** A plan is decided in review only: approved when it has subtickets, rejected or revised with a text. */
  lemma DecisionGranted(tab: Table, t: Ticket, run: string, text: string)
    requires UniqueIds(tab.tickets) && t in tab.tickets && t.parent != t.id
    ensures ApproveChange(tab, t.id).Touch? <==> t.status == Review && HasSubticket(tab.tickets, t.id)
    ensures RejectChange(tab, t.id, text).Touch? <==> t.status == Review && TrimSpace(text) != ""
    ensures ReviseChange(tab, t.id, run, text).Touch? <==> t.status == Review && TrimSpace(text) != ""
  {
    var i := Found(tab.tickets, t);
    SubticketsAre(tab.tickets, t.id);
    assert t in WithoutKids(tab.tickets, t.id);
  }

  /** A ticket is deleted when the caller may change its siblings, nobody works on it, and nothing is left
      that belongs to it or depends on it. */
  lemma RemoveGranted(tab: Table, t: Ticket, run: string)
    requires UniqueIds(tab.tickets) && t in tab.tickets
    ensures RemoveChange(tab, t.id, run).Touch? <==>
              && MayRearrange(tab.tickets, t.parent, run) && t.status !in {Running, Planning, Review}
              && !HasSubticket(tab.tickets, t.id)
              && forall k :: 0 <= k < |tab.tickets| ==> t.id !in tab.tickets[k].dependsOn
  {
    var i := Found(tab.tickets, t);
    LockMeans(tab.tickets, t.parent, run);
    SubticketsAre(tab.tickets, t.id);
    if IsAwaited(tab.tickets, t.id) {
      var o :| o in tab.tickets && t.id in o.dependsOn;
      var k :| 0 <= k < |tab.tickets| && tab.tickets[k] == o;
    }
  }

  /** What is asked makes sense by itself: a text where one is needed, an outcome a run can have. */
  predicate WellAsked(op: Op) {
    match op
    case Update(_, patch, run) => run == "" || patch.status.None?
    case Comment(_, text) => TrimSpace(text) != ""
    case Reject(_, reason) => TrimSpace(reason) != ""
    case Revise(_, _, feedback) => TrimSpace(feedback) != ""
    case Finish(_, _, status, _) => status in {Done, Blocked}
    case _ => true
  }

  /** A request that makes sense fails for want of its ticket when there is none. */
  lemma MissingIsRefused(tab: Table, op: Op)
    requires !op.Create? && WellAsked(op) && forall t :: t in tab.tickets ==> t.id != op.id
    ensures ChangeOf(tab, op) == Fail(NoTicket)
  {
    assert FindTicket(tab.tickets, op.id) < 0;
  }
}
