/** What may change in a ticket, by which request, and what the answer shows. */
module TicketMoves {
  import opened Wrappers
  import opened Text
  import opened TicketRules
  import opened TicketTable
  import opened TicketInvariants
  import opened TicketLinks
  import opened TicketDrops
  import opened TicketEffects
  import opened TicketTheorems
  import opened TicketGrants

  // ----- Who changes a status

  /** A person moved it. */
  ghost predicate PersonMoved(tab: Table, op: Op, was: Ticket, now: Status) {
    && op.Update? && op.id == was.id && op.run == "" && op.patch.status == Some(now)
    && (was.status, now) in PERSON_MOVES && !PlannedUnder(tab.tickets, was.parent) && !HasSubticket(tab.tickets, was.id)
  }

  /** The run that last had it left it so. */
  ghost predicate FinishedBy(op: Op, was: Ticket, now: Status) {
    && op.Finish? && op.id == was.id && op.status == now
    && DrivenBy(was, op.run) && was.status in {Running, Blocked}
  }

  ghost predicate Startable(tab: Table, was: Ticket) {
    was.status == Ready && !HasSubticket(tab.tickets, was.id) && WaitsAreDone(tab.tickets, was)
  }

  /** Why a ticket that was has this status now. */
  ghost predicate Caused(tab: Table, op: Op, was: Ticket, now: Status) {
    match now
    case Open => PersonMoved(tab, op, was, now) || (op.Reject? && op.id == was.id && was.status == Review)
    case Planning =>
      && (op.StartPlan? || op.Revise?) && op.id == was.id
      && ((was.status == Review && (op.Revise? || DrivenBy(was, op.run)))
          || (op.StartPlan? && was.status == Open && was.parent == "" && !HasSubticket(tab.tickets, was.id)
              && op.run !in was.runs))
    case Review => op.PlanReview? && op.id == was.id && DrivenBy(was, op.run) && was.status == Planning
    case Ready => PersonMoved(tab, op, was, now) || (op.Approve? && op.id == was.parent)
    case Running =>
      && op.Start? && op.id == was.id
      && ((DrivenBy(was, op.run) && was.status == Blocked)
          || (Startable(tab, was) && (op.run !in was.runs || DrivenBy(was, op.run))))
    case Blocked => FinishedBy(op, was, now) || (op.Block? && op.id == was.id && Startable(tab, was))
    case Done => PersonMoved(tab, op, was, now) || FinishedBy(op, was, now)
    case Closed => PersonMoved(tab, op, was, now)
    case Other(_) => false
  }

  /** What else a request leaves of a ticket: it never changes who the ticket is, rewrites dependencies only
      when asked to, adds only the run that asks, and marks a merge as pending only at the end of a run. */
  ghost predicate FieldsKept(op: Op, was: Ticket, now: Ticket) {
    && now.id == was.id && now.title == was.title && now.parent == was.parent
    && (now.dependsOn != was.dependsOn ==>
          && op.Update? && op.id == was.id && op.patch.dependsOn.Some?
          && forall d :: d in now.dependsOn <==> d in op.patch.dependsOn.value)
    && (now.runs != was.runs ==>
          (op.Start? || op.StartPlan? || op.Revise?) && op.id == was.id && now.runs == was.runs + [op.run])
    && (now.mergePending != was.mergePending ==>
          || (op.Start? && op.id == was.id && !now.mergePending)
          || (op.Finish? && op.id == was.id && now.mergePending == (op.mergePending && op.status == Blocked)))
  }

  /** What a change may write into a row before its parents are settled. Approving rewrites the plan's ticket
      to what its subtickets give it. */
  ghost predicate MayWrite(tab: Table, op: Op, was: Ticket, now: Ticket) {
    && FieldsKept(op, was, now)
    && (now.status == was.status || Caused(tab, op, was, now.status)
        || (op.Approve? && op.id == was.id && !Held(now.status) && HasSubticket(tab.tickets, was.id)))
  }

  ghost predicate WritesAllowed(tab: Table, op: Op, rows: seq<Ticket>) {
    forall was, now :: was in tab.tickets && now in rows && now.id == was.id ==> MayWrite(tab, op, was, now)
  }

  lemma NothingWritten(tab: Table, op: Op, rows: seq<Ticket>)
    requires UniqueIds(tab.tickets) && forall t :: t in rows ==> t in tab.tickets
    ensures WritesAllowed(tab, op, rows)
  {
    forall was, now | was in tab.tickets && now in rows && now.id == was.id ensures MayWrite(tab, op, was, now) {
      SameRow(tab.tickets, was, now);
    }
  }

  lemma OneWritten(tab: Table, op: Op, i: nat, t: Ticket)
    requires UniqueIds(tab.tickets) && i < |tab.tickets| && MayWrite(tab, op, tab.tickets[i], t)
    ensures WritesAllowed(tab, op, tab.tickets[i := t])
  {
    var rows := tab.tickets[i := t];
    forall was, now | was in tab.tickets && now in rows && now.id == was.id ensures MayWrite(tab, op, was, now) {
      var k :| 0 <= k < |rows| && rows[k] == now;
      SameRow(tab.tickets, was, tab.tickets[k]);
    }
  }

  lemma StartWritesAllowed(tab: Table, op: Op)
    requires UniqueIds(tab.tickets) && op.Start? && ChangeOf(tab, op).Touch?
    ensures WritesAllowed(tab, op, ChangeOf(tab, op).table.tickets)
  {
    var i := FindTicket(tab.tickets, op.id);
    var was, c := tab.tickets[i], ChangeOf(tab, op);
    RunnableMeans(tab.tickets, was);
    if c.touched == [] {
      NothingWritten(tab, op, tab.tickets);
    } else {
      OneWritten(tab, op, i, c.table.tickets[i]);
    }
  }

  lemma StartPlanWritesAllowed(tab: Table, op: Op)
    requires UniqueIds(tab.tickets) && op.StartPlan? && ChangeOf(tab, op).Touch?
    ensures WritesAllowed(tab, op, ChangeOf(tab, op).table.tickets)
  {
    var i := FindTicket(tab.tickets, op.id);
    var was, c := tab.tickets[i], StartPlanChange(tab, op.id, op.run);
    SubticketsAre(tab.tickets, op.id);
    DrivenMeans(was, op.run);
    if c.touched == [] {
      NothingWritten(tab, op, tab.tickets);
    } else {
      assert c == Rewritten(tab, i, WithRun(was, op.run).(status := Planning));
      OneWritten(tab, op, i, WithRun(was, op.run).(status := Planning));
    }
  }

  lemma PlanReviewWritesAllowed(tab: Table, op: Op)
    requires UniqueIds(tab.tickets) && op.PlanReview? && ChangeOf(tab, op).Touch?
    ensures WritesAllowed(tab, op, ChangeOf(tab, op).table.tickets)
  {
    var i := FindTicket(tab.tickets, op.id);
    var was := tab.tickets[i];
    DrivenMeans(was, op.run);
    assert PlanReviewChange(tab, op.id, op.run) == Rewritten(tab, i, was.(status := Review));
    OneWritten(tab, op, i, was.(status := Review));
  }

  lemma ReviseWritesAllowed(tab: Table, op: Op)
    requires UniqueIds(tab.tickets) && op.Revise? && ChangeOf(tab, op).Touch?
    ensures WritesAllowed(tab, op, ChangeOf(tab, op).table.tickets)
  {
    var i := FindTicket(tab.tickets, op.id);
    var now := WithRun(tab.tickets[i], op.run).(status := Planning);
    assert ReviseChange(tab, op.id, op.run, op.feedback) == Rewritten(tab, i, now);
    OneWritten(tab, op, i, now);
  }

  lemma FinishWritesAllowed(tab: Table, op: Op)
    requires UniqueIds(tab.tickets) && (op.Finish? || op.Block?) && ChangeOf(tab, op).Touch?
    ensures WritesAllowed(tab, op, ChangeOf(tab, op).table.tickets)
  {
    var i := FindTicket(tab.tickets, op.id);
    RunnableMeans(tab.tickets, tab.tickets[i]);
    OneWritten(tab, op, i, ChangeOf(tab, op).table.tickets[i]);
  }

  lemma UpdateWritesAllowed(tab: Table, op: Op)
    requires UniqueIds(tab.tickets) && ValidStatuses(tab.tickets) && op.Update? && ChangeOf(tab, op).Touch?
    requires forall t :: t in tab.tickets ==> t.parent != t.id
    ensures WritesAllowed(tab, op, ChangeOf(tab, op).table.tickets)
  {
    var i := FindTicket(tab.tickets, op.id);
    var was, c := tab.tickets[i], ChangeOf(tab, op);
    assert was in tab.tickets;
    UpdatedChange(tab, i, op.patch, op.run);
    UpdateGranted(tab, was, op.patch, op.run);
    if c.touched == [] {
      NothingWritten(tab, op, tab.tickets);
    } else {
      OneWritten(tab, op, i, c.table.tickets[i]);
    }
  }

  lemma ApprovedRowAllowed(tab: Table, op: Op, i: nat, k: nat)
    requires op.Approve? && i < |tab.tickets| && k < |tab.tickets| && tab.tickets[i].id == op.id
    requires tab.tickets[i].parent != op.id && HasSubticket(tab.tickets, op.id)
    ensures MayWrite(tab, op, tab.tickets[k], Approved(tab.tickets, op.id, i)[k])
  {
    var was, now := tab.tickets[k], Approved(tab.tickets, op.id, i)[k];
    if k == i {
      ApprovedParent(tab.tickets, i);
      assert now == was.(status := now.status);
    } else {
      assert now == Readied(was, op.id);
    }
  }

  lemma ApprovesRows(tab: Table, id: string)
    requires ApproveChange(tab, id).Touch?
    ensures var i := FindTicket(tab.tickets, id);
            && i >= 0 && !Childless(tab.tickets, id) && ApproveChange(tab, id).table.tickets == Approved(tab.tickets, id, i)
  {
    ApproveIs(tab, id);
  }

  lemma ApproveWritesAllowed(tab: Table, id: string)
    requires UniqueIds(tab.tickets) && ApproveChange(tab, id).Touch?
    requires forall t :: t in tab.tickets ==> t.parent != t.id
    ensures WritesAllowed(tab, Approve(id), ApproveChange(tab, id).table.tickets)
  {
    var i := FindTicket(tab.tickets, id);
    ApprovesRows(tab, id);
    assert tab.tickets[i] in tab.tickets;
    SubticketsAre(tab.tickets, id);
    ApprovedRowsAllowed(tab, Approve(id), i);
  }

  lemma ApprovedRowsAllowed(tab: Table, op: Op, i: nat)
    requires UniqueIds(tab.tickets) && op.Approve? && i < |tab.tickets| && tab.tickets[i].id == op.id
    requires tab.tickets[i].parent != op.id && HasSubticket(tab.tickets, op.id)
    ensures WritesAllowed(tab, op, Approved(tab.tickets, op.id, i))
  {
    var rows := Approved(tab.tickets, op.id, i);
    ApprovedTree(tab.tickets, i);
    forall was, now | was in tab.tickets && now in rows && now.id == was.id ensures MayWrite(tab, op, was, now) {
      var k :| 0 <= k < |rows| && rows[k] == now;
      SameRow(tab.tickets, was, tab.tickets[k]);
      ApprovedRowAllowed(tab, op, i, k);
    }
  }

  lemma RejectWritesAllowed(tab: Table, op: Op)
    requires UniqueIds(tab.tickets) && op.Reject? && ChangeOf(tab, op).Touch?
    ensures WritesAllowed(tab, op, ChangeOf(tab, op).table.tickets)
  {
    var kept := WithoutKids(tab.tickets, op.id);
    var i, rows := FindTicket(kept, op.id), ChangeOf(tab, op).table.tickets;
    assert kept[i] in kept;
    SameRow(tab.tickets, kept[i], tab.tickets[FindTicket(tab.tickets, op.id)]);
    forall was, now | was in tab.tickets && now in rows && now.id == was.id ensures MayWrite(tab, op, was, now) {
      var k :| 0 <= k < |rows| && rows[k] == now;
      assert kept[k] in kept;
      SameRow(tab.tickets, was, kept[k]);
    }
  }

  lemma CreateWritesAllowed(tab: Table, op: Op)
    requires UniqueIds(tab.tickets) && Minted(tab) && op.Create? && ChangeOf(tab, op).Touch?
    ensures WritesAllowed(tab, op, ChangeOf(tab, op).table.tickets)
  {
    var c, k := ChangeOf(tab, op), |tab.tickets|;
    CreatedRow(tab, op.n, op.run);
    TicketRows.FreshId(tab);
    forall was, now | was in tab.tickets && now in c.table.tickets && now.id == was.id
      ensures MayWrite(tab, op, was, now)
    {
      assert now != c.table.tickets[k];
      SameRow(tab.tickets, was, now);
    }
  }

  lemma RemoveWritesAllowed(tab: Table, op: Op)
    requires UniqueIds(tab.tickets) && (op.Remove? || op.Comment?) && ChangeOf(tab, op).Touch?
    ensures WritesAllowed(tab, op, ChangeOf(tab, op).table.tickets)
  {
    NothingWritten(tab, op, ChangeOf(tab, op).table.tickets);
  }

  lemma NoneIsItsParent(tab: Table)
    requires Minted(tab) && UniqueIds(tab.tickets) && TwoLevels(tab.tickets)
    ensures forall t :: t in tab.tickets ==> t.parent != t.id
  {
    forall t | t in tab.tickets ensures t.parent != t.id { NoneOwnParent(tab, t.id); }
  }

  lemma ChangeWritesAllowed(tab: Table, op: Op)
    requires Shaped(tab) && ValidStatuses(tab.tickets) && ChangeOf(tab, op).Touch?
    ensures WritesAllowed(tab, op, ChangeOf(tab, op).table.tickets)
  {
    NoneIsItsParent(tab);
    match op {
      case Create(_, _) => CreateWritesAllowed(tab, op);
      case Update(_, _, _) => UpdateWritesAllowed(tab, op);
      case Start(_, _) => StartWritesAllowed(tab, op);
      case Finish(_, _, _, _) => FinishWritesAllowed(tab, op);
      case Block(_) => FinishWritesAllowed(tab, op);
      case Approve(id) => ApproveWritesAllowed(tab, id);
      case Reject(_, _) => RejectWritesAllowed(tab, op);
      case Remove(_, _) => RemoveWritesAllowed(tab, op);
      case Comment(_, _) => RemoveWritesAllowed(tab, op);
      case StartPlan(_, _) => StartPlanWritesAllowed(tab, op);
      case PlanReview(_, _) => PlanReviewWritesAllowed(tab, op);
      case Revise(_, _, _) => ReviseWritesAllowed(tab, op);
    }
  }

  /** Whoever survives a request is, before its parents are settled, what the request may write. */
  lemma Survivor(tab: Table, r: Request, now: Ticket) returns (m: Ticket)
    requires Shaped(tab) && ValidStatuses(tab.tickets) && now in After(tab, r).tickets
    ensures now == m.(status := now.status)
    ensures forall was :: was in tab.tickets && was.id == now.id ==> MayWrite(tab, r.op, was, m)
    ensures Childless(After(tab, r).tickets, now.id) || Held(now.status) ==> now == m
  {
    var c := ChangeOf(tab, r.op);
    if c.Fail? || c.touched == [] || !r.saved {
      m := now;
      NothingWritten(tab, r.op, tab.tickets);
    } else {
      var mid, after := c.table.tickets, After(tab, r).tickets;
      var k :| 0 <= k < |after| && after[k] == now;
      m := mid[k];
      ChangeWritesAllowed(tab, r.op);
      SettlingWritesParentsOnly(mid, c.touched, k);
      SettledShape(mid, c.touched);
      SameTreeFinds(mid, after, now.id);
      if !Held(m.status) { SettlingNeverHolds(mid, c.touched, k); }
    }
  }

  /** Whatever is requested of a reachable table: a ticket without subtickets, or held by a plan, has a new
      status only for the one reason there is for that status. Running takes a start of a blocked ticket by
      its last run, or of a ready one with everything it waits for done. */
  lemma StatusesHaveCauses(history: seq<Request>, r: Request, was: Ticket, now: Ticket)
    requires var tab := Run(EmptyTable, history);
             was in tab.tickets && now in After(tab, r).tickets && now.id == was.id && now.status != was.status
    requires Childless(After(Run(EmptyTable, history), r).tickets, now.id) || Held(now.status)
    ensures Caused(Run(EmptyTable, history), r.op, was, now.status)
            || (r.op.Approve? && r.op.id == was.id && HasSubticket(Run(EmptyTable, history).tickets, was.id))
  {
    var tab := Run(EmptyTable, history);
    EveryReachableTable(history);
    var m := Survivor(tab, r, now);
    assert MayWrite(tab, r.op, was, m);
  }

  /** Whatever is requested of a reachable table, every ticket that stays keeps the rest. */
  lemma FieldsStay(history: seq<Request>, r: Request, was: Ticket, now: Ticket)
    requires var tab := Run(EmptyTable, history);
             was in tab.tickets && now in After(tab, r).tickets && now.id == was.id
    ensures FieldsKept(r.op, was, now)
  {
    var tab := Run(EmptyTable, history);
    EveryReachableTable(history);
    var m := Survivor(tab, r, now);
    assert MayWrite(tab, r.op, was, m);
  }

  // ----- The other way round: what a granted start leaves

  /** What a start writes. */
  function Started(t: Ticket, run: string): Ticket {
    t.(status := Running, mergePending := false, runs := if DrivenBy(t, run) then t.runs else t.runs + [run])
  }

  lemma StartIs(tab: Table, t: Ticket, run: string) returns (i: nat)
    requires UniqueIds(tab.tickets) && t in tab.tickets
    requires (DrivenBy(t, run) && t.status == Blocked) || (Startable(tab, t) && (run !in t.runs || DrivenBy(t, run)))
    ensures At(tab.tickets, t, i) && StartChange(tab, t.id, run) == Rewritten(tab, i, Started(t, run))
  {
    i := Found(tab.tickets, t);
    RunnableMeans(tab.tickets, t);
  }

  lemma StartedIn(tab: Table, t: Ticket, run: string)
    requires UniqueIds(tab.tickets) && t in tab.tickets && t.parent != t.id && !HasSubticket(tab.tickets, t.id)
    requires (DrivenBy(t, run) && t.status == Blocked) || (Startable(tab, t) && (run !in t.runs || DrivenBy(t, run)))
    ensures Started(t, run) in After(tab, Request(Start(t.id, run), true)).tickets
  {
    var i := StartIs(tab, t, run);
    SubticketsAre(tab.tickets, t.id);
    WrittenAsAsked(tab, i, Started(t, run));
  }

  /** A ticket without subtickets that may be started is left running under the asking run and otherwise as it
      was; a run it did not have yet is added as its last. */
  lemma StartRuns(history: seq<Request>, t: Ticket, run: string)
    requires var tab := Run(EmptyTable, history);
             && t in tab.tickets && !HasSubticket(tab.tickets, t.id)
             && ((DrivenBy(t, run) && t.status == Blocked)
                 || (Startable(tab, t) && (run !in t.runs || DrivenBy(t, run))))
    ensures Started(t, run) in After(Run(EmptyTable, history), Request(Start(t.id, run), true)).tickets
  {
    EveryReachableTable(history);
    NoneIsItsParent(Run(EmptyTable, history));
    StartedIn(Run(EmptyTable, history), t, run);
  }

  // ----- The answer

  /** The ticket a request is about; for a create, the new one. */
  function Subject(tab: Table, op: Op): string {
    if op.Create? then TicketId(tab.next + 1) else op.id
  }

  lemma {:induction false} AnnouncedOrder(rows: seq<Ticket>, touched: seq<string>, n: nat)
    requires n <= |touched|
    ensures var ids := Announced(rows, touched, n);
            && touched <= ids
            && forall i, j :: 0 <= i < j < |ids| && |touched| <= j ==> ids[i] != ids[j]
  {
    if n > 0 { AnnouncedOrder(rows, touched, n - 1); }
  }

  lemma SubjectFirst(tab: Table, op: Op)
    requires ChangeOf(tab, op).Touch? && ChangeOf(tab, op).touched != []
    ensures ChangeOf(tab, op).touched[0] == Subject(tab, op)
  {
    match op {
      case Create(n, run) => CreatedFirst(tab, n, run);
      case Update(id, patch, run) => UpdatedFirst(tab, id, patch, run);
      case _ =>
    }
  }

  lemma CreatedFirst(tab: Table, n: NewTicket, run: string)
    requires CreateChange(tab, n, run).Touch?
    ensures CreateChange(tab, n, run).touched == [TicketId(tab.next + 1)]
  {
  }

  lemma UpdatedFirst(tab: Table, id: string, patch: Patch, run: string)
    requires UpdateChange(tab, id, patch, run).Touch? && UpdateChange(tab, id, patch, run).touched != []
    ensures UpdateChange(tab, id, patch, run).touched == [id]
  {
  }

  /** The places of the subtickets of id, and of those that are done. */
  ghost function KidPlaces(rows: seq<Ticket>, id: string): set<nat> {
    set k: nat | k < |rows| && rows[k].parent == id
  }

  ghost function DonePlaces(rows: seq<Ticket>, id: string): set<nat> {
    set k: nat | k < |rows| && rows[k].parent == id && rows[k].status == Done
  }

  lemma OneMorePlace(rows: seq<Ticket>, id: string, t: Ticket)
    ensures |KidPlaces(rows + [t], id)| == |KidPlaces(rows, id)| + (if t.parent == id then 1 else 0)
  {
    var all, n := rows + [t], |rows|;
    if t.parent == id {
      assert KidPlaces(all, id) == KidPlaces(rows, id) + {n};
    } else {
      assert KidPlaces(all, id) == KidPlaces(rows, id);
    }
  }

  lemma OneMoreDone(rows: seq<Ticket>, id: string, t: Ticket)
    ensures |DonePlaces(rows + [t], id)|
            == |DonePlaces(rows, id)| + (if t.parent == id && t.status == Done then 1 else 0)
  {
    var all, n := rows + [t], |rows|;
    if t.parent == id && t.status == Done {
      assert DonePlaces(all, id) == DonePlaces(rows, id) + {n};
    } else {
      assert DonePlaces(all, id) == DonePlaces(rows, id);
    }
  }

  lemma OneMoreKid(rows: seq<Ticket>, id: string, t: Ticket)
    ensures |Subtickets(rows + [t], id)| == |Subtickets(rows, id)| + (if t.parent == id then 1 else 0)
    ensures Count(Subtickets(rows + [t], id), Done)
            == Count(Subtickets(rows, id), Done) + (if t.parent == id && t.status == Done then 1 else 0)
  {
    assert (rows + [t])[..|rows|] == rows;
    var kids := Subtickets(rows, id);
    assert (kids + [t])[..|kids|] == kids;
    assert kids + [] == kids;
  }

  lemma KidsCountedStep(init: seq<Ticket>, id: string, last: Ticket, rows: seq<Ticket>)
    requires rows == init + [last]
    requires |Subtickets(init, id)| == |KidPlaces(init, id)| && Count(Subtickets(init, id), Done) == |DonePlaces(init, id)|
    ensures |Subtickets(rows, id)| == |KidPlaces(rows, id)| && Count(Subtickets(rows, id), Done) == |DonePlaces(rows, id)|
  {
    OneMorePlace(init, id, last);
    OneMoreDone(init, id, last);
    OneMoreKid(init, id, last);
  }

  lemma {:induction false} KidsCounted(rows: seq<Ticket>, id: string)
    ensures |Subtickets(rows, id)| == |KidPlaces(rows, id)|
    ensures Count(Subtickets(rows, id), Done) == |DonePlaces(rows, id)|
  {
    if rows == [] {
      assert KidPlaces(rows, id) == {} && DonePlaces(rows, id) == {};
    } else {
      var init, last := rows[..|rows| - 1], rows[|rows| - 1];
      assert rows == init + [last];
      KidsCounted(init, id);
      KidsCountedStep(init, id, last, rows);
    }
  }

  /** What an answer shows of a ticket: itself, whether it may run, and how far its subtickets are. */
  ghost predicate Shows(rows: seq<Ticket>, id: string, v: TicketView) {
    && v.ticket.id == id
    && ((exists t :: t in rows && t.id == id) ==>
          && v.ticket in rows
          && (v.runnable <==> v.ticket.status == Ready && !HasSubticket(rows, id) && WaitsAreDone(rows, v.ticket))
          && v.progress == (if HasSubticket(rows, id)
                            then Some(Progress(|DonePlaces(rows, id)|, |KidPlaces(rows, id)|)) else None))
    && ((forall t :: t in rows ==> t.id != id) ==> !v.runnable && v.progress.None?)
  }

  lemma ViewShows(rows: seq<Ticket>, id: string)
    requires UniqueIds(rows)
    ensures Shows(rows, id, ViewById(rows, id))
  {
    var i := FindTicket(rows, id);
    if i >= 0 {
      assert rows[i] in rows;
      RunnableMeans(rows, rows[i]);
      SubticketsAre(rows, id);
      KidsCounted(rows, id);
    } else {
      forall t | t in rows ensures t.id != id { AbsentId(rows, id, t); }
    }
  }

  lemma AbsentId(rows: seq<Ticket>, id: string, t: Ticket)
    requires FindTicket(rows, id) < 0 && t in rows
    ensures t.id != id
  {
  }

  /** The answer to a request that changed a reachable table shows, as it left them, first the ticket the
      request was about, then the others it touched, then each parent that was looked at, once. */
  lemma AnswerShowsTheSubject(history: seq<Request>, op: Op)
    requires var c := ChangeOf(Run(EmptyTable, history), op); c.Touch? && c.touched != []
    ensures var tab := Run(EmptyTable, history);
            var after, a := After(tab, Request(op, true)).tickets, Answer(tab, ChangeOf(tab, op), true);
            var ids := Told(tab, Request(op, true));
            && a.Ok? && |a.value| == |ids| > 0 && ids[0] == Subject(tab, op) && ChangeOf(tab, op).touched <= ids
            && (forall i :: 0 <= i < |ids| ==> Shows(after, ids[i], a.value[i]))
            && (forall i, j :: 0 <= i < j < |ids| && |ChangeOf(tab, op).touched| <= j ==> ids[i] != ids[j])
  {
    var tab := Run(EmptyTable, history);
    var c := ChangeOf(tab, op);
    EveryReachableTable(history);
    RequestKeepsInvariant(tab, Request(op, true));
    SubjectFirst(tab, op);
    AnnouncedOrder(c.table.tickets, c.touched, |c.touched|);
    forall id ensures Shows(After(tab, Request(op, true)).tickets, id, ViewById(After(tab, Request(op, true)).tickets, id)) {
      ViewShows(After(tab, Request(op, true)).tickets, id);
    }
  }

  /** A refused or unsaved request changes nothing, and is answered by an error. */
  lemma RefusedChangesNothing(tab: Table, r: Request)
    requires var c := ChangeOf(tab, r.op); c.Fail? || (c.touched != [] && !r.saved)
    ensures After(tab, r) == tab && Answer(tab, ChangeOf(tab, r.op), r.saved).Err?
  {
  }

  // ----- A history with work to do

  /** Two requests that a ready leaf comes from: somebody asks for a ticket, and makes it ready. */
  function FirstTicket(title: string): seq<Request> {
    [Request(Create(NewTicket(title, "", []), ""), true),
     Request(Update(TicketId(1), Patch(Some(Ready), None), ""), true)]
  }

  function OnlyTicket(title: string, status: Status): Ticket {
    Ticket(TicketId(1), TrimSpace(title), status, "", [], [], false)
  }

  lemma AskedAlone(title: string)
    requires TrimSpace(title) != ""
    ensures After(EmptyTable, FirstTicket(title)[0]) == Table(1, [OnlyTicket(title, Open)])
  {
    var n, tk := NewTicket(title, "", []), OnlyTicket(title, Open);
    assert [tk][0 := tk.(dependsOn := [])] == [tk] == [] + [tk];
    assert CreateChange(EmptyTable, n, "") == Touch(Table(1, [tk]), [TicketId(1)]);
    AloneSettles(tk);
  }

  lemma AloneSettles(t: Ticket)
    requires t.parent == "" && t.id != ""
    ensures Settled([t], [t.id]) == [t]
  {
    SettledOnce([t], t.id);
    assert Subtickets([t], t.id) == [];
  }

  lemma ReadiedAlone(title: string)
    ensures After(Table(1, [OnlyTicket(title, Open)]), FirstTicket(title)[1]) == Table(1, [OnlyTicket(title, Ready)])
  {
    var was, now := OnlyTicket(title, Open), OnlyTicket(title, Ready);
    assert Subtickets([was], was.id) == [];
    assert [was][0 := now] == [now];
    var patch := Patch(Some(Ready), None);
    assert RestatusChange([was], 0, patch) == Ok([now]);
    assert UpdateChange(Table(1, [was]), was.id, patch, "") == Touch(Table(1, [now]), [was.id]);
    AloneSettles(now);
  }

  /** There is work to do: from the empty book two requests lead to a ready ticket that may run, and a start
      leaves it running under its run. */
  lemma WorkIsReached(title: string, run: string)
    requires TrimSpace(title) != ""
    ensures var tab := Run(EmptyTable, FirstTicket(title));
            && tab.tickets == [OnlyTicket(title, Ready)] && ReadyLeaf(tab.tickets, 0)
            && Runnable(tab.tickets, tab.tickets[0])
            && Started(tab.tickets[0], run) in After(tab, Request(Start(TicketId(1), run), true)).tickets
  {
    var h := FirstTicket(title);
    assert h[..1] == [h[0]] && [h[0]][..0] == [] && h[..|h| - 1] == h[..1];
    AskedAlone(title);
    assert Run(EmptyTable, h[..1]) == After(Run(EmptyTable, []), h[0]);
    ReadiedAlone(title);
    StartRuns(h, OnlyTicket(title, Ready), run);
  }
}
