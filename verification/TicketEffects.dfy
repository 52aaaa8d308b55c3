/** What each request changes, seen from the table it leaves: which rows, how, and who is told. */
module TicketEffects {
  import opened Text
  import opened TicketRules
  import opened TicketTable
  import opened TicketInvariants
  import opened TicketSteps
  import opened TicketRows
  import opened TicketDrops

  // ----- Settling writes statuses of parents only

  lemma {:induction false} SettledShape(rows: seq<Ticket>, touched: seq<string>)
    ensures SameShape(rows, Settled(rows, touched))
  {
    if touched != [] {
      var init, last := touched[..|touched| - 1], touched[|touched| - 1];
      SettledShape(rows, init);
      SettleOneIs(Settled(rows, init), last);
    }
  }

  /** Settling changes nothing of a row but its status, and not even that of a childless or held ticket. */
  lemma {:induction false} SettlingWritesParentsOnly(rows: seq<Ticket>, touched: seq<string>, k: nat)
    requires k < |rows|
    ensures var after := Settled(rows, touched);
            && after[k] == rows[k].(status := after[k].status)
            && (Childless(rows, rows[k].id) || Held(rows[k].status) ==> after[k] == rows[k])
  {
    if touched != [] {
      var init, last := touched[..|touched| - 1], touched[|touched| - 1];
      var mid := Settled(rows, init);
      SettlingWritesParentsOnly(rows, init, k);
      SettledShape(rows, init);
      SettleOneIs(mid, last);
      SameTreeFinds(rows, mid, rows[k].id);
    }
  }

  lemma {:induction false} AnnouncedHolds(rows: seq<Ticket>, touched: seq<string>, m: nat, n: nat, id: string)
    requires m <= n <= |touched| && (id in touched || id in Announced(rows, touched, m))
    ensures id in Announced(rows, touched, n)
    decreases n
  {
    if n > 0 {
      if m < n { AnnouncedHolds(rows, touched, m, n - 1, id); } else if id in touched {
        AnnouncedHolds(rows, touched, n - 1, n - 1, id);
      }
    }
  }

  /** Every row that settling writes is announced. */
  lemma {:induction false} SettledRowsAreAnnounced(rows: seq<Ticket>, touched: seq<string>, n: nat, k: nat)
    requires n <= |touched| && k < |rows| && Settled(rows, touched[..n])[k] != rows[k]
    ensures rows[k].id in Announced(rows, touched, n)
    decreases n
  {
    if n > 0 {
      assert touched[..n][..n - 1] == touched[..n - 1];
      var mid := Settled(rows, touched[..n - 1]);
      SettledShape(rows, touched[..n - 1]);
      if mid[k] != rows[k] {
        SettledRowsAreAnnounced(rows, touched, n - 1, k);
        AnnouncedHolds(rows, touched, n - 1, n, rows[k].id);
      }
    }
  }

  // ----- Who is told

  /** What a change itself writes it reports as touched. */
  ghost predicate ReportsWrites(tab: Table, c: Change) {
    c.Touch? && c.touched != [] ==>
      && (forall t :: t in c.table.tickets && t !in tab.tickets ==> t.id in c.touched)
      && (forall t :: t in tab.tickets && FindTicket(c.table.tickets, t.id) < 0 ==> t.id in c.touched)
  }

  lemma RewriteReports(tab: Table, i: nat, t: Ticket)
    requires i < |tab.tickets| && tab.tickets[i].id == t.id
    ensures ReportsWrites(tab, Rewritten(tab, i, t))
  {
    var after := tab.tickets[i := t];
    forall r | r in tab.tickets ensures FindTicket(after, r.id) >= 0 {
      var k :| 0 <= k < |tab.tickets| && tab.tickets[k] == r;
      assert after[k].id == r.id;
    }
  }

  lemma StillThere(rows: seq<Ticket>, after: seq<Ticket>, t: Ticket)
    requires t in after
    ensures FindTicket(after, t.id) >= 0
  {
    var k :| 0 <= k < |after| && after[k] == t;
    assert after[k].id == t.id;
  }

  lemma CreateReports(tab: Table, n: NewTicket, run: string)
    ensures ReportsWrites(tab, CreateChange(tab, n, run))
  {
    var c := CreateChange(tab, n, run);
    if c.Touch? {
      var after := c.table.tickets;
      var last := after[|tab.tickets|];
      assert after == tab.tickets + [last] && last.id in c.touched;
      forall t | t in tab.tickets ensures FindTicket(after, t.id) >= 0 {
        assert t in after;
        StillThere(tab.tickets, after, t);
      }
    }
  }

  lemma UpdateReports(tab: Table, id: string, patch: Patch, run: string)
    ensures ReportsWrites(tab, UpdateChange(tab, id, patch, run))
  {
    var c := UpdateChange(tab, id, patch, run);
    if c.Touch? && c.touched != [] {
      var i := FindTicket(tab.tickets, id);
      var t := c.table.tickets[i];
      assert c.table.tickets == tab.tickets[i := t];
      RewriteReports(tab, i, t);
    }
  }

  lemma ApproveReports(tab: Table, id: string)
    ensures ReportsWrites(tab, ApproveChange(tab, id))
  {
    if ApproveChange(tab, id).Touch? {
      ApproveIs(tab, id);
      ApprovedReports(tab, id);
    }
  }

  /** An approval: every subticket ready, the parent following them, and all of them touched. */
  ghost function Approval(tab: Table, id: string): Change
    requires FindTicket(tab.tickets, id) >= 0
  {
    Touch(tab.(tickets := Approved(tab.tickets, id, FindTicket(tab.tickets, id))),
          [id] + Ids(Subtickets(tab.tickets, id)))
  }

  lemma ApprovedReports(tab: Table, id: string)
    requires FindTicket(tab.tickets, id) >= 0
    ensures ReportsWrites(tab, Approval(tab, id))
  {
    ApprovedRowsAreTouched(tab.tickets, id);
    ReportsTree(tab, Approval(tab, id));
  }

  lemma ReportsTree(tab: Table, c: Change)
    requires c.Touch? && SameTree(tab.tickets, c.table.tickets)
    requires forall t :: t in c.table.tickets && t !in tab.tickets ==> t.id in c.touched
    ensures ReportsWrites(tab, c)
  {
    SameTreeKeepsAll(tab.tickets, c.table.tickets);
  }

  lemma KidIsListed(rows: seq<Ticket>, id: string, kid: Ticket)
    requires kid in rows && kid.parent == id
    ensures kid.id in Ids(Subtickets(rows, id))
  {
    var kids := Subtickets(rows, id);
    assert kid in kids;
    var m :| 0 <= m < |kids| && kids[m] == kid;
    assert Ids(kids)[m] == kid.id;
  }

  lemma ApprovedRowsAreTouched(rows: seq<Ticket>, id: string)
    requires FindTicket(rows, id) >= 0
    ensures forall t :: t in Approved(rows, id, FindTicket(rows, id)) && t !in rows ==>
              t.id in [id] + Ids(Subtickets(rows, id))
  {
    var after := Approved(rows, id, FindTicket(rows, id));
    forall t | t in after && t !in rows ensures t.id in [id] + Ids(Subtickets(rows, id)) {
      var k :| 0 <= k < |after| && after[k] == t;
      if k != FindTicket(rows, id) { KidIsListed(rows, id, rows[k]); }
    }
  }

  lemma SameTreeKeepsAll(rows: seq<Ticket>, after: seq<Ticket>)
    requires SameTree(rows, after)
    ensures forall t :: t in rows ==> FindTicket(after, t.id) >= 0
  {
    forall t | t in rows ensures FindTicket(after, t.id) >= 0 {
      var k :| 0 <= k < |rows| && rows[k] == t;
      assert after[k].id == t.id;
    }
  }

  lemma RejectReports(tab: Table, id: string, reason: string)
    ensures ReportsWrites(tab, RejectChange(tab, id, reason))
  {
    var c := RejectChange(tab, id, reason);
    if c.Touch? {
      var rows, kept, after := tab.tickets, WithoutKids(tab.tickets, id), c.table.tickets;
      var kids := Subtickets(rows, id);
      forall t | t in after && t !in rows ensures t.id in c.touched {
        var k :| 0 <= k < |after| && after[k] == t;
        assert kept[k] in kept;
      }
      forall t | t in kept ensures FindTicket(after, t.id) >= 0 {
        var k :| 0 <= k < |kept| && kept[k] == t;
        assert after[k].id == t.id;
      }
      forall t | t in rows && FindTicket(after, t.id) < 0 ensures t.id in c.touched {
        assert t in kids;
        KidIsListed(rows, id, t);
      }
    }
  }

  lemma AllButOne(rows: seq<Ticket>, i: nat)
    requires i < |rows|
    ensures forall t :: t in Without(rows, i) ==> t in rows
    ensures forall t :: t in rows && t != rows[i] ==> t in Without(rows, i)
  {
    assert rows == rows[..i] + [rows[i]] + rows[i + 1..];
  }

  lemma RemoveReports(tab: Table, id: string, run: string)
    ensures ReportsWrites(tab, RemoveChange(tab, id, run))
  {
    var c := RemoveChange(tab, id, run);
    if c.Touch? {
      var rows, i, after := tab.tickets, FindTicket(tab.tickets, id), c.table.tickets;
      AllButOne(rows, i);
      forall t | t in rows && FindTicket(after, t.id) < 0 ensures t.id in c.touched {
        if t in after { StillThere(rows, after, t); }
      }
    }
  }

  lemma RunReports(tab: Table, op: Op)
    requires op.Start? || op.StartPlan? || op.PlanReview? || op.Revise? || op.Finish? || op.Block? || op.Comment?
    ensures ReportsWrites(tab, ChangeOf(tab, op))
  {
    var c := ChangeOf(tab, op);
    if c.Touch? && c.touched != [] {
      if op.Comment? {
        forall t | t in tab.tickets ensures FindTicket(tab.tickets, t.id) >= 0 { StillThere([], tab.tickets, t); }
      } else {
        var i := FindTicket(tab.tickets, op.id);
        RewriteReports(tab, i, c.table.tickets[i]);
      }
    }
  }

  lemma RequestReports(tab: Table, op: Op)
    ensures ReportsWrites(tab, ChangeOf(tab, op))
  {
    match op {
      case Create(n, run) => CreateReports(tab, n, run);
      case Update(id, patch, run) => UpdateReports(tab, id, patch, run);
      case Approve(id) => ApproveReports(tab, id);
      case Reject(id, reason) => RejectReports(tab, id, reason);
      case Remove(id, run) => RemoveReports(tab, id, run);
      case _ => RunReports(tab, op);
    }
  }

  /** The ids a request announces. */
  ghost function Told(tab: Table, r: Request): seq<string> {
    var c := ChangeOf(tab, r.op);
    if c.Fail? || c.touched == [] || !r.saved then []
    else Announced(c.table.tickets, c.touched, |c.touched|)
  }

  /** Nobody who listens misses a change: on any table, every row a request leaves that was not there
      before, and every row it takes away, is among the announced ones. */
  lemma EveryChangeIsAnnounced(tab: Table, r: Request, t: Ticket)
    requires var after := After(tab, r).tickets;
             (t in after && t !in tab.tickets) || (t in tab.tickets && FindTicket(after, t.id) < 0)
    ensures t.id in Told(tab, r)
  {
    var c := ChangeOf(tab, r.op);
    var mid, after := c.table.tickets, After(tab, r).tickets;
    RequestReports(tab, r.op);
    SettledShape(mid, c.touched);
    if t in after && t !in tab.tickets {
      var k :| 0 <= k < |after| && after[k] == t;
      assert c.touched[..|c.touched|] == c.touched;
      if after[k] != mid[k] {
        SettledRowsAreAnnounced(mid, c.touched, |c.touched|, k);
      } else {
        assert t in mid;
        AnnouncedHolds(mid, c.touched, |c.touched|, |c.touched|, t.id);
      }
    } else {
      SameTreeFinds(mid, after, t.id);
      AnnouncedHolds(mid, c.touched, |c.touched|, |c.touched|, t.id);
    }
  }

  // ----- What stays as it was

  /** Settling leaves alone every ticket that is neither touched itself nor the parent of a touched one. */
  lemma {:induction false} SettlingStaysClose(rows: seq<Ticket>, touched: seq<string>, k: nat)
    requires k < |rows| && rows[k].id !in Decided(rows, touched)
    ensures Settled(rows, touched)[k] == rows[k]
  {
    if touched != [] {
      var init, last := touched[..|touched| - 1], touched[|touched| - 1];
      assert touched == init + [last];
      var mid := Settled(rows, init);
      SettlingStaysClose(rows, init, k);
      SettledShape(rows, init);
      SettleOneIs(mid, last);
      SameShapeSettledBy(rows, mid, last);
      assert SettledBy(rows, last) in Decided(rows, touched);
    }
  }

  /** A request leaves every other ticket exactly as it was: all but those it touches and their parents. */
  lemma OthersUnchanged(tab: Table, r: Request, t: Ticket)
    requires UniqueIds(tab.tickets) && t in tab.tickets
    requires var c := ChangeOf(tab, r.op);
             c.Touch? ==> t.id !in c.touched && t.id !in Decided(c.table.tickets, c.touched)
    ensures t in After(tab, r).tickets
  {
    var c := ChangeOf(tab, r.op);
    if c.Touch? && c.touched != [] && r.saved {
      RequestReports(tab, r.op);
      var mid := c.table.tickets;
      var k := FindTicket(mid, t.id);
      assert mid[k] in mid && mid[k].id == t.id;
      SameRow(tab.tickets, mid[k], t);
      SettlingStaysClose(mid, c.touched, k);
      SettledShape(mid, c.touched);
    }
  }

  lemma SameRow(rows: seq<Ticket>, a: Ticket, b: Ticket)
    requires UniqueIds(rows) && a in rows && b in rows && a.id == b.id
    ensures a == b
  {
    var i :| 0 <= i < |rows| && rows[i] == a;
    var j :| 0 <= j < |rows| && rows[j] == b;
  }

  // ----- What the ticket itself becomes

  /** The status a row written as t ends with: its own, unless it is a parent that follows its subtickets. */
  function StatusAfter(rows: seq<Ticket>, t: Ticket): Status {
    if Subtickets(rows, t.id) == [] || Held(t.status) || t.parent != "" then t.status
    else Derived(Subtickets(rows, t.id))
  }

  ghost predicate NotOwnParent(rows: seq<Ticket>, id: string) {
    forall t :: t in rows && t.id == id ==> t.parent != id
  }

  /** In every reachable table no ticket is its own parent. */
  lemma NoneOwnParent(tab: Table, id: string)
    requires Minted(tab) && UniqueIds(tab.tickets) && TwoLevels(tab.tickets)
    ensures NotOwnParent(tab.tickets, id)
  {
    forall t | t in tab.tickets && t.id == id ensures t.parent != id {
      var k :| 0 <= k < |tab.tickets| && tab.tickets[k] == t;
      FindUnique(tab.tickets, k);
      HasId(tab, k);
    }
  }

  lemma SameKidsDerive(rows: seq<Ticket>, i: nat, t: Ticket)
    requires i < |rows| && t.parent == rows[i].parent && t.parent != t.id
    ensures Derived(Subtickets(rows[i := t], t.id)) == Derived(Subtickets(rows, t.id))
    ensures Subtickets(rows[i := t], t.id) == [] <==> Subtickets(rows, t.id) == []
  {
    SameKidsBesides(rows, i, t, t.id);
    SameKidsFollow(rows, rows[i := t], t.id);
    NoKids(rows, t.id);
    NoKids(rows[i := t], t.id);
  }

  /** A rewritten ticket is, after the commit, exactly what the request wrote, but for the status of a
      parent, which its subtickets decide. */
  lemma WrittenAsAsked(tab: Table, i: nat, t: Ticket)
    requires i < |tab.tickets| && tab.tickets[i].id == t.id && tab.tickets[i].parent == t.parent
    requires FindTicket(tab.tickets, t.id) == i && t.parent != t.id
    ensures var after := Committed(tab, Rewritten(tab, i, t), true);
            && after.next == tab.next && FindTicket(after.tickets, t.id) == i
            && after.tickets[i] == t.(status := StatusAfter(tab.tickets, t))
            && Childless(after.tickets, t.id) == Childless(tab.tickets, t.id)
  {
    var mid := tab.tickets[i := t];
    SameTreeFinds(tab.tickets, mid, t.id);
    SettledShape(mid, [t.id]);
    SameTreeFinds(mid, Settled(mid, [t.id]), t.id);
    SettledOnce(mid, t.id);
    SameKidsDerive(tab.tickets, i, t);
  }

  lemma SettledOnce(rows: seq<Ticket>, id: string)
    ensures Settled(rows, [id]) == SettleOne(rows, id)
  {
    assert [id][..0] == [];
    assert Settled(rows, []) == rows;
  }

  /** A comment is recorded exactly when it says something about a ticket that is there; in a settled table
      it changes no status, and its ticket is announced. */
  lemma CommentChangesNothing(tab: Table, id: string, text: string, saved: bool)
    requires SettledExcept(tab.tickets, {})
    ensures CommentChange(tab, id, text).Touch? <==> TrimSpace(text) != "" && FindTicket(tab.tickets, id) >= 0
    ensures Committed(tab, CommentChange(tab, id, text), saved) == tab
    ensures CommentChange(tab, id, text).Touch? ==> id in Announced(tab.tickets, [id], 1)
  {
    SettledOnce(tab.tickets, id);
    SettleOneIs(tab.tickets, id);
    AnnouncedHolds(tab.tickets, [id], 1, 1, id);
    var i := FindTicket(tab.tickets, SettledBy(tab.tickets, id));
    if i >= 0 {
      assert Follows(tab.tickets, tab.tickets[i]);
    }
  }

  lemma RunningIsTaken(tab: Table, id: string, run: string, other: string)
    requires var i := FindTicket(tab.tickets, id);
             i >= 0 && LastRun(tab.tickets[i], run) && (tab.tickets[i].status == Running || !Childless(tab.tickets, id))
    ensures tab.tickets[FindTicket(tab.tickets, id)].status == Running ==> StartChange(tab, id, run) == Touch(tab, [])
    ensures other != run ==> StartChange(tab, id, other).Fail?
  {
  }

  /** A run that starts a ticket has it: it is the ticket's last run, every other run is refused, and while
      the ticket is running starting again changes nothing. A childless ticket is running; a parent taken up
      again has the status its subtickets give it. */
  lemma StartTakesTheTicket(tab: Table, id: string, run: string, other: string)
    requires StartChange(tab, id, run).Touch? && NotOwnParent(tab.tickets, id)
    ensures var c := StartChange(tab, id, run);
            var after := Committed(tab, c, true);
            var i := FindTicket(tab.tickets, id);
            && i >= 0 && FindTicket(after.tickets, id) == i && LastRun(after.tickets[i], run)
            && after.tickets[i].status
               == (if c.touched == [] then Running else StatusAfter(tab.tickets, tab.tickets[i].(status := Running)))
            && (Childless(tab.tickets, id) ==> after.tickets[i].status == Running)
            && (c.touched != [] ==> !after.tickets[i].mergePending)
            && (after.tickets[i].status == Running ==> StartChange(after, id, run) == Touch(after, []))
            && (other != run ==> StartChange(after, id, other).Fail?)
  {
    var c, i := StartChange(tab, id, run), FindTicket(tab.tickets, id);
    if c.touched != [] {
      StartedAfresh(tab, id, run);
    } else {
      assert c == Touch(tab, []) && Committed(tab, c, true) == tab;
    }
    RunningIsTaken(Committed(tab, c, true), id, run, other);
  }

  lemma StartedAfresh(tab: Table, id: string, run: string)
    requires StartChange(tab, id, run).Touch? && StartChange(tab, id, run).touched != [] && NotOwnParent(tab.tickets, id)
    ensures var after := Committed(tab, StartChange(tab, id, run), true).tickets;
            var i := FindTicket(tab.tickets, id);
            && i >= 0 && FindTicket(after, id) == i && LastRun(after[i], run) && !after[i].mergePending
            && after[i].status == StatusAfter(tab.tickets, tab.tickets[i].(status := Running))
            && (Childless(tab.tickets, id) ==> after[i].status == Running)
            && Childless(after, id) == Childless(tab.tickets, id)
  {
    var i := FindTicket(tab.tickets, id);
    assert tab.tickets[i] in tab.tickets;
    NoKids(tab.tickets, id);
    var t := StartWrites(tab, id, run);
    WrittenAsAsked(tab, i, t);
  }

  lemma OutcomeMeans(tab: Table, id: string, run: string, again: Op)
    requires var i := FindTicket(tab.tickets, id); i >= 0 && LastRun(tab.tickets[i], run)
    requires again.Finish? && again.id == id
    ensures var t := tab.tickets[FindTicket(tab.tickets, id)];
            && (t.status == Done ==> FinishChange(tab, id, again.run, again.status, again.mergePending).Fail?)
            && (t.status == Blocked ==> StartChange(tab, id, run).Touch? && StartChange(tab, id, run).touched == [id])
  {
  }

  /** A finished ticket has the outcome asked for, unless its subtickets decide its status; merge-pending
      only with blocked. Nothing finishes a done ticket again, and the run that left it blocked may take it
      up. */
  lemma FinishGivesTheOutcome(tab: Table, id: string, run: string, status: Status, mergePending: bool, again: Op)
    requires FinishChange(tab, id, run, status, mergePending).Touch? && NotOwnParent(tab.tickets, id)
    requires again.Finish? && again.id == id
    ensures var after := Committed(tab, FinishChange(tab, id, run, status, mergePending), true);
            var i := FindTicket(tab.tickets, id);
            && i >= 0 && FindTicket(after.tickets, id) == i && status in {Done, Blocked}
            && after.tickets[i].status == StatusAfter(tab.tickets, tab.tickets[i].(status := status))
            && (Childless(tab.tickets, id) ==> after.tickets[i].status == status)
            && (after.tickets[i].mergePending <==> mergePending && status == Blocked)
            && after.tickets[i].runs == tab.tickets[i].runs
            && (after.tickets[i].status == Done ==>
                  FinishChange(after, id, again.run, again.status, again.mergePending).Fail?)
            && (after.tickets[i].status == Blocked ==>
                  StartChange(after, id, run).Touch? && StartChange(after, id, run).touched == [id])
  {
    var c, i := FinishChange(tab, id, run, status, mergePending), FindTicket(tab.tickets, id);
    assert tab.tickets[i] in tab.tickets;
    NoKids(tab.tickets, id);
    WrittenAsAsked(tab, i, c.table.tickets[i]);
    OutcomeMeans(Committed(tab, c, true), id, run, again);
  }

  lemma BlockedIsStopped(tab: Table, id: string, run: string)
    requires var i := FindTicket(tab.tickets, id); i >= 0 && tab.tickets[i].status == Blocked
    ensures var t := tab.tickets[FindTicket(tab.tickets, id)];
            !Runnable(tab.tickets, t) && (StartChange(tab, id, run).Touch? <==> LastRun(t, run))
  {
  }

  /** A blocked ticket is blocked and otherwise as it was; only the run it last had may start it now. */
  lemma BlockStopsTheTicket(tab: Table, id: string, run: string)
    requires BlockChange(tab, id).Touch?
    ensures var after := Committed(tab, BlockChange(tab, id), true);
            var i := FindTicket(tab.tickets, id);
            && i >= 0 && FindTicket(after.tickets, id) == i
            && after.tickets[i] == tab.tickets[i].(status := Blocked)
            && !Runnable(after.tickets, after.tickets[i])
            && (StartChange(after, id, run).Touch? <==> LastRun(tab.tickets[i], run))
  {
    var c, i := BlockChange(tab, id), FindTicket(tab.tickets, id);
    assert tab.tickets[i] in tab.tickets;
    NoKids(tab.tickets, id);
    WrittenAsAsked(tab, i, c.table.tickets[i]);
    BlockedIsStopped(Committed(tab, c, true), id, run);
  }

  lemma PlanningIsTaken(tab: Table, id: string, run: string)
    requires var i := FindTicket(tab.tickets, id);
             i >= 0 && LastRun(tab.tickets[i], run) && tab.tickets[i].status == Planning
    ensures StartPlanChange(tab, id, run) == Touch(tab, []) && PlanReviewChange(tab, id, run).Touch?
  {
  }

  /** A plan keeps its ticket through the commit: planning under the asking run, which may hand it in. */
  lemma PlanHoldsTheTicket(tab: Table, id: string, run: string)
    requires NotOwnParent(tab.tickets, id)
    ensures var c := StartPlanChange(tab, id, run);
            c.Touch? ==>
              var after := Committed(tab, c, true);
              var i := FindTicket(tab.tickets, id);
              && i >= 0 && FindTicket(after.tickets, id) == i
              && after.tickets[i].status == Planning && LastRun(after.tickets[i], run)
              && StartPlanChange(after, id, run) == Touch(after, [])
              && PlanReviewChange(after, id, run).Touch?
  {
    var c := StartPlanChange(tab, id, run);
    if c.Touch? {
      if c.touched != [] {
        PlannedAfresh(tab, id, run);
      } else {
        assert c == Touch(tab, []) && Committed(tab, c, true) == tab;
      }
      PlanningIsTaken(Committed(tab, c, true), id, run);
    }
  }

  lemma PlanWrites(tab: Table, id: string, run: string)
    requires StartPlanChange(tab, id, run).Touch? && StartPlanChange(tab, id, run).touched != []
    ensures var i := FindTicket(tab.tickets, id);
            i >= 0 && StartPlanChange(tab, id, run) == Rewritten(tab, i, WithRun(tab.tickets[i], run).(status := Planning))
  {
  }

  lemma PlannedAfresh(tab: Table, id: string, run: string)
    requires StartPlanChange(tab, id, run).Touch? && StartPlanChange(tab, id, run).touched != []
    requires NotOwnParent(tab.tickets, id)
    ensures var after := Committed(tab, StartPlanChange(tab, id, run), true).tickets;
            var i := FindTicket(tab.tickets, id);
            i >= 0 && FindTicket(after, id) == i && after[i].status == Planning && LastRun(after[i], run)
  {
    var i := FindTicket(tab.tickets, id);
    PlanWrites(tab, id, run);
    assert tab.tickets[i] in tab.tickets;
    WrittenAsAsked(tab, i, WithRun(tab.tickets[i], run).(status := Planning));
  }

  /** A plan that is handed in waits for a person: in review and otherwise as it was, no longer changed by
      its run, decided by a person or taken back by that run. No other run hands it in. */
  lemma PlanReviewHandsIn(tab: Table, id: string, run: string, other: string)
    requires PlanReviewChange(tab, id, run).Touch? && NotOwnParent(tab.tickets, id)
    ensures var after := Committed(tab, PlanReviewChange(tab, id, run), true);
            var i := FindTicket(tab.tickets, id);
            && i >= 0 && FindTicket(after.tickets, id) == i
            && after.tickets[i] == tab.tickets[i].(status := Review)
            && InReview(after.tickets, id).None? && StartPlanChange(after, id, run).Touch?
            && (run != "" ==> PlanLock(after.tickets, id, run).Some?)
            && (other != run ==> PlanReviewChange(tab, id, other).Fail?)
  {
    var c, i := PlanReviewChange(tab, id, run), FindTicket(tab.tickets, id);
    assert tab.tickets[i] in tab.tickets;
    WrittenAsAsked(tab, i, c.table.tickets[i]);
  }

  /** A revised plan is being planned again by the run asked for, which becomes the ticket's last: nobody
      decides it meanwhile, and no other run changes it or hands it in. */
  lemma ReviseSendsBack(tab: Table, id: string, run: string, feedback: string, other: string)
    requires ReviseChange(tab, id, run, feedback).Touch? && NotOwnParent(tab.tickets, id)
    ensures var after := Committed(tab, ReviseChange(tab, id, run, feedback), true);
            var i := FindTicket(tab.tickets, id);
            && i >= 0 && FindTicket(after.tickets, id) == i
            && after.tickets[i] == WithRun(tab.tickets[i], run).(status := Planning)
            && ApproveChange(after, id).Fail? && RejectChange(after, id, feedback).Fail?
            && (run != "" ==> PlanLock(after.tickets, id, run).None?) && PlanReviewChange(after, id, run).Touch?
            && (other != run ==> PlanLock(after.tickets, id, other).Some? && PlanReviewChange(after, id, other).Fail?)
  {
    var c, i := ReviseChange(tab, id, run, feedback), FindTicket(tab.tickets, id);
    assert tab.tickets[i] in tab.tickets;
    WrittenAsAsked(tab, i, WithRun(tab.tickets[i], run).(status := Planning));
    PlanningIsRuns(Committed(tab, c, true), id, run, feedback, other);
  }

  /** A ticket being planned is its run's alone. */
  lemma PlanningIsRuns(tab: Table, id: string, run: string, feedback: string, other: string)
    requires var i := FindTicket(tab.tickets, id);
             i >= 0 && LastRun(tab.tickets[i], run) && tab.tickets[i].status == Planning
    ensures ApproveChange(tab, id).Fail? && RejectChange(tab, id, feedback).Fail?
    ensures (run != "" ==> PlanLock(tab.tickets, id, run).None?) && PlanReviewChange(tab, id, run).Touch?
    ensures other != run ==> PlanLock(tab.tickets, id, other).Some? && PlanReviewChange(tab, id, other).Fail?
  {
  }

  lemma AllReadyDerivesReady(kids: seq<Ticket>)
    requires kids != [] && forall t :: t in kids ==> t.status == Ready
    ensures Derived(kids) == Ready
  {
    assert kids[0] in kids;
    assert SomeKid(kids, Ready) && !SomeKid(kids, Done) && !SomeKid(kids, Blocked) && !SomeKid(kids, Running);
  }

  lemma {:induction false} SettlingNeverHolds(rows: seq<Ticket>, touched: seq<string>, k: nat)
    requires k < |rows| && !Held(rows[k].status)
    ensures !Held(Settled(rows, touched)[k].status)
  {
    if touched != [] {
      var init, last := touched[..|touched| - 1], touched[|touched| - 1];
      var mid := Settled(rows, init);
      SettlingNeverHolds(rows, init, k);
      SettleOneIs(mid, last);
      DerivedRange(Subtickets(mid, mid[k].id));
    }
  }

  lemma ApprovedKid(rows: seq<Ticket>, i: nat, touched: seq<string>, k: nat)
    requires i < |rows| && k < |rows| && rows[k].parent == rows[i].id && k != i && Childless(rows, rows[k].id)
    ensures Settled(Approved(rows, rows[i].id, i), touched)[k] == rows[k].(status := Ready)
  {
    var mid := Approved(rows, rows[i].id, i);
    SameTreeFinds(rows, mid, rows[k].id);
    SettlingWritesParentsOnly(mid, touched, k);
  }

  lemma ApprovedKids(tab: Table, id: string)
    requires Sound(tab) && ApproveChange(tab, id).Touch?
    ensures var after := Committed(tab, ApproveChange(tab, id), true).tickets;
            && |after| == |tab.tickets|
            && forall k :: 0 <= k < |after| && tab.tickets[k].parent == id ==>
                 after[k] == tab.tickets[k].(status := Ready)
  {
    var rows, i := tab.tickets, FindTicket(tab.tickets, id);
    NoEmptyId(tab);
    HeldIsTop(rows, id);
    ApproveIs(tab, id);
    forall k | 0 <= k < |rows| && rows[k].parent == id
      ensures Settled(Approved(rows, id, i), ApproveChange(tab, id).touched)[k] == rows[k].(status := Ready)
    {
      KidHasNoKids(tab, k);
      ApprovedKid(rows, i, ApproveChange(tab, id).touched, k);
    }
  }

  lemma HeldIsTop(rows: seq<Ticket>, id: string)
    requires Lifecycle(rows) && FindTicket(rows, id) >= 0 && Held(rows[FindTicket(rows, id)].status)
    ensures rows[FindTicket(rows, id)].parent == ""
  {
  }

  lemma FollowsIn(tab: Table, i: nat)
    requires Invariant(tab) && i < |tab.tickets|
    ensures Follows(tab.tickets, tab.tickets[i])
  {
  }

  lemma ApprovedInvariant(tab: Table, id: string)
    requires Invariant(tab)
    ensures Invariant(Committed(tab, ApproveChange(tab, id), true))
  {
    ApproveGood(tab, id);
    CommitKeepsInvariant(tab, ApproveChange(tab, id), true);
  }

  /** An approved plan is no longer one: its ticket and every subticket are ready, otherwise as they were,
      and none is a draft. */
  lemma ApproveReadiesThePlan(tab: Table, id: string)
    requires Invariant(tab) && ApproveChange(tab, id).Touch?
    ensures var after := Committed(tab, ApproveChange(tab, id), true).tickets;
            var i := FindTicket(tab.tickets, id);
            && i >= 0 && |after| == |tab.tickets| && after[i] == tab.tickets[i].(status := Ready)
            && (forall k :: 0 <= k < |after| && tab.tickets[k].parent == id ==>
                  after[k] == tab.tickets[k].(status := Ready) && !IsDraft(after, after[k]))
  {
    ApprovedKids(tab, id);
    ApprovedInvariant(tab, id);
    FollowsIn(Committed(tab, ApproveChange(tab, id), true), FindTicket(tab.tickets, id));
    ApproveIs(tab, id);
    ReadyParent(tab.tickets, FindTicket(tab.tickets, id), ApproveChange(tab, id).touched);
  }

  lemma ApproveIs(tab: Table, id: string)
    requires ApproveChange(tab, id).Touch?
    ensures var i := FindTicket(tab.tickets, id);
            && i >= 0 && !Childless(tab.tickets, id)
            && ApproveChange(tab, id) == Approval(tab, id)
  {
    NoKids(tab.tickets, id);
  }

  lemma ReadyParent(rows: seq<Ticket>, i: nat, touched: seq<string>)
    requires i < |rows| && !Childless(rows, rows[i].id) && FindTicket(rows, rows[i].id) == i
    requires var after := Settled(Approved(rows, rows[i].id, i), touched);
             && Follows(after, after[i])
             && forall k :: 0 <= k < |after| && rows[k].parent == rows[i].id ==> after[k] == rows[k].(status := Ready)
    ensures var after := Settled(Approved(rows, rows[i].id, i), touched);
            FindTicket(after, rows[i].id) == i && after[i] == rows[i].(status := Ready)
  {
    var mid := Approved(rows, rows[i].id, i);
    ApprovedTree(rows, i);
    ApprovedParent(rows, i);
    SettledShape(mid, touched);
    SettledReady(rows, mid, touched, i);
    SameTreeFinds(rows, Settled(mid, touched), rows[i].id);
  }

  lemma ApprovedParent(rows: seq<Ticket>, i: nat)
    requires i < |rows|
    ensures var t := Approved(rows, rows[i].id, i)[i];
            !Held(t.status) && t.(status := Ready) == rows[i].(status := Ready)
  {
    DerivedRange(Subtickets(ReadyKids(rows, rows[i].id), rows[i].id));
  }

  lemma SettledReady(rows: seq<Ticket>, mid: seq<Ticket>, touched: seq<string>, i: nat)
    requires SameTree(rows, mid) && i < |rows| && !Held(mid[i].status) && !Childless(rows, rows[i].id)
    requires rows[i].(status := Ready) == mid[i].(status := Ready)
    requires var after := Settled(mid, touched);
             && Follows(after, after[i])
             && forall k :: 0 <= k < |rows| && rows[k].parent == rows[i].id ==> after[k].status == Ready
    ensures SameTree(rows, Settled(mid, touched))
    ensures Settled(mid, touched)[i] == rows[i].(status := Ready)
  {
    SettledShape(mid, touched);
    SettlingWritesParentsOnly(mid, touched, i);
    SettlingNeverHolds(mid, touched, i);
    SameTreeFinds(rows, Settled(mid, touched), rows[i].id);
    ReadyRowsDeriveReady(rows, Settled(mid, touched), rows[i].id);
  }

  lemma ReadyRowsDeriveReady(rows: seq<Ticket>, after: seq<Ticket>, id: string)
    requires SameTree(rows, after) && !Childless(after, id)
    requires forall k :: 0 <= k < |rows| && rows[k].parent == id ==> after[k].status == Ready
    ensures Derived(Subtickets(after, id)) == Ready
  {
    var kids := Subtickets(after, id);
    forall t | t in kids ensures t.status == Ready {
      var k :| 0 <= k < |after| && after[k] == t;
      assert rows[k].parent == id;
    }
    NoKids(after, id);
    AllReadyDerivesReady(kids);
  }

  /** t is what patch makes of was: a field it does not name stays. */
  ghost predicate Patched(was: Ticket, t: Ticket, patch: Patch) {
    && t == was.(status := t.status, dependsOn := t.dependsOn)
    && t.status == (if patch.status.Some? then patch.status.value else was.status)
    && (patch.dependsOn.None? ==> t.dependsOn == was.dependsOn)
    && (patch.dependsOn.Some? ==> forall d :: d in t.dependsOn <==> d in patch.dependsOn.value)
  }

  /** An update that is not refused leaves the ticket waiting for exactly what was asked and in the status
      asked for, wherever its own status was settled; what was not asked about stays. In any table the
      dependencies are as asked. */
  lemma UpdateDoesWhatWasAsked(tab: Table, id: string, patch: Patch, run: string)
    requires UpdateChange(tab, id, patch, run).Touch? && NotOwnParent(tab.tickets, id)
    ensures var i := FindTicket(tab.tickets, id);
            && 0 <= i < |Committed(tab, UpdateChange(tab, id, patch, run), true).tickets|
            && var t, was := Committed(tab, UpdateChange(tab, id, patch, run), true).tickets[i], tab.tickets[i];
            && (exists status :: Patched(was, t.(status := status), patch))
            && (Follows(tab.tickets, was) ==> Patched(was, t, patch))
  {
    var c, i := UpdateChange(tab, id, patch, run), FindTicket(tab.tickets, id);
    var was, t := tab.tickets[i], c.table.tickets[i];
    assert was in tab.tickets;
    UpdatedChange(tab, i, patch, run);
    assert t.(status := t.status) == t;
    if c.touched != [] {
      WrittenAsAsked(tab, i, t);
      NoKids(tab.tickets, id);
      var now := Committed(tab, c, true).tickets[i];
      assert now.(status := t.status) == t;
    }
  }

  /** What an update writes: the patched row, a parent's status never changed. */
  lemma UpdatedChange(tab: Table, i: nat, patch: Patch, run: string)
    requires i < |tab.tickets| && FindTicket(tab.tickets, tab.tickets[i].id) == i
    requires UpdateChange(tab, tab.tickets[i].id, patch, run).Touch? && tab.tickets[i].parent != tab.tickets[i].id
    ensures var c := UpdateChange(tab, tab.tickets[i].id, patch, run);
            && |c.table.tickets| == |tab.tickets| && Patched(tab.tickets[i], c.table.tickets[i], patch)
            && (c.touched == [] ==> c.table == tab)
            && (c.touched != [] ==> c == Rewritten(tab, i, c.table.tickets[i]))
            && (Subtickets(tab.tickets, tab.tickets[i].id) != [] ==>
                  c.table.tickets[i].status == tab.tickets[i].status)
  {
    UpdateIs(tab, i, patch, run);
    PatchedRows(tab, i, patch, run);
  }

  lemma UpdateIs(tab: Table, i: nat, patch: Patch, run: string)
    requires i < |tab.tickets| && FindTicket(tab.tickets, tab.tickets[i].id) == i
    requires UpdateChange(tab, tab.tickets[i].id, patch, run).Touch?
    ensures RelinkChange(tab, i, patch, run).Ok?
            && RestatusChange(RelinkChange(tab, i, patch, run).value, i, patch).Ok?
    ensures var rows := RestatusChange(RelinkChange(tab, i, patch, run).value, i, patch).value;
            UpdateChange(tab, tab.tickets[i].id, patch, run)
            == if rows == tab.tickets then Touch(tab, []) else Touch(tab.(tickets := rows), [tab.tickets[i].id])
  {
  }

  lemma PatchedRows(tab: Table, i: nat, patch: Patch, run: string)
    requires i < |tab.tickets| && tab.tickets[i].parent != tab.tickets[i].id
    requires RelinkChange(tab, i, patch, run).Ok?
             && RestatusChange(RelinkChange(tab, i, patch, run).value, i, patch).Ok?
    ensures var rows := RestatusChange(RelinkChange(tab, i, patch, run).value, i, patch).value;
            && |rows| == |tab.tickets| && rows == tab.tickets[i := rows[i]] && Patched(tab.tickets[i], rows[i], patch)
            && (Subtickets(tab.tickets, tab.tickets[i].id) != [] ==> rows[i].status == tab.tickets[i].status)
  {
    RelinkedRow(tab, i, patch, run);
    var relinked := RelinkChange(tab, i, patch, run).value;
    SameKidsDerive(tab.tickets, i, relinked[i]);
    RestatusedRow(relinked, i, patch);
    var rows := RestatusChange(relinked, i, patch).value;
    assert rows == tab.tickets[i := rows[i]];
  }

  lemma RestatusedRow(rows: seq<Ticket>, i: nat, patch: Patch)
    requires i < |rows| && RestatusChange(rows, i, patch).Ok?
    ensures var after := RestatusChange(rows, i, patch).value;
            && after == rows[i := rows[i].(status := if patch.status.Some? then patch.status.value else rows[i].status)]
            && (Subtickets(rows, rows[i].id) != [] ==> after[i].status == rows[i].status)
  {
    if patch.status.None? || patch.status.value == rows[i].status {
      RestatusKeeps(rows, i, patch);
    } else {
      RestatusWrites(rows, i, patch);
    }
  }

  lemma RestatusKeeps(rows: seq<Ticket>, i: nat, patch: Patch)
    requires i < |rows| && (patch.status.None? || patch.status.value == rows[i].status)
    ensures RestatusChange(rows, i, patch).Ok? && RestatusChange(rows, i, patch).value == rows
    ensures rows == rows[i := rows[i].(status := rows[i].status)]
  {
  }

  lemma RestatusWrites(rows: seq<Ticket>, i: nat, patch: Patch)
    requires i < |rows| && patch.status.Some? && patch.status.value != rows[i].status
    requires RestatusChange(rows, i, patch).Ok?
    ensures RestatusChange(rows, i, patch).value == rows[i := rows[i].(status := patch.status.value)]
    ensures Subtickets(rows, rows[i].id) == []
  {
  }

  lemma RelinkedRow(tab: Table, i: nat, patch: Patch, run: string)
    requires i < |tab.tickets| && RelinkChange(tab, i, patch, run).Ok?
    ensures var rows := RelinkChange(tab, i, patch, run).value;
            && |rows| == |tab.tickets| && rows == tab.tickets[i := rows[i]]
            && rows[i] == tab.tickets[i].(dependsOn := rows[i].dependsOn)
            && (patch.dependsOn.None? ==> rows[i].dependsOn == tab.tickets[i].dependsOn)
            && (patch.dependsOn.Some? ==> forall d :: d in rows[i].dependsOn <==> d in patch.dependsOn.value)
  {
    if patch.dependsOn.Some? { CheckedDepsMeaning(tab.tickets, tab.tickets[i], patch.dependsOn.value); }
  }

  /** A rejected plan is undone: its ticket is there, open and otherwise as it was, without subtickets. */
  lemma RejectTakesTheDrafts(tab: Table, id: string, reason: string)
    requires UniqueIds(tab.tickets) && RejectChange(tab, id, reason).Touch?
    ensures var after := Committed(tab, RejectChange(tab, id, reason), true).tickets;
            var i, j := FindTicket(tab.tickets, id), FindTicket(after, id);
            i >= 0 && j >= 0 && Childless(after, id) && after[j] == tab.tickets[i].(status := Open)
  {
    var c, rows := RejectChange(tab, id, reason), tab.tickets;
    var kept, mid := WithoutKids(rows, id), c.table.tickets;
    var j := FindTicket(kept, id);
    assert kept[j] in kept;
    SameRow(rows, kept[j], rows[FindTicket(rows, id)]);
    assert Childless(mid, id) by {
      forall t | t in mid ensures t.parent != id {
        var k :| 0 <= k < |mid| && mid[k] == t;
        assert kept[k] in kept;
      }
    }
    SameTreeFinds(kept, mid, id);
    SettledShape(mid, c.touched);
    SameTreeFinds(mid, Settled(mid, c.touched), id);
    SettlingWritesParentsOnly(mid, c.touched, j);
  }

  /** A delete takes the one ticket; of the others only the status can change, by settling. */
  lemma RemoveTakesOne(tab: Table, id: string, run: string)
    requires UniqueIds(tab.tickets) && RemoveChange(tab, id, run).Touch?
    ensures var after := Committed(tab, RemoveChange(tab, id, run), true).tickets;
            && FindTicket(tab.tickets, id) >= 0 && FindTicket(after, id) < 0 && |after| == |tab.tickets| - 1
            && forall k :: 0 <= k < |after| ==>
                 after[k] == tab.tickets[if k < FindTicket(tab.tickets, id) then k else k + 1].(status := after[k].status)
  {
    var c, i := RemoveChange(tab, id, run), FindTicket(tab.tickets, id);
    var mid := c.table.tickets;
    assert mid == Without(tab.tickets, i);
    OneFewer(tab.tickets, i);
    SettledShape(mid, c.touched);
    SettlingKeepsRows(mid, c.touched);
    SameTreeFinds(mid, Settled(mid, c.touched), id);
  }

  lemma OneFewer(rows: seq<Ticket>, i: nat)
    requires UniqueIds(rows) && i < |rows|
    ensures var after := Without(rows, i);
            && |after| == |rows| - 1 && FindTicket(after, rows[i].id) < 0
            && forall k :: 0 <= k < |after| ==> after[k] == rows[if k < i then k else k + 1]
  {
  }

  lemma NewIsChildless(tab: Table, tk: Ticket)
    requires Minted(tab) && TwoLevels(tab.tickets) && tk.id == TicketId(tab.next + 1)
    requires tk.parent == "" || FindTicket(tab.tickets, tk.parent) >= 0
    ensures Childless(tab.tickets + [tk], tk.id)
  {
    FreshId(tab);
    assert tk.id[0] == 'T';
    forall t | t in tab.tickets + [tk] ensures t.parent != tk.id {
      if t != tk {
        var k :| 0 <= k < |tab.tickets| && tab.tickets[k] == t;
      }
    }
  }

  /** A create adds one ticket, at the end, under the next id: open, untouched by any run, waiting for
      exactly what was asked. */
  lemma CreateAddsOne(tab: Table, n: NewTicket, run: string)
    requires Shaped(tab) && CreateChange(tab, n, run).Touch?
    ensures var after := Committed(tab, CreateChange(tab, n, run), true);
            var k := |tab.tickets|;
            && after.next == tab.next + 1 && |after.tickets| == k + 1
            && (forall j :: 0 <= j < k ==> after.tickets[j] == tab.tickets[j].(status := after.tickets[j].status))
            && after.tickets[k].id == TicketId(tab.next + 1) && after.tickets[k].parent == n.parent
            && after.tickets[k].title == TrimSpace(n.title) && !after.tickets[k].mergePending
            && after.tickets[k].status == Open && after.tickets[k].runs == []
            && (forall d :: d in after.tickets[k].dependsOn <==> d in n.dependsOn)
  {
    var c, rows, k := CreateChange(tab, n, run), tab.tickets, |tab.tickets|;
    var mid := c.table.tickets;
    CreatedRow(tab, n, run);
    NewIsChildless(tab, mid[k]);
    SettlingKeepsRows(mid, c.touched);
    SettlingWritesParentsOnly(mid, c.touched, k);
  }

  lemma CreatedRow(tab: Table, n: NewTicket, run: string)
    requires CreateChange(tab, n, run).Touch?
    ensures var c, k := CreateChange(tab, n, run), |tab.tickets|;
            && c.touched != [] && c.table.next == tab.next + 1 && |c.table.tickets| == k + 1
            && c.table.tickets == tab.tickets + [c.table.tickets[k]]
            && c.table.tickets[k].id == TicketId(tab.next + 1) && c.table.tickets[k].parent == n.parent
            && (n.parent == "" || FindTicket(tab.tickets, n.parent) >= 0)
            && c.table.tickets[k].title == TrimSpace(n.title) && !c.table.tickets[k].mergePending
            && c.table.tickets[k].status == Open && c.table.tickets[k].runs == []
            && (forall d :: d in c.table.tickets[k].dependsOn <==> d in n.dependsOn)
  {
    var tk := Ticket(TicketId(tab.next + 1), TrimSpace(n.title), Open, n.parent, [], [], false);
    CheckedDepsMeaning(tab.tickets + [tk], tk, n.dependsOn);
  }

  lemma SettlingKeepsRows(rows: seq<Ticket>, touched: seq<string>)
    ensures forall j :: 0 <= j < |rows| ==>
              Settled(rows, touched)[j] == rows[j].(status := Settled(rows, touched)[j].status)
  {
    forall j | 0 <= j < |rows|
      ensures Settled(rows, touched)[j] == rows[j].(status := Settled(rows, touched)[j].status)
    {
      SettlingWritesParentsOnly(rows, touched, j);
    }
  }
}
