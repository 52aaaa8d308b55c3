/** Every request keeps the invariant of the ticket table. */
module TicketSteps {
  import opened TicketRules
  import opened TicketTable
  import opened TicketInvariants

  lemma SettledMonotone(rows: seq<Ticket>, small: set<string>, big: set<string>)
    requires SettledExcept(rows, small) && small <= big
    ensures SettledExcept(rows, big)
  {
  }

  /** After a change to one ticket, reporting that ticket is enough. */
  lemma OneTouched(tab: Table, i: nat, loose: set<string>)
    requires Sound(tab) && i < |tab.tickets|
    requires loose <= {tab.tickets[i].id, tab.tickets[i].parent} && SettledExcept(tab.tickets, loose)
    ensures GoodChange(Touch(tab, [tab.tickets[i].id]))
  {
    var rows, id := tab.tickets, tab.tickets[i].id;
    FindUnique(rows, i);
    NonEmptyIds(tab);
    var decided := Decided(rows, [id]);
    assert SettledBy(rows, id) in decided by {
      assert id in [id];
    }
    forall j | 0 <= j < |rows| && rows[j].id !in decided ensures Follows(rows, rows[j]) {
      if rows[j].id in loose {
        assert rows[j].id == id;
        FindUnique(rows, j);
        if !Childless(rows, id) {
          ParentIsTop(tab, i);
        }
      }
    }
  }

  lemma RewrittenGood(tab: Table, i: nat, t: Ticket)
    requires Invariant(tab) && i < |tab.tickets| && SameTicket(tab.tickets[i], t)
    requires !t.status.Other?
    requires Held(t.status) ==>
               t.parent == "" && t.runs != [] && (Held(tab.tickets[i].status) || Childless(tab.tickets, t.id))
    requires IsDraft(tab.tickets, tab.tickets[i]) ==> t.status == Open && t.runs == []
    requires t.status == Running && Childless(tab.tickets, t.id) ==> t.runs != []
    ensures GoodChange(Rewritten(tab, i, t))
  {
    RewriteKeepsSound(tab, i, t);
    RewriteUnsettles(tab.tickets, i, t, {});
    OneTouched(tab.(tickets := tab.tickets[i := t]), i, {t.id, t.parent});
  }

  // ----- Requests that rewrite one row

  /** What a start writes: the ticket running under the asking run, by then its last. */
  lemma StartWrites(tab: Table, id: string, run: string) returns (t: Ticket)
    requires StartChange(tab, id, run).Touch? && StartChange(tab, id, run).touched != []
    ensures var i := FindTicket(tab.tickets, id);
            && i >= 0 && StartChange(tab, id, run) == Rewritten(tab, i, t)
            && t == tab.tickets[i].(status := Running, mergePending := false, runs := t.runs)
    ensures LastRun(t, run) && !Held(tab.tickets[FindTicket(tab.tickets, id)].status)
    ensures tab.tickets[FindTicket(tab.tickets, id)].status in {Ready, Blocked}
  {
    var tk := tab.tickets[FindTicket(tab.tickets, id)];
    t := WithRun(tk, run).(status := Running, mergePending := false);
  }

  lemma StartGood(tab: Table, id: string, run: string)
    requires Invariant(tab)
    ensures Keeps(StartChange(tab, id, run))
  {
    var c := StartChange(tab, id, run);
    if c.Touch? && c.touched != [] {
      var t := StartWrites(tab, id, run);
      RewrittenGood(tab, FindTicket(tab.tickets, id), t);
    }
  }

  /** A plan is started only on a top-level ticket that is already held or has no subtickets. */
  lemma StartPlanTouches(rows: seq<Ticket>, id: string, run: string, next: nat)
    requires var c := StartPlanChange(Table(next, rows), id, run); c.Touch? && c.touched != []
    requires Lifecycle(rows)
    ensures var i := FindTicket(rows, id);
            && i >= 0 && rows[i].parent == "" && (Held(rows[i].status) || Childless(rows, id))
            && StartPlanChange(Table(next, rows), id, run)
               == Rewritten(Table(next, rows), i, WithRun(rows[i], run).(status := Planning))
  {
    NoKids(rows, id);
  }

  lemma StartPlanGood(tab: Table, id: string, run: string)
    requires Invariant(tab)
    ensures Keeps(StartPlanChange(tab, id, run))
  {
    var c := StartPlanChange(tab, id, run);
    if c.Touch? && c.touched != [] {
      var i := FindTicket(tab.tickets, id);
      assert tab == Table(tab.next, tab.tickets);
      StartPlanTouches(tab.tickets, id, run, tab.next);
      NoEmptyId(tab);
      RewrittenGood(tab, i, WithRun(tab.tickets[i], run).(status := Planning));
    }
  }

  lemma PlanReviewGood(tab: Table, id: string, run: string)
    requires Invariant(tab)
    ensures Keeps(PlanReviewChange(tab, id, run))
  {
    var c := PlanReviewChange(tab, id, run);
    if c.Touch? {
      var i := FindTicket(tab.tickets, id);
      NoEmptyId(tab);
      RewrittenGood(tab, i, tab.tickets[i].(status := Review));
    }
  }

  lemma ReviseGood(tab: Table, id: string, run: string, feedback: string)
    requires Invariant(tab)
    ensures Keeps(ReviseChange(tab, id, run, feedback))
  {
    var c := ReviseChange(tab, id, run, feedback);
    if c.Touch? {
      var i := FindTicket(tab.tickets, id);
      NoEmptyId(tab);
      RewrittenGood(tab, i, WithRun(tab.tickets[i], run).(status := Planning));
    }
  }

  lemma FinishGood(tab: Table, id: string, run: string, status: Status, mergePending: bool)
    requires Invariant(tab)
    ensures Keeps(FinishChange(tab, id, run, status, mergePending))
  {
    var c := FinishChange(tab, id, run, status, mergePending);
    if c.Touch? {
      var i := FindTicket(tab.tickets, id);
      RewrittenGood(tab, i, tab.tickets[i].(status := status, mergePending := mergePending && status == Blocked));
    }
  }

  lemma BlockGood(tab: Table, id: string)
    requires Invariant(tab)
    ensures Keeps(BlockChange(tab, id))
  {
    var c := BlockChange(tab, id);
    if c.Touch? {
      var i := FindTicket(tab.tickets, id);
      RewrittenGood(tab, i, tab.tickets[i].(status := Blocked));
    }
  }

  lemma CommentGood(tab: Table, id: string, text: string)
    requires Invariant(tab)
    ensures Keeps(CommentChange(tab, id, text))
  {
    if FindTicket(tab.tickets, id) >= 0 {
      SettledMonotone(tab.tickets, {}, Decided(tab.tickets, [id]));
    }
  }
}
