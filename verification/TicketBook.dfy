/** The ticket store of one project. Each request works on a copy of the table and
    replaces it only once the copy is settled and saved. */
module TicketBook {
  import opened TicketRules
  import opened TicketTable
  import opened TicketInvariants
  import opened TicketRequests
  import opened TicketTheorems
  import opened TicketSteps
  import opened TicketLinks
  import opened TicketRows
  import opened TicketDrops

  /** Rejecting a plan never deletes the planned ticket itself. */
  lemma PlanKept(tab: Table, id: string)
    requires Invariant(tab)
    ensures InReview(tab.tickets, id).None? ==> FindTicket(WithoutKids(tab.tickets, id), id) >= 0
  {
    NonEmptyIds(tab);
    if InReview(tab.tickets, id).None? {
      var t := tab.tickets[FindTicket(tab.tickets, id)];
      assert t in tab.tickets && t.parent == "";
      assert t in WithoutKids(tab.tickets, id);
    }
  }

  class Book {
    var table: Table

    ghost predicate Valid()
      reads this
    {
      Invariant(table)
    }

    constructor ()
      ensures Valid() && table == EmptyTable
    {
      table := EmptyTable;
      new;
      EmptyIsSound();
    }

    /** Settles the new table and, once it is saved, makes it the book's. The answer shows each
        announced ticket. */
    method Commit(c: Change, saved: bool) returns (r: Result<seq<TicketView>>)
      modifies this
      ensures table == Committed(old(table), c, saved)
      ensures r == Answer(old(table), c, saved)
    {
      if c.Fail? {
        return Err(c.refusal);
      }
      if c.touched == [] {
        return Ok([]);
      }
      var after, out := SettleParents(c.table.tickets, c.touched);
      if !saved {
        return Err(NotSaved);
      }
      table := c.table.(tickets := after);
      var views := ComputeViews(after, out);
      return Ok(views);
    }

    method Serve(c: Change, saved: bool) returns (r: Result<seq<TicketView>>)
      requires Valid() && Keeps(c)
      modifies this
      ensures Valid() && table == Committed(old(table), c, saved) && r == Answer(old(table), c, saved)
    {
      CommitKeepsInvariant(table, c, saved);
      r := Commit(c, saved);
    }

    method CreateTicket(n: NewTicket, run: string, saved: bool) returns (r: Result<seq<TicketView>>)
      requires Valid()
      modifies this
      ensures Valid()
      ensures table == Committed(old(table), CreateChange(old(table), n, run), saved)
      ensures r == Answer(old(table), CreateChange(old(table), n, run), saved)
    {
      var c := ComputeCreate(table, n, run);
      CreateGood(table, n, run);
      r := Serve(c, saved);
    }

    method UpdateTicket(id: string, patch: Patch, run: string, saved: bool) returns (r: Result<seq<TicketView>>)
      requires Valid()
      modifies this
      ensures Valid()
      ensures table == Committed(old(table), UpdateChange(old(table), id, patch, run), saved)
      ensures r == Answer(old(table), UpdateChange(old(table), id, patch, run), saved)
    {
      var c := ComputeUpdate(table, id, patch, run);
      UpdateGood(table, id, patch, run);
      r := Serve(c, saved);
    }

    method CommentOn(id: string, text: string, saved: bool) returns (r: Result<seq<TicketView>>)
      requires Valid()
      modifies this
      ensures Valid()
      ensures table == Committed(old(table), CommentChange(old(table), id, text), saved)
      ensures r == Answer(old(table), CommentChange(old(table), id, text), saved)
    {
      var c := ComputeComment(table, id, text);
      CommentGood(table, id, text);
      r := Serve(c, saved);
    }

    method StartRun(id: string, run: string, saved: bool) returns (r: Result<seq<TicketView>>)
      requires Valid()
      modifies this
      ensures Valid()
      ensures table == Committed(old(table), StartChange(old(table), id, run), saved)
      ensures r == Answer(old(table), StartChange(old(table), id, run), saved)
    {
      var c := ComputeStart(table, id, run);
      StartGood(table, id, run);
      r := Serve(c, saved);
    }

    method StartPlanning(id: string, run: string, saved: bool) returns (r: Result<seq<TicketView>>)
      requires Valid()
      modifies this
      ensures Valid()
      ensures table == Committed(old(table), StartPlanChange(old(table), id, run), saved)
      ensures r == Answer(old(table), StartPlanChange(old(table), id, run), saved)
    {
      var c := ComputeStartPlan(table, id, run);
      StartPlanGood(table, id, run);
      r := Serve(c, saved);
    }

    method ReviewPlan(id: string, run: string, saved: bool) returns (r: Result<seq<TicketView>>)
      requires Valid()
      modifies this
      ensures Valid()
      ensures table == Committed(old(table), PlanReviewChange(old(table), id, run), saved)
      ensures r == Answer(old(table), PlanReviewChange(old(table), id, run), saved)
    {
      var c := ComputePlanReview(table, id, run);
      PlanReviewGood(table, id, run);
      r := Serve(c, saved);
    }

    method ApprovePlan(id: string, saved: bool) returns (r: Result<seq<TicketView>>)
      requires Valid()
      modifies this
      ensures Valid()
      ensures table == Committed(old(table), ApproveChange(old(table), id), saved)
      ensures r == Answer(old(table), ApproveChange(old(table), id), saved)
    {
      var c := ComputeApprove(table, id);
      ApproveGood(table, id);
      r := Serve(c, saved);
    }

    method RejectPlan(id: string, reason: string, saved: bool) returns (r: Result<seq<TicketView>>)
      requires Valid()
      modifies this
      ensures Valid()
      ensures table == Committed(old(table), RejectChange(old(table), id, reason), saved)
      ensures r == Answer(old(table), RejectChange(old(table), id, reason), saved)
    {
      PlanKept(table, id);
      var c := ComputeReject(table, id, reason);
      RejectGood(table, id, reason);
      r := Serve(c, saved);
    }

    method RevisePlan(id: string, run: string, feedback: string, saved: bool) returns (r: Result<seq<TicketView>>)
      requires Valid()
      modifies this
      ensures Valid()
      ensures table == Committed(old(table), ReviseChange(old(table), id, run, feedback), saved)
      ensures r == Answer(old(table), ReviseChange(old(table), id, run, feedback), saved)
    {
      var c := ComputeRevise(table, id, run, feedback);
      ReviseGood(table, id, run, feedback);
      r := Serve(c, saved);
    }

    method FinishRun(id: string, run: string, status: Status, mergePending: bool, saved: bool) returns (r: Result<seq<TicketView>>)
      requires Valid()
      modifies this
      ensures Valid()
      ensures table == Committed(old(table), FinishChange(old(table), id, run, status, mergePending), saved)
      ensures r == Answer(old(table), FinishChange(old(table), id, run, status, mergePending), saved)
    {
      var c := ComputeFinish(table, id, run, status, mergePending);
      FinishGood(table, id, run, status, mergePending);
      r := Serve(c, saved);
    }

    method BlockTicket(id: string, saved: bool) returns (r: Result<seq<TicketView>>)
      requires Valid()
      modifies this
      ensures Valid()
      ensures table == Committed(old(table), BlockChange(old(table), id), saved)
      ensures r == Answer(old(table), BlockChange(old(table), id), saved)
    {
      var c := ComputeBlock(table, id);
      BlockGood(table, id);
      r := Serve(c, saved);
    }

    method RemoveTicket(id: string, run: string, saved: bool) returns (r: Result<seq<TicketView>>)
      requires Valid()
      modifies this
      ensures Valid()
      ensures table == Committed(old(table), RemoveChange(old(table), id, run), saved)
      ensures r == Answer(old(table), RemoveChange(old(table), id, run), saved)
    {
      var c := ComputeRemove(table, id, run);
      RemoveGood(table, id, run);
      r := Serve(c, saved);
    }
  }
}
