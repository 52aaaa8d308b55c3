/** The loops behind each request, proved against the change it stands for. */
module TicketRequests {
  import opened Wrappers
  import opened Text
  import opened TicketRules
  import opened TicketTable

  /** Settles the one parent a touched ticket decides. */
  method SettleParent(rows: seq<Ticket>, touched: seq<string>, id: string)
    returns (after: seq<Ticket>, out: seq<string>)
    ensures after == SettleOne(rows, id) && out == WithParent(rows, touched, id)
  {
    after, out := rows, touched;
    var parent := id;
    var i := FindTicket(rows, id);
    if i >= 0 && rows[i].parent != "" {
      parent := rows[i].parent;
    }
    var pi := FindTicket(rows, parent);
    if pi < 0 {
      return;
    }
    var kids := ComputeSubtickets(rows, parent);
    if |kids| == 0 {
      return;
    }
    if !Held(rows[pi].status) {
      var s := Derive(kids);
      after := rows[pi := rows[pi].(status := s)];
    }
    if parent !in out {
      out := out + [parent];
    }
  }

  lemma SettledStep(rows: seq<Ticket>, touched: seq<string>, k: nat)
    requires k < |touched|
    ensures Settled(rows, touched[..k + 1]) == SettleOne(Settled(rows, touched[..k]), touched[k])
    ensures Announced(rows, touched, k + 1) ==
            WithParent(Settled(rows, touched[..k]), Announced(rows, touched, k), touched[k])
  {
    assert touched[..k + 1][..k] == touched[..k];
  }

  method SettleParents(rows: seq<Ticket>, touched: seq<string>)
    returns (after: seq<Ticket>, out: seq<string>)
    ensures after == Settled(rows, touched) && out == Announced(rows, touched, |touched|)
  {
    after, out := rows, touched;
    for k := 0 to |touched|
      invariant after == Settled(rows, touched[..k]) && out == Announced(rows, touched, k)
    {
      SettledStep(rows, touched, k);
      after, out := SettleParent(after, out, touched[k]);
    }
    assert touched[..|touched|] == touched;
  }

  method ComputeViews(rows: seq<Ticket>, ids: seq<string>) returns (views: seq<TicketView>)
    ensures views == Views(rows, ids)
  {
    views := [];
    for k := 0 to |ids|
      invariant views == Views(rows, ids)[..k]
    {
      var i := FindTicket(rows, ids[k]);
      var v := TicketView(Ticket(ids[k], "", Other(""), "", [], [], false), false, None);
      if i >= 0 {
        v := View(rows, rows[i]);
      }
      views := views + [v];
    }
  }

  method ComputeCreate(tab: Table, n: NewTicket, run: string) returns (c: Change)
    ensures c == CreateChange(tab, n, run)
  {
    var title := TrimSpace(n.title);
    if title == "" {
      return Fail(EmptyTitle);
    }
    if n.parent != "" {
      var i := FindTicket(tab.tickets, n.parent);
      if i < 0 {
        return Fail(NoParent);
      }
      if tab.tickets[i].parent != "" {
        return Fail(NestedParent);
      }
    }
    var lock := PlanLock(tab.tickets, n.parent, run);
    if lock.Some? {
      return Fail(lock.value);
    }
    var next := tab.next + 1;
    var tk := Ticket(TicketId(next), title, Open, n.parent, [], [], false);
    var rows := tab.tickets + [tk];
    var deps := CheckDeps(rows, tk, n.dependsOn);
    if deps.Err? {
      return Fail(deps.refusal);
    }
    rows := rows[|rows| - 1 := tk.(dependsOn := deps.value)];
    return Touch(Table(next, rows), [tk.id]);
  }

  method ComputeUpdate(tab: Table, id: string, patch: Patch, run: string) returns (c: Change)
    ensures c == UpdateChange(tab, id, patch, run)
  {
    if run != "" && patch.status.Some? {
      return Fail(PlannerChangesStatus);
    }
    var i := FindTicket(tab.tickets, id);
    if i < 0 {
      return Fail(NoTicket);
    }
    var rows := tab.tickets;
    var changed := false;
    if patch.dependsOn.Some? {
      var lock := PlanLock(rows, rows[i].parent, run);
      if lock.Some? {
        return Fail(lock.value);
      }
      var deps := CheckDeps(rows, rows[i], patch.dependsOn.value);
      if deps.Err? {
        return Fail(deps.refusal);
      }
      changed := deps.value != rows[i].dependsOn;
      rows := rows[i := rows[i].(dependsOn := deps.value)];
    }
    assert changed <==> rows != tab.tickets;
    ghost var relinked := rows;
    if patch.status.Some? && patch.status.value != rows[i].status {
      if patch.status.value.Other? {
        return Fail(UnknownStatus);
      }
      if IsDraft(rows, rows[i]) {
        return Fail(PartOfPlan);
      }
      var kids := ComputeSubtickets(rows, id);
      if |kids| > 0 {
        return Fail(FollowsSubtickets);
      }
      var move := PersonMove(rows[i].status, patch.status.value);
      if move.Some? {
        return Fail(move.value);
      }
      rows := rows[i := rows[i].(status := patch.status.value)];
      changed := true;
      assert rows[i].status != tab.tickets[i].status;
    }
    assert RestatusChange(relinked, i, patch) == Ok(rows);
    if !changed {
      return Touch(tab, []);
    }
    return Touch(tab.(tickets := rows), [id]);
  }

  method ComputeComment(tab: Table, id: string, text: string) returns (c: Change)
    ensures c == CommentChange(tab, id, text)
  {
    if TrimSpace(text) == "" {
      return Fail(EmptyText);
    }
    if FindTicket(tab.tickets, id) < 0 {
      return Fail(NoTicket);
    }
    return Touch(tab, [id]);
  }

  method ComputeStart(tab: Table, id: string, run: string) returns (c: Change)
    ensures c == StartChange(tab, id, run)
  {
    var i := FindTicket(tab.tickets, id);
    if i < 0 {
      return Fail(NoTicket);
    }
    var tk := tab.tickets[i];
    var owns := LastRun(tk, run);
    var view := View(tab.tickets, tk);
    if !owns && run in tk.runs {
      return Fail(OtherRun);
    } else if owns && tk.status == Running {
      return Touch(tab, []);
    } else if owns && tk.status == Blocked {
    } else if tk.status == Running {
      return Fail(AlreadyRunning);
    } else if !view.runnable {
      return Fail(NotRunnable);
    }
    if !owns {
      tk := tk.(runs := tk.runs + [run]);
    }
    tk := tk.(status := Running, mergePending := false);
    return Touch(tab.(tickets := tab.tickets[i := tk]), [id]);
  }

  method ComputeStartPlan(tab: Table, id: string, run: string) returns (c: Change)
    ensures c == StartPlanChange(tab, id, run)
  {
    var i := FindTicket(tab.tickets, id);
    if i < 0 {
      return Fail(NoTicket);
    }
    var tk := tab.tickets[i];
    var owns := LastRun(tk, run);
    if owns && tk.status == Planning {
      return Touch(tab, []);
    } else if owns && tk.status != Review {
      return Fail(NotInReview);
    } else if !owns && run in tk.runs {
      return Fail(OtherRun);
    } else if !owns {
      var kids := ComputeSubtickets(tab.tickets, id);
      if !Plannable(tk, |kids| > 0) {
        return Fail(NotPlannable);
      }
      tk := tk.(runs := tk.runs + [run]);
    }
    tk := tk.(status := Planning);
    return Touch(tab.(tickets := tab.tickets[i := tk]), [id]);
  }

  method ComputePlanReview(tab: Table, id: string, run: string) returns (c: Change)
    ensures c == PlanReviewChange(tab, id, run)
  {
    var i := FindTicket(tab.tickets, id);
    if i < 0 {
      return Fail(NoTicket);
    }
    var tk := tab.tickets[i];
    if !LastRun(tk, run) {
      return Fail(OtherRun);
    }
    if tk.status != Planning && tk.status != Review {
      return Fail(NoPlan);
    }
    return Touch(tab.(tickets := tab.tickets[i := tk.(status := Review)]), [id]);
  }

  ghost function TouchedUpTo(rows: seq<Ticket>, id: string, k: nat): seq<string>
    requires k <= |rows|
  {
    [id] + Ids(Subtickets(rows[..k], id))
  }

  ghost function KeptUpTo(rows: seq<Ticket>, id: string, k: nat): seq<Ticket>
    requires k <= |rows|
  {
    WithoutKids(rows[..k], id)
  }

  lemma TouchedStep(rows: seq<Ticket>, id: string, k: nat)
    requires k < |rows|
    ensures TouchedUpTo(rows, id, k + 1) ==
            TouchedUpTo(rows, id, k) + (if rows[k].parent == id then [rows[k].id] else [])
  {
    assert rows[..k + 1][..k] == rows[..k];
  }

  lemma KeptStep(rows: seq<Ticket>, id: string, k: nat)
    requires k < |rows|
    ensures KeptUpTo(rows, id, k + 1) == KeptUpTo(rows, id, k) + (if rows[k].parent == id then [] else [rows[k]])
  {
    assert rows[..k + 1][..k] == rows[..k];
  }

  lemma UpToEnds(rows: seq<Ticket>, id: string)
    ensures TouchedUpTo(rows, id, 0) == [id] && KeptUpTo(rows, id, 0) == []
    ensures TouchedUpTo(rows, id, |rows|) == [id] + Ids(Subtickets(rows, id))
    ensures KeptUpTo(rows, id, |rows|) == WithoutKids(rows, id)
  {
    assert rows[..|rows|] == rows;
  }

  ghost function ReadiedTo(rows: seq<Ticket>, id: string, k: nat): seq<Ticket> {
    seq(|rows|, j requires 0 <= j < |rows| => if j < k then Readied(rows[j], id) else rows[j])
  }

  lemma ReadiedStep(rows: seq<Ticket>, id: string, k: nat)
    requires k < |rows|
    ensures ReadiedTo(rows, id, k)[k] == rows[k]
    ensures ReadiedTo(rows, id, k + 1)
            == if rows[k].parent == id then ReadiedTo(rows, id, k)[k := rows[k].(status := Ready)]
               else ReadiedTo(rows, id, k)
  {
  }

  method MakeKidsReady(rows: seq<Ticket>, id: string) returns (after: seq<Ticket>, touched: seq<string>)
    ensures |after| == |rows| && forall j :: 0 <= j < |rows| ==> after[j] == Readied(rows[j], id)
    ensures touched == TouchedUpTo(rows, id, |rows|)
  {
    after, touched := rows, [id];
    UpToEnds(rows, id);
    assert ReadiedTo(rows, id, 0) == rows;
    for k := 0 to |rows|
      invariant after == ReadiedTo(rows, id, k) && touched == TouchedUpTo(rows, id, k)
    {
      TouchedStep(rows, id, k);
      ReadiedStep(rows, id, k);
      if rows[k].parent == id {
        touched := touched + [rows[k].id];
        after := after[k := after[k].(status := Ready)];
      }
    }
  }

  method ComputeApprove(tab: Table, id: string) returns (c: Change)
    ensures c == ApproveChange(tab, id)
  {
    var refused := InReview(tab.tickets, id);
    if refused.Some? {
      return Fail(refused.value);
    }
    var i := FindTicket(tab.tickets, id);
    var rows, touched := MakeKidsReady(tab.tickets, id);
    assert rows == ReadyKids(tab.tickets, id);
    UpToEnds(tab.tickets, id);
    if |touched| == 1 {
      return Fail(EmptyPlan);
    }
    var kids := ComputeSubtickets(rows, id);
    var s := Derive(kids);
    return Touch(tab.(tickets := rows[i := rows[i].(status := s)]), touched);
  }

  method DeleteKids(rows: seq<Ticket>, id: string) returns (kept: seq<Ticket>, touched: seq<string>)
    ensures kept == KeptUpTo(rows, id, |rows|) && touched == TouchedUpTo(rows, id, |rows|)
  {
    kept, touched := [], [id];
    UpToEnds(rows, id);
    for k := 0 to |rows|
      invariant kept == KeptUpTo(rows, id, k) && touched == TouchedUpTo(rows, id, k)
    {
      TouchedStep(rows, id, k);
      KeptStep(rows, id, k);
      if rows[k].parent == id {
        touched := touched + [rows[k].id];
      } else {
        kept := kept + [rows[k]];
      }
    }
  }

  method ComputeReject(tab: Table, id: string, reason: string) returns (c: Change)
    requires InReview(tab.tickets, id).None? ==> FindTicket(WithoutKids(tab.tickets, id), id) >= 0
    ensures c == RejectChange(tab, id, reason)
  {
    if TrimSpace(reason) == "" {
      return Fail(EmptyText);
    }
    var refused := InReview(tab.tickets, id);
    if refused.Some? {
      return Fail(refused.value);
    }
    var rows, touched := DeleteKids(tab.tickets, id);
    UpToEnds(tab.tickets, id);
    var i := FindTicket(rows, id);
    return Touch(tab.(tickets := rows[i := rows[i].(status := Open)]), touched);
  }

  method ComputeRevise(tab: Table, id: string, run: string, feedback: string) returns (c: Change)
    ensures c == ReviseChange(tab, id, run, feedback)
  {
    if TrimSpace(feedback) == "" {
      return Fail(EmptyText);
    }
    var refused := InReview(tab.tickets, id);
    if refused.Some? {
      return Fail(refused.value);
    }
    var i := FindTicket(tab.tickets, id);
    var tk := tab.tickets[i];
    if !LastRun(tk, run) {
      tk := tk.(runs := tk.runs + [run]);
    }
    return Touch(tab.(tickets := tab.tickets[i := tk.(status := Planning)]), [id]);
  }

  method ComputeFinish(tab: Table, id: string, run: string, status: Status, mergePending: bool) returns (c: Change)
    ensures c == FinishChange(tab, id, run, status, mergePending)
  {
    if status != Done && status != Blocked {
      return Fail(BadOutcome);
    }
    var i := FindTicket(tab.tickets, id);
    if i < 0 {
      return Fail(NoTicket);
    }
    var tk := tab.tickets[i];
    if !LastRun(tk, run) {
      return Fail(OtherRun);
    }
    if tk.status != Running && tk.status != Blocked {
      return Fail(NoRunDrives);
    }
    tk := tk.(status := status, mergePending := mergePending && status == Blocked);
    return Touch(tab.(tickets := tab.tickets[i := tk]), [id]);
  }

  method ComputeBlock(tab: Table, id: string) returns (c: Change)
    ensures c == BlockChange(tab, id)
  {
    var i := FindTicket(tab.tickets, id);
    if i < 0 {
      return Fail(NoTicket);
    }
    var tk := tab.tickets[i];
    if tk.status != Ready {
      return Fail(NotReady);
    }
    var view := View(tab.tickets, tk);
    if !view.runnable {
      return Fail(NotRunnable);
    }
    return Touch(tab.(tickets := tab.tickets[i := tk.(status := Blocked)]), [id]);
  }

  method FindAwaited(rows: seq<Ticket>, id: string) returns (awaited: bool)
    ensures awaited <==> IsAwaited(rows, id)
  {
    for k := 0 to |rows|
      invariant forall m :: 0 <= m < k ==> id !in rows[m].dependsOn
    {
      if id in rows[k].dependsOn {
        assert rows[k] in rows;
        return true;
      }
    }
    return false;
  }

  method ComputeRemove(tab: Table, id: string, run: string) returns (c: Change)
    ensures c == RemoveChange(tab, id, run)
  {
    var rows := tab.tickets;
    var i := FindTicket(rows, id);
    if i < 0 {
      return Fail(NoTicket);
    }
    var tk := rows[i];
    var lock := PlanLock(rows, tk.parent, run);
    if lock.Some? {
      return Fail(lock.value);
    }
    if tk.status == Running || tk.status == Planning || tk.status == Review {
      return Fail(Busy);
    }
    var kids := ComputeSubtickets(rows, id);
    if |kids| > 0 {
      return Fail(HasSubtickets);
    }
    var awaited := FindAwaited(rows, id);
    if awaited {
      return Fail(Awaited);
    }
    var touched := if tk.parent != "" then [id, tk.parent] else [id];
    return Touch(tab.(tickets := rows[..i] + rows[i + 1..]), touched);
  }
}
