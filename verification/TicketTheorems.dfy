/** What holds of every ticket table a history of requests can reach. */
module TicketTheorems {
  import opened Text
  import opened TicketRules
  import opened TicketTable
  import opened TicketInvariants
  import opened TicketSteps
  import opened TicketLinks
  import opened TicketRows
  import opened TicketDrops
  import opened WaitGraph

  /** Whether a request keeps the invariant is a matter of its own kind of change. */
  lemma KeepsChange(tab: Table, op: Op)
    requires match op
      case Create(n, run) => Keeps(CreateChange(tab, n, run))
      case Update(id, patch, run) => Keeps(UpdateChange(tab, id, patch, run))
      case Comment(id, text) => Keeps(CommentChange(tab, id, text))
      case Start(id, run) => Keeps(StartChange(tab, id, run))
      case StartPlan(id, run) => Keeps(StartPlanChange(tab, id, run))
      case PlanReview(id, run) => Keeps(PlanReviewChange(tab, id, run))
      case Approve(id) => Keeps(ApproveChange(tab, id))
      case Reject(id, reason) => Keeps(RejectChange(tab, id, reason))
      case Revise(id, run, feedback) => Keeps(ReviseChange(tab, id, run, feedback))
      case Finish(id, run, status, mergePending) => Keeps(FinishChange(tab, id, run, status, mergePending))
      case Block(id) => Keeps(BlockChange(tab, id))
      case Remove(id, run) => Keeps(RemoveChange(tab, id, run))
    ensures Keeps(ChangeOf(tab, op))
  {
  }

  lemma ChangeGood(tab: Table, op: Op)
    requires Invariant(tab)
    ensures Keeps(ChangeOf(tab, op))
  {
    match op {
      case Create(n, run) => CreateGood(tab, n, run);
      case Update(id, patch, run) => UpdateGood(tab, id, patch, run);
      case Comment(id, text) => CommentGood(tab, id, text);
      case Remove(id, run) => RemoveGood(tab, id, run);
      case StartPlan(id, run) => StartPlanGood(tab, id, run);
      case PlanReview(id, run) => PlanReviewGood(tab, id, run);
      case Approve(id) => ApproveGood(tab, id);
      case Reject(id, reason) => RejectGood(tab, id, reason);
      case Revise(id, run, feedback) => ReviseGood(tab, id, run, feedback);
      case Start(id, run) => StartGood(tab, id, run);
      case Finish(id, run, status, mergePending) => FinishGood(tab, id, run, status, mergePending);
      case Block(id) => BlockGood(tab, id);
    }
    KeepsChange(tab, op);
  }

  /** Every request keeps the whole invariant, saved or not, granted or refused. */
  lemma RequestKeepsInvariant(tab: Table, r: Request)
    requires Invariant(tab)
    ensures Invariant(After(tab, r))
  {
    ChangeGood(tab, r.op);
    CommitKeepsInvariant(tab, ChangeOf(tab, r.op), r.saved);
  }

  lemma EmptyHasNoChains(path: seq<string>)
    requires IsWalk([], path)
    ensures |path| == 1
  {
    assert |path| > 1 ==> path[1] in Edges([], path[0]);
  }

  lemma EmptyIsSound()
    ensures Invariant(EmptyTable)
  {
    forall path | IsWalk([], path) ensures |path| == 1 {
      EmptyHasNoChains(path);
    }
  }

  /** After any history of requests from an empty table: ids are unique, parents are
      top-level tickets, dependencies exist, nothing waits for itself, drafts are private
      and untouched, and every parent that no plan holds follows its subtickets. */
  lemma {:induction false} EveryReachableTable(history: seq<Request>)
    ensures Invariant(Run(EmptyTable, history))
  {
    if history == [] {
      EmptyIsSound();
    } else {
      EveryReachableTable(history[..|history| - 1]);
      RequestKeepsInvariant(Run(EmptyTable, history[..|history| - 1]), history[|history| - 1]);
    }
  }

  // ----- Identifiers never come back

  ghost predicate HasTicket(tab: Table, id: string) {
    FindTicket(tab.tickets, id) >= 0
  }

  /** Ids of the new table are old ones or the one the counter just handed out. */
  ghost predicate IdsFrom(before: Table, after: Table) {
    && before.next <= after.next
    && forall id :: HasTicket(after, id) ==> HasTicket(before, id) || (before.next < after.next && id == TicketId(after.next))
  }

  lemma TreeIds(before: Table, rows: seq<Ticket>)
    requires SameTree(before.tickets, rows)
    ensures IdsFrom(before, before.(tickets := rows))
  {
    forall id ensures FindTicket(rows, id) == FindTicket(before.tickets, id) {
      SameTreeFinds(before.tickets, rows, id);
    }
  }

  lemma SubsetIds(before: Table, rows: seq<Ticket>)
    requires forall t :: t in rows ==> t in before.tickets
    ensures IdsFrom(before, before.(tickets := rows))
  {
    forall id | FindTicket(rows, id) >= 0 ensures FindTicket(before.tickets, id) >= 0 {
      var t := rows[FindTicket(rows, id)];
      assert t in rows;
      var k :| 0 <= k < |before.tickets| && before.tickets[k] == t;
    }
  }

  lemma ChainIds(a: Table, b: Table, c: Table)
    requires IdsFrom(a, b) && IdsFrom(b, c) && (a.next == b.next || b.next == c.next)
    ensures IdsFrom(a, c)
  {
  }

  lemma RewrittenIds(tab: Table, i: nat, t: Ticket)
    requires i < |tab.tickets| && tab.tickets[i].id == t.id && tab.tickets[i].parent == t.parent
    ensures IdsFrom(tab, tab.(tickets := tab.tickets[i := t]))
  {
    TreeIds(tab, tab.tickets[i := t]);
  }

  lemma CreateIds(tab: Table, n: NewTicket, run: string)
    requires CreateChange(tab, n, run).Touch?
    ensures IdsFrom(tab, CreateChange(tab, n, run).table)
  {
    var after := CreateChange(tab, n, run).table;
    forall id | HasTicket(after, id) ensures HasTicket(tab, id) || id == TicketId(after.next) {
      var k := FindTicket(after.tickets, id);
      if k < |tab.tickets| {
        assert tab.tickets[k].id == id;
      }
    }
  }

  lemma RejectIds(tab: Table, id: string, reason: string)
    requires RejectChange(tab, id, reason).Touch?
    ensures IdsFrom(tab, RejectChange(tab, id, reason).table)
  {
    var kept := WithoutKids(tab.tickets, id);
    var i := FindTicket(kept, id);
    SubsetIds(tab, kept);
    RewrittenIds(tab.(tickets := kept), i, kept[i].(status := Open));
    ChainIds(tab, tab.(tickets := kept), RejectChange(tab, id, reason).table);
  }

  lemma RemoveIds(tab: Table, id: string, run: string)
    requires RemoveChange(tab, id, run).Touch?
    ensures IdsFrom(tab, RemoveChange(tab, id, run).table)
  {
    SubsetIds(tab, RemoveChange(tab, id, run).table.tickets);
  }

  ghost predicate KeepsTree(tab: Table, c: Change) {
    c.Touch? ==> c.table.next == tab.next && SameTree(tab.tickets, c.table.tickets)
  }

  lemma UpdateTree(tab: Table, id: string, patch: Patch, run: string)
    ensures KeepsTree(tab, UpdateChange(tab, id, patch, run))
  {
  }

  lemma StartTree(tab: Table, id: string, run: string)
    ensures KeepsTree(tab, StartChange(tab, id, run)) && KeepsTree(tab, StartPlanChange(tab, id, run))
  {
  }

  lemma PlanTree(tab: Table, id: string, run: string, feedback: string)
    ensures KeepsTree(tab, PlanReviewChange(tab, id, run)) && KeepsTree(tab, ReviseChange(tab, id, run, feedback))
  {
  }

  lemma FinishTree(tab: Table, id: string, run: string, status: Status, mergePending: bool)
    ensures KeepsTree(tab, FinishChange(tab, id, run, status, mergePending)) && KeepsTree(tab, BlockChange(tab, id))
  {
  }

  lemma ApproveTree(tab: Table, id: string)
    ensures KeepsTree(tab, ApproveChange(tab, id))
  {
  }

  lemma ChangeIds(tab: Table, op: Op)
    requires ChangeOf(tab, op).Touch?
    ensures IdsFrom(tab, ChangeOf(tab, op).table)
  {
    match op {
      case Create(n, run) => CreateIds(tab, n, run);
      case Reject(id, reason) => RejectIds(tab, id, reason);
      case Remove(id, run) => RemoveIds(tab, id, run);
      case Update(id, patch, run) => UpdateTree(tab, id, patch, run); TreeIds(tab, ChangeOf(tab, op).table.tickets);
      case Comment(id, text) => TreeIds(tab, tab.tickets);
      case Start(id, run) => StartTree(tab, id, run); TreeIds(tab, ChangeOf(tab, op).table.tickets);
      case StartPlan(id, run) => StartTree(tab, id, run); TreeIds(tab, ChangeOf(tab, op).table.tickets);
      case PlanReview(id, run) => PlanTree(tab, id, run, ""); TreeIds(tab, ChangeOf(tab, op).table.tickets);
      case Revise(id, run, text) => PlanTree(tab, id, run, text); TreeIds(tab, ChangeOf(tab, op).table.tickets);
      case Finish(id, run, s, m) => FinishTree(tab, id, run, s, m); TreeIds(tab, ChangeOf(tab, op).table.tickets);
      case Block(id) => FinishTree(tab, id, "", Done, false); TreeIds(tab, ChangeOf(tab, op).table.tickets);
      case Approve(id) => ApproveTree(tab, id); TreeIds(tab, ChangeOf(tab, op).table.tickets);
    }
  }

  lemma {:induction false} SettledTree(rows: seq<Ticket>, touched: seq<string>)
    ensures SameTree(rows, Settled(rows, touched))
  {
    if touched != [] {
      var mid := Settled(rows, touched[..|touched| - 1]);
      SettledTree(rows, touched[..|touched| - 1]);
      SettleOneIs(mid, touched[|touched| - 1]);
    }
  }

  lemma RequestIds(tab: Table, r: Request)
    ensures IdsFrom(tab, After(tab, r))
  {
    var c := ChangeOf(tab, r.op);
    if c.Touch? && c.touched != [] && r.saved {
      ChangeIds(tab, r.op);
      SettledTree(c.table.tickets, c.touched);
      TreeIds(c.table, Settled(c.table.tickets, c.touched));
      ChainIds(tab, c.table, After(tab, r));
    }
  }

  /** An id that was handed out and is no longer in the table never names a ticket again. */
  lemma {:induction false} IdsNeverReturn(tab: Table, later: seq<Request>, id: string)
    requires MintedBy(id, tab.next) && !HasTicket(tab, id)
    ensures !HasTicket(Run(tab, later), id) && tab.next <= Run(tab, later).next
  {
    if later != [] {
      var mid := Run(tab, later[..|later| - 1]);
      IdsNeverReturn(tab, later[..|later| - 1], id);
      RequestIds(mid, later[|later| - 1]);
      var n: nat :| 1 <= n <= tab.next && id == TicketId(n);
      NumberedInjective("TCK-", n, Run(tab, later).next);
    }
  }

  // ----- Ready work never deadlocks

  /** Runnable, or in a state where a person or a run is the one to act. */
  ghost predicate Actionable(rows: seq<Ticket>, id: string) {
    var i := FindTicket(rows, id);
    i >= 0 && (Runnable(rows, rows[i]) || rows[i].status !in {Ready, Done})
  }

  ghost predicate ReadyLeaf(rows: seq<Ticket>, i: nat)
    requires i < |rows|
  {
    rows[i].status == Ready && Childless(rows, rows[i].id)
  }

  /** Every visited ticket reaches id through at least one wait. */
  ghost predicate AllBefore(rows: seq<Ticket>, visited: set<string>, id: string) {
    forall v :: v in visited ==> exists b :: b in Edges(rows, v) && Reaches(rows, b, id)
  }

  lemma StepOn(rows: seq<Ticket>, visited: set<string>, id: string, next: string)
    requires AllBefore(rows, visited, id) && next in Edges(rows, id)
    ensures AllBefore(rows, visited + {id}, next)
  {
    SingleStop(rows, next);
    EdgeReaches(rows, id, next);
    forall v | v in visited + {id} ensures exists b :: b in Edges(rows, v) && Reaches(rows, b, next) {
      if v in visited {
        var b :| b in Edges(rows, v) && Reaches(rows, b, id);
        ReachesTransitively(rows, b, id, next);
      } else {
        assert next in Edges(rows, v) && Reaches(rows, next, next);
      }
    }
  }

  lemma NotVisited(rows: seq<Ticket>, visited: set<string>, id: string)
    requires Acyclic(rows) && AllBefore(rows, visited, id)
    ensures id !in visited
  {
    if id in visited {
      var b :| b in Edges(rows, id) && Reaches(rows, b, id);
      NoWayBack(rows, id, b);
    }
  }

  /** A ready ticket that may not run waits for one that is not done. */
  lemma Obstacle(rows: seq<Ticket>, i: nat) returns (d: string)
    requires UniqueIds(rows) && DependenciesExist(rows) && i < |rows|
    requires ReadyLeaf(rows, i) && !Runnable(rows, rows[i])
    ensures d in Edges(rows, rows[i].id) && FindTicket(rows, d) >= 0
    ensures rows[FindTicket(rows, d)].status != Done
  {
    FindUnique(rows, i);
    d :| d in WaitsOn(rows, rows[i]) && !IsDone(rows, d);
    assert d in Edges(rows, rows[i].id);
    WaitedExists(rows, rows[i].id, d);
  }

  /** A subticket has no subtickets. */
  lemma KidIsLeaf(tab: Table, id: string, t: Ticket) returns (k: nat)
    requires Sound(tab) && id != "" && t in Subtickets(tab.tickets, id)
    ensures k < |tab.tickets| && tab.tickets[k] == t && Childless(tab.tickets, t.id)
  {
    k :| 0 <= k < |tab.tickets| && tab.tickets[k] == t;
    if !Childless(tab.tickets, t.id) {
      ParentIsTop(tab, k);
    }
  }

  lemma KidIsAwaited(rows: seq<Ticket>, p: nat, k: nat)
    requires UniqueIds(rows) && p < |rows| && k < |rows| && rows[k].parent == rows[p].id
    ensures rows[k].id in Edges(rows, rows[p].id)
  {
    FindUnique(rows, p);
    assert HasKid(rows, rows[p].id, rows[k].id);
    EdgeIsWait(rows, rows[p].id, rows[k].id);
  }

  lemma SomeReady(kids: seq<Ticket>) returns (t: Ticket)
    requires kids != [] && Derived(kids) == Ready
    ensures t in kids && t.status == Ready
  {
    assert SomeKid(kids, Ready);
    t :| t in kids && t.status == Ready;
  }

  /** A parent that follows its subtickets and is ready has a ready subticket. */
  lemma ReadyKid(tab: Table, p: nat) returns (k: nat)
    requires Invariant(tab) && p < |tab.tickets|
    requires tab.tickets[p].status == Ready && !Childless(tab.tickets, tab.tickets[p].id)
    ensures k < |tab.tickets| && ReadyLeaf(tab.tickets, k)
    ensures tab.tickets[k].id in Edges(tab.tickets, tab.tickets[p].id)
  {
    var id := tab.tickets[p].id;
    assert Follows(tab.tickets, tab.tickets[p]);
    NoKids(tab.tickets, id);
    HasId(tab, p);
    var t := SomeReady(Subtickets(tab.tickets, id));
    k := KidIsLeaf(tab, id, t);
    KidIsAwaited(tab.tickets, p, k);
  }

  lemma {:induction false} ProgressFrom(tab: Table, i: nat, visited: set<string>) returns (w: string)
    requires Invariant(tab) && i < |tab.tickets| && ReadyLeaf(tab.tickets, i)
    requires AllBefore(tab.tickets, visited, tab.tickets[i].id)
    ensures Reaches(tab.tickets, tab.tickets[i].id, w) && Actionable(tab.tickets, w)
    decreases IdSet(tab.tickets) - visited
  {
    var rows, id := tab.tickets, tab.tickets[i].id;
    FindUnique(rows, i);
    SingleStop(rows, id);
    if Runnable(rows, rows[i]) {
      return id;
    }
    NotVisited(rows, visited, id);
    assert rows[i] in rows && id in IdSet(rows);
    var d := Obstacle(rows, i);
    var p := FindTicket(rows, d);
    StepOn(rows, visited, id, d);
    EdgeReaches(rows, id, d);
    if rows[p].status != Ready {
      w := d;
    } else if Childless(rows, d) {
      w := ProgressFrom(tab, p, visited + {id});
      ReachesTransitively(rows, id, d, w);
    } else {
      var k := ReadyKid(tab, p);
      StepOn(rows, visited + {id}, d, rows[k].id);
      EdgeReaches(rows, d, rows[k].id);
      w := ProgressFrom(tab, k, visited + {id} + {d});
      ReachesTransitively(rows, d, rows[k].id, w);
      ReachesTransitively(rows, id, d, w);
    }
  }

  /** From every childless ready ticket of a reachable table, following its waits leads to
      a ticket that may run or that somebody else has to move first. */
  lemma Progress(history: seq<Request>, i: nat) returns (w: string)
    requires i < |Run(EmptyTable, history).tickets| && ReadyLeaf(Run(EmptyTable, history).tickets, i)
    ensures var rows := Run(EmptyTable, history).tickets;
            Reaches(rows, rows[i].id, w) && Actionable(rows, w)
  {
    EveryReachableTable(history);
    w := ProgressFrom(Run(EmptyTable, history), i, {});
  }

  lemma DerivedMoved(kids: seq<Ticket>)
    requires kids != [] && forall t :: t in kids ==> t.status in {Ready, Done}
    ensures Derived(kids) in {Ready, Done}
  {
    assert kids[0] in kids;
    if kids[0].status == Ready {
      assert SomeKid(kids, Ready);
    } else {
      assert SomeKid(kids, Done);
      if !SomeKid(kids, Ready) {
        forall t | t in kids ensures t.status == Done {
        }
      }
    }
  }

  /** A parent whose subtickets are all ready or done is itself ready or done. */
  lemma AllKidsMoved(tab: Table, p: nat)
    requires Invariant(tab) && p < |tab.tickets| && !Childless(tab.tickets, tab.tickets[p].id)
    requires forall i :: 0 <= i < |tab.tickets| && Childless(tab.tickets, tab.tickets[i].id) ==>
               tab.tickets[i].status in {Ready, Done}
    ensures tab.tickets[p].status in {Ready, Done}
  {
    var rows, id := tab.tickets, tab.tickets[p].id;
    var kids := Subtickets(rows, id);
    HasId(tab, p);
    NoKids(rows, id);
    forall t | t in kids ensures t.status in {Ready, Done} && !IsDraft(rows, t) {
      var k := KidIsLeaf(tab, id, t);
      assert IsDraft(rows, rows[k]) == IsDraft(rows, t);
    }
    DerivedMoved(kids);
    FindUnique(rows, p);
    assert kids[0] in kids && !IsDraft(rows, kids[0]);
    assert Follows(rows, rows[p]);
  }

  /** When everything left to do is ready or done, something may run. */
  lemma NoDeadlock(history: seq<Request>, i: nat) returns (r: nat)
    requires i < |Run(EmptyTable, history).tickets| && ReadyLeaf(Run(EmptyTable, history).tickets, i)
    requires var rows := Run(EmptyTable, history).tickets;
             forall j :: 0 <= j < |rows| && Childless(rows, rows[j].id) ==> rows[j].status in {Ready, Done}
    ensures var rows := Run(EmptyTable, history).tickets; r < |rows| && Runnable(rows, rows[r])
  {
    var tab := Run(EmptyTable, history);
    EveryReachableTable(history);
    var w := ProgressFrom(tab, i, {});
    r := FindTicket(tab.tickets, w);
    if !Childless(tab.tickets, tab.tickets[r].id) {
      AllKidsMoved(tab, r);
    }
  }
}
