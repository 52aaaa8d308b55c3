/** Requests that add or delete tickets, and the approval that frees a whole plan. */
module TicketRows {
  import opened Text
  import opened TicketRules
  import opened TicketTable
  import opened TicketInvariants
  import opened TicketSteps
  import opened TicketLinks
  import opened WaitGraph

  // ----- A new ticket

  /** A fresh ticket: an id nobody has, open, without dependencies or runs, under a top-level parent. */
  ghost predicate FreshTicket(tab: Table, tk: Ticket) {
    && tk.id == TicketId(tab.next + 1)
    && tk.status == Open && tk.dependsOn == [] && tk.runs == []
    && (tk.parent != "" ==>
          FindTicket(tab.tickets, tk.parent) >= 0
          && tab.tickets[FindTicket(tab.tickets, tk.parent)].parent == "")
  }

  lemma FreshId(tab: Table)
    requires Minted(tab)
    ensures FindTicket(tab.tickets, TicketId(tab.next + 1)) < 0
  {
    var i := FindTicket(tab.tickets, TicketId(tab.next + 1));
    if i >= 0 {
      assert MintedBy(tab.tickets[i].id, tab.next);
      var n: nat :| 1 <= n <= tab.next && tab.tickets[i].id == TicketId(n);
      NumberedInjective("TCK-", n, tab.next + 1);
    }
  }

  lemma AppendedFinds(rows: seq<Ticket>, tk: Ticket, id: string)
    requires FindTicket(rows, tk.id) < 0
    ensures FindTicket(rows + [tk], id) == if id == tk.id then |rows| else FindTicket(rows, id)
  {
    var after := rows + [tk];
    var i, j := FindTicket(rows, id), FindTicket(after, id);
    assert after[|rows|].id == tk.id;
    if i >= 0 {
      assert after[i].id == id;
    }
  }

  lemma AppendedDraft(rows: seq<Ticket>, tk: Ticket, k: nat)
    requires FindTicket(rows, tk.id) < 0 && tk.status == Open && k < |rows|
    ensures IsDraft(rows + [tk], rows[k]) == IsDraft(rows, rows[k])
  {
    AppendedFinds(rows, tk, rows[k].parent);
  }

  lemma AppendedReferences(tab: Table, tk: Ticket)
    requires Shaped(tab) && FreshTicket(tab, tk)
    ensures var rows := tab.tickets + [tk];
            UniqueIds(rows) && TwoLevels(rows) && DependenciesExist(rows) && Minted(Table(tab.next + 1, rows))
  {
    FreshId(tab);
    AppendedLinks(tab.tickets, tk);
    AppendedMinted(tab, tk);
  }

  lemma AppendedLinks(was: seq<Ticket>, tk: Ticket)
    requires UniqueIds(was) && TwoLevels(was) && DependenciesExist(was)
    requires FindTicket(was, tk.id) < 0 && tk.dependsOn == []
    requires tk.parent != "" ==> FindTicket(was, tk.parent) >= 0 && was[FindTicket(was, tk.parent)].parent == ""
    ensures UniqueIds(was + [tk]) && TwoLevels(was + [tk]) && DependenciesExist(was + [tk])
  {
    var rows := was + [tk];
    forall id ensures FindTicket(rows, id) == if id == tk.id then |was| else FindTicket(was, id) {
      AppendedFinds(was, tk, id);
    }
  }

  lemma AppendedMinted(tab: Table, tk: Ticket)
    requires Minted(tab) && tk.id == TicketId(tab.next + 1)
    ensures Minted(Table(tab.next + 1, tab.tickets + [tk]))
  {
    var rows := tab.tickets + [tk];
    forall k | 0 <= k < |rows| ensures MintedBy(rows[k].id, tab.next + 1) {
      if k < |tab.tickets| {
        assert MintedBy(tab.tickets[k].id, tab.next);
        var n: nat :| 1 <= n <= tab.next && tab.tickets[k].id == TicketId(n);
        assert 1 <= n <= tab.next + 1 && rows[k].id == TicketId(n);
      }
    }
  }

  ghost function ParentDeps(rows: seq<Ticket>, tk: Ticket): set<string> {
    var p := FindTicket(rows, tk.parent);
    if p >= 0 then ToSet(rows[p].dependsOn) else {}
  }

  /** The waits a new ticket adds: its own, its parent's, and its parent's for it. */
  lemma AppendedWait(rows: seq<Ticket>, tk: Ticket, a: string, b: string)
    requires FindTicket(rows, tk.id) < 0 && tk.parent != tk.id
    requires forall k :: 0 <= k < |rows| ==> rows[k].parent != tk.id
    requires Waits(rows + [tk], a, b)
    ensures || Waits(rows, a, b)
            || (a == tk.id && b in ToSet(tk.dependsOn) + ParentDeps(rows, tk))
            || (a == tk.parent && b == tk.id)
  {
    var after := rows + [tk];
    AppendedFinds(rows, tk, a);
    AppendedFinds(rows, tk, after[FindTicket(after, a)].parent);
    if HasKid(after, a, b) {
      var n :| 0 <= n < |after| && after[n].parent == a && after[n].id == b;
      if n < |rows| {
        assert rows[n].parent == a && rows[n].id == b;
      }
    } else if OwnWait(after, a, b) {
      assert a == tk.id || OwnWait(rows, a, b);
    } else {
      assert a == tk.id || ParentWait(rows, a, b);
    }
  }

  lemma KeptWait(rows: seq<Ticket>, tk: Ticket, a: string, b: string)
    requires FindTicket(rows, tk.id) < 0 && Waits(rows, a, b)
    requires forall k :: 0 <= k < |rows| ==> rows[k].parent != tk.id
    ensures Waits(rows + [tk], a, b)
  {
    var after := rows + [tk];
    AppendedFinds(rows, tk, a);
    AppendedFinds(rows, tk, rows[FindTicket(rows, a)].parent);
    if HasKid(rows, a, b) {
      var n :| 0 <= n < |rows| && rows[n].parent == a && rows[n].id == b;
      assert after[n].parent == a && after[n].id == b;
    } else if OwnWait(rows, a, b) {
      assert OwnWait(after, a, b);
    } else {
      assert OwnWait(after, rows[FindTicket(rows, a)].parent, b);
    }
  }

  /** Whatever is waited for is in the table. */
  lemma WaitedExists(rows: seq<Ticket>, a: string, b: string)
    requires UniqueIds(rows) && DependenciesExist(rows) && b in Edges(rows, a)
    ensures FindTicket(rows, b) >= 0
  {
    EdgeIsWait(rows, a, b);
    if HasKid(rows, a, b) {
      var k :| 0 <= k < |rows| && rows[k].parent == a && rows[k].id == b;
    }
  }

  lemma ReachedExists(rows: seq<Ticket>, a: string, b: string)
    requires UniqueIds(rows) && DependenciesExist(rows) && Reaches(rows, a, b)
    ensures a == b || FindTicket(rows, b) >= 0
    ensures a == b || FindTicket(rows, a) >= 0
  {
    var path :| WalkBetween(rows, path, a, b);
    if |path| > 1 {
      assert path[|path| - 1] in Edges(rows, path[|path| - 2]);
      WaitedExists(rows, path[|path| - 2], b);
      assert path[1] in Edges(rows, path[0]);
    }
  }

  /** The new ticket as a top-level one that takes over its parent's dependencies: the
      waits of the new table but the parent's wait for it. */
  function Detached(tk: Ticket, deps: seq<string>): Ticket {
    tk.(parent := "", dependsOn := deps)
  }

  lemma DetachedEdges(rows: seq<Ticket>, tk: Ticket, deps: seq<string>)
    requires FindTicket(rows, tk.id) < 0 && FindTicket(rows, "") < 0 && tk.id != ""
    requires forall k :: 0 <= k < |rows| ==> rows[k].parent != tk.id
    ensures EdgesFrom(rows + [Detached(tk, deps)], rows, {tk.id}, ToSet(deps))
  {
    var t := Detached(tk, deps);
    forall a, b ensures EdgeFrom(rows + [t], rows, {tk.id}, ToSet(deps), a, b) {
      if b in Edges(rows + [t], a) {
        EdgeIsWait(rows + [t], a, b);
        AppendedFinds(rows, t, a);
        AppendedWait(rows, t, a, b);
        EdgeIsWait(rows, a, b);
      }
    }
  }

  lemma AttachedEdges(rows: seq<Ticket>, tk: Ticket, deps: seq<string>)
    requires FindTicket(rows, tk.id) < 0 && tk.id != "" && tk.parent != tk.id && tk.dependsOn == []
    requires forall k :: 0 <= k < |rows| ==> rows[k].parent != tk.id
    requires ParentDeps(rows, tk) == ToSet(deps)
    ensures EdgesFrom(rows + [tk], rows + [Detached(tk, deps)], {tk.parent}, {tk.id})
  {
    var t := Detached(tk, deps);
    forall a, b ensures EdgeFrom(rows + [tk], rows + [t], {tk.parent}, {tk.id}, a, b) {
      if b in Edges(rows + [tk], a) {
        EdgeIsWait(rows + [tk], a, b);
        AppendedWait(rows, tk, a, b);
        AppendedFinds(rows, t, a);
        if Waits(rows, a, b) {
          KeptWait(rows, t, a, b);
        } else if a == tk.id && b in ToSet(deps) {
          assert OwnWait(rows + [t], a, b);
        }
        EdgeIsWait(rows + [t], a, b);
      }
    }
  }

  lemma OldEdgeStays(rows: seq<Ticket>, tk: Ticket, deps: seq<string>, a: string, b: string)
    requires UniqueIds(rows) && DependenciesExist(rows)
    requires FindTicket(rows, tk.id) < 0 && FindTicket(rows, "") < 0 && tk.id != ""
    requires forall k :: 0 <= k < |rows| ==> rows[k].parent != tk.id
    requires a != tk.id && b in Edges(rows + [Detached(tk, deps)], a)
    ensures b in Edges(rows, a) && b != tk.id
  {
    DetachedEdges(rows, tk, deps);
    assert EdgeFrom(rows + [Detached(tk, deps)], rows, {tk.id}, ToSet(deps), a, b);
    WaitedExists(rows, a, b);
  }

  /** Nothing waits for the detached ticket, so a chain that starts elsewhere stays in the old table. */
  lemma {:induction false} StaysOld(rows: seq<Ticket>, tk: Ticket, deps: seq<string>, path: seq<string>)
    requires UniqueIds(rows) && DependenciesExist(rows)
    requires FindTicket(rows, tk.id) < 0 && FindTicket(rows, "") < 0 && tk.id != ""
    requires forall k :: 0 <= k < |rows| ==> rows[k].parent != tk.id
    requires tk.id !in deps && IsWalk(rows + [Detached(tk, deps)], path) && path[0] != tk.id
    ensures IsWalk(rows, path)
  {
    if |path| > 1 {
      var after := rows + [Detached(tk, deps)];
      OldEdgeStays(rows, tk, deps, path[0], path[1]);
      WalkTail(after, path, 1);
      StaysOld(rows, tk, deps, path[1..]);
      assert path == [path[0]] + path[1..];
      ExtendWalk(rows, path[0], path[1..], path[|path| - 1]);
    }
  }

  lemma OnlyToDeps(rows: seq<Ticket>, tk: Ticket, deps: seq<string>, b: string)
    requires FindTicket(rows, tk.id) < 0 && FindTicket(rows, "") < 0 && tk.id != ""
    requires forall k :: 0 <= k < |rows| ==> rows[k].parent != tk.id
    requires b in Edges(rows + [Detached(tk, deps)], tk.id)
    ensures b in deps
  {
    var after := rows + [Detached(tk, deps)];
    DetachedEdges(rows, tk, deps);
    assert EdgeFrom(after, rows, {tk.id}, ToSet(deps), tk.id, b);
    EdgeIsWait(rows, tk.id, b);
  }

  lemma NoReturnToParent(rows: seq<Ticket>, tk: Ticket, deps: seq<string>)
    requires UniqueIds(rows) && DependenciesExist(rows) && Acyclic(rows)
    requires FindTicket(rows, tk.id) < 0 && FindTicket(rows, "") < 0 && tk.id != "" && tk.parent != tk.id
    requires forall k :: 0 <= k < |rows| ==> rows[k].parent != tk.id
    requires FindTicket(rows, tk.parent) >= 0 && deps == rows[FindTicket(rows, tk.parent)].dependsOn
    ensures !Reaches(rows + [Detached(tk, deps)], tk.id, tk.parent)
  {
    var after := rows + [Detached(tk, deps)];
    if Reaches(after, tk.id, tk.parent) {
      var path :| WalkBetween(after, path, tk.id, tk.parent);
      assert path[1] in Edges(after, path[0]);
      OnlyToDeps(rows, tk, deps, path[1]);
      WalkTail(after, path, 1);
      StaysOld(rows, tk, deps, path[1..]);
      assert WalkBetween(rows, path[1..], path[1], tk.parent);
      assert OwnWait(rows, tk.parent, path[1]);
      EdgeIsWait(rows, tk.parent, path[1]);
      NoWayBack(rows, tk.parent, path[1]);
    }
  }

  lemma DetachedAcyclic(rows: seq<Ticket>, tk: Ticket, deps: seq<string>)
    requires UniqueIds(rows) && DependenciesExist(rows) && Acyclic(rows)
    requires FindTicket(rows, tk.id) < 0 && FindTicket(rows, "") < 0 && tk.id != ""
    requires forall k :: 0 <= k < |rows| ==> rows[k].parent != tk.id
    requires forall d :: d in deps ==> FindTicket(rows, d) >= 0
    ensures Acyclic(rows + [Detached(tk, deps)])
  {
    DetachedEdges(rows, tk, deps);
    forall d, s | d in ToSet(deps) && s in {tk.id} ensures !Reaches(rows, d, s) {
      if Reaches(rows, d, s) {
        ReachedExists(rows, d, s);
      }
    }
    NewWaitsKeepAcyclic(rows + [Detached(tk, deps)], rows, {tk.id}, ToSet(deps));
  }

  /** A fresh subticket closes no cycle: its parent's dependencies never lead back to its parent. */
  lemma AppendedAcyclic(tab: Table, tk: Ticket)
    requires Shaped(tab) && FreshTicket(tab, tk)
    ensures Acyclic(tab.tickets + [tk])
  {
    var rows := tab.tickets;
    FreshId(tab);
    NoEmptyId(tab);
    assert tk.id[0] == 'T';
    forall k | 0 <= k < |rows| ensures rows[k].parent != tk.id {
      assert rows[k].parent != "" ==> FindTicket(rows, rows[k].parent) >= 0;
    }
    var p := FindTicket(rows, tk.parent);
    var deps := if p >= 0 then rows[p].dependsOn else [];
    DetachedAcyclic(rows, tk, deps);
    if p >= 0 {
      AttachedEdges(rows, tk, deps);
      NoReturnToParent(rows, tk, deps);
      NewWaitsKeepAcyclic(rows + [tk], rows + [Detached(tk, deps)], {tk.parent}, {tk.id});
    } else {
      assert tk == Detached(tk, deps);
    }
  }

  lemma AppendedPrivate(rows: seq<Ticket>, tk: Ticket)
    requires FindTicket(rows, tk.id) < 0 && tk.status == Open && tk.dependsOn == []
    requires DraftsPrivate(rows) && DependenciesExist(rows)
    ensures DraftsPrivate(rows + [tk])
  {
    var after := rows + [tk];
    forall k, d | 0 <= k < |after| && d in after[k].dependsOn && FindTicket(after, d) >= 0
                  && IsDraft(after, after[FindTicket(after, d)])
      ensures after[FindTicket(after, d)].parent == after[k].parent
    {
      assert d in rows[k].dependsOn && FindTicket(rows, d) >= 0;
      AppendedFinds(rows, tk, d);
      AppendedDraft(rows, tk, FindTicket(rows, d));
    }
  }

  lemma AppendedLifecycle(rows: seq<Ticket>, tk: Ticket)
    requires FindTicket(rows, tk.id) < 0 && tk.status == Open && tk.dependsOn == [] && tk.runs == []
    requires Lifecycle(rows) && DependenciesExist(rows)
    ensures Lifecycle(rows + [tk])
  {
    var after := rows + [tk];
    AppendedPrivate(rows, tk);
    forall k | 0 <= k < |rows|
      ensures IsDraft(after, after[k]) == IsDraft(rows, rows[k])
      ensures Childless(after, after[k].id) ==> Childless(rows, rows[k].id)
    {
      AppendedDraft(rows, tk, k);
      if Childless(after, after[k].id) {
        forall t | t in rows ensures t.parent != rows[k].id {
          assert t in after;
        }
      }
    }
  }

  lemma AppendedSettled(rows: seq<Ticket>, tk: Ticket)
    requires FindTicket(rows, tk.id) < 0 && SettledExcept(rows, {})
    ensures SettledExcept(rows + [tk], {tk.id, tk.parent})
  {
    var after := rows + [tk];
    forall k | 0 <= k < |after| && after[k].id !in {tk.id, tk.parent} ensures Follows(after, after[k]) {
      assert k < |rows| && Follows(rows, rows[k]);
      assert SameKids(rows, after, rows[k].id);
      SameKidsFollow(rows, after, rows[k].id);
    }
  }

  /** The new ticket, before its dependencies, keeps everything sound. */
  lemma AppendedSound(tab: Table, tk: Ticket)
    requires Invariant(tab) && FreshTicket(tab, tk)
    ensures Sound(Table(tab.next + 1, tab.tickets + [tk]))
    ensures SettledExcept(tab.tickets + [tk], {tk.id, tk.parent})
  {
    FreshId(tab);
    AppendedReferences(tab, tk);
    AppendedAcyclic(tab, tk);
    AppendedLifecycle(tab.tickets, tk);
    AppendedSettled(tab.tickets, tk);
  }

  lemma CreateGood(tab: Table, n: NewTicket, run: string)
    requires Invariant(tab)
    ensures Keeps(CreateChange(tab, n, run))
  {
    var c := CreateChange(tab, n, run);
    if c.Touch? {
      var i := |tab.tickets|;
      var tk := Ticket(TicketId(tab.next + 1), TrimSpace(n.title), Open, n.parent, [], [], false);
      assert FreshTicket(tab, tk);
      AppendedSound(tab, tk);
      var mid := Table(tab.next + 1, tab.tickets + [tk]);
      var out := CheckedDeps(mid.tickets, tk, n.dependsOn).value;
      RelinkSound(mid, i, n.dependsOn, out);
      RewriteUnsettles(mid.tickets, i, tk.(dependsOn := out), {tk.id, tk.parent});
      assert {tk.id, tk.parent} + {tk.id, tk.parent} == {tk.id, tk.parent};
      assert c.table == mid.(tickets := mid.tickets[i := tk.(dependsOn := out)]);
      OneTouched(c.table, i, {tk.id, tk.parent});
    }
  }
}
