/** Requests that change ids, parents or dependencies: create, relink, approve, reject, delete. */
module TicketLinks {
  import opened Wrappers
  import opened TicketRules
  import opened TicketTable
  import opened TicketInvariants
  import opened TicketSteps
  import opened WaitGraph

  // ----- New dependencies for one ticket

  ghost function ToSet(s: seq<string>): set<string> {
    set x | x in s
  }

  /** The tickets that wait for whatever t waits for. */
  ghost function Waiters(rows: seq<Ticket>, t: Ticket): set<string> {
    ToSet([t.id] + Ids(Subtickets(rows, t.id)))
  }

  ghost predicate Waits(rows: seq<Ticket>, a: string, b: string) {
    FindTicket(rows, a) >= 0 && (OwnWait(rows, a, b) || ParentWait(rows, a, b) || HasKid(rows, a, b))
  }

  lemma RelinkWaits(rows: seq<Ticket>, i: nat, deps: seq<string>, a: string, b: string)
    requires UniqueIds(rows) && i < |rows| && Waits(rows[i := rows[i].(dependsOn := deps)], a, b)
    ensures Waits(rows, a, b) || ((a == rows[i].id || HasKid(rows, rows[i].id, a)) && b in deps)
  {
    var after := rows[i := rows[i].(dependsOn := deps)];
    SameTreeFinds(rows, after, a);
    var k := FindTicket(rows, a);
    SameTreeFinds(rows, after, rows[k].parent);
    if HasKid(after, a, b) {
      var n :| 0 <= n < |after| && after[n].parent == a && after[n].id == b;
      assert rows[n].parent == a && rows[n].id == b;
    } else if OwnWait(after, a, b) {
      assert k == i || OwnWait(rows, a, b);
    } else if FindTicket(rows, rows[k].parent) == i {
      assert rows[k].parent == rows[i].id && rows[k].id == a;
      assert HasKid(rows, rows[i].id, a);
    } else {
      assert ParentWait(rows, a, b);
    }
  }

  lemma EdgeIsWait(rows: seq<Ticket>, a: string, b: string)
    ensures b in Edges(rows, a) <==> Waits(rows, a, b)
  {
    EdgeCases(rows, a, b);
  }

  lemma IsWaiter(rows: seq<Ticket>, t: Ticket, a: string)
    ensures a in Waiters(rows, t) <==> a == t.id || HasKid(rows, t.id, a)
  {
    KidIds(rows, t.id, a);
  }

  lemma RelinkEdge(rows: seq<Ticket>, after: seq<Ticket>, i: nat, deps: seq<string>, a: string, b: string)
    requires UniqueIds(rows) && i < |rows| && after == rows[i := rows[i].(dependsOn := deps)]
    requires b in Edges(after, a)
    ensures b in Edges(rows, a) || (a in Waiters(rows, rows[i]) && b in ToSet(deps))
  {
    EdgeIsWait(after, a, b);
    RelinkWaits(rows, i, deps, a, b);
    EdgeIsWait(rows, a, b);
    IsWaiter(rows, rows[i], a);
  }

  lemma RelinkEdges(rows: seq<Ticket>, i: nat, deps: seq<string>)
    requires UniqueIds(rows) && i < |rows|
    ensures EdgesFrom(rows[i := rows[i].(dependsOn := deps)], rows, Waiters(rows, rows[i]), ToSet(deps))
  {
    var after := rows[i := rows[i].(dependsOn := deps)];
    forall a, b ensures EdgeFrom(after, rows, Waiters(rows, rows[i]), ToSet(deps), a, b) {
      if b in Edges(after, a) {
        RelinkEdge(rows, after, i, deps, a, b);
      }
    }
  }

  lemma AdmissibleDeps(rows: seq<Ticket>, t: Ticket, deps: seq<string>, out: seq<string>)
    requires CheckedDeps(rows, t, deps) == Ok(out)
    ensures forall d :: d in out ==> FindTicket(rows, d) >= 0
    ensures forall d :: d in out && IsDraft(rows, rows[FindTicket(rows, d)]) ==> rows[FindTicket(rows, d)].parent == t.parent
    ensures forall d, s :: d in ToSet(out) && s in Waiters(rows, t) ==> !Reaches(rows, d, s)
  {
    CheckedDepsMeaning(rows, t, deps);
    forall d | d in out
      ensures FindTicket(rows, d) >= 0
      ensures IsDraft(rows, rows[FindTicket(rows, d)]) ==> rows[FindTicket(rows, d)].parent == t.parent
      ensures !WaitsBackTo(rows, t, d)
    {
      assert DependencyRefusal(rows, t, d) == None;
    }
    forall d, s | d in ToSet(out) && s in Waiters(rows, t) ensures !Reaches(rows, d, s) {
      assert !WaitsBackTo(rows, t, d);
    }
  }

  /** Checking each new dependency against the old table alone keeps the new graph acyclic. */
  lemma RelinkAcyclic(rows: seq<Ticket>, i: nat, deps: seq<string>, out: seq<string>)
    requires UniqueIds(rows) && Acyclic(rows) && i < |rows| && CheckedDeps(rows, rows[i], deps) == Ok(out)
    ensures Acyclic(rows[i := rows[i].(dependsOn := out)])
  {
    AdmissibleDeps(rows, rows[i], deps, out);
    var after := rows[i := rows[i].(dependsOn := out)];
    RelinkEdges(rows, i, out);
    NewWaitsKeepAcyclic(after, rows, Waiters(rows, rows[i]), ToSet(out));
  }

  lemma RelinkReferences(rows: seq<Ticket>, i: nat, deps: seq<string>, out: seq<string>)
    requires TwoLevels(rows) && DependenciesExist(rows)
    requires i < |rows| && CheckedDeps(rows, rows[i], deps) == Ok(out)
    ensures TwoLevels(rows[i := rows[i].(dependsOn := out)])
    ensures DependenciesExist(rows[i := rows[i].(dependsOn := out)])
  {
    AdmissibleDeps(rows, rows[i], deps, out);
    RelinkTree(rows, i, out);
  }

  lemma RelinkTree(rows: seq<Ticket>, i: nat, out: seq<string>)
    requires TwoLevels(rows) && DependenciesExist(rows) && i < |rows|
    requires forall d :: d in out ==> FindTicket(rows, d) >= 0
    ensures TwoLevels(rows[i := rows[i].(dependsOn := out)])
    ensures DependenciesExist(rows[i := rows[i].(dependsOn := out)])
  {
    var after := rows[i := rows[i].(dependsOn := out)];
    forall id ensures FindTicket(after, id) == FindTicket(rows, id) {
      SameTreeFinds(rows, after, id);
    }
  }

  lemma SameTreeMinted(tab: Table, after: seq<Ticket>)
    requires Minted(tab) && SameTree(tab.tickets, after)
    ensures Minted(tab.(tickets := after))
  {
    forall k | 0 <= k < |after| ensures MintedBy(after[k].id, tab.next) {
      assert MintedBy(tab.tickets[k].id, tab.next);
    }
  }

  lemma RelinkShaped(tab: Table, i: nat, deps: seq<string>, out: seq<string>)
    requires Shaped(tab) && i < |tab.tickets| && CheckedDeps(tab.tickets, tab.tickets[i], deps) == Ok(out)
    ensures Shaped(tab.(tickets := tab.tickets[i := tab.tickets[i].(dependsOn := out)]))
  {
    var after := tab.tickets[i := tab.tickets[i].(dependsOn := out)];
    RelinkReferences(tab.tickets, i, deps, out);
    RelinkAcyclic(tab.tickets, i, deps, out);
    SameTreeMinted(tab, after);
  }

  lemma SameDrafts(rows: seq<Ticket>, after: seq<Ticket>, i: nat)
    requires SameTree(rows, after) && i < |rows|
    requires forall k :: 0 <= k < |rows| ==> rows[k].status == after[k].status
    ensures IsDraft(after, after[i]) == IsDraft(rows, rows[i])
  {
    SameTreeFinds(rows, after, rows[i].parent);
  }

  lemma RelinkPrivate(rows: seq<Ticket>, i: nat, deps: seq<string>, out: seq<string>)
    requires DraftsPrivate(rows) && i < |rows| && CheckedDeps(rows, rows[i], deps) == Ok(out)
    ensures DraftsPrivate(rows[i := rows[i].(dependsOn := out)])
  {
    var after := rows[i := rows[i].(dependsOn := out)];
    AdmissibleDeps(rows, rows[i], deps, out);
    forall k, d | 0 <= k < |after| && d in after[k].dependsOn && FindTicket(after, d) >= 0
                  && IsDraft(after, after[FindTicket(after, d)])
      ensures after[FindTicket(after, d)].parent == after[k].parent
    {
      SameTreeFinds(rows, after, d);
      SameDrafts(rows, after, FindTicket(rows, d));
      if k == i {
        assert d in out;
      } else {
        assert d in rows[k].dependsOn;
      }
    }
  }

  /** All of Lifecycle but the privacy of drafts looks at statuses, runs, drafts and parents only. */
  lemma SameLifecycle(rows: seq<Ticket>, after: seq<Ticket>)
    requires Lifecycle(rows) && DraftsPrivate(after) && |after| == |rows|
    requires forall k :: 0 <= k < |rows| ==> IsDraft(after, after[k]) == IsDraft(rows, rows[k])
    requires forall k :: 0 <= k < |rows| ==> Childless(after, after[k].id) == Childless(rows, rows[k].id)
    requires forall k :: 0 <= k < |rows| ==> after[k] == rows[k].(dependsOn := after[k].dependsOn)
    ensures Lifecycle(after)
  {
  }

  lemma RelinkLifecycle(rows: seq<Ticket>, i: nat, deps: seq<string>, out: seq<string>)
    requires Lifecycle(rows) && i < |rows| && CheckedDeps(rows, rows[i], deps) == Ok(out)
    ensures Lifecycle(rows[i := rows[i].(dependsOn := out)])
  {
    var after := rows[i := rows[i].(dependsOn := out)];
    RelinkPrivate(rows, i, deps, out);
    forall k | 0 <= k < |after|
      ensures IsDraft(after, after[k]) == IsDraft(rows, rows[k])
      ensures Childless(after, after[k].id) == Childless(rows, rows[k].id)
    {
      SameDrafts(rows, after, k);
      SameTreeFinds(rows, after, rows[k].id);
    }
    SameLifecycle(rows, after);
  }

  lemma RelinkSound(tab: Table, i: nat, deps: seq<string>, out: seq<string>)
    requires Sound(tab) && i < |tab.tickets| && CheckedDeps(tab.tickets, tab.tickets[i], deps) == Ok(out)
    ensures Sound(tab.(tickets := tab.tickets[i := tab.tickets[i].(dependsOn := out)]))
  {
    RelinkShaped(tab, i, deps, out);
    RelinkLifecycle(tab.tickets, i, deps, out);
  }

  /** What a person's move of a status must satisfy to be made. */
  lemma RestatusMeans(rows: seq<Ticket>, i: nat, patch: Patch, after: seq<Ticket>)
    requires i < |rows| && RestatusChange(rows, i, patch) == Ok(after) && after != rows
    ensures patch.status.Some? && after == rows[i := rows[i].(status := patch.status.value)]
    ensures !patch.status.value.Other? && !IsDraft(rows, rows[i]) && Childless(rows, rows[i].id)
    ensures PersonMove(rows[i].status, patch.status.value).None?
  {
    NoKids(rows, rows[i].id);
  }

  lemma RestatusSound(tab: Table, i: nat, patch: Patch, rows: seq<Ticket>)
    requires Sound(tab) && i < |tab.tickets| && RestatusChange(tab.tickets, i, patch) == Ok(rows)
    requires SettledExcept(tab.tickets, {tab.tickets[i].id, tab.tickets[i].parent})
    ensures Sound(tab.(tickets := rows)) && |rows| == |tab.tickets|
    ensures rows[i].id == tab.tickets[i].id && rows[i].parent == tab.tickets[i].parent
    ensures SettledExcept(rows, {rows[i].id, rows[i].parent})
  {
    if rows == tab.tickets {
      assert tab.(tickets := rows) == tab;
    } else {
      RestatusMeans(tab.tickets, i, patch, rows);
      MovedSound(tab, i, patch.status.value);
      MovedSettled(tab.tickets, i, patch.status.value);
    }
  }

  lemma MovedSound(tab: Table, i: nat, s: Status)
    requires Sound(tab) && i < |tab.tickets| && !s.Other? && PersonMove(tab.tickets[i].status, s).None?
    requires !IsDraft(tab.tickets, tab.tickets[i]) && Childless(tab.tickets, tab.tickets[i].id)
    ensures Sound(tab.(tickets := tab.tickets[i := tab.tickets[i].(status := s)]))
  {
    RewriteKeepsSound(tab, i, tab.tickets[i].(status := s));
  }

  lemma MovedSettled(rows: seq<Ticket>, i: nat, s: Status)
    requires UniqueIds(rows) && i < |rows| && SettledExcept(rows, {rows[i].id, rows[i].parent})
    ensures SettledExcept(rows[i := rows[i].(status := s)], {rows[i].id, rows[i].parent})
  {
    var loose := {rows[i].id, rows[i].parent};
    RewriteUnsettles(rows, i, rows[i].(status := s), loose);
    assert loose + loose == loose;
  }

  lemma UpdateGood(tab: Table, id: string, patch: Patch, run: string)
    requires Invariant(tab)
    ensures Keeps(UpdateChange(tab, id, patch, run))
  {
    var c := UpdateChange(tab, id, patch, run);
    if c.Touch? && c.touched != [] {
      var i := FindTicket(tab.tickets, id);
      var relinked := RelinkChange(tab, i, patch, run).value;
      var rows := tab.tickets;
      SettledMonotone(rows, {}, {rows[i].id, rows[i].parent});
      if patch.dependsOn.None? {
        assert tab.(tickets := relinked) == tab;
      } else {
        var out := CheckedDeps(rows, rows[i], patch.dependsOn.value).value;
        RelinkSound(tab, i, patch.dependsOn.value, out);
        RewriteUnsettles(rows, i, rows[i].(dependsOn := out), {});
        assert {} + {rows[i].id, rows[i].parent} == {rows[i].id, rows[i].parent};
      }
      var mid := tab.(tickets := relinked);
      RestatusSound(mid, i, patch, c.table.tickets);
      assert mid.(tickets := c.table.tickets) == c.table;
      OneTouched(c.table, i, {c.table.tickets[i].id, c.table.tickets[i].parent});
    }
  }
}
