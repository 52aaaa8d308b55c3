/** The cycle check is exact: it refuses a dependency only when the table with that
    dependency really would contain a ticket that waits for itself. */
module TicketExact {
  import opened TicketRules
  import opened TicketInvariants
  import opened TicketLinks
  import opened WaitGraph

  function Relinked(rows: seq<Ticket>, i: nat, deps: seq<string>): seq<Ticket>
    requires i < |rows|
  {
    rows[i := rows[i].(dependsOn := deps)]
  }

  /** The part of a chain up to the first ticket that gets a new wait. */
  lemma {:induction false} FirstSource(rows: seq<Ticket>, path: seq<string>, sources: set<string>) returns (n: nat)
    requires path != [] && path[|path| - 1] in sources
    ensures n < |path| && path[n] in sources && forall k :: 0 <= k < n ==> path[k] !in sources
  {
    if path[0] in sources {
      n := 0;
    } else {
      n := FirstSource(rows, path[1..], sources);
      n := n + 1;
    }
  }

  /** Tickets without new waits keep the old ones. */
  lemma OtherWaitsStay(rows: seq<Ticket>, i: nat, deps: seq<string>, a: string, b: string)
    requires UniqueIds(rows) && i < |rows| && a !in Waiters(rows, rows[i]) && b in Edges(rows, a)
    ensures b in Edges(Relinked(rows, i, deps), a)
  {
    EdgeIsWait(rows, a, b);
    OtherWaitStays(rows, i, deps, a, b);
    EdgeIsWait(Relinked(rows, i, deps), a, b);
  }

  lemma OtherWaitStays(rows: seq<Ticket>, i: nat, deps: seq<string>, a: string, b: string)
    requires UniqueIds(rows) && i < |rows| && a !in Waiters(rows, rows[i]) && Waits(rows, a, b)
    ensures Waits(Relinked(rows, i, deps), a, b)
  {
    var after := Relinked(rows, i, deps);
    IsWaiter(rows, rows[i], a);
    SameTreeFinds(rows, after, a);
    var k := FindTicket(rows, a);
    SameTreeFinds(rows, after, rows[k].parent);
    if HasKid(rows, a, b) {
      var n :| 0 <= n < |rows| && rows[n].parent == a && rows[n].id == b;
      assert after[n].parent == a && after[n].id == b;
    } else if OwnWait(rows, a, b) {
      assert k != i;
      assert OwnWait(after, a, b);
    } else {
      assert FindTicket(rows, rows[k].parent) != i;
      assert OwnWait(after, rows[k].parent, b);
    }
  }

  lemma PrefixStays(rows: seq<Ticket>, i: nat, deps: seq<string>, path: seq<string>, n: nat)
    requires UniqueIds(rows) && i < |rows| && IsWalk(rows, path) && n < |path|
    requires forall k :: 0 <= k < n ==> path[k] !in Waiters(rows, rows[i])
    ensures IsWalk(Relinked(rows, i, deps), path[..n + 1])
  {
    var after, q := Relinked(rows, i, deps), path[..n + 1];
    forall k | 0 <= k < |q| - 1 ensures q[k + 1] in Edges(after, q[k]) {
      assert path[k + 1] in Edges(rows, path[k]);
      OtherWaitsStay(rows, i, deps, path[k], path[k + 1]);
    }
  }

  /** Every waiter waits for each of the new dependencies. */
  lemma WaiterWaits(rows: seq<Ticket>, i: nat, deps: seq<string>, s: string, d: string)
    requires UniqueIds(rows) && i < |rows| && s in Waiters(rows, rows[i]) && d in deps
    ensures d in Edges(Relinked(rows, i, deps), s)
  {
    var after := Relinked(rows, i, deps);
    IsWaiter(rows, rows[i], s);
    FindUnique(rows, i);
    SameTreeFinds(rows, after, rows[i].id);
    if s == rows[i].id {
      assert OwnWait(after, s, d);
    } else {
      var k :| 0 <= k < |rows| && rows[k].parent == rows[i].id && rows[k].id == s;
      FindUnique(rows, k);
      SameTreeFinds(rows, after, s);
      assert OwnWait(after, rows[i].id, d);
      assert ParentWait(after, s, d);
    }
    EdgeIsWait(after, s, d);
  }

  lemma BackWaitMakesCycle(rows: seq<Ticket>, i: nat, deps: seq<string>, d: string)
    requires UniqueIds(rows) && i < |rows| && d in deps && WaitsBackTo(rows, rows[i], d)
    ensures !Acyclic(Relinked(rows, i, deps))
  {
    var after := Relinked(rows, i, deps);
    var target :| target in [rows[i].id] + Ids(Subtickets(rows, rows[i].id)) && Reaches(rows, d, target);
    assert target in Waiters(rows, rows[i]);
    var path :| WalkBetween(rows, path, d, target);
    var n := FirstSource(rows, path, Waiters(rows, rows[i]));
    PrefixStays(rows, i, deps, path, n);
    WaiterWaits(rows, i, deps, path[n], d);
    var q := path[..n + 1];
    ExtendWalk(after, path[n], q, path[n]);
    assert IsWalk(after, [path[n]] + q) && |[path[n]] + q| > 1;
  }

  /** In an acyclic table, replacing a ticket's dependencies leaves it acyclic exactly
      when none of them waits, in the table as it was, for that ticket or a subticket of it. */
  lemma CycleCheckIsExact(rows: seq<Ticket>, i: nat, deps: seq<string>)
    requires UniqueIds(rows) && Acyclic(rows) && i < |rows|
    ensures Acyclic(Relinked(rows, i, deps)) <==> forall d :: d in deps ==> !WaitsBackTo(rows, rows[i], d)
  {
    if forall d :: d in deps ==> !WaitsBackTo(rows, rows[i], d) {
      var sources, targets := Waiters(rows, rows[i]), ToSet(deps);
      RelinkEdges(rows, i, deps);
      forall d, s | d in targets && s in sources ensures !Reaches(rows, d, s) {
        assert !WaitsBackTo(rows, rows[i], d);
      }
      NewWaitsKeepAcyclic(Relinked(rows, i, deps), rows, sources, targets);
    } else {
      var d :| d in deps && WaitsBackTo(rows, rows[i], d);
      BackWaitMakesCycle(rows, i, deps, d);
    }
  }
}
