/** What every reachable ticket table satisfies, and why each request keeps it. */
module TicketInvariants {
  import opened TicketRules
  import opened TicketTable
  import opened WaitGraph

  // ----- The invariant

  ghost predicate UniqueIds(rows: seq<Ticket>) {
    forall i, j :: 0 <= i < j < |rows| ==> rows[i].id != rows[j].id
  }

  ghost predicate MintedBy(id: string, next: nat) {
    exists n: nat :: 1 <= n <= next && id == TicketId(n)
  }

  /** Every id was handed out by the counter. */
  ghost predicate Minted(tab: Table) {
    forall i :: 0 <= i < |tab.tickets| ==> MintedBy(tab.tickets[i].id, tab.next)
  }

  /** Every parent is a top-level ticket of the table. */
  ghost predicate TwoLevels(rows: seq<Ticket>) {
    forall i :: 0 <= i < |rows| && rows[i].parent != "" ==>
      FindTicket(rows, rows[i].parent) >= 0 && rows[FindTicket(rows, rows[i].parent)].parent == ""
  }

  /** Every dependency names a ticket of the table. */
  ghost predicate DependenciesExist(rows: seq<Ticket>) {
    forall i, d :: 0 <= i < |rows| && d in rows[i].dependsOn ==> FindTicket(rows, d) >= 0
  }

  ghost predicate ValidStatuses(rows: seq<Ticket>) {
    forall i :: 0 <= i < |rows| ==> !rows[i].status.Other?
  }

  /** Drafts are open and no run ever drove them. */
  ghost predicate DraftsUntouched(rows: seq<Ticket>) {
    forall i :: 0 <= i < |rows| && IsDraft(rows, rows[i]) ==> rows[i].status == Open && rows[i].runs == []
  }

  /** Only sibling drafts depend on a draft. */
  ghost predicate DraftsPrivate(rows: seq<Ticket>) {
    forall i, d :: 0 <= i < |rows| && d in rows[i].dependsOn && FindTicket(rows, d) >= 0
                   && IsDraft(rows, rows[FindTicket(rows, d)])
                   ==> rows[FindTicket(rows, d)].parent == rows[i].parent
  }

  /** A plan belongs to a top-level ticket and to the run that made it. */
  ghost predicate PlansHaveRuns(rows: seq<Ticket>) {
    forall i :: 0 <= i < |rows| && Held(rows[i].status) ==> rows[i].parent == "" && rows[i].runs != []
  }

  /** A running ticket that follows no subtickets has a run that drives it. */
  ghost predicate RunningHaveRuns(rows: seq<Ticket>) {
    forall i :: 0 <= i < |rows| && rows[i].status == Running && Childless(rows, rows[i].id) ==> rows[i].runs != []
  }

  ghost predicate Follows(rows: seq<Ticket>, p: Ticket) {
    Childless(rows, p.id) || Held(p.status) || p.status == Derived(Subtickets(rows, p.id))
  }

  /** Every parent outside loose that is not held by a plan has the status its subtickets give it. */
  ghost predicate SettledExcept(rows: seq<Ticket>, loose: set<string>) {
    forall i :: 0 <= i < |rows| && rows[i].id !in loose ==> Follows(rows, rows[i])
  }

  /** All of the invariant but the parents' statuses. */
  ghost predicate Sound(tab: Table) {
    && UniqueIds(tab.tickets) && Minted(tab) && TwoLevels(tab.tickets) && DependenciesExist(tab.tickets)
    && Acyclic(tab.tickets) && Lifecycle(tab.tickets)
  }

  ghost predicate Lifecycle(rows: seq<Ticket>) {
    && ValidStatuses(rows) && DraftsUntouched(rows) && DraftsPrivate(rows)
    && PlansHaveRuns(rows) && RunningHaveRuns(rows)
  }

  ghost predicate Invariant(tab: Table) {
    Sound(tab) && SettledExcept(tab.tickets, {})
  }

  // ----- Changes that keep every id, parent and dependency

  ghost predicate SameTree(a: seq<Ticket>, b: seq<Ticket>) {
    |a| == |b| && forall i :: 0 <= i < |a| ==> a[i].id == b[i].id && a[i].parent == b[i].parent
  }

  ghost predicate SameShape(a: seq<Ticket>, b: seq<Ticket>) {
    SameTree(a, b) && forall i :: 0 <= i < |a| ==> a[i].dependsOn == b[i].dependsOn
  }

  lemma SameTreeFinds(a: seq<Ticket>, b: seq<Ticket>, id: string)
    requires SameTree(a, b)
    ensures FindTicket(a, id) == FindTicket(b, id)
    ensures Childless(a, id) == Childless(b, id)
  {
    var i, j := FindTicket(a, id), FindTicket(b, id);
    if i >= 0 { assert b[i].id == id; }
    if j >= 0 { assert a[j].id == id; }
    if exists t :: t in a && t.parent == id {
      var k :| 0 <= k < |a| && a[k].parent == id;
      assert b[k] in b && b[k].parent == id;
    }
    if exists t :: t in b && t.parent == id {
      var k :| 0 <= k < |b| && b[k].parent == id;
      assert a[k] in a && a[k].parent == id;
    }
  }

  ghost predicate HasKid(rows: seq<Ticket>, a: string, b: string) {
    exists k :: 0 <= k < |rows| && rows[k].parent == a && rows[k].id == b
  }

  lemma KidIds(rows: seq<Ticket>, a: string, b: string)
    ensures b in Ids(Subtickets(rows, a)) <==> HasKid(rows, a, b)
  {
    var kids := Subtickets(rows, a);
    if b in Ids(kids) {
      var n :| 0 <= n < |kids| && Ids(kids)[n] == b;
      assert kids[n] in kids;
      var k :| 0 <= k < |rows| && rows[k] == kids[n];
    }
    if HasKid(rows, a, b) {
      var k :| 0 <= k < |rows| && rows[k].parent == a && rows[k].id == b;
      assert rows[k] in kids;
      var n :| 0 <= n < |kids| && kids[n] == rows[k];
      assert Ids(kids)[n] == b;
    }
  }

  ghost predicate OwnWait(rows: seq<Ticket>, a: string, b: string) {
    var i := FindTicket(rows, a);
    i >= 0 && b in rows[i].dependsOn
  }

  ghost predicate ParentWait(rows: seq<Ticket>, a: string, b: string) {
    var i := FindTicket(rows, a);
    i >= 0 && OwnWait(rows, rows[i].parent, b)
  }

  lemma EdgeCases(rows: seq<Ticket>, a: string, b: string)
    ensures b in Edges(rows, a) <==>
            FindTicket(rows, a) >= 0 && (OwnWait(rows, a, b) || ParentWait(rows, a, b) || HasKid(rows, a, b))
  {
    KidIds(rows, a, b);
  }

  lemma SameShapeEdge(a: seq<Ticket>, b: seq<Ticket>, x: string, y: string)
    requires SameShape(a, b) && y in Edges(b, x)
    ensures y in Edges(a, x)
  {
    EdgeCases(a, x, y);
    EdgeCases(b, x, y);
    SameTreeFinds(a, b, x);
    var i := FindTicket(a, x);
    SameTreeFinds(a, b, a[i].parent);
    if HasKid(b, x, y) {
      var k :| 0 <= k < |b| && b[k].parent == x && b[k].id == y;
      assert a[k].parent == x && a[k].id == y;
    }
  }

  lemma SameShapeEdges(a: seq<Ticket>, b: seq<Ticket>)
    requires SameShape(a, b)
    ensures EdgesFrom(b, a, {}, {})
  {
    forall x, y ensures EdgeFrom(b, a, {}, {}, x, y) {
      if y in Edges(b, x) {
        SameShapeEdge(a, b, x, y);
      }
    }
  }

  /** The part of the invariant that only looks at ids, parents and dependencies. */
  ghost predicate Shaped(tab: Table) {
    && UniqueIds(tab.tickets) && Minted(tab) && TwoLevels(tab.tickets)
    && DependenciesExist(tab.tickets) && Acyclic(tab.tickets)
  }

  lemma SameShapeShaped(tab: Table, rows: seq<Ticket>)
    requires Shaped(tab) && SameShape(tab.tickets, rows)
    ensures Shaped(tab.(tickets := rows))
  {
    forall id ensures FindTicket(rows, id) == FindTicket(tab.tickets, id) {
      SameTreeFinds(tab.tickets, rows, id);
    }
    SameShapeEdges(tab.tickets, rows);
    FewerWaitsKeepAcyclic(rows, tab.tickets);
  }

  lemma FindUnique(rows: seq<Ticket>, i: nat)
    requires UniqueIds(rows) && i < |rows|
    ensures FindTicket(rows, rows[i].id) == i
  {
  }

  lemma HasId(tab: Table, i: nat)
    requires Minted(tab) && i < |tab.tickets|
    ensures tab.tickets[i].id != ""
  {
    assert MintedBy(tab.tickets[i].id, tab.next);
  }

  lemma NoEmptyId(tab: Table)
    requires Minted(tab)
    ensures FindTicket(tab.tickets, "") < 0
  {
    forall i | 0 <= i < |tab.tickets| ensures tab.tickets[i].id != "" {
      HasId(tab, i);
    }
  }

  /** New statuses and runs are harmless when plans start on childless tickets only. */
  ghost predicate HarmlessRow(before: seq<Ticket>, after: seq<Ticket>, i: nat)
    requires |before| == |after| && i < |before|
  {
    var t := after[i];
    && !t.status.Other?
    && (Held(t.status) ==>
          t.parent == "" && t.runs != [] && (Held(before[i].status) || Childless(before, t.id)))
    && (IsDraft(after, t) ==> t.status == Open && t.runs == [])
    && (t.status == Running && Childless(before, t.id) ==> t.runs != [])
  }

  ghost predicate Harmless(before: seq<Ticket>, after: seq<Ticket>) {
    SameShape(before, after) && forall i :: 0 <= i < |after| ==> HarmlessRow(before, after, i)
  }

  lemma NoNewDrafts(before: seq<Ticket>, after: seq<Ticket>, i: nat)
    requires Harmless(before, after) && i < |after| && IsDraft(after, after[i])
    ensures IsDraft(before, before[i])
  {
    SameTreeFinds(before, after, after[i].parent);
    var p := FindTicket(after, after[i].parent);
    assert HarmlessRow(before, after, p);
    assert before[i] in before && before[i].parent == after[p].id;
  }

  lemma DraftsStayPrivate(before: seq<Ticket>, after: seq<Ticket>)
    requires Harmless(before, after) && DraftsPrivate(before)
    ensures DraftsPrivate(after)
  {
    forall i, d | 0 <= i < |after| && d in after[i].dependsOn && FindTicket(after, d) >= 0
                  && IsDraft(after, after[FindTicket(after, d)])
      ensures after[FindTicket(after, d)].parent == after[i].parent
    {
      SameTreeFinds(before, after, d);
      NoNewDrafts(before, after, FindTicket(after, d));
      assert d in before[i].dependsOn;
    }
  }

  lemma HarmlessLifecycle(before: seq<Ticket>, after: seq<Ticket>)
    requires Harmless(before, after) && Lifecycle(before)
    ensures Lifecycle(after)
  {
    DraftsStayPrivate(before, after);
    forall i | 0 <= i < |after|
      ensures !after[i].status.Other?
      ensures IsDraft(after, after[i]) ==> after[i].status == Open && after[i].runs == []
      ensures Held(after[i].status) ==> after[i].parent == "" && after[i].runs != []
      ensures after[i].status == Running && Childless(after, after[i].id) ==> after[i].runs != []
    {
      assert HarmlessRow(before, after, i);
      SameTreeFinds(before, after, after[i].id);
    }
  }

  lemma HarmlessKeepsSound(tab: Table, rows: seq<Ticket>)
    requires Sound(tab) && Harmless(tab.tickets, rows)
    ensures Sound(tab.(tickets := rows))
  {
    SameShapeShaped(tab, rows);
    HarmlessLifecycle(tab.tickets, rows);
  }

  // ----- Settling the parents

  lemma DerivedByMembers(a: seq<Ticket>, b: seq<Ticket>)
    requires forall t :: t in a <==> t in b
    ensures Derived(a) == Derived(b)
  {
    forall s ensures SomeKid(a, s) == SomeKid(b, s) {
      if SomeKid(a, s) {
        var k :| k in a && k.status == s;
        assert k in b;
      }
      if SomeKid(b, s) {
        var k :| k in b && k.status == s;
        assert k in a;
      }
    }
    assert EveryKidIn(a, {Done, Closed}) == EveryKidIn(b, {Done, Closed});
    assert EveryKidIn(a, {Closed}) == EveryKidIn(b, {Closed});
  }

  ghost predicate SameKids(a: seq<Ticket>, b: seq<Ticket>, id: string) {
    forall t: Ticket :: t.parent == id ==> (t in a <==> t in b)
  }

  lemma SameKidsFollow(a: seq<Ticket>, b: seq<Ticket>, id: string)
    requires SameKids(a, b, id)
    ensures Childless(a, id) == Childless(b, id)
    ensures Derived(Subtickets(a, id)) == Derived(Subtickets(b, id))
  {
    DerivedByMembers(Subtickets(a, id), Subtickets(b, id));
  }

  lemma SameKidsBesides(rows: seq<Ticket>, i: nat, t: Ticket, id: string)
    requires i < |rows| && rows[i].parent != id && t.parent != id
    ensures SameKids(rows, rows[i := t], id)
  {
    var after := rows[i := t];
    forall k: Ticket | k.parent == id ensures k in rows <==> k in after {
      if k in rows {
        var n :| 0 <= n < |rows| && rows[n] == k;
        assert after[n] == k;
      }
      if k in after {
        var n :| 0 <= n < |after| && after[n] == k;
        assert rows[n] == k;
      }
    }
  }

  lemma ParentIsTop(tab: Table, i: nat)
    requires Sound(tab) && i < |tab.tickets| && !Childless(tab.tickets, tab.tickets[i].id)
    ensures tab.tickets[i].parent == ""
  {
    var rows := tab.tickets;
    HasId(tab, i);
    var t :| t in rows && t.parent == rows[i].id;
    var k :| 0 <= k < |rows| && rows[k] == t;
    FindUnique(rows, i);
  }

  ghost predicate SameTicket(a: Ticket, b: Ticket) {
    a.id == b.id && a.parent == b.parent && a.dependsOn == b.dependsOn
  }

  /** A rewritten row cannot make a draft of a ticket that was none. */
  lemma RewriteMakesNoDrafts(rows: seq<Ticket>, i: nat, t: Ticket, j: nat)
    requires i < |rows| && SameTicket(rows[i], t) && j < |rows|
    requires Held(t.status) ==> Held(rows[i].status) || Childless(rows, t.id)
    requires IsDraft(rows[i := t], rows[i := t][j])
    ensures IsDraft(rows, rows[j])
  {
    var after := rows[i := t];
    SameTreeFinds(rows, after, rows[j].parent);
    assert rows[j] in rows;
  }

  lemma RewriteKeepsSound(tab: Table, i: nat, t: Ticket)
    requires Sound(tab) && i < |tab.tickets| && SameTicket(tab.tickets[i], t)
    requires !t.status.Other?
    requires Held(t.status) ==>
               t.parent == "" && t.runs != [] && (Held(tab.tickets[i].status) || Childless(tab.tickets, t.id))
    requires IsDraft(tab.tickets, tab.tickets[i]) ==> t.status == Open && t.runs == []
    requires t.status == Running && Childless(tab.tickets, t.id) ==> t.runs != []
    ensures Sound(tab.(tickets := tab.tickets[i := t]))
  {
    var rows := tab.tickets;
    var after := rows[i := t];
    forall j | 0 <= j < |after| ensures HarmlessRow(rows, after, j) {
      if IsDraft(after, after[j]) {
        RewriteMakesNoDrafts(rows, i, t, j);
      }
    }
    HarmlessKeepsSound(tab, after);
  }

  /** A rewritten row can unsettle only itself and its parent. */
  lemma RewriteUnsettles(rows: seq<Ticket>, i: nat, t: Ticket, loose: set<string>)
    requires UniqueIds(rows) && i < |rows| && SettledExcept(rows, loose)
    requires rows[i].id == t.id && rows[i].parent == t.parent
    ensures SettledExcept(rows[i := t], loose + {t.id, t.parent})
  {
    var after := rows[i := t];
    forall j | 0 <= j < |after| && after[j].id !in loose + {t.id, t.parent} ensures Follows(after, after[j]) {
      assert j != i && Follows(rows, rows[j]);
      SameKidsBesides(rows, i, t, rows[j].id);
      SameKidsFollow(rows, after, rows[j].id);
    }
  }

  lemma OwnKidsBesides(tab: Table, i: nat, t: Ticket)
    requires Sound(tab) && i < |tab.tickets| && SameTicket(tab.tickets[i], t) && t.parent == ""
    ensures Derived(Subtickets(tab.tickets[i := t], t.id)) == Derived(Subtickets(tab.tickets, t.id))
  {
    HasId(tab, i);
    SameKidsBesides(tab.tickets, i, t, t.id);
    SameKidsFollow(tab.tickets, tab.tickets[i := t], t.id);
  }

  function Rederived(rows: seq<Ticket>, i: nat): Ticket
    requires i < |rows|
  {
    rows[i].(status := Derived(Subtickets(rows, rows[i].id)))
  }

  lemma DerivedRange(kids: seq<Ticket>)
    ensures !Held(Derived(kids)) && !Derived(kids).Other?
  {
  }

  lemma ParentRestatusSound(tab: Table, i: nat, s: Status)
    requires Sound(tab) && i < |tab.tickets| && !Held(s) && !s.Other?
    requires !Childless(tab.tickets, tab.tickets[i].id)
    ensures Sound(tab.(tickets := tab.tickets[i := tab.tickets[i].(status := s)]))
  {
    ParentIsTop(tab, i);
    NoEmptyId(tab);
    RewriteKeepsSound(tab, i, tab.tickets[i].(status := s));
  }

  lemma RederivedSound(tab: Table, i: nat)
    requires Sound(tab) && i < |tab.tickets| && !Childless(tab.tickets, tab.tickets[i].id)
    ensures Sound(tab.(tickets := tab.tickets[i := Rederived(tab.tickets, i)]))
  {
    var kids := Subtickets(tab.tickets, tab.tickets[i].id);
    DerivedRange(kids);
    ParentRestatusSound(tab, i, Derived(kids));
  }

  lemma NonEmptyIds(tab: Table)
    requires Minted(tab)
    ensures forall j :: 0 <= j < |tab.tickets| ==> tab.tickets[j].id != ""
  {
    forall j | 0 <= j < |tab.tickets| ensures tab.tickets[j].id != "" {
      HasId(tab, j);
    }
  }

  /** Writing a parent's own derived status disturbs nothing else. */
  lemma RederivedSettled(tab: Table, i: nat, loose: set<string>)
    requires Sound(tab) && i < |tab.tickets| && SettledExcept(tab.tickets, loose)
    requires !Childless(tab.tickets, tab.tickets[i].id)
    ensures SettledExcept(tab.tickets[i := Rederived(tab.tickets, i)], loose - {tab.tickets[i].id})
  {
    var t := Rederived(tab.tickets, i);
    ParentIsTop(tab, i);
    OwnKidsBesides(tab, i, t);
    NonEmptyIds(tab);
    WrittenParentFollows(tab.tickets, i, t, loose);
  }

  lemma WrittenParentFollows(rows: seq<Ticket>, i: nat, t: Ticket, loose: set<string>)
    requires UniqueIds(rows) && i < |rows| && SameTicket(rows[i], t) && t.parent == ""
    requires forall j :: 0 <= j < |rows| ==> rows[j].id != ""
    requires SettledExcept(rows, loose) && Follows(rows[i := t], t)
    ensures SettledExcept(rows[i := t], loose - {t.id})
  {
    var after := rows[i := t];
    RewriteUnsettles(rows, i, t, loose);
    forall j | 0 <= j < |after| && after[j].id !in loose - {t.id} ensures Follows(after, after[j]) {
      if j != i {
        assert rows[j].id != "";
        assert after[j].id !in loose + {t.id, t.parent};
      }
    }
  }

  lemma NothingToSettle(rows: seq<Ticket>, p: string, loose: set<string>)
    requires UniqueIds(rows) && SettledExcept(rows, loose)
    requires var i := FindTicket(rows, p); i < 0 || Childless(rows, p) || Held(rows[i].status)
    ensures SettledExcept(rows, loose - {p})
  {
    forall j | 0 <= j < |rows| && rows[j].id !in loose - {p} ensures Follows(rows, rows[j]) {
      if rows[j].id == p {
        FindUnique(rows, j);
      }
    }
  }

  lemma SettleOneIs(rows: seq<Ticket>, id: string)
    ensures var p := SettledBy(rows, id);
            var i := FindTicket(rows, p);
            SettleOne(rows, id) ==
            if i < 0 || Childless(rows, p) || Held(rows[i].status) then rows else rows[i := Rederived(rows, i)]
    ensures SameShape(rows, SettleOne(rows, id))
  {
    NoKids(rows, SettledBy(rows, id));
  }

  lemma SettleOneStep(tab: Table, id: string, loose: set<string>)
    requires Sound(tab) && SettledExcept(tab.tickets, loose)
    ensures Sound(tab.(tickets := SettleOne(tab.tickets, id)))
    ensures SettledExcept(SettleOne(tab.tickets, id), loose - {SettledBy(tab.tickets, id)})
  {
    var p := SettledBy(tab.tickets, id);
    var i := FindTicket(tab.tickets, p);
    SettleOneIs(tab.tickets, id);
    if i < 0 || Childless(tab.tickets, p) || Held(tab.tickets[i].status) {
      NothingToSettle(tab.tickets, p, loose);
      assert tab.(tickets := tab.tickets) == tab;
    } else {
      RederivedSound(tab, i);
      RederivedSettled(tab, i, loose);
    }
  }

  lemma SameShapeSettledBy(a: seq<Ticket>, b: seq<Ticket>, id: string)
    requires SameShape(a, b)
    ensures SettledBy(a, id) == SettledBy(b, id)
  {
    SameTreeFinds(a, b, id);
  }

  ghost function Decided(rows: seq<Ticket>, touched: seq<string>): set<string> {
    set id | id in touched :: SettledBy(rows, id)
  }

  lemma DecidedGrows(rows: seq<Ticket>, touched: seq<string>, loose: set<string>)
    requires touched != []
    ensures loose - Decided(rows, touched[..|touched| - 1]) - {SettledBy(rows, touched[|touched| - 1])}
            == loose - Decided(rows, touched)
  {
    var init, last := touched[..|touched| - 1], touched[|touched| - 1];
    assert touched == init + [last];
    assert Decided(rows, touched) == Decided(rows, init) + {SettledBy(rows, last)};
  }

  /** One pass over the touched tickets settles every parent that any of them decides. */
  lemma {:induction false} SettlePass(tab: Table, touched: seq<string>, loose: set<string>)
    requires Sound(tab) && SettledExcept(tab.tickets, loose)
    ensures var after := Settled(tab.tickets, touched);
            && Sound(tab.(tickets := after)) && SameShape(tab.tickets, after)
            && SettledExcept(after, loose - Decided(tab.tickets, touched))
  {
    if touched != [] {
      var init, last := touched[..|touched| - 1], touched[|touched| - 1];
      SettlePass(tab, init, loose);
      var mid := Settled(tab.tickets, init);
      var left := loose - Decided(tab.tickets, init);
      SettleOneStep(tab.(tickets := mid), last, left);
      SettleOneIs(mid, last);
      SameShapeSettledBy(tab.tickets, mid, last);
      DecidedGrows(tab.tickets, touched, loose);
    } else {
      assert loose - Decided(tab.tickets, touched) == loose;
    }
  }

  /** A sound change that reports every ticket whose parent it may have unsettled. */
  ghost predicate GoodChange(c: Change)
    requires c.Touch?
  {
    Sound(c.table) && SettledExcept(c.table.tickets, Decided(c.table.tickets, c.touched))
  }

  /** What a change must be for its commit to keep the invariant. */
  ghost predicate Keeps(c: Change) {
    c.Touch? && c.touched != [] ==> GoodChange(c)
  }

  lemma CommitKeepsInvariant(tab: Table, c: Change, saved: bool)
    requires Invariant(tab) && Keeps(c)
    ensures Invariant(Committed(tab, c, saved))
  {
    if c.Touch? && c.touched != [] && saved {
      var decided := Decided(c.table.tickets, c.touched);
      SettlePass(c.table, c.touched, decided);
      assert decided - decided == {};
    }
  }
}
