/** Deleting tickets and approving or rejecting a plan keep the invariant. */
module TicketDrops {
  import opened TicketRules
  import opened TicketTable
  import opened TicketInvariants
  import opened TicketSteps
  import opened TicketLinks
  import opened WaitGraph

  /** after holds exactly the tickets of rows whose id is not gone, and none of them
      hangs under or waits for a gone one. */
  ghost predicate Dropped(rows: seq<Ticket>, after: seq<Ticket>, gone: set<string>) {
    && UniqueIds(after)
    && (forall t :: t in after <==> t in rows && t.id !in gone)
    && (forall t :: t in after ==> t.parent !in gone && forall d :: d in t.dependsOn ==> d !in gone)
  }

  lemma DroppedFinds(rows: seq<Ticket>, after: seq<Ticket>, gone: set<string>, id: string)
    requires UniqueIds(rows) && Dropped(rows, after, gone)
    ensures FindTicket(after, id) >= 0 <==> FindTicket(rows, id) >= 0 && id !in gone
    ensures FindTicket(after, id) >= 0 ==> after[FindTicket(after, id)] == rows[FindTicket(rows, id)]
  {
    var i, j := FindTicket(rows, id), FindTicket(after, id);
    if j >= 0 {
      assert after[j] in after;
      var k :| 0 <= k < |rows| && rows[k] == after[j];
      FindUnique(rows, k);
    }
    if i >= 0 && id !in gone {
      assert rows[i] in rows;
      assert rows[i] in after;
    }
  }

  lemma DroppedWait(rows: seq<Ticket>, after: seq<Ticket>, gone: set<string>, a: string, b: string)
    requires UniqueIds(rows) && Dropped(rows, after, gone) && Waits(after, a, b)
    ensures Waits(rows, a, b)
  {
    DroppedFinds(rows, after, gone, a);
    DroppedFinds(rows, after, gone, after[FindTicket(after, a)].parent);
    if HasKid(after, a, b) {
      var n :| 0 <= n < |after| && after[n].parent == a && after[n].id == b;
      assert after[n] in after;
      var k :| 0 <= k < |rows| && rows[k] == after[n];
      assert rows[k].parent == a && rows[k].id == b;
    } else if OwnWait(after, a, b) {
      assert OwnWait(rows, a, b);
    } else {
      assert OwnWait(rows, rows[FindTicket(rows, a)].parent, b);
    }
  }

  lemma DroppedAcyclic(rows: seq<Ticket>, after: seq<Ticket>, gone: set<string>)
    requires UniqueIds(rows) && Dropped(rows, after, gone) && Acyclic(rows)
    ensures Acyclic(after)
  {
    forall a, b ensures EdgeFrom(after, rows, {}, {}, a, b) {
      if b in Edges(after, a) {
        EdgeIsWait(after, a, b);
        DroppedWait(rows, after, gone, a, b);
        EdgeIsWait(rows, a, b);
      }
    }
    FewerWaitsKeepAcyclic(after, rows);
  }

  lemma DroppedRow(rows: seq<Ticket>, after: seq<Ticket>, gone: set<string>, j: nat) returns (k: nat)
    requires UniqueIds(rows) && Dropped(rows, after, gone) && j < |after|
    ensures k < |rows| && rows[k] == after[j]
    ensures IsDraft(after, after[j]) == IsDraft(rows, rows[k])
  {
    assert after[j] in after;
    k :| 0 <= k < |rows| && rows[k] == after[j];
    DroppedFinds(rows, after, gone, after[j].parent);
  }

  lemma DroppedReferences(tab: Table, after: seq<Ticket>, gone: set<string>)
    requires Shaped(tab) && Dropped(tab.tickets, after, gone)
    ensures Minted(tab.(tickets := after)) && TwoLevels(after) && DependenciesExist(after)
  {
    forall j | 0 <= j < |after|
      ensures MintedBy(after[j].id, tab.next)
      ensures after[j].parent != "" ==>
                FindTicket(after, after[j].parent) >= 0 && after[FindTicket(after, after[j].parent)].parent == ""
      ensures forall d :: d in after[j].dependsOn ==> FindTicket(after, d) >= 0
    {
      var k := DroppedRow(tab.tickets, after, gone, j);
      assert MintedBy(tab.tickets[k].id, tab.next);
      assert after[j] in after;
      DroppedFinds(tab.tickets, after, gone, after[j].parent);
      forall d | d in after[j].dependsOn ensures FindTicket(after, d) >= 0 {
        assert FindTicket(tab.tickets, d) >= 0;
        DroppedFinds(tab.tickets, after, gone, d);
      }
    }
  }

  lemma DroppedPrivate(rows: seq<Ticket>, after: seq<Ticket>, gone: set<string>)
    requires UniqueIds(rows) && Dropped(rows, after, gone) && DraftsPrivate(rows)
    ensures DraftsPrivate(after)
  {
    forall j, d | 0 <= j < |after| && d in after[j].dependsOn && FindTicket(after, d) >= 0
                  && IsDraft(after, after[FindTicket(after, d)])
      ensures after[FindTicket(after, d)].parent == after[j].parent
    {
      var k := DroppedRow(rows, after, gone, j);
      DroppedFinds(rows, after, gone, d);
      var m := DroppedRow(rows, after, gone, FindTicket(after, d));
      FindUnique(rows, m);
      assert d in rows[k].dependsOn;
    }
  }

  /** A ticket that loses its last subticket was not following a running one. */
  ghost predicate NotLeftRunning(rows: seq<Ticket>, after: seq<Ticket>) {
    forall t :: t in after && Childless(after, t.id) && !Childless(rows, t.id) ==> t.status != Running
  }

  lemma DroppedLifecycle(rows: seq<Ticket>, after: seq<Ticket>, gone: set<string>)
    requires UniqueIds(rows) && Dropped(rows, after, gone) && Lifecycle(rows) && NotLeftRunning(rows, after)
    ensures Lifecycle(after)
  {
    DroppedPrivate(rows, after, gone);
    forall j | 0 <= j < |after|
      ensures !after[j].status.Other?
      ensures IsDraft(after, after[j]) ==> after[j].status == Open && after[j].runs == []
      ensures Held(after[j].status) ==> after[j].parent == "" && after[j].runs != []
      ensures after[j].status == Running && Childless(after, after[j].id) ==> after[j].runs != []
    {
      var k := DroppedRow(rows, after, gone, j);
      assert after[j] in after;
    }
  }

  lemma DroppedSound(tab: Table, after: seq<Ticket>, gone: set<string>)
    requires Sound(tab) && Dropped(tab.tickets, after, gone) && NotLeftRunning(tab.tickets, after)
    ensures Sound(tab.(tickets := after))
  {
    DroppedReferences(tab, after, gone);
    DroppedAcyclic(tab.tickets, after, gone);
    DroppedLifecycle(tab.tickets, after, gone);
  }

  /** Dropping tickets unsettles at most their parents. */
  lemma DroppedSettled(rows: seq<Ticket>, after: seq<Ticket>, gone: set<string>, parents: set<string>)
    requires UniqueIds(rows) && Dropped(rows, after, gone) && SettledExcept(rows, {})
    requires forall t :: t in rows && t.id in gone ==> t.parent in parents
    ensures SettledExcept(after, parents)
  {
    forall j | 0 <= j < |after| && after[j].id !in parents ensures Follows(after, after[j]) {
      var k := DroppedRow(rows, after, gone, j);
      assert Follows(rows, rows[k]);
      assert SameKids(rows, after, rows[k].id);
      SameKidsFollow(rows, after, rows[k].id);
    }
  }

  // ----- Delete

  function Without(rows: seq<Ticket>, i: nat): seq<Ticket>
    requires i < |rows|
  {
    rows[..i] + rows[i + 1..]
  }

  lemma WithoutMembers(rows: seq<Ticket>, i: nat, t: Ticket)
    requires UniqueIds(rows) && i < |rows|
    ensures t in Without(rows, i) <==> t in rows && t.id != rows[i].id
  {
    var after := Without(rows, i);
    if t in rows && t.id != rows[i].id {
      var k :| 0 <= k < |rows| && rows[k] == t;
      assert after[if k < i then k else k - 1] == t;
    }
    if t in after {
      var k :| 0 <= k < |after| && after[k] == t;
      assert t == rows[if k < i then k else k + 1];
    }
  }

  lemma WithoutUnique(rows: seq<Ticket>, i: nat)
    requires UniqueIds(rows) && i < |rows|
    ensures UniqueIds(Without(rows, i))
  {
    var after := Without(rows, i);
    forall j, k | 0 <= j < k < |after| ensures after[j].id != after[k].id {
      assert after[j] == rows[if j < i then j else j + 1];
      assert after[k] == rows[if k < i then k else k + 1];
    }
  }

  lemma RemovedIsDropped(rows: seq<Ticket>, i: nat)
    requires UniqueIds(rows) && i < |rows|
    requires Childless(rows, rows[i].id) && !IsAwaited(rows, rows[i].id)
    ensures Dropped(rows, Without(rows, i), {rows[i].id})
  {
    var after := Without(rows, i);
    forall t ensures t in after <==> t in rows && t.id != rows[i].id {
      WithoutMembers(rows, i, t);
    }
    WithoutUnique(rows, i);
    forall t | t in after ensures t.parent != rows[i].id && rows[i].id !in t.dependsOn {
      assert t in rows;
    }
  }

  /** If t's only subticket is the deleted one, t's status was that subticket's. */
  lemma LastKidDecides(rows: seq<Ticket>, i: nat, after: seq<Ticket>, t: Ticket)
    requires UniqueIds(rows) && i < |rows| && rows[i].status != Running
    requires Dropped(rows, after, {rows[i].id}) && Childless(after, t.id)
    requires t.status == Derived(Subtickets(rows, t.id))
    ensures t.status != Running
  {
    var kids := Subtickets(rows, t.id);
    forall s | s in kids ensures s == rows[i] {
      OnlyGoneKid(rows, i, after, t.id, s);
    }
    assert !SomeKid(kids, Running);
  }

  lemma OnlyGoneKid(rows: seq<Ticket>, i: nat, after: seq<Ticket>, id: string, s: Ticket)
    requires UniqueIds(rows) && i < |rows| && Dropped(rows, after, {rows[i].id}) && Childless(after, id)
    requires s in Subtickets(rows, id)
    ensures s == rows[i]
  {
    assert s in rows && s.parent == id;
    assert s !in after;
    var n :| 0 <= n < |rows| && rows[n] == s;
  }

  lemma LastKidNotRunning(rows: seq<Ticket>, i: nat, after: seq<Ticket>)
    requires UniqueIds(rows) && SettledExcept(rows, {}) && i < |rows| && rows[i].status != Running
    requires Dropped(rows, after, {rows[i].id})
    ensures NotLeftRunning(rows, after)
  {
    forall t | t in after && Childless(after, t.id) && !Childless(rows, t.id) ensures t.status != Running {
      assert t in rows;
      var k :| 0 <= k < |rows| && rows[k] == t;
      assert Follows(rows, rows[k]);
      if !Held(t.status) {
        LastKidDecides(rows, i, after, t);
      }
    }
  }

  lemma RemovedGood(tab: Table, i: nat, c: Change)
    requires Invariant(tab) && i < |tab.tickets| && tab.tickets[i].status != Running
    requires Childless(tab.tickets, tab.tickets[i].id) && !IsAwaited(tab.tickets, tab.tickets[i].id)
    requires var tk := tab.tickets[i];
             c == Touch(tab.(tickets := Without(tab.tickets, i)),
                        if tk.parent != "" then [tk.id, tk.parent] else [tk.id])
    ensures GoodChange(c)
  {
    var rows, tk, after := tab.tickets, tab.tickets[i], Without(tab.tickets, i);
    RemovedIsDropped(rows, i);
    LastKidNotRunning(rows, i, after);
    DroppedSound(tab, after, {tk.id});
    forall t | t in rows && t.id in {tk.id} ensures t.parent in {tk.parent} {
      var k :| 0 <= k < |rows| && rows[k] == t;
    }
    DroppedSettled(rows, after, {tk.id}, {tk.parent});
    RemovedDecides(tab, i, c);
  }

  lemma RemoveGood(tab: Table, id: string, run: string)
    requires Invariant(tab)
    ensures Keeps(RemoveChange(tab, id, run))
  {
    var c := RemoveChange(tab, id, run);
    if c.Touch? {
      var i := FindTicket(tab.tickets, id);
      NoKids(tab.tickets, id);
      assert Without(tab.tickets, i) == tab.tickets[..i] + tab.tickets[i + 1..];
      RemovedGood(tab, i, c);
    }
  }

  lemma RemovedDecides(tab: Table, i: nat, c: Change)
    requires Sound(tab) && i < |tab.tickets| && c.Touch? && Sound(c.table)
    requires var tk := tab.tickets[i];
             c.touched == (if tk.parent != "" then [tk.id, tk.parent] else [tk.id])
             && SettledExcept(c.table.tickets, {tk.parent})
    ensures SettledExcept(c.table.tickets, Decided(c.table.tickets, c.touched))
  {
    var p := tab.tickets[i].parent;
    NonEmptyIds(c.table);
    if p == "" {
      NoneNamed(c.table.tickets, p, Decided(c.table.tickets, c.touched));
    } else {
      assert c.touched[1] == p && p in c.touched;
      ParentDecided(c.table, p, c.touched);
    }
  }

  lemma NoneNamed(rows: seq<Ticket>, p: string, decided: set<string>)
    requires SettledExcept(rows, {p}) && forall j :: 0 <= j < |rows| ==> rows[j].id != p
    ensures SettledExcept(rows, decided)
  {
  }

  lemma ParentDecided(tab: Table, p: string, touched: seq<string>)
    requires Sound(tab) && p in touched && SettledExcept(tab.tickets, {p})
    ensures SettledExcept(tab.tickets, Decided(tab.tickets, touched))
  {
    var rows := tab.tickets;
    var decided := Decided(rows, touched);
    assert SettledBy(rows, p) in decided;
    forall j | 0 <= j < |rows| && rows[j].id !in decided ensures Follows(rows, rows[j]) {
      if rows[j].id == p {
        FindUnique(rows, j);
        assert rows[j].parent != "";
        if !Childless(rows, p) {
          ParentIsTop(tab, j);
        }
      }
    }
  }

  // ----- Approve

  /** The table an approval leaves: every subticket ready, the parent following them. */
  function Approved(rows: seq<Ticket>, id: string, i: nat): seq<Ticket>
    requires i < |rows|
  {
    ReadyKids(rows, id)[i := Rederived(ReadyKids(rows, id), i)]
  }

  lemma ApprovedHarmless(tab: Table, i: nat)
    requires Sound(tab) && i < |tab.tickets| && tab.tickets[i].status == Review
    requires !Childless(tab.tickets, tab.tickets[i].id)
    ensures Harmless(tab.tickets, Approved(tab.tickets, tab.tickets[i].id, i))
  {
    var rows, id := tab.tickets, tab.tickets[i].id;
    FindUnique(rows, i);
    NonEmptyIds(tab);
    DerivedRange(Subtickets(ReadyKids(rows, id), id));
    ReadyHarmless(rows, i, Derived(Subtickets(ReadyKids(rows, id), id)));
  }

  lemma ReadyHarmless(rows: seq<Ticket>, i: nat, s: Status)
    requires Lifecycle(rows) && i < |rows| && FindTicket(rows, rows[i].id) == i && rows[i].status == Review
    requires rows[i].id != "" && !Childless(rows, rows[i].id) && !Held(s) && !s.Other?
    ensures Harmless(rows, ReadyKids(rows, rows[i].id)[i := ReadyKids(rows, rows[i].id)[i].(status := s)])
  {
    var id := rows[i].id;
    var after := ReadyKids(rows, id)[i := ReadyKids(rows, id)[i].(status := s)];
    forall j | 0 <= j < |after| ensures HarmlessRow(rows, after, j) {
      ReadyDrafts(rows, after, i, j);
    }
  }

  lemma ReadyDrafts(rows: seq<Ticket>, after: seq<Ticket>, i: nat, j: nat)
    requires i < |rows| && j < |rows| && FindTicket(rows, rows[i].id) == i && SameTree(rows, after)
    requires !Held(after[i].status) && forall k :: 0 <= k < |rows| && k != i && Held(after[k].status) ==> after[k].status == rows[k].status
    ensures rows[j].parent == rows[i].id ==> !IsDraft(after, after[j])
    ensures IsDraft(after, after[j]) ==> IsDraft(rows, rows[j])
  {
    SameTreeFinds(rows, after, after[j].parent);
  }

  lemma ApprovedKids(rows: seq<Ticket>, i: nat, p: string)
    requires i < |rows| && p != rows[i].id && p != rows[i].parent
    ensures SameKids(rows, Approved(rows, rows[i].id, i), p)
  {
    var after := Approved(rows, rows[i].id, i);
    forall t: Ticket | t.parent == p ensures t in rows <==> t in after {
      if t in rows {
        var n :| 0 <= n < |rows| && rows[n] == t;
        assert after[n] == t;
      }
      if t in after {
        var n :| 0 <= n < |after| && after[n] == t;
        assert rows[n] == t;
      }
    }
  }

  lemma ApprovedSettled(tab: Table, i: nat)
    requires Invariant(tab) && i < |tab.tickets| && tab.tickets[i].status == Review
    ensures SettledExcept(Approved(tab.tickets, tab.tickets[i].id, i), {tab.tickets[i].id})
  {
    var rows, id := tab.tickets, tab.tickets[i].id;
    var after := Approved(rows, id, i);
    NonEmptyIds(tab);
    forall j | 0 <= j < |after| && after[j].id !in {id} ensures Follows(after, after[j]) {
      ApprovedRow(tab, i, j);
    }
  }

  lemma ApprovedTree(rows: seq<Ticket>, i: nat)
    requires i < |rows|
    ensures SameTree(rows, Approved(rows, rows[i].id, i))
  {
  }

  lemma ApprovedRow(tab: Table, i: nat, j: nat)
    requires Invariant(tab) && i < |tab.tickets| && j < |tab.tickets| && tab.tickets[j].id != tab.tickets[i].id
    requires tab.tickets[i].status == Review && tab.tickets[i].id != ""
    ensures var after := Approved(tab.tickets, tab.tickets[i].id, i); Follows(after, after[j])
  {
    var rows, id := tab.tickets, tab.tickets[i].id;
    var after := Approved(rows, id, i);
    if rows[j].parent == id {
      ApprovedTree(rows, i);
      KidHasNoKids(tab, j);
      SameTreeFinds(rows, after, rows[j].id);
    } else {
      ApprovedOther(tab, i, j);
    }
  }

  lemma ApprovedOther(tab: Table, i: nat, j: nat)
    requires Invariant(tab) && i < |tab.tickets| && j < |tab.tickets| && tab.tickets[j].id != tab.tickets[i].id
    requires tab.tickets[i].status == Review && tab.tickets[i].id != "" && tab.tickets[j].parent != tab.tickets[i].id
    ensures var after := Approved(tab.tickets, tab.tickets[i].id, i); Follows(after, after[j])
  {
    var rows, after := tab.tickets, Approved(tab.tickets, tab.tickets[i].id, i);
    assert Follows(rows, rows[j]) && after[j] == rows[j];
    assert rows[i].parent != rows[j].id;
    ApprovedKids(rows, i, rows[j].id);
    SameKidsFollow(rows, after, rows[j].id);
  }

  lemma KidHasNoKids(tab: Table, j: nat)
    requires Sound(tab) && j < |tab.tickets| && tab.tickets[j].parent != ""
    ensures Childless(tab.tickets, tab.tickets[j].id)
  {
    if !Childless(tab.tickets, tab.tickets[j].id) {
      ParentIsTop(tab, j);
    }
  }

  lemma ApproveGood(tab: Table, id: string)
    requires Invariant(tab)
    ensures Keeps(ApproveChange(tab, id))
  {
    var c := ApproveChange(tab, id);
    if c.Touch? {
      var i := FindTicket(tab.tickets, id);
      var after := Approved(tab.tickets, id, i);
      assert c.table == tab.(tickets := after);
      NoKids(tab.tickets, id);
      ApprovedHarmless(tab, i);
      HarmlessKeepsSound(tab, after);
      ApprovedSettled(tab, i);
      SameTreeFinds(tab.tickets, after, id);
      assert SettledBy(after, id) == id && id in c.touched;
      SettledMonotone(after, {id}, Decided(after, c.touched));
    }
  }

  // ----- Reject

  lemma WithoutKidsOrder(rows: seq<Ticket>, id: string)
    requires UniqueIds(rows)
    ensures UniqueIds(WithoutKids(rows, id))
  {
    if rows != [] {
      var init := rows[..|rows| - 1];
      assert UniqueIds(init);
      WithoutKidsOrder(init, id);
      var kept := WithoutKids(init, id);
      forall k | 0 <= k < |kept| ensures kept[k].id != rows[|rows| - 1].id {
        assert kept[k] in init;
      }
    }
  }

  ghost function KidIdSet(rows: seq<Ticket>, id: string): set<string> {
    set t | t in rows && t.parent == id :: t.id
  }

  /** Dropping a whole plan strands no dependency: only its own drafts could wait for a draft. */
  lemma RejectedIsDropped(tab: Table, i: nat)
    requires Sound(tab) && i < |tab.tickets| && tab.tickets[i].status == Review
    ensures Dropped(tab.tickets, WithoutKids(tab.tickets, tab.tickets[i].id), KidIdSet(tab.tickets, tab.tickets[i].id))
  {
    var rows, id := tab.tickets, tab.tickets[i].id;
    var after, gone := WithoutKids(rows, id), KidIdSet(rows, id);
    WithoutKidsOrder(rows, id);
    FindUnique(rows, i);
    NonEmptyIds(tab);
    forall t ensures t in after <==> t in rows && t.id !in gone {
      if t in rows && t.id in gone {
        SameIdSameTicket(rows, t, id);
      }
    }
    forall t | t in after ensures t.parent !in gone && forall d :: d in t.dependsOn ==> d !in gone {
      RejectedStrandsNoKid(rows, id, t);
      forall d | d in t.dependsOn ensures d !in gone {
        RejectedStrandsNoWait(rows, i, t, d);
      }
    }
  }

  lemma SameIdSameTicket(rows: seq<Ticket>, t: Ticket, id: string)
    requires UniqueIds(rows) && t in rows && t.id in KidIdSet(rows, id)
    ensures t.parent == id
  {
    var u :| u in rows && u.parent == id && u.id == t.id;
    var j :| 0 <= j < |rows| && rows[j] == t;
    var k :| 0 <= k < |rows| && rows[k] == u;
    assert j == k;
  }

  lemma KidInSet(rows: seq<Ticket>, id: string, k: string) returns (n: nat)
    requires k in KidIdSet(rows, id)
    ensures n < |rows| && rows[n].id == k && rows[n].parent == id
  {
    var u :| u in rows && u.parent == id && u.id == k;
    n :| 0 <= n < |rows| && rows[n] == u;
  }

  lemma RejectedStrandsNoKid(rows: seq<Ticket>, id: string, t: Ticket)
    requires UniqueIds(rows) && TwoLevels(rows) && id != "" && t in rows
    requires forall j :: 0 <= j < |rows| ==> rows[j].id != ""
    ensures t.parent !in KidIdSet(rows, id)
  {
    var k :| 0 <= k < |rows| && rows[k] == t;
    if t.parent in KidIdSet(rows, id) {
      var n := KidInSet(rows, id, t.parent);
      FindUnique(rows, n);
    }
  }

  lemma RejectedStrandsNoWait(rows: seq<Ticket>, i: nat, t: Ticket, d: string)
    requires UniqueIds(rows) && DraftsPrivate(rows) && i < |rows| && rows[i].status == Review
    requires t in rows && t.parent != rows[i].id && d in t.dependsOn
    ensures d !in KidIdSet(rows, rows[i].id)
  {
    FindUnique(rows, i);
    var k :| 0 <= k < |rows| && rows[k] == t;
    assert d in rows[k].dependsOn;
    if d in KidIdSet(rows, rows[i].id) {
      var n := KidInSet(rows, rows[i].id, d);
      FindUnique(rows, n);
    }
  }

  lemma RejectedNotLeftRunning(tab: Table, i: nat)
    requires Sound(tab) && i < |tab.tickets| && tab.tickets[i].status == Review
    ensures NotLeftRunning(tab.tickets, WithoutKids(tab.tickets, tab.tickets[i].id))
  {
    var rows, id := tab.tickets, tab.tickets[i].id;
    var after := WithoutKids(rows, id);
    forall t | t in after && Childless(after, t.id) && !Childless(rows, t.id) ensures t.status != Running {
      var k :| k in rows && k.parent == t.id;
      assert k !in after;
      assert t.id == id && t in rows;
      var n :| 0 <= n < |rows| && rows[n] == t;
    }
  }

  lemma RejectGood(tab: Table, id: string, reason: string)
    requires Invariant(tab)
    ensures Keeps(RejectChange(tab, id, reason))
  {
    var c := RejectChange(tab, id, reason);
    if c.Touch? {
      var rows, i := tab.tickets, FindTicket(tab.tickets, id);
      var gone, after := KidIdSet(rows, id), WithoutKids(rows, id);
      RejectedIsDropped(tab, i);
      RejectedNotLeftRunning(tab, i);
      DroppedSound(tab, after, gone);
      forall t | t in rows && t.id in gone ensures t.parent in {id} {
        SameIdSameTicket(rows, t, id);
      }
      DroppedSettled(rows, after, gone, {id});
      RejectedReopens(tab.(tickets := after), FindTicket(after, id), c);
    }
  }

  lemma RejectedReopens(tab: Table, k: nat, c: Change)
    requires Sound(tab) && k < |tab.tickets| && Held(tab.tickets[k].status)
    requires SettledExcept(tab.tickets, {tab.tickets[k].id})
    requires c.Touch? && c.touched != [] && c.touched[0] == tab.tickets[k].id
    requires c.table == tab.(tickets := tab.tickets[k := tab.tickets[k].(status := Open)])
    ensures GoodChange(c)
  {
    var t := tab.tickets[k].(status := Open);
    var after := c.table.tickets;
    NoEmptyId(tab);
    RewriteKeepsSound(tab, k, t);
    RewriteUnsettles(tab.tickets, k, t, {t.id});
    OneTouched(c.table, k, {t.id, t.parent});
  }
}
