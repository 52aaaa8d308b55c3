/** The saved table of runs and the counter their ids come from. The counter is not saved
    itself: it is read back out of the ids, with a tombstone row standing for the last id when
    no row carries it any more. */
module RunTable {
  import opened Text

  const PREFIX := "RUN-"

  datatype Status = Open | Closed | Removed

  datatype Row = Row(id: string, status: Status)

  datatype Table = Table(byId: map<string, Status>, order: seq<string>, next: nat)

  const EmptyTable := Table(map[], [], 0)

  function RunId(n: nat): string {
    Numbered(PREFIX, n)
  }

  /** The counter in an id; any other text counts as zero. */
  function RunNumber(id: string): nat {
    match Atoi(TrimPrefix(id, PREFIX))
    case None => 0
    case Some(n) => if n < 0 then 0 else n
  }

  lemma RunNumberOf(n: nat)
    ensures RunNumber(RunId(n)) == n && RunId(n) != ""
  {
    NumberedInjective(PREFIX, n, n);
    AtoiItoa(n);
  }

  /** An id counts only when, without the prefix, it is a number and not a negative one. */
  lemma RunNumberMeans(id: string)
    ensures var text := TrimPrefix(id, PREFIX);
            && (RunNumber(id) > 0 ==> text != "" && Atoi(text).Some? && Atoi(text).value == RunNumber(id))
            && (text != "" && AllDigits(text) ==> RunNumber(id) == DigitsValue(text))
            && (text == "" || text[0] == '-' ==> RunNumber(id) == 0)
  {
  }

  // ----- Writing and loading

  function Rows(t: Table, ids: seq<string>): seq<Row> {
    if ids == [] then []
    else
      var last := ids[|ids| - 1];
      Rows(t, ids[..|ids| - 1]) + (if last in t.byId then [Row(last, t.byId[last])] else [])
  }

  function Written(t: Table): seq<Row> {
    Rows(t, t.order)
    + (if t.next > 0 && RunId(t.next) !in t.byId then [Row(RunId(t.next), Removed)] else [])
  }

  function LoadRow(t: Table, r: Row): Table {
    if r.id == "" || r.id in t.byId then t
    else
      var next := if RunNumber(r.id) > t.next then RunNumber(r.id) else t.next;
      if r.status == Removed then t.(next := next)
      else Table(t.byId[r.id := Closed], t.order + [r.id], next)
  }

  function Loaded(saved: seq<Row>): Table {
    if saved == [] then EmptyTable
    else LoadRow(Loaded(saved[..|saved| - 1]), saved[|saved| - 1])
  }

  ghost predicate MintedRun(id: string, next: nat) {
    exists n: nat :: 1 <= n <= next && id == RunId(n)
  }

  /** The list and the map hold the same ids, each handed out by the counter. */
  ghost predicate Consistent(t: Table) {
    && (forall id :: id in t.byId <==> id in t.order)
    && NoRepeats(t.order)
    && (forall id :: id in t.byId ==> MintedRun(id, t.next) && t.byId[id] != Removed)
  }

  /** What is left of a table after a restart: the same runs, all closed. */
  function AllClosed(t: Table): map<string, Status> {
    map id | id in t.byId :: Closed
  }

  lemma MintedNumber(id: string, next: nat)
    requires MintedRun(id, next)
    ensures id != "" && 1 <= RunNumber(id) <= next && id == RunId(RunNumber(id))
  {
    var n: nat :| 1 <= n <= next && id == RunId(n);
    RunNumberOf(n);
  }

  /** What loading the rows of ids makes, when the counter had reached last. */
  ghost predicate LoadedTo(l: Table, ids: seq<string>, last: nat) {
    && l.order == ids && l.next <= last
    && (forall id :: id in l.byId <==> id in ids)
    && (forall id :: id in l.byId ==> l.byId[id] == Closed && RunNumber(id) <= l.next)
  }

  lemma LoadOneMore(l: Table, ids: seq<string>, last: nat, r: Row)
    requires LoadedTo(l, ids, last) && r.id !in ids && MintedRun(r.id, last) && r.status != Removed
    ensures LoadedTo(LoadRow(l, r), ids + [r.id], last)
  {
    MintedNumber(r.id, last);
  }

  lemma RowsOneMore(t: Table, ids: seq<string>, id: string)
    requires id in t.byId
    ensures Rows(t, ids + [id]) == Rows(t, ids) + [Row(id, t.byId[id])]
  {
    assert (ids + [id])[..|ids|] == ids;
  }

  lemma LoadedOneMore(rows: seq<Row>, r: Row)
    ensures Loaded(rows + [r]) == LoadRow(Loaded(rows), r)
  {
    assert (rows + [r])[..|rows|] == rows;
  }

  lemma LoadNext(t: Table, k: nat)
    requires Consistent(t) && k < |t.order| && LoadedTo(Loaded(Rows(t, t.order[..k])), t.order[..k], t.next)
    ensures LoadedTo(Loaded(Rows(t, t.order[..k] + [t.order[k]])), t.order[..k] + [t.order[k]], t.next)
  {
    var ids, id := t.order[..k], t.order[k];
    assert id in t.order && id !in ids;
    RowsOneMore(t, ids, id);
    LoadedOneMore(Rows(t, ids), Row(id, t.byId[id]));
    LoadOneMore(Loaded(Rows(t, ids)), ids, t.next, Row(id, t.byId[id]));
  }

  lemma LoadNone(t: Table)
    ensures LoadedTo(Loaded(Rows(t, [])), [], t.next)
  {
  }

  lemma {:induction false} LoadRows(t: Table, k: nat)
    requires Consistent(t) && k <= |t.order|
    ensures LoadedTo(Loaded(Rows(t, t.order[..k])), t.order[..k], t.next)
  {
    if k == 0 {
      LoadNone(t);
      assert t.order[..k] == [];
    } else {
      LoadRows(t, k - 1);
      LoadNext(t, k - 1);
      assert t.order[..k] == t.order[..k - 1] + [t.order[k - 1]];
    }
  }

  lemma LoadedIs(t: Table, l: Table)
    requires Consistent(t) && LoadedTo(l, t.order, t.next)
    ensures l.order == t.order && l.byId == AllClosed(t) && l.next <= t.next
  {
  }

  lemma LoadRowsAll(t: Table)
    requires Consistent(t)
    ensures var l := Loaded(Rows(t, t.order));
            && l.order == t.order && l.byId == AllClosed(t) && l.next <= t.next
            && (t.next > 0 && RunId(t.next) in t.byId ==> l.next == t.next)
  {
    LoadRows(t, |t.order|);
    assert t.order[..|t.order|] == t.order;
    var l := Loaded(Rows(t, t.order));
    LoadedIs(t, l);
    if t.next > 0 && RunId(t.next) in t.byId {
      RunNumberOf(t.next);
      assert RunNumber(RunId(t.next)) <= l.next;
    }
  }

  /** Loading what was written gives back the same runs in the same order and, whichever runs
      were removed since, the same counter. */
  lemma LoadWritten(t: Table)
    requires Consistent(t)
    ensures Loaded(Written(t)) == Table(AllClosed(t), t.order, t.next)
  {
    var rows := Rows(t, t.order);
    var l := Loaded(rows);
    LoadRowsAll(t);
    if t.next > 0 && RunId(t.next) !in t.byId {
      RunNumberOf(t.next);
      var tombstone := Row(RunId(t.next), Removed);
      assert Written(t) == rows + [tombstone];
      LoadedOneMore(rows, tombstone);
    } else {
      assert Written(t) == rows;
    }
  }

  // ----- Loading rows nobody vouches for

  ghost predicate Listed(rows: seq<Row>, id: string) {
    exists k :: 0 <= k < |rows| && rows[k].id == id && rows[k].status != Removed
  }

  ghost predicate ListsEach(rows: seq<Row>, l: Table) {
    && NoRepeats(l.order) && (forall id :: id in l.order <==> id in l.byId)
    && (forall id :: id in l.byId <==> id != "" && Listed(rows, id)) && (forall id :: id in l.byId ==> l.byId[id] == Closed)
  }

  ghost predicate CountsAll(rows: seq<Row>, next: nat) {
    && (forall k :: 0 <= k < |rows| && rows[k].id != "" ==> RunNumber(rows[k].id) <= next)
    && (next == 0 || exists k :: 0 <= k < |rows| && rows[k].id != "" && RunNumber(rows[k].id) == next)
  }

  lemma LoadListsEach(rows: seq<Row>, r: Row, l: Table)
    requires ListsEach(rows, l)
    ensures ListsEach(rows + [r], LoadRow(l, r))
  {
    var all := rows + [r];
    forall id ensures Listed(all, id) <==> Listed(rows, id) || (r.id == id && r.status != Removed) {
      if Listed(rows, id) {
        var k :| 0 <= k < |rows| && rows[k].id == id && rows[k].status != Removed;
        assert all[k].id == id;
      }
      if r.id == id && r.status != Removed { assert all[|rows|].id == id; }
    }
  }

  lemma LoadCountsAll(rows: seq<Row>, r: Row, l: Table)
    requires ListsEach(rows, l) && CountsAll(rows, l.next)
    ensures CountsAll(rows + [r], LoadRow(l, r).next)
  {
    var all := rows + [r];
    if r.id in l.byId {
      var k :| 0 <= k < |rows| && rows[k].id == r.id && rows[k].status != Removed;
    }
    if l.next > 0 {
      var k :| 0 <= k < |rows| && rows[k].id != "" && RunNumber(rows[k].id) == l.next;
      assert all[k].id != "";
    }
    assert all[|rows|] == r;
  }

  /** Whatever rows a file holds: each named run with a row that is no tombstone is listed once, closed, in the order
      of those first rows, and the counter is the highest number in any row. */
  lemma {:induction false} LoadedMeans(rows: seq<Row>)
    ensures ListsEach(rows, Loaded(rows)) && CountsAll(rows, Loaded(rows).next)
    ensures forall k :: 0 <= k <= |rows| ==> Loaded(rows[..k]).order <= Loaded(rows).order
  {
    if rows == [] {
      assert forall k :: 0 <= k <= |rows| ==> rows[..k] == rows;
    } else {
      var init, r := rows[..|rows| - 1], rows[|rows| - 1];
      LoadedMeans(init);
      assert rows == init + [r];
      LoadListsEach(init, r, Loaded(init));
      LoadCountsAll(init, r, Loaded(init));
      forall k | 0 <= k <= |rows| ensures Loaded(rows[..k]).order <= Loaded(rows).order {
        assert if k == |rows| then rows[..k] == rows else rows[..k] == init[..k];
      }
    }
  }

  // ----- A history of creates, removes and restarts

  /** mem is the running program's table, disk the saved rows, reserved the numbers of runs
      still being opened, written every number ever saved in a row. */
  datatype System = System(mem: Table, disk: seq<Row>, reserved: set<nat>, written: set<nat>)

  datatype Event =
    | Reserve                       // Create takes the next number
    | Install(n: nat, saved: bool)  // Create adds its row
    | Abandon(n: nat)               // Create fails
    | Remove(id: string, saved: bool)
    | Save(saved: bool)
    | Close(id: string, saved: bool)
    | Restart

  const Begun := System(EmptyTable, [], {}, {})

  function Numbers(rows: seq<Row>): set<nat> {
    set r | r in rows :: RunNumber(r.id)
  }

  function Kept(s: System, mem: Table, saved: bool): System {
    if saved then s.(mem := mem, disk := Written(mem), written := s.written + Numbers(Written(mem)))
    else s.(mem := mem)
  }

  function Without(order: seq<string>, id: string): seq<string> {
    if order == [] then []
    else Without(order[..|order| - 1], id) + (if order[|order| - 1] == id then [] else [order[|order| - 1]])
  }

  function Removal(t: Table, id: string): Table {
    t.(byId := t.byId - {id}, order := Without(t.order, id))
  }

  function Step(s: System, e: Event): System {
    match e
    case Reserve => s.(mem := s.mem.(next := s.mem.next + 1), reserved := s.reserved + {s.mem.next + 1})
    case Install(n, saved) =>
      if n !in s.reserved then s
      else
        Kept(s.(reserved := s.reserved - {n}),
             s.mem.(byId := s.mem.byId[RunId(n) := Open], order := s.mem.order + [RunId(n)]), saved)
    case Abandon(n) => s.(reserved := s.reserved - {n})
    case Remove(id, saved) =>
      // An unsaved removal is undone.
      if id !in s.mem.byId || !saved then s else Kept(s, Removal(s.mem, id), true)
    case Save(saved) => Kept(s, s.mem, saved)
    case Close(id, saved) =>
      if id !in s.mem.byId then s else Kept(s, s.mem.(byId := s.mem.byId[id := Closed]), saved)
    case Restart => s.(mem := Loaded(s.disk), reserved := {})
  }

  function After(s: System, events: seq<Event>): System {
    if events == [] then s else Step(After(s, events[..|events| - 1]), events[|events| - 1])
  }

  ghost predicate SavedFrom(s: System, t: Table) {
    && Consistent(t) && s.disk == Written(t) && t.next <= s.mem.next
    && forall n :: n in s.written ==> n <= t.next
  }

  /** The disk always reads back a consistent table whose counter covers every number ever
      written, and the running counter is never behind it. */
  ghost predicate Safe(s: System) {
    && Consistent(s.mem)
    && (exists t :: SavedFrom(s, t))
    && (forall n :: n in s.reserved ==> 1 <= n <= s.mem.next && RunId(n) !in s.mem.byId)
  }

  lemma {:induction false} RowsNumbers(t: Table, ids: seq<string>, r: Row)
    requires Consistent(t) && r in Rows(t, ids)
    ensures RunNumber(r.id) <= t.next
  {
    if r !in Rows(t, ids[..|ids| - 1]) {
      MintedNumber(r.id, t.next);
    } else {
      RowsNumbers(t, ids[..|ids| - 1], r);
    }
  }

  lemma WrittenNumbers(t: Table, n: nat)
    requires Consistent(t) && n in Numbers(Written(t))
    ensures n <= t.next
  {
    var r :| r in Written(t) && RunNumber(r.id) == n;
    if r in Rows(t, t.order) {
      RowsNumbers(t, t.order, r);
    } else {
      RunNumberOf(t.next);
    }
  }

  lemma KeptSafe(s: System, mem: Table, saved: bool)
    requires Safe(s) && Consistent(mem) && mem.next == s.mem.next
    requires forall n :: n in s.reserved ==> RunId(n) !in mem.byId
    ensures Safe(Kept(s, mem, saved))
  {
    var t :| SavedFrom(s, t);
    var after := Kept(s, mem, saved);
    if saved {
      forall n | n in after.written ensures n <= mem.next {
        if n in Numbers(Written(mem)) {
          WrittenNumbers(mem, n);
        }
      }
      assert SavedFrom(after, mem);
    } else {
      assert SavedFrom(after, t);
    }
  }

  lemma {:induction false} WithoutMembers(order: seq<string>, id: string)
    ensures forall x :: x in Without(order, id) <==> x in order && x != id
  {
    if order != [] {
      assert order == order[..|order| - 1] + [order[|order| - 1]];
      WithoutMembers(order[..|order| - 1], id);
    }
  }

  ghost predicate NoRepeats(order: seq<string>) {
    forall i, j :: 0 <= i < j < |order| ==> order[i] != order[j]
  }

  lemma {:induction false} WithoutRepeats(order: seq<string>, id: string)
    requires NoRepeats(order)
    ensures NoRepeats(Without(order, id))
  {
    if order != [] {
      var init, last := order[..|order| - 1], order[|order| - 1];
      WithoutRepeats(init, id);
      WithoutMembers(init, id);
      assert last !in init;
    }
  }

  lemma RemovalConsistent(t: Table, id: string)
    requires Consistent(t)
    ensures Consistent(Removal(t, id))
  {
    WithoutMembers(t.order, id);
    WithoutRepeats(t.order, id);
  }

  lemma {:induction false} NothingWithout(order: seq<string>, id: string)
    requires id !in order
    ensures Without(order, id) == order
  {
    if order != [] {
      assert order == order[..|order| - 1] + [order[|order| - 1]];
      NothingWithout(order[..|order| - 1], id);
    }
  }

  lemma {:induction false} WithoutOne(order: seq<string>, id: string, k: nat)
    requires NoRepeats(order) && k < |order| && order[k] == id
    ensures Without(order, id) == order[..k] + order[k + 1..]
  {
    var init := order[..|order| - 1];
    if k == |order| - 1 {
      NothingWithout(init, id);
    } else {
      WithoutOne(init, id, k);
      assert order[..k] + order[k + 1..] == (init[..k] + init[k + 1..]) + [order[|order| - 1]];
    }
  }

  /** A removal takes the one run, from its place in the order, and leaves every other as it was. */
  lemma RemovalTakesOne(t: Table, id: string, k: nat)
    requires Consistent(t) && k < |t.order| && t.order[k] == id
    ensures var after := Removal(t, id);
            && id !in after.byId && after.next == t.next && after.order == t.order[..k] + t.order[k + 1..]
            && forall x :: x != id ==> (x in after.byId <==> x in t.byId) && (x in t.byId ==> after.byId[x] == t.byId[x])
  {
    WithoutOne(t.order, id, k);
  }

  lemma AllClosedConsistent(t: Table)
    requires Consistent(t)
    ensures Consistent(Table(AllClosed(t), t.order, t.next))
  {
  }

  lemma InstallConsistent(t: Table, n: nat)
    requires Consistent(t) && 1 <= n <= t.next && RunId(n) !in t.byId
    ensures Consistent(t.(byId := t.byId[RunId(n) := Open], order := t.order + [RunId(n)]))
  {
    assert MintedRun(RunId(n), t.next);
  }

  lemma LaterNumber(t: Table, id: string)
    requires MintedRun(id, t.next)
    ensures MintedRun(id, t.next + 1) && id != RunId(t.next + 1)
  {
    var n: nat :| 1 <= n <= t.next && id == RunId(n);
    NumberedInjective(PREFIX, n, t.next + 1);
  }

  lemma ReserveConsistent(t: Table)
    requires Consistent(t)
    ensures Consistent(t.(next := t.next + 1)) && RunId(t.next + 1) !in t.byId
  {
    forall id | id in t.byId ensures MintedRun(id, t.next + 1) && id != RunId(t.next + 1) {
      LaterNumber(t, id);
    }
  }

  lemma RestartSafe(s: System)
    requires Safe(s)
    ensures Safe(Step(s, Restart))
  {
    var t :| SavedFrom(s, t);
    LoadWritten(t);
    AllClosedConsistent(t);
    RestartedFrom(s, t);
    assert SavedFrom(Step(s, Restart), t);
  }

  lemma RestartedFrom(s: System, t: Table)
    requires SavedFrom(s, t) && Consistent(Table(AllClosed(t), t.order, t.next))
    requires Loaded(s.disk) == Table(AllClosed(t), t.order, t.next)
    ensures SavedFrom(Step(s, Restart), t) && Consistent(Step(s, Restart).mem)
  {
  }

  lemma ReserveSafe(s: System)
    requires Safe(s)
    ensures Safe(Step(s, Reserve)) && s.mem.next + 1 !in s.written
  {
    ReserveConsistent(s.mem);
    var t :| SavedFrom(s, t);
    assert SavedFrom(Step(s, Reserve), t);
  }

  lemma UnreservedSafe(s: System, n: nat)
    requires Safe(s)
    ensures Safe(s.(reserved := s.reserved - {n}))
  {
    var t :| SavedFrom(s, t);
    assert SavedFrom(s.(reserved := s.reserved - {n}), t);
  }

  lemma InstallSafe(s: System, n: nat, saved: bool)
    requires Safe(s)
    ensures Safe(Step(s, Install(n, saved)))
  {
    if n in s.reserved {
      InstallConsistent(s.mem, n);
      InstalledOthers(s, n);
      UnreservedSafe(s, n);
      KeptSafe(s.(reserved := s.reserved - {n}),
               s.mem.(byId := s.mem.byId[RunId(n) := Open], order := s.mem.order + [RunId(n)]), saved);
    }
  }

  lemma RemoveSafe(s: System, id: string, saved: bool)
    requires Safe(s)
    ensures Safe(Step(s, Remove(id, saved)))
  {
    if id in s.mem.byId && saved {
      RemovalConsistent(s.mem, id);
      KeptSafe(s, Removal(s.mem, id), true);
    }
  }

  lemma CloseSafe(s: System, id: string, saved: bool)
    requires Safe(s)
    ensures Safe(Step(s, Close(id, saved)))
  {
    if id in s.mem.byId {
      KeptSafe(s, s.mem.(byId := s.mem.byId[id := Closed]), saved);
    }
  }

  lemma StepSafe(s: System, e: Event)
    requires Safe(s)
    ensures Safe(Step(s, e))
  {
    match e {
      case Reserve => ReserveSafe(s);
      case Install(n, saved) => InstallSafe(s, n, saved);
      case Abandon(n) => UnreservedSafe(s, n);
      case Remove(id, saved) => RemoveSafe(s, id, saved);
      case Save(saved) => KeptSafe(s, s.mem, saved);
      case Close(id, saved) => CloseSafe(s, id, saved);
      case Restart => RestartSafe(s);
    }
  }

  /** What an event may make of one run of the running table: a create adds its run, open and last; a saved remove
      takes it; a close, or a restart, closes it. */
  ghost predicate Explained(was: Table, now: Table, e: Event, id: string) {
    && (id !in was.byId && id in now.byId ==>
          e.Restart? || (e.Install? && id == RunId(e.n) && now.byId[id] == Open && now.order == was.order + [id]))
    && (id in was.byId && id !in now.byId ==> e.Restart? || e == Remove(id, true))
    && (id in was.byId && id in now.byId && now.byId[id] != was.byId[id] ==>
          now.byId[id] == Closed && (e.Restart? || (e.Close? && e.id == id)))
  }

  lemma InstallExplained(s: System, n: nat, saved: bool, id: string)
    requires Safe(s)
    ensures Explained(s.mem, Step(s, Install(n, saved)).mem, Install(n, saved), id)
    ensures n in s.reserved ==> var now := Step(s, Install(n, saved)).mem; RunId(n) in now.byId && now.byId[RunId(n)] == Open
  {
    var e := Install(n, saved);
    if n in s.reserved {
      assert Step(s, e).mem == s.mem.(byId := s.mem.byId[RunId(n) := Open], order := s.mem.order + [RunId(n)]);
    }
  }

  lemma RemoveExplained(s: System, x: string, saved: bool, id: string)
    ensures Explained(s.mem, Step(s, Remove(x, saved)).mem, Remove(x, saved), id)
    ensures saved ==> x !in Step(s, Remove(x, saved)).mem.byId
  {
  }

  lemma CloseExplained(s: System, x: string, saved: bool, id: string)
    ensures Explained(s.mem, Step(s, Close(x, saved)).mem, Close(x, saved), id)
    ensures x in s.mem.byId ==> var now := Step(s, Close(x, saved)).mem; x in now.byId && now.byId[x] == Closed
  {
  }

  lemma QuietExplained(s: System, e: Event, id: string)
    requires e.Reserve? || e.Abandon? || e.Save?
    ensures Explained(s.mem, Step(s, e).mem, e, id)
  {
    assert Step(s, e).mem.byId == s.mem.byId;
  }

  lemma RestartCloses(s: System)
    requires Safe(s)
    ensures var now := Step(s, Restart).mem; forall id :: id in now.byId ==> now.byId[id] == Closed
  {
    var t :| SavedFrom(s, t);
    LoadWritten(t);
  }

  lemma RestartExplained(s: System, id: string)
    requires Safe(s)
    ensures Explained(s.mem, Step(s, Restart).mem, Restart, id)
  {
    RestartCloses(s);
  }

  /** Whatever happens to the table, every run in it is explained. */
  lemma EventEffects(s: System, e: Event, id: string)
    requires Safe(s)
    ensures Explained(s.mem, Step(s, e).mem, e, id)
  {
    match e {
      case Install(n, saved) => InstallExplained(s, n, saved, id);
      case Remove(x, saved) => RemoveExplained(s, x, saved, id);
      case Close(x, saved) => CloseExplained(s, x, saved, id);
      case Restart => RestartExplained(s, id);
      case _ => QuietExplained(s, e, id);
    }
  }

  ghost predicate Saves(e: Event) {
    (e.Install? || e.Remove? || e.Save? || e.Close?) && e.saved
  }

  /** What was saved is what a restart reads: after a saved event that changed something, every run of the table in
      its order, all closed, and the same counter. An event that is not saved leaves the file alone. */
  lemma RestartReadsTheSave(s: System, e: Event)
    requires Safe(s)
    ensures !Saves(e) ==> Step(s, e).disk == s.disk
    ensures Step(s, e).disk == s.disk || RestartsAs(Step(s, e), Step(s, e).mem)
    ensures e == Save(true) ==> RestartsAs(Step(s, e), s.mem)
  {
    StepSafe(s, e);
    StepSaves(s, e);
    if Step(s, e).disk == Written(Step(s, e).mem) { WrittenRestarts(Step(s, e)); }
  }

  ghost predicate RestartsAs(s: System, m: Table) {
    Step(s, Restart).mem == Table(AllClosed(m), m.order, m.next)
  }

  lemma StepSaves(s: System, e: Event)
    ensures !Saves(e) ==> Step(s, e).disk == s.disk
    ensures Step(s, e).disk == s.disk || Step(s, e).disk == Written(Step(s, e).mem)
    ensures e == Save(true) ==> Step(s, e).mem == s.mem && Step(s, e).disk == Written(s.mem)
  {
  }

  lemma WrittenRestarts(s: System)
    requires Consistent(s.mem) && s.disk == Written(s.mem)
    ensures RestartsAs(s, s.mem)
  {
    LoadWritten(s.mem);
  }

  lemma InstalledOthers(s: System, n: nat)
    requires Safe(s) && n in s.reserved
    ensures forall m :: m in s.reserved - {n} ==> RunId(m) !in s.mem.byId[RunId(n) := Open]
  {
    forall m | m in s.reserved - {n} ensures RunId(m) != RunId(n) {
      NumberedInjective(PREFIX, m, n);
    }
  }

  /** Over any history of creates, removes, failed saves and restarts, the next number handed
      out was never saved before: no id that reached the table is minted again. */
  lemma {:induction false} IdsNeverComeBack(events: seq<Event>)
    ensures Safe(After(Begun, events))
    ensures After(Begun, events).mem.next + 1 !in After(Begun, events).written
  {
    if events == [] {
      assert SavedFrom(Begun, EmptyTable);
    } else {
      IdsNeverComeBack(events[..|events| - 1]);
      StepSafe(After(Begun, events[..|events| - 1]), events[|events| - 1]);
    }
    ReserveSafe(After(Begun, events));
  }

  // ----- The loops

  class Store {
    var byId: map<string, Status>
    var order: seq<string>
    var next: nat
    var file: seq<Row>

    function View(): Table
      reads this
    {
      Table(byId, order, next)
    }

    /** Loads a saved table; no run survives a restart open. */
    constructor (saved: seq<Row>)
      ensures View() == Loaded(saved) && file == saved
    {
      byId, order, next, file := map[], [], 0, saved;
      new;
      for i := 0 to |saved|
        invariant View() == Loaded(saved[..i]) && file == saved
      {
        assert saved[..i + 1][..i] == saved[..i];
        var r := saved[i];
        if r.id == "" || r.id in byId {
          continue;
        }
        if RunNumber(r.id) > next {
          next := RunNumber(r.id);
        }
        if r.status == Removed {
          continue;
        }
        byId := byId[r.id := Closed];
        order := order + [r.id];
      }
      assert saved[..|saved|] == saved;
    }

    /** Writes the table; a failed write leaves the file alone. */
    method Write(saved: bool)
      modifies this`file
      ensures file == if saved then Written(View()) else old(file)
    {
      var rows := [];
      for i := 0 to |order|
        invariant rows == Rows(View(), order[..i]) && file == old(file)
      {
        assert order[..i + 1][..i] == order[..i];
        if order[i] in byId {
          rows := rows + [Row(order[i], byId[order[i]])];
        }
      }
      assert order[..|order|] == order;
      if next > 0 && RunId(next) !in byId {
        rows := rows + [Row(RunId(next), Removed)];
      }
      if saved {
        file := rows;
      }
    }

    static method DeleteFrom(order: seq<string>, id: string) returns (kept: seq<string>)
      ensures kept == Without(order, id)
    {
      kept := [];
      for i := 0 to |order|
        invariant kept == Without(order[..i], id)
      {
        assert order[..i + 1][..i] == order[..i];
        if order[i] != id {
          kept := kept + [order[i]];
        }
      }
      assert order[..|order|] == order;
    }

    /** Takes a run out of the table, or undoes that when the save fails. */
    method Delete(id: string, saved: bool) returns (found: bool)
      modifies this
      ensures found == (id in old(byId))
      ensures View() == if found && saved then Removal(old(View()), id) else old(View())
      ensures file == if found && saved then Written(View()) else old(file)
    {
      if id !in byId {
        return false;
      }
      var rows, was := byId, order;
      byId := byId - {id};
      order := DeleteFrom(order, id);
      Write(saved);
      if !saved {
        byId, order := rows, was;
      }
      return true;
    }
  }
}
