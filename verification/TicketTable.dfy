/** One project's ticket table and what each request does to it.

    A request computes a Change from the table it finds; Commit settles the parents the
    change touched, saves the new table and, if that worked, adopts it. */
module TicketTable {
  import opened Wrappers
  import opened Text
  import opened TicketRules

  /** next is the number of the newest id ever minted. */
  datatype Table = Table(next: nat, tickets: seq<Ticket>)

  const EmptyTable := Table(0, [])

  datatype NewTicket = NewTicket(title: string, parent: string, dependsOn: seq<string>)

  datatype Patch = Patch(status: Option<Status>, dependsOn: Option<seq<string>>)

  /** run == "" stands for a person. */
  datatype Op =
    | Create(n: NewTicket, run: string)
    | Update(id: string, patch: Patch, run: string)
    | Comment(id: string, text: string)
    | Start(id: string, run: string)
    | StartPlan(id: string, run: string)
    | PlanReview(id: string, run: string)
    | Approve(id: string)
    | Reject(id: string, reason: string)
    | Revise(id: string, run: string, feedback: string)
    | Finish(id: string, run: string, status: Status, mergePending: bool)
    | Block(id: string)
    | Remove(id: string, run: string)

  /** A change that touches nothing needs no save and tells nobody. */
  datatype Change = Fail(refusal: Refusal) | Touch(table: Table, touched: seq<string>)

  function TicketId(n: nat): string {
    Numbered("TCK-", n)
  }

  // ----- Settling parents

  /** The parent whose status a touched ticket decides: its own or, for a top-level ticket, itself. */
  function SettledBy(rows: seq<Ticket>, id: string): string {
    var i := FindTicket(rows, id);
    if i >= 0 && rows[i].parent != "" then rows[i].parent else id
  }

  function SettleOne(rows: seq<Ticket>, id: string): (after: seq<Ticket>)
    ensures |after| == |rows|
  {
    var p := SettledBy(rows, id);
    var i := FindTicket(rows, p);
    var kids := Subtickets(rows, p);
    if i < 0 || kids == [] || Held(rows[i].status) then rows
    else rows[i := rows[i].(status := Derived(kids))]
  }

  /** touched, followed by each parent that was looked at and is not listed yet. */
  function WithParent(rows: seq<Ticket>, out: seq<string>, id: string): seq<string> {
    var p := SettledBy(rows, id);
    if FindTicket(rows, p) < 0 || Subtickets(rows, p) == [] || p in out then out else out + [p]
  }

  function Settled(rows: seq<Ticket>, touched: seq<string>): (after: seq<Ticket>)
    ensures |after| == |rows|
  {
    if touched == [] then rows
    else SettleOne(Settled(rows, touched[..|touched| - 1]), touched[|touched| - 1])
  }

  function Announced(rows: seq<Ticket>, touched: seq<string>, n: nat): seq<string>
    requires n <= |touched|
  {
    if n == 0 then touched
    else WithParent(Settled(rows, touched[..n - 1]), Announced(rows, touched, n - 1), touched[n - 1])
  }

  // ----- Committing

  function ViewById(rows: seq<Ticket>, id: string): TicketView {
    var i := FindTicket(rows, id);
    if i >= 0 then ViewOf(rows, rows[i])
    else TicketView(Ticket(id, "", Other(""), "", [], [], false), false, None)
  }

  function Views(rows: seq<Ticket>, ids: seq<string>): seq<TicketView> {
    seq(|ids|, i requires 0 <= i < |ids| => ViewById(rows, ids[i]))
  }

  function Committed(tab: Table, c: Change, saved: bool): Table {
    if c.Fail? || c.touched == [] || !saved then tab
    else c.table.(tickets := Settled(c.table.tickets, c.touched))
  }

  function Answer(tab: Table, c: Change, saved: bool): Result<seq<TicketView>> {
    if c.Fail? then Err(c.refusal)
    else if c.touched == [] then Ok([])
    else if !saved then Err(NotSaved)
    else
      Ok(Views(Settled(c.table.tickets, c.touched),
               Announced(c.table.tickets, c.touched, |c.touched|)))
  }

  // ----- What each request does

  ghost function CreateChange(tab: Table, n: NewTicket, run: string): Change {
    var title := TrimSpace(n.title);
    var i := FindTicket(tab.tickets, n.parent);
    if title == "" then Fail(EmptyTitle)
    else if n.parent != "" && i < 0 then Fail(NoParent)
    else if n.parent != "" && tab.tickets[i].parent != "" then Fail(NestedParent)
    else if PlanLock(tab.tickets, n.parent, run).Some? then Fail(PlanLock(tab.tickets, n.parent, run).value)
    else
      var tk := Ticket(TicketId(tab.next + 1), title, Open, n.parent, [], [], false);
      var rows := tab.tickets + [tk];
      match CheckedDeps(rows, tk, n.dependsOn)
      case Err(e) => Fail(e)
      case Ok(deps) => Touch(Table(tab.next + 1, rows[|rows| - 1 := tk.(dependsOn := deps)]), [tk.id])
  }

  ghost function RelinkChange(tab: Table, i: nat, patch: Patch, run: string): Result<seq<Ticket>>
    requires i < |tab.tickets|
  {
    var tk := tab.tickets[i];
    if patch.dependsOn.None? then Ok(tab.tickets)
    else
      match PlanLock(tab.tickets, tk.parent, run)
      case Some(e) => Err(e)
      case None =>
        match CheckedDeps(tab.tickets, tk, patch.dependsOn.value)
        case Err(e) => Err(e)
        case Ok(deps) => Ok(tab.tickets[i := tk.(dependsOn := deps)])
  }

  function RestatusChange(rows: seq<Ticket>, i: nat, patch: Patch): Result<seq<Ticket>>
    requires i < |rows|
  {
    var tk := rows[i];
    if patch.status.None? || patch.status.value == tk.status then Ok(rows)
    else if patch.status.value.Other? then Err(UnknownStatus)
    else if IsDraft(rows, tk) then Err(PartOfPlan)
    else if Subtickets(rows, tk.id) != [] then Err(FollowsSubtickets)
    else
      match PersonMove(tk.status, patch.status.value)
      case Some(e) => Err(e)
      case None => Ok(rows[i := tk.(status := patch.status.value)])
  }

  ghost function UpdateChange(tab: Table, id: string, patch: Patch, run: string): Change {
    var i := FindTicket(tab.tickets, id);
    if run != "" && patch.status.Some? then Fail(PlannerChangesStatus)
    else if i < 0 then Fail(NoTicket)
    else
      match RelinkChange(tab, i, patch, run)
      case Err(e) => Fail(e)
      case Ok(relinked) =>
        match RestatusChange(relinked, i, patch)
        case Err(e) => Fail(e)
        case Ok(rows) => if rows == tab.tickets then Touch(tab, []) else Touch(tab.(tickets := rows), [id])
  }

  function CommentChange(tab: Table, id: string, text: string): Change {
    if TrimSpace(text) == "" then Fail(EmptyText)
    else if FindTicket(tab.tickets, id) < 0 then Fail(NoTicket)
    else Touch(tab, [id])
  }

  function WithRun(t: Ticket, run: string): Ticket {
    if LastRun(t, run) then t else t.(runs := t.runs + [run])
  }

  function Rewritten(tab: Table, i: nat, t: Ticket): Change
    requires i < |tab.tickets|
  {
    Touch(tab.(tickets := tab.tickets[i := t]), [t.id])
  }

  function StartChange(tab: Table, id: string, run: string): Change {
    var i := FindTicket(tab.tickets, id);
    if i < 0 then Fail(NoTicket)
    else
      var tk := tab.tickets[i];
      var owns := LastRun(tk, run);
      if !owns && run in tk.runs then Fail(OtherRun)
      else if owns && tk.status == Running then Touch(tab, [])
      else if owns && tk.status == Blocked then
        Rewritten(tab, i, tk.(status := Running, mergePending := false))
      else if tk.status == Running then Fail(AlreadyRunning)
      else if !Runnable(tab.tickets, tk) then Fail(NotRunnable)
      else Rewritten(tab, i, WithRun(tk, run).(status := Running, mergePending := false))
  }

  function StartPlanChange(tab: Table, id: string, run: string): Change {
    var i := FindTicket(tab.tickets, id);
    if i < 0 then Fail(NoTicket)
    else
      var tk := tab.tickets[i];
      var owns := LastRun(tk, run);
      if owns && tk.status == Planning then Touch(tab, [])
      else if owns && tk.status != Review then Fail(NotInReview)
      else if !owns && run in tk.runs then Fail(OtherRun)
      else if !owns && !Plannable(tk, Subtickets(tab.tickets, id) != []) then Fail(NotPlannable)
      else Rewritten(tab, i, WithRun(tk, run).(status := Planning))
  }

  function PlanReviewChange(tab: Table, id: string, run: string): Change {
    var i := FindTicket(tab.tickets, id);
    if i < 0 then Fail(NoTicket)
    else if !LastRun(tab.tickets[i], run) then Fail(OtherRun)
    else if !Held(tab.tickets[i].status) then Fail(NoPlan)
    else Rewritten(tab, i, tab.tickets[i].(status := Review))
  }

  function Readied(t: Ticket, id: string): Ticket {
    if t.parent == id then t.(status := Ready) else t
  }

  /** Every subticket of id made ready. */
  function ReadyKids(rows: seq<Ticket>, id: string): (after: seq<Ticket>)
    ensures |after| == |rows|
    ensures forall k :: 0 <= k < |after| ==> after[k] == Readied(rows[k], id)
  {
    seq(|rows|, k requires 0 <= k < |rows| => Readied(rows[k], id))
  }

  function InReview(rows: seq<Ticket>, id: string): Option<Refusal> {
    var i := FindTicket(rows, id);
    if i < 0 then Some(NoTicket)
    else if rows[i].status != Review then Some(NotInReview)
    else None
  }

  function ApproveChange(tab: Table, id: string): Change {
    var kids := Subtickets(tab.tickets, id);
    if InReview(tab.tickets, id).Some? then Fail(InReview(tab.tickets, id).value)
    else if kids == [] then Fail(EmptyPlan)
    else
      var i := FindTicket(tab.tickets, id);
      var rows := ReadyKids(tab.tickets, id);
      Touch(tab.(tickets := rows[i := rows[i].(status := Derived(Subtickets(rows, id)))]),
            [id] + Ids(kids))
  }

  function WithoutKids(rows: seq<Ticket>, id: string): (kept: seq<Ticket>)
    ensures forall t :: t in kept <==> t in rows && t.parent != id
  {
    if rows == [] then []
    else
      var last := rows[|rows| - 1];
      assert rows == rows[..|rows| - 1] + [last];
      WithoutKids(rows[..|rows| - 1], id) + (if last.parent == id then [] else [last])
  }

  function RejectChange(tab: Table, id: string, reason: string): Change {
    if TrimSpace(reason) == "" then Fail(EmptyText)
    else if InReview(tab.tickets, id).Some? then Fail(InReview(tab.tickets, id).value)
    else
      var rows := WithoutKids(tab.tickets, id);
      var i := FindTicket(rows, id);
      if i < 0 then Fail(NoTicket)
      else
        Touch(tab.(tickets := rows[i := rows[i].(status := Open)]),
              [id] + Ids(Subtickets(tab.tickets, id)))
  }

  function ReviseChange(tab: Table, id: string, run: string, feedback: string): Change {
    if TrimSpace(feedback) == "" then Fail(EmptyText)
    else if InReview(tab.tickets, id).Some? then Fail(InReview(tab.tickets, id).value)
    else
      var i := FindTicket(tab.tickets, id);
      Rewritten(tab, i, WithRun(tab.tickets[i], run).(status := Planning))
  }

  function FinishChange(tab: Table, id: string, run: string, status: Status, mergePending: bool): Change {
    var i := FindTicket(tab.tickets, id);
    if status != Done && status != Blocked then Fail(BadOutcome)
    else if i < 0 then Fail(NoTicket)
    else if !LastRun(tab.tickets[i], run) then Fail(OtherRun)
    else if tab.tickets[i].status != Running && tab.tickets[i].status != Blocked then Fail(NoRunDrives)
    else
      Rewritten(tab, i, tab.tickets[i].(status := status, mergePending := mergePending && status == Blocked))
  }

  function BlockChange(tab: Table, id: string): Change {
    var i := FindTicket(tab.tickets, id);
    if i < 0 then Fail(NoTicket)
    else if tab.tickets[i].status != Ready then Fail(NotReady)
    else if !Runnable(tab.tickets, tab.tickets[i]) then Fail(NotRunnable)
    else Rewritten(tab, i, tab.tickets[i].(status := Blocked))
  }

  predicate IsAwaited(rows: seq<Ticket>, id: string) {
    exists t :: t in rows && id in t.dependsOn
  }

  function RemoveChange(tab: Table, id: string, run: string): Change {
    var i := FindTicket(tab.tickets, id);
    if i < 0 then Fail(NoTicket)
    else
      var tk := tab.tickets[i];
      if PlanLock(tab.tickets, tk.parent, run).Some? then Fail(PlanLock(tab.tickets, tk.parent, run).value)
      else if tk.status == Running || Held(tk.status) then Fail(Busy)
      else if Subtickets(tab.tickets, id) != [] then Fail(HasSubtickets)
      else if IsAwaited(tab.tickets, id) then Fail(Awaited)
      else
        Touch(tab.(tickets := tab.tickets[..i] + tab.tickets[i + 1..]),
              if tk.parent != "" then [id, tk.parent] else [id])
  }

  ghost function ChangeOf(tab: Table, op: Op): Change {
    match op
    case Create(n, run) => CreateChange(tab, n, run)
    case Update(id, patch, run) => UpdateChange(tab, id, patch, run)
    case Comment(id, text) => CommentChange(tab, id, text)
    case Start(id, run) => StartChange(tab, id, run)
    case StartPlan(id, run) => StartPlanChange(tab, id, run)
    case PlanReview(id, run) => PlanReviewChange(tab, id, run)
    case Approve(id) => ApproveChange(tab, id)
    case Reject(id, reason) => RejectChange(tab, id, reason)
    case Revise(id, run, feedback) => ReviseChange(tab, id, run, feedback)
    case Finish(id, run, status, mergePending) => FinishChange(tab, id, run, status, mergePending)
    case Block(id) => BlockChange(tab, id)
    case Remove(id, run) => RemoveChange(tab, id, run)
  }

  /** One request: what it does, and whether its save succeeded. */
  datatype Request = Request(op: Op, saved: bool)

  ghost function After(tab: Table, r: Request): Table {
    Committed(tab, ChangeOf(tab, r.op), r.saved)
  }

  ghost function Run(tab: Table, history: seq<Request>): Table {
    if history == [] then tab
    else After(Run(tab, history[..|history| - 1]), history[|history| - 1])
  }
}
