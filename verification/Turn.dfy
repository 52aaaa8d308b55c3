/** One turn as the world around the agent decides it, round by round, and the course it has to take. */
module Turn {
  import opened Wrappers
  import opened Text
  import opened Conversation

  const MAX_AUTO_CONTINUE := 12
  const MAX_STOP_BLOCKS := 3

  /** Zero fields are disabled. */
  datatype Budget = Budget(maxModelRounds: int, maxToolCalls: int, maxRepeatedToolCalls: int)

  datatype Reply = Reply(content: string, calls: seq<Call>)

  function ReplyMessage(r: Reply): Message {
    Message(Assistant, r.content, r.calls, "", "")
  }

  datatype Verdict = Unavailable | GoOn | Enough

  /** What is decided outside before the first round: whether the prompt hook stops the turn, and what it adds. */
  datatype Start = Start(hookStops: bool, context: string)

  /** What is decided outside in one round: whether the turn was cancelled by its start; the texts that arrive before
      it, while the model is asked, while the evaluator is and while the hook is; the summary a compaction would get;
      the model's reply and whether it was cut short for repeating itself; whether an open plan has moved since the
      last push, and what the evaluator says of it; the Stop hook's reason; what the tools give back, and whether
      their refusals of futile edits have added up; and the reply to a last request without tools. */
  datatype Round = Round(
    cancelled: bool, before: seq<string>, summary: Option<string>, reply: Option<Reply>, repetition: bool,
    during: seq<string>, planMoved: bool, verdict: Verdict, whileJudged: seq<string>,
    hook: string, whileHooked: seq<string>, result: nat -> string, futileEdits: bool, wrapUp: Option<Reply>)

  datatype Ending =
    | HookStopped | Cancelled | RoundBudget | CallFailed | Repetition | ToolBudget | FutileEdits | FinalAnswer | CutOff

  // ----- Tool calls

  function Signature(c: Call): string {
    c.name + "\0" + c.args
  }

  function Signatures(calls: seq<Call>): multiset<string> {
    if calls == [] then multiset{}
    else Signatures(calls[..|calls| - 1]) + multiset{Signature(calls[|calls| - 1])}
  }

  lemma {:induction false} SignaturesGrow(calls: seq<Call>, k: nat, s: string)
    requires k <= |calls|
    ensures Signatures(calls[..k])[s] <= Signatures(calls)[s]
    decreases |calls|
  {
    if k == |calls| {
      assert calls[..k] == calls;
    } else {
      var init := calls[..|calls| - 1];
      assert init[..k] == calls[..k];
      SignaturesGrow(init, k, s);
    }
  }

  lemma {:induction false} SignatureCount(calls: seq<Call>)
    ensures |Signatures(calls)| == |calls|
  {
    if calls != [] {
      SignatureCount(calls[..|calls| - 1]);
    }
  }

  /** Nothing was called more often than that. */
  ghost predicate NoneOver(calls: multiset<string>, limit: int) {
    forall s :: calls[s] <= limit
  }

  /** Whether the tool budgets let a batch run after what was executed before. */
  ghost predicate BatchFits(b: Budget, executed: multiset<string>, calls: seq<Call>) {
    && (b.maxToolCalls > 0 ==> |executed| + |calls| <= b.maxToolCalls)
    && (b.maxRepeatedToolCalls > 0 ==> NoneOver(executed + Signatures(calls), b.maxRepeatedToolCalls))
  }

  // ----- The course of a turn

  predicate IsAnswer(r: Round) {
    r.reply.Some? && r.reply.value.calls == []
  }

  /** The evaluator is asked about a final answer: nothing waits, and an open plan has moved. */
  predicate Judged(r: Round, topLevel: bool, pushes: nat) {
    r.during == [] && topLevel && pushes < MAX_AUTO_CONTINUE && r.planMoved
  }

  predicate Pushed(r: Round, topLevel: bool, pushes: nat) {
    Judged(r, topLevel, pushes) && r.verdict == GoOn
  }

  predicate Hooked(r: Round, topLevel: bool, pushes: nat, blocks: nat) {
    r.during == [] && !Pushed(r, topLevel, pushes) && r.hook != "" && blocks < MAX_STOP_BLOCKS
  }

  /** How often the evaluator pushed in these rounds. */
  function PushesIn(rounds: seq<Round>, topLevel: bool): nat {
    if rounds == [] then 0
    else
      var before := PushesIn(rounds[..|rounds| - 1], topLevel);
      var r := rounds[|rounds| - 1];
      before + (if IsAnswer(r) && Pushed(r, topLevel, before) then 1 else 0)
  }

  /** How often the Stop hook kept the turn going in these rounds. */
  function BlocksIn(rounds: seq<Round>, topLevel: bool): nat {
    if rounds == [] then 0
    else
      var init, r := rounds[..|rounds| - 1], rounds[|rounds| - 1];
      var before := BlocksIn(init, topLevel);
      before + (if IsAnswer(r) && Hooked(r, topLevel, PushesIn(init, topLevel), before) then 1 else 0)
  }

  /** All the tool calls these rounds ask for. */
  function CallsIn(rounds: seq<Round>): multiset<string> {
    if rounds == [] then multiset{}
    else
      var r := rounds[|rounds| - 1];
      CallsIn(rounds[..|rounds| - 1]) + (if r.reply.Some? then Signatures(r.reply.value.calls) else multiset{})
  }

  /** The model is asked in round k. */
  predicate Asked(b: Budget, r: Round, k: nat) {
    !r.cancelled && (b.maxModelRounds > 0 ==> k < b.maxModelRounds)
  }

  /** The model answered in round k, and not by repeating itself. */
  predicate Heard(b: Budget, r: Round, k: nat) {
    Asked(b, r, k) && r.reply.Some? && !r.repetition
  }

  ghost predicate BatchRuns(b: Budget, rounds: seq<Round>, k: nat)
    requires k < |rounds| && rounds[k].reply.Some?
  {
    rounds[k].reply.value.calls != [] && BatchFits(b, CallsIn(rounds[..k]), rounds[k].reply.value.calls)
  }

  predicate KeptGoing(topLevel: bool, rounds: seq<Round>, k: nat)
    requires k < |rounds|
  {
    var pushes := PushesIn(rounds[..k], topLevel);
    || rounds[k].during != [] || Pushed(rounds[k], topLevel, pushes)
    || Hooked(rounds[k], topLevel, pushes, BlocksIn(rounds[..k], topLevel))
  }

  /** Round k does not end the turn: its batch ran, or its answer was not the end. */
  ghost predicate Passes(b: Budget, topLevel: bool, rounds: seq<Round>, k: nat)
    requires k < |rounds|
  {
    && Heard(b, rounds[k], k)
    && (if IsAnswer(rounds[k]) then KeptGoing(topLevel, rounds, k) else BatchRuns(b, rounds, k) && !rounds[k].futileEdits)
  }

  ghost predicate AllPass(b: Budget, topLevel: bool, rounds: seq<Round>, n: nat)
    requires n <= |rounds|
  {
    forall k :: 0 <= k < n ==> Passes(b, topLevel, rounds, k)
  }

  /** Why round n ends a turn that was not stopped before it. */
  ghost predicate EndsIn(b: Budget, topLevel: bool, rounds: seq<Round>, n: nat, why: Ending)
    requires n < |rounds|
  {
    match why
    case Cancelled => rounds[n].cancelled
    case RoundBudget => !rounds[n].cancelled && !Asked(b, rounds[n], n)
    case CallFailed => Asked(b, rounds[n], n) && rounds[n].reply.None?
    case Repetition => Asked(b, rounds[n], n) && rounds[n].reply.Some? && rounds[n].repetition
    case ToolBudget => Heard(b, rounds[n], n) && !IsAnswer(rounds[n]) && !BatchRuns(b, rounds, n)
    case FutileEdits => Heard(b, rounds[n], n) && BatchRuns(b, rounds, n) && rounds[n].futileEdits
    case FinalAnswer => Heard(b, rounds[n], n) && IsAnswer(rounds[n]) && !KeptGoing(topLevel, rounds, n)
    case _ => false
  }

  /** Why a turn whose first n rounds passed ends then. */
  ghost predicate EndsFor(b: Budget, topLevel: bool, start: Start, rounds: seq<Round>, n: nat, why: Ending)
    requires n <= |rounds|
  {
    if topLevel && start.hookStops then why == HookStopped && n == 0
    else if n == |rounds| then why == CutOff
    else EndsIn(b, topLevel, rounds, n, why)
  }

  /** The turn takes n whole rounds and ends for this reason. */
  ghost predicate Course(b: Budget, topLevel: bool, start: Start, rounds: seq<Round>, n: nat, why: Ending) {
    && n <= |rounds| && AllPass(b, topLevel, rounds, n)
    && EndsFor(b, topLevel, start, rounds, n, why)
  }

  /** What is decided outside leaves the turn one course. */
  lemma OneCourse(b: Budget, topLevel: bool, start: Start, rounds: seq<Round>, n: nat, why: Ending, m: nat, other: Ending)
    requires Course(b, topLevel, start, rounds, n, why) && Course(b, topLevel, start, rounds, m, other)
    ensures n == m && why == other
  {
    EndsOnce(b, topLevel, start, rounds, n, why);
    EndsOnce(b, topLevel, start, rounds, m, other);
  }

  lemma EndsOnce(b: Budget, topLevel: bool, start: Start, rounds: seq<Round>, n: nat, why: Ending)
    requires n <= |rounds| && EndsFor(b, topLevel, start, rounds, n, why)
    ensures n < |rounds| ==> why == HookStopped || !Passes(b, topLevel, rounds, n)
    ensures why == HookStopped <==> topLevel && start.hookStops
    ensures why == CutOff ==> n == |rounds|
  {
  }

  /** Why a round did not end the turn: the model was there to be asked and answered; its calls were within the
      budgets, and not the last straw of futile edits; an answer without calls had a message waiting, or, at the top
      level, an open plan the evaluator wants done, at most twelve times, or a hook that would not let go, at most
      three times. */
  lemma GoesOnBecause(b: Budget, topLevel: bool, rounds: seq<Round>, k: nat)
    requires k < |rounds| && Passes(b, topLevel, rounds, k)
    ensures var r := rounds[k];
            && !r.cancelled && (b.maxModelRounds > 0 ==> k < b.maxModelRounds) && r.reply.Some? && !r.repetition
            && (r.reply.value.calls != [] ==>
                  && !r.futileEdits
                  && (b.maxToolCalls > 0 ==> |CallsIn(rounds[..k])| + |r.reply.value.calls| <= b.maxToolCalls)
                  && (b.maxRepeatedToolCalls > 0 ==>
                        NoneOver(CallsIn(rounds[..k]) + Signatures(r.reply.value.calls), b.maxRepeatedToolCalls)))
            && (r.reply.value.calls == [] ==>
                  || r.during != []
                  || (topLevel && r.planMoved && r.verdict == GoOn && PushesIn(rounds[..k], topLevel) < 12)
                  || (r.hook != "" && BlocksIn(rounds[..k], topLevel) < 3))
  {
  }

  /** A final answer is one: no calls, nothing waiting, no push left to be had and no hook left to be heard. A turn that
      ends at its tool budget had asked for more than it allows. */
  lemma EndsBecause(b: Budget, topLevel: bool, start: Start, rounds: seq<Round>, n: nat, why: Ending)
    requires Course(b, topLevel, start, rounds, n, why)
    ensures why == FinalAnswer ==>
              var r := rounds[n];
              && r.reply.Some? && r.reply.value.calls == [] && r.during == []
              && (topLevel && r.planMoved && r.verdict == GoOn ==> PushesIn(rounds[..n], topLevel) >= 12)
              && (r.hook != "" ==> BlocksIn(rounds[..n], topLevel) >= 3)
    ensures why == ToolBudget ==>
              var calls := rounds[n].reply.value.calls;
              || (b.maxToolCalls > 0 && |CallsIn(rounds[..n])| + |calls| > b.maxToolCalls)
              || (b.maxRepeatedToolCalls > 0 &&
                    !NoneOver(CallsIn(rounds[..n]) + Signatures(calls), b.maxRepeatedToolCalls))
    ensures why == RoundBudget ==> b.maxModelRounds > 0 && n >= b.maxModelRounds
    ensures why == Cancelled ==> rounds[n].cancelled
    ensures why == CallFailed ==> rounds[n].reply.None?
    ensures why == Repetition ==> rounds[n].repetition
    ensures why == FutileEdits ==> rounds[n].futileEdits && rounds[n].reply.value.calls != []
    ensures why == HookStopped <==> topLevel && start.hookStops
    ensures why == CutOff ==> n == |rounds|
  {
  }

  /** Pushes are the top level's, and neither pushes nor blocks run over. */
  lemma {:induction false} PushesBounded(rounds: seq<Round>, topLevel: bool)
    ensures !topLevel ==> PushesIn(rounds, topLevel) == 0
    ensures PushesIn(rounds, topLevel) <= 12 && BlocksIn(rounds, topLevel) <= 3
  {
    if rounds != [] { PushesBounded(rounds[..|rounds| - 1], topLevel); }
  }

  /** How many model calls a course takes: one a round, and one more for a last answer without tools. */
  function ModelCalls(n: nat, why: Ending): nat {
    match why
    case RoundBudget => n + 1
    case CallFailed => n + 1
    case Repetition => n + 2
    case ToolBudget => n + 1
    case FutileEdits => n + 2
    case FinalAnswer => n + 1
    case _ => n
  }

  /** The tool calls a course executes. */
  ghost function Executed(rounds: seq<Round>, n: nat, why: Ending): multiset<string>
    requires n <= |rounds|
  {
    CallsIn(if why == FutileEdits && n < |rounds| then rounds[..n + 1] else rounds[..n])
  }
}
