/** The agent's turn loop over a conversation: model replies, tool results, injected messages,
    nudges, forced answers, eviction, truncation and compaction.

    What the model, the tools, the hooks, the evaluator and the user do is arbitrary: it is
    chosen afresh at each point where the program consults them. */
module Agent {
  import opened Wrappers
  import opened Conversation
  import opened Compaction
  import opened Text
  import opened Turn

  const FIT_CONTEXT_PCT := 85
  const DEFAULT_KEEP_TURNS := 10

  datatype CompactConfig = CompactConfig(
    auto: bool, ctxSize: int, compactAtPct: int, evictAtPct: int, keepTurns: int, keepTools: int)

  /** How many tokens a conversation costs, how a tool call's arguments name a path and how
      an invalid byte sequence is repaired. */
  datatype Outside = Outside(tokens: seq<Message> -> nat, path: PathReader, valid: string -> string)

  ghost predicate Repairs(o: Outside) {
    forall s :: |o.valid(s)| <= |s|
  }

  /** What a compaction leaves: the system prompt, the goal, the summary and a verbatim tail. */
  function Spliced(msgs: seq<Message>, goal: nat, summary: Message, boundary: nat): seq<Message>
    requires goal < |msgs| && boundary <= |msgs|
  {
    [msgs[0], msgs[goal], summary] + msgs[boundary..]
  }

  /** How many messages a compaction keeps as they are. */
  function KeptTurns(keepTurns: int): int {
    if keepTurns < 1 then DEFAULT_KEEP_TURNS else keepTurns
  }

  /** goal is the first user message, and something lies between it and the tail from boundary, which holds at
      least the last keepTurns messages. */
  ghost predicate CanSplice(msgs: seq<Message>, keepTurns: int, goal: nat, boundary: nat) {
    && goal + 1 < boundary <= |msgs| && msgs[goal].role == User
    && (forall i :: 0 <= i < goal ==> msgs[i].role != User)
    && IsBoundary(msgs, KeptTurns(keepTurns), boundary) && boundary <= |msgs| - KeptTurns(keepTurns)
  }

  ghost predicate CanCompact(msgs: seq<Message>, keepTurns: int) {
    exists goal: nat, boundary: nat :: CanSplice(msgs, keepTurns, goal, boundary)
  }

  ghost predicate SplicedAt(msgs: seq<Message>, keepTurns: int, summary: string, after: seq<Message>,
                            goal: nat, boundary: nat)
  {
    CanSplice(msgs, keepTurns, goal, boundary) && after == Spliced(msgs, goal, UserMessage(summary), boundary)
  }

  ghost predicate CompactedTo(msgs: seq<Message>, keepTurns: int, summary: string, after: seq<Message>) {
    exists goal: nat, boundary: nat :: SplicedAt(msgs, keepTurns, summary, after, goal, boundary)
  }

  ghost predicate IsFirstUser(msgs: seq<Message>, m: Message) {
    exists i :: 0 <= i < |msgs| && msgs[i] == m && m.role == User && forall j :: 0 <= j < i ==> msgs[j].role != User
  }

  /** What evicting old tool results makes of a conversation. */
  ghost function Evicted(msgs: seq<Message>, path: PathReader, keepTools: int, protectFrom: int): seq<Message> {
    EvictedTo(msgs, path, keepTools, protectFrom, |msgs|)
  }

  /** An eviction before the kept tail, when it saves anything. */
  ghost predicate TailSparingEviction(msgs: seq<Message>, path: PathReader, c: CompactConfig, after: seq<Message>) {
    exists b: nat :: IsBoundary(msgs, c.keepTurns, b) && SavingEviction(msgs, path, c.keepTools, b, after)
  }

  ghost predicate SavingEviction(msgs: seq<Message>, path: PathReader, keepTools: int, b: nat, after: seq<Message>) {
    var out := Evicted(msgs, path, keepTools, b);
    after == if Bytes(out) < Bytes(msgs) then out else msgs
  }

  /** The conversation before, and the given result for each call, in call order. */
  ghost predicate Answered(before: seq<Message>, calls: seq<Call>, result: nat -> string, after: seq<Message>) {
    && |after| == |before| + |calls| && after[..|before|] == before
    && forall k :: 0 <= k < |calls| ==> after[|before| + k] == ResultOf(calls[k], result(k))
  }

  // ----- Cutting contents

  /** The largest content after the first message's, the first of those as large, when it is worth cutting. */
  predicate IsLargest(msgs: seq<Message>, i: nat) {
    && 1 <= i < |msgs| && |msgs[i].content| >= 256
    && (forall j :: 1 <= j < |msgs| ==> |msgs[j].content| <= |msgs[i].content|)
    && (forall j :: 1 <= j < i ==> |msgs[j].content| < |msgs[i].content|)
  }

  /** Message i keeps the first half of its content, and says so. */
  function CutAt(o: Outside, msgs: seq<Message>, i: nat): seq<Message>
    requires i < |msgs|
  {
    msgs[i := msgs[i].(content := o.valid(msgs[i].content[..|msgs[i].content| / 2]) + MARKER)]
  }

  /** One cut after another, each of what is largest by then, while it does not fit. */
  ghost predicate CutsTo(o: Outside, limit: int, msgs: seq<Message>, cuts: seq<nat>, after: seq<Message>)
    decreases |cuts|
  {
    if cuts == [] then after == msgs
    else
      && o.tokens(msgs) > limit && IsLargest(msgs, cuts[0])
      && CutsTo(o, limit, CutAt(o, msgs, cuts[0]), cuts[1..], after)
  }

  lemma {:induction false} OneMoreCut(o: Outside, limit: int, msgs: seq<Message>, cuts: seq<nat>, after: seq<Message>, i: nat)
    requires CutsTo(o, limit, msgs, cuts, after) && o.tokens(after) > limit && IsLargest(after, i)
    ensures CutsTo(o, limit, msgs, cuts + [i], CutAt(o, after, i))
    decreases |cuts|
  {
    if cuts == [] {
      assert [i][1..] == [] && cuts + [i] == [i];
    } else {
      OneMoreCut(o, limit, CutAt(o, msgs, cuts[0]), cuts[1..], after, i);
      assert (cuts + [i])[1..] == cuts[1..] + [i];
    }
  }

  lemma SpliceKeepsBlocks(msgs: seq<Message>, goal: nat, summary: string, boundary: nat)
    requires WholeBlocks(msgs) && goal < |msgs| && msgs[goal].role == User && msgs[0].role != Tool
    requires boundary <= |msgs| && (boundary < |msgs| ==> msgs[boundary].role != Tool)
    ensures WholeBlocks(Spliced(msgs, goal, UserMessage(summary), boundary))
  {
    TailKeepsBlocks(msgs, boundary, [msgs[0], msgs[goal], UserMessage(summary)]);
  }

  lemma {:induction false} BytesAfter(msgs: seq<Message>, i: nat, content: string)
    requires i < |msgs|
    ensures Bytes(msgs[i := msgs[i].(content := content)]) == Bytes(msgs) - |msgs[i].content| + |content|
    decreases |msgs|
  {
    var after := msgs[i := msgs[i].(content := content)];
    if i < |msgs| - 1 {
      assert after[..|after| - 1] == msgs[..|msgs| - 1][i := msgs[i].(content := content)];
      BytesAfter(msgs[..|msgs| - 1], i, content);
    } else {
      assert after[..|after| - 1] == msgs[..|msgs| - 1];
    }
  }

  /** What one turn has done so far: main model calls, tool calls executed (by name and
      arguments), evaluator pushes, hook pushes, and the injected texts that arrived and
      that the model was shown. */
  datatype Tally = Tally(modelCalls: nat, executed: multiset<string>, pushes: nat, blocks: nat,
                         arrived: seq<string>, shown: seq<string>)

  ghost predicate WithinBudget(b: Budget, t: Tally) {
    && (b.maxToolCalls > 0 ==> |t.executed| <= b.maxToolCalls)
    && (b.maxRepeatedToolCalls > 0 ==> forall s :: t.executed[s] <= b.maxRepeatedToolCalls)
    && t.pushes <= MAX_AUTO_CONTINUE && t.blocks <= MAX_STOP_BLOCKS
  }

  /** The counters of a turn agree with what it did. */
  ghost predicate Counted(b: Budget, t: Tally, modelRounds: nat, toolCalls: nat, repeated: multiset<string>,
                          pushes: nat, blocks: nat)
  {
    && WithinBudget(b, t)
    && t.modelCalls == modelRounds && |t.executed| == toolCalls && t.pushes == pushes && t.blocks == blocks
    && (b.maxModelRounds > 0 ==> modelRounds <= b.maxModelRounds)
    && (b.maxRepeatedToolCalls > 0 ==> t.executed == repeated)
  }

  /** Where a turn stands after k rounds that passed. */
  ghost predicate Standing(b: Budget, topLevel: bool, rounds: seq<Round>, k: nat, t: Tally,
                           toolCalls: nat, repeated: multiset<string>, pushes: nat, blocks: nat)
    requires k <= |rounds|
  {
    && Counted(b, t, k, toolCalls, repeated, pushes, blocks) && t.executed == CallsIn(rounds[..k])
    && pushes == PushesIn(rounds[..k], topLevel) && blocks == BlocksIn(rounds[..k], topLevel)
  }

  /** What a turn that ends in round k for this reason has done. */
  ghost predicate DoneBy(b: Budget, topLevel: bool, rounds: seq<Round>, k: nat, why: Ending, t: Tally)
    requires k < |rounds|
  {
    && EndsIn(b, topLevel, rounds, k, why) && WithinBudget(b, t)
    && t.executed == Executed(rounds, k, why) && t.modelCalls == ModelCalls(k, why)
    && t.pushes == PushesIn(rounds[..k], topLevel) && t.blocks == BlocksIn(rounds[..k], topLevel)
  }

  /** What the end of a turn leaves open: nothing, the last message, or, after a reply that repeats itself, also that
      reply when it calls tools. */
  ghost predicate LeavesAnswered(msgs: seq<Message>, why: Ending, rounds: seq<Round>, n: nat) {
    match why
    case ToolBudget => AnsweredUpTo(msgs, |msgs| - 1) && msgs != [] && msgs[|msgs| - 1].calls != []
    case RoundBudget => AnsweredUpTo(msgs, |msgs| - 1)
    case FutileEdits => AnsweredUpTo(msgs, |msgs| - 1)
    case Repetition =>
      n < |rounds| && rounds[n].reply.Some? && rounds[n].reply.value.calls == [] ==> AnsweredUpTo(msgs, |msgs| - 1)
    case _ => AllAnswered(msgs)
  }

  /** The last answer, as the turn leaves it. */
  function Spoken(rounds: seq<Round>, n: nat, topLevel: bool): Message
    requires n < |rounds| && rounds[n].reply.Some?
  {
    JudgedTo([ReplyMessage(rounds[n].reply.value)], rounds[n], topLevel, PushesIn(rounds[..n], topLevel))[0]
  }

  lemma SpokenIs(msgs: seq<Message>, rounds: seq<Round>, k: nat, topLevel: bool)
    requires k < |rounds| && rounds[k].reply.Some? && msgs != [] && msgs[|msgs| - 1] == ReplyMessage(rounds[k].reply.value)
    ensures var judged := JudgedTo(msgs, rounds[k], topLevel, PushesIn(rounds[..k], topLevel));
            |judged| == |msgs| && judged[|msgs| - 1] == Spoken(rounds, k, topLevel)
  {
  }

  // ----- How a round ends

  /** Before anything is executed or pushed. */
  lemma EndsEarly(b: Budget, topLevel: bool, rounds: seq<Round>, k: nat, t: Tally, toolCalls: nat,
                  repeated: multiset<string>, pushes: nat, blocks: nat, why: Ending, after: Tally)
    requires k < |rounds| && Standing(b, topLevel, rounds, k, t, toolCalls, repeated, pushes, blocks)
    requires why != FutileEdits && EndsIn(b, topLevel, rounds, k, why)
    requires after == t.(arrived := after.arrived, shown := after.shown, modelCalls := ModelCalls(k, why))
    ensures DoneBy(b, topLevel, rounds, k, why, after)
  {
  }

  lemma BatchPasses(b: Budget, topLevel: bool, rounds: seq<Round>, k: nat, t: Tally, total: nat, counted: multiset<string>,
                    pushes: nat, blocks: nat)
    requires k < |rounds| && Heard(b, rounds[k], k) && BatchRuns(b, rounds, k) && !rounds[k].futileEdits
    requires t.executed == CallsIn(rounds[..k]) + Signatures(rounds[k].reply.value.calls)
    requires Counted(b, t, k + 1, total, counted, pushes, blocks)
    requires pushes == PushesIn(rounds[..k], topLevel) && blocks == BlocksIn(rounds[..k], topLevel)
    ensures Passes(b, topLevel, rounds, k) && Standing(b, topLevel, rounds, k + 1, t, total, counted, pushes, blocks)
  {
    OneMoreRound(rounds, k, topLevel);
  }

  lemma FutileEnds(b: Budget, topLevel: bool, rounds: seq<Round>, k: nat, t: Tally, total: nat, counted: multiset<string>,
                   pushes: nat, blocks: nat)
    requires k < |rounds| && Heard(b, rounds[k], k) && BatchRuns(b, rounds, k) && rounds[k].futileEdits
    requires t.executed == CallsIn(rounds[..k]) + Signatures(rounds[k].reply.value.calls)
    requires Counted(b, t, k + 1, total, counted, pushes, blocks)
    requires pushes == PushesIn(rounds[..k], topLevel) && blocks == BlocksIn(rounds[..k], topLevel)
    ensures DoneBy(b, topLevel, rounds, k, FutileEdits, t.(modelCalls := k + 2))
  {
    OneMoreRound(rounds, k, topLevel);
    assert Executed(rounds, k, FutileEdits) == CallsIn(rounds[..k + 1]);
  }

  lemma AnswerPasses(b: Budget, topLevel: bool, rounds: seq<Round>, k: nat, t: Tally, toolCalls: nat,
                     repeated: multiset<string>, pushes: nat, blocks: nat, after: Tally, pushed: nat, blocked: nat)
    requires k < |rounds| && Standing(b, topLevel, rounds, k, t, toolCalls, repeated, pushes, blocks)
    requires Heard(b, rounds[k], k) && IsAnswer(rounds[k]) && KeptGoing(topLevel, rounds, k)
    requires pushed == pushes + (if Pushed(rounds[k], topLevel, pushes) then 1 else 0)
    requires blocked == blocks + (if Hooked(rounds[k], topLevel, pushes, blocks) then 1 else 0)
    requires after.executed == t.executed && Counted(b, after, k + 1, toolCalls, repeated, pushed, blocked)
    ensures Passes(b, topLevel, rounds, k) && Standing(b, topLevel, rounds, k + 1, after, toolCalls, repeated, pushed, blocked)
  {
    OneMoreRound(rounds, k, topLevel);
    assert Signatures(rounds[k].reply.value.calls) == multiset{};
  }

  /** A turn that took k whole rounds and goes on. */
  ghost predicate OnCourse(b: Budget, topLevel: bool, rounds: seq<Round>, k: nat, t: Tally,
                           toolCalls: nat, repeated: multiset<string>, pushes: nat, blocks: nat)
  {
    && k <= |rounds| && Standing(b, topLevel, rounds, k, t, toolCalls, repeated, pushes, blocks)
    && AllPass(b, topLevel, rounds, k)
  }

  lemma GoesOn(b: Budget, topLevel: bool, rounds: seq<Round>, k: nat, t: Tally,
               toolCalls: nat, repeated: multiset<string>, pushes: nat, blocks: nat)
    requires k < |rounds| && Standing(b, topLevel, rounds, k + 1, t, toolCalls, repeated, pushes, blocks)
    requires Passes(b, topLevel, rounds, k) && AllPass(b, topLevel, rounds, k)
    ensures OnCourse(b, topLevel, rounds, k + 1, t, toolCalls, repeated, pushes, blocks)
  {
  }

  /** A turn that took n whole rounds and ended. */
  ghost predicate Finished(b: Budget, topLevel: bool, rounds: seq<Round>, n: nat, why: Ending, t: Tally) {
    && n <= |rounds| && AllPass(b, topLevel, rounds, n) && WithinBudget(b, t)
    && (n == |rounds| ==> why == CutOff) && (n < |rounds| ==> EndsIn(b, topLevel, rounds, n, why))
    && t.executed == Executed(rounds, n, why) && t.modelCalls == ModelCalls(n, why)
    && t.pushes == PushesIn(rounds[..n], topLevel) && t.blocks == BlocksIn(rounds[..n], topLevel)
    && (b.maxModelRounds > 0 ==> t.modelCalls <= b.maxModelRounds + 1)
  }

  lemma FinishesIn(b: Budget, topLevel: bool, rounds: seq<Round>, k: nat, before: Tally, toolCalls: nat,
                   repeated: multiset<string>, pushes: nat, blocks: nat, why: Ending, t: Tally)
    requires OnCourse(b, topLevel, rounds, k, before, toolCalls, repeated, pushes, blocks)
    requires k < |rounds| && DoneBy(b, topLevel, rounds, k, why, t)
    ensures Finished(b, topLevel, rounds, k, why, t)
  {
  }

  lemma StartsOnCourse(b: Budget, topLevel: bool, rounds: seq<Round>)
    ensures OnCourse(b, topLevel, rounds, 0, Tally(0, multiset{}, 0, 0, [], []), 0, multiset{}, 0, 0)
  {
    assert rounds[..0] == [];
  }

  lemma FinishesCutOff(b: Budget, topLevel: bool, rounds: seq<Round>, t: Tally, toolCalls: nat, repeated: multiset<string>,
                       pushes: nat, blocks: nat)
    requires OnCourse(b, topLevel, rounds, |rounds|, t, toolCalls, repeated, pushes, blocks)
    ensures Finished(b, topLevel, rounds, |rounds|, CutOff, t)
  {
    assert rounds[..|rounds|] == rounds;
  }

  datatype AfterAnswer = Continue | PushedOn | HookBlocked | Ended

  class Agent {
    var messages: seq<Message>
    var injected: seq<string>
    const cfg: CompactConfig
    const budget: Budget
    const topLevel: bool
    const outside: Outside

    /** The conversation starts with a message that is neither a tool result nor the goal,
        and every tool block is whole. */
    ghost predicate Valid()
      reads this
    {
      && messages != [] && messages[0].role in {System, NoRole}
      && WholeBlocks(messages) && Repairs(outside)
    }

    constructor (systemPrompt: string, cfg: CompactConfig, budget: Budget, topLevel: bool, outside: Outside)
      requires Repairs(outside)
      ensures Valid() && messages == [Message(System, systemPrompt, [], "", "")] && injected == []
    {
      this.messages := [Message(System, systemPrompt, [], "", "")];
      this.injected := [];
      this.cfg, this.budget, this.topLevel, this.outside := cfg, budget, topLevel, outside;
    }

    /** Halves the largest content, the first message's excepted, until the conversation fits
        or nothing is left that is worth cutting. Every cut frees at least 97 bytes. */
    method TruncateLargest(limit: int) returns (changed: bool, ghost cuts: seq<nat>)
      requires Valid()
      modifies this`messages
      ensures Valid() && SameButContent(old(messages), messages) && messages[0] == old(messages)[0]
      ensures outside.tokens(messages) <= limit || forall i :: 1 <= i < |messages| ==> |messages[i].content| < 256
      ensures changed <==> cuts != []
      ensures CutsTo(outside, limit, old(messages), cuts, messages)
      ensures Bytes(messages) + 97 * |cuts| <= Bytes(old(messages))
    {
      changed, cuts := false, [];
      while outside.tokens(messages) > limit
        invariant Valid() && SameButContent(old(messages), messages) && messages[0] == old(messages)[0]
        invariant changed <==> cuts != []
        invariant CutsTo(outside, limit, old(messages), cuts, messages)
        invariant Bytes(messages) + 97 * |cuts| <= Bytes(old(messages))
        decreases Bytes(messages)
      {
        var idx, max := Largest();
        if idx < 0 || max < 256 {
          return;
        }
        OneMoreCut(outside, limit, old(messages), cuts, messages, idx);
        CutContent(idx);
        changed, cuts := true, cuts + [idx as nat];
      }
    }

    method Largest() returns (idx: int, max: nat)
      requires messages != []
      ensures idx < 0 ==> max == 0 && forall k :: 1 <= k < |messages| ==> |messages[k].content| == 0
      ensures idx >= 0 ==> 1 <= idx < |messages| && max == |messages[idx].content|
      ensures idx >= 0 ==> forall k :: 1 <= k < |messages| ==> |messages[k].content| <= max
      ensures idx >= 0 ==> forall k :: 1 <= k < idx ==> |messages[k].content| < max
    {
      idx, max := -1, 0;
      for i := 1 to |messages|
        invariant idx == -1 ==> max == 0
        invariant idx != -1 ==> 1 <= idx < i && max == |messages[idx].content|
        invariant forall k :: 1 <= k < i ==> |messages[k].content| <= max
        invariant forall k :: 1 <= k < idx ==> |messages[k].content| < max
      {
        if |messages[i].content| > max {
          idx, max := i, |messages[i].content|;
        }
      }
    }

    method CutContent(idx: nat)
      requires Valid() && 1 <= idx < |messages| && |messages[idx].content| >= 256
      modifies this`messages
      ensures Valid() && messages == CutAt(outside, old(messages), idx)
      ensures Bytes(messages) + 97 <= Bytes(old(messages))
    {
      var cut := outside.valid(messages[idx].content[..|messages[idx].content| / 2]) + MARKER;
      assert |MARKER| == 31;
      BytesAfter(messages, idx, cut);
      RewritingKeepsBlocks(messages, messages[idx := messages[idx].(content := cut)]);
      messages := messages[idx := messages[idx].(content := cut)];
    }

    /** The backstop before every model call: evict, then truncate, until the request fits. */
    method FitContext()
      requires Valid()
      modifies this`messages
      ensures Valid() && SameButContent(old(messages), messages) && messages[0] == old(messages)[0]
      ensures cfg.ctxSize <= 0 ==> messages == old(messages)
      ensures var limit := cfg.ctxSize * FIT_CONTEXT_PCT / 100;
              var evicted := Evicted(old(messages), outside.path, 1, |old(messages)|);
              cfg.ctxSize > 0 ==>
                && (outside.tokens(old(messages)) <= limit ==> messages == old(messages))
                && (outside.tokens(old(messages)) > limit && outside.tokens(evicted) <= limit ==> messages == evicted)
                && (outside.tokens(old(messages)) > limit ==> exists cuts :: CutsTo(outside, limit, evicted, cuts, messages))
                && (outside.tokens(messages) <= limit || forall i :: 1 <= i < |messages| ==> |messages[i].content| < 256)
    {
      if cfg.ctxSize <= 0 {
        return;
      }
      var limit := cfg.ctxSize * FIT_CONTEXT_PCT / 100;
      if outside.tokens(messages) <= limit {
        return;
      }
      var out, _ := EvictToolResults(messages, outside.path, 1, |messages|);
      EvictionIsRewriting(messages, outside.path, 1, |messages|, out);
      assert out == Evicted(messages, outside.path, 1, |messages|);
      RewritingKeepsBlocks(messages, out);
      messages := out;
      if outside.tokens(messages) <= limit {
        assert CutsTo(outside, limit, out, [], messages);
        return;
      }
      var _, cuts := TruncateLargest(limit);
      assert CutsTo(outside, limit, out, cuts, messages);
    }

    /** Replaces what lies between the first user message and the kept tail by a summary: what the
        model answered, None when it gave no valid one. */
    method CompactNow(summary: Option<string>) returns (done: bool)
      requires Valid()
      modifies this`messages
      ensures Valid()
      ensures done <==> summary.Some? && CanCompact(old(messages), cfg.keepTurns)
      ensures !done ==> messages == old(messages)
      ensures done ==> CompactedTo(old(messages), cfg.keepTurns, summary.value, messages)
      ensures done ==> |messages| > 3 && messages[0] == old(messages)[0] && IsFirstUser(old(messages), messages[1])
                       && messages[2] == UserMessage(summary.value)
                       && exists b :: 0 <= b <= |old(messages)| && messages[3..] == old(messages)[b..]
      ensures AllAnswered(old(messages)) ==> AllAnswered(messages)
    {
      var keepTurns := cfg.keepTurns;
      if keepTurns < 1 {
        keepTurns := DEFAULT_KEEP_TURNS;
      }
      var goal := FirstUserIndex(messages);
      if goal < 0 {
        return false;
      }
      var boundary := SafeBoundary(messages, keepTurns);
      if boundary <= goal + 1 || summary.None? {
        NothingBetween(messages, cfg.keepTurns, goal, boundary);
        return false;
      }
      assert CanSplice(messages, cfg.keepTurns, goal, boundary);
      SpliceKeepsBlocks(messages, goal, summary.value, boundary);
      if AllAnswered(messages) {
        TailKeepsAnswered(messages, boundary, [messages[0], messages[goal], UserMessage(summary.value)]);
      }
      messages := [messages[0], messages[goal], UserMessage(summary.value)] + messages[boundary..];
      assert SplicedAt(old(messages), cfg.keepTurns, summary.value, messages, goal, boundary);
      return true;
    }

    /** The auto-compaction cascade, run where no tool call waits for its result. */
    method MaybeCompact(summary: Option<string>)
      requires Valid()
      modifies this`messages
      ensures Valid() && messages[0] == old(messages)[0]
      ensures !cfg.auto || !topLevel || cfg.ctxSize <= 0 ==> messages == old(messages)
      ensures cfg.auto && topLevel && cfg.ctxSize > 0 ==>
                var pct := outside.tokens(old(messages)) * 100 / cfg.ctxSize;
                if cfg.compactAtPct > 0 && pct >= cfg.compactAtPct then
                  if summary.Some? && CanCompact(old(messages), cfg.keepTurns)
                  then CompactedTo(old(messages), cfg.keepTurns, summary.value, messages)
                  else messages == old(messages)
                else if cfg.evictAtPct > 0 && pct >= cfg.evictAtPct then
                  TailSparingEviction(old(messages), outside.path, cfg, messages)
                else messages == old(messages)
      ensures AllAnswered(old(messages)) ==> AllAnswered(messages)
    {
      if !cfg.auto || !topLevel || cfg.ctxSize <= 0 {
        return;
      }
      var pct := outside.tokens(messages) * 100 / cfg.ctxSize;
      if cfg.compactAtPct > 0 && pct >= cfg.compactAtPct {
        var _ := CompactNow(summary);
      } else if cfg.evictAtPct > 0 && pct >= cfg.evictAtPct {
        var boundary := SafeBoundary(messages, cfg.keepTurns);
        var out, freed := EvictToolResults(messages, outside.path, cfg.keepTools, boundary);
        EvictionIsRewriting(messages, outside.path, cfg.keepTools, boundary, out);
        RewritingKeepsBlocks(messages, out);
        if AllAnswered(messages) { RewritingKeepsAnswered(messages, out, |messages|); }
        if freed > 0 {
          messages := out;
        }
        assert out == Evicted(old(messages), outside.path, cfg.keepTools, boundary);
        assert SavingEviction(old(messages), outside.path, cfg.keepTools, boundary, messages);
      }
    }

    method Append(m: Message)
      requires Valid() && m.role != Tool
      modifies this`messages
      ensures Valid() && messages == old(messages) + [m]
    {
      AppendPlain(messages, m);
      messages := messages + [m];
    }

    method RewriteLast(content: string)
      requires Valid() && |messages| > 1
      modifies this`messages
      ensures Valid()
      ensures messages
              == old(messages)[|old(messages)| - 1 := old(messages)[|old(messages)| - 1].(content := content)]
    {
      var last := |messages| - 1;
      RewritingKeepsBlocks(messages, messages[last := messages[last].(content := content)]);
      messages := messages[last := messages[last].(content := content)];
    }

    /** Replaces the conversation by a saved one; the live system prompt stays. The blocks are whole again
        when those of the saved conversation are. */
    method SetMessages(saved: seq<Message>)
      modifies this`messages
      ensures WholeBlocks(saved) ==> WholeBlocks(messages)
      ensures old(Valid()) && WholeBlocks(saved) ==> Valid()
      ensures messages != [] && messages[0]
              == if old(messages) != [] && old(messages)[0].role == System then old(messages)[0]
                 else Message(NoRole, "", [], "", "")
      ensures messages[1..] == if saved != [] && saved[0].role == System then saved[1..] else saved
    {
      var sys := Message(NoRole, "", [], "", "");
      if |messages| > 0 && messages[0].role == System {
        sys := messages[0];
      }
      var from := if |saved| > 0 && saved[0].role == System then 1 else 0;
      if WholeBlocks(saved) {
        NoLeadingResult(saved, from);
        TailKeepsBlocks(saved, from, [sys]);
      }
      messages := [sys] + saved[from..];
    }

    /** Appends the results of the last message's calls, all of them, in call order. */
    method AppendToolResults(calls: seq<Call>, result: nat -> string)
      requires Valid() && messages[|messages| - 1].role == Assistant && messages[|messages| - 1].calls == calls
      modifies this`messages
      ensures Valid() && Answered(old(messages), calls, result, messages)
      ensures AnsweredUpTo(old(messages), |old(messages)| - 1) ==> AllAnswered(messages)
    {
      ghost var before := messages;
      ghost var answers: seq<Message> := [];
      for k := 0 to |calls|
        invariant messages == before + answers && |answers| == k
        invariant forall j :: 0 <= j < k ==> answers[j] == ResultOf(calls[j], result(j))
      {
        messages := messages + [ResultOf(calls[k], result(k))];
        answers := answers + [ResultOf(calls[k], result(k))];
      }
      AppendResults(before, answers);
      if AnsweredUpTo(before, |before| - 1) { AnsweredByResults(before, answers); }
    }

    /** One model call: the context is fitted first. */
    method CallModel(given: Option<Reply>) returns (reply: Option<Message>)
      requires Valid()
      modifies this`messages
      ensures Valid() && SameButContent(old(messages), messages) && messages[0] == old(messages)[0]
      ensures reply == if given.Some? then Some(ReplyMessage(given.value)) else None
      ensures forall n :: AnsweredUpTo(old(messages), n) ==> AnsweredUpTo(messages, n)
    {
      FitContext();
      forall n | AnsweredUpTo(old(messages), n) ensures AnsweredUpTo(messages, n) {
        RewritingKeepsAnswered(old(messages), messages, n);
      }
      return if given.Some? then Some(ReplyMessage(given.value)) else None;
    }

    /** Asks for a last reply with a prompt of its own. */
    method AskLast(prompt: string, given: Option<Reply>) returns (reply: Option<Message>)
      requires Valid()
      modifies this`messages
      ensures Valid() && messages[0] == old(messages)[0] && |messages| == |old(messages)| + 1
      ensures SameButContent(old(messages), messages[..|old(messages)|]) && messages[|old(messages)|].role == User
      ensures reply == if given.Some? then Some(ReplyMessage(given.value)) else None
      ensures AllAnswered(old(messages)) ==> AllAnswered(messages)
    {
      ghost var was := messages;
      Append(UserMessage(prompt));
      if AllAnswered(was) { AnsweredAppend(was, UserMessage(prompt)); }
      reply := CallModel(given);
    }

    /** Asks for a final answer without tools. */
    method ForceAnswer(given: Option<Reply>)
      requires Valid()
      modifies this`messages
      ensures Valid() && messages[0] == old(messages)[0]
      ensures |messages| == |old(messages)| + (if given.Some? then 2 else 1)
      ensures SameButContent(old(messages), messages[..|old(messages)|])
      ensures messages[|old(messages)|].role == User
      ensures given.Some? ==> messages[|old(messages)| + 1] == ReplyMessage(given.value)
      ensures AllAnswered(old(messages)) ==> AnsweredUpTo(messages, |messages| - 1)
    {
      var reply := AskLast("Stop calling tools.", given);
      if reply.Some? {
        if AllAnswered(messages) { AnsweredAppend(messages, reply.value); }
        Append(reply.value);
      }
    }

    /** Asks for a wrap-up; an empty or failed one takes its prompt away again. */
    method BudgetStop(given: Option<Reply>)
      requires Valid()
      modifies this`messages
      ensures Valid() && messages[0] == old(messages)[0]
      ensures var kept := given.Some? && TrimSpace(given.value.content) != "";
              && |messages| == |old(messages)| + (if kept then 2 else 0)
              && (kept ==> messages[|old(messages)|].role == User && messages[|old(messages)| + 1] == ReplyMessage(given.value))
      ensures SameButContent(old(messages), messages[..|old(messages)|])
      ensures AllAnswered(old(messages)) ==> AnsweredUpTo(messages, |messages| - 1)
    {
      var reply := AskLast("You have reached this turn's work limit.", given);
      if reply.None? || TrimSpace(reply.value.content) == "" {
        TakeBackPrompt();
        return;
      }
      if AllAnswered(messages) { AnsweredAppend(messages, reply.value); }
      Append(reply.value);
    }

    method TakeBackPrompt()
      requires Valid() && |messages| > 1 && messages[|messages| - 1].role == User
      modifies this`messages
      ensures Valid() && messages == old(messages)[..|old(messages)| - 1]
      ensures AllAnswered(old(messages)) ==> AllAnswered(messages)
    {
      if AllAnswered(messages) { DropLastAnswered(messages); }
      DropLastPlain(messages);
      messages := messages[..|messages| - 1];
    }

    /** Delivers what was injected, as user messages, where no tool call waits for its result. */
    method DeliverInjected() returns (shown: seq<string>)
      requires Valid()
      modifies this`messages, this`injected
      ensures Valid() && injected == [] && shown == old(injected)
      ensures |messages| == |old(messages)| + |shown| && messages[..|old(messages)|] == old(messages)
      ensures forall k :: 0 <= k < |shown| ==> messages[|old(messages)| + k] == UserMessage(shown[k])
      ensures AllAnswered(old(messages)) ==> AllAnswered(messages)
    {
      shown := injected;
      injected := [];
      for k := 0 to |shown|
        invariant Valid() && injected == [] && |messages| == |old(messages)| + k
        invariant messages[..|old(messages)|] == old(messages)
        invariant forall j :: 0 <= j < k ==> messages[|old(messages)| + j] == UserMessage(shown[j])
        invariant AllAnswered(old(messages)) ==> AllAnswered(messages)
      {
        if AllAnswered(messages) { AnsweredAppend(messages, UserMessage(shown[k])); }
        Append(UserMessage(shown[k]));
      }
    }

    /** Whether a batch leaves every call within its limit. */
    ghost predicate RepeatsAllowed(seen: multiset<string>, calls: seq<Call>) {
      budget.maxRepeatedToolCalls > 0 ==>
        NoneOver(seen + Signatures(calls), budget.maxRepeatedToolCalls)
    }

    /** Counts each call of a batch; false once one has been asked for too often. */
    method CountRepeats(calls: seq<Call>, seen: multiset<string>) returns (ok: bool, counted: multiset<string>)
      requires budget.maxRepeatedToolCalls > 0 ==> forall s :: seen[s] <= budget.maxRepeatedToolCalls
      ensures ok <==> RepeatsAllowed(seen, calls)
      ensures ok && budget.maxRepeatedToolCalls > 0 ==> counted == seen + Signatures(calls)
    {
      ok, counted := true, seen;
      if budget.maxRepeatedToolCalls <= 0 {
        return;
      }
      for k := 0 to |calls|
        invariant counted == seen + Signatures(calls[..k])
        invariant forall s :: counted[s] <= budget.maxRepeatedToolCalls
      {
        assert calls[..k + 1][..k] == calls[..k];
        counted := counted + multiset{Signature(calls[k])};
        if counted[Signature(calls[k])] > budget.maxRepeatedToolCalls {
          SignaturesGrow(calls, k + 1, Signature(calls[k]));
          assert counted == seen + Signatures(calls[..k + 1]);
          assert (seen + Signatures(calls))[Signature(calls[k])] > budget.maxRepeatedToolCalls;
          return false, counted;
        }
      }
      assert calls[..|calls|] == calls;
    }

    /** Texts arrive while something is under way. */
    method Receive(arrived: seq<string>, ghost had: seq<string>, ghost t: Tally) returns (ghost after: Tally)
      requires had + t.arrived == t.shown + injected
      modifies this`injected
      ensures after == t.(arrived := t.arrived + arrived) && had + after.arrived == after.shown + injected
      ensures injected == old(injected) + arrived
    {
      Arrives(had, t.arrived, t.shown, injected, arrived);
      injected := injected + arrived;
      after := t.(arrived := t.arrived + arrived);
    }

    /** What follows an answer without tool calls: a waiting message keeps the turn going; otherwise the
        evaluator or a Stop hook may push it onward, each only so often. Messages may arrive while either is
        asked, and these do not keep the turn from ending. */
    method AfterFinalAnswer(r: Round, pushes: nat, blocks: nat, ghost had: seq<string>, ghost t: Tally)
      returns (next: AfterAnswer, ghost after: Tally)
      requires Valid() && |messages| > 1 && had + t.arrived == t.shown + injected && injected == r.during
      modifies this`messages, this`injected
      ensures Valid() && messages[0] == old(messages)[0]
      ensures after == t.(arrived := after.arrived) && had + after.arrived == after.shown + injected
      ensures next == if r.during != [] then Continue
                      else if Pushed(r, topLevel, pushes) then PushedOn
                      else if Hooked(r, topLevel, pushes, blocks) then HookBlocked else Ended
      ensures injected == old(injected)
                          + (if Judged(r, topLevel, pushes) then r.whileJudged else [])
                          + (if next == HookBlocked || next == Ended then r.whileHooked else [])
      ensures messages == JudgedTo(old(messages), r, topLevel, pushes)
                          + (if next == PushedOn then [UserMessage("Continue with the plan.")]
                             else if next == HookBlocked then [UserMessage(r.hook)] else [])
    {
      after := t;
      if injected != [] {
        return Continue, after;
      }
      if topLevel && pushes < MAX_AUTO_CONTINUE && r.planMoved {
        var goOn;
        goOn, after := Evaluate(r, pushes, had, after);
        if goOn {
          return PushedOn, after;
        }
      }
      after := Receive(r.whileHooked, had, after);
      if r.hook != "" && blocks < MAX_STOP_BLOCKS {
        Append(UserMessage(r.hook));
        return HookBlocked, after;
      }
      return Ended, after;
    }

    method NoteUnavailable()
      requires Valid() && |messages| > 1
      modifies this`messages
      ensures Valid() && messages[0] == old(messages)[0] && messages == Noted(old(messages))
    {
      RewriteLast(WithStatus(messages[|messages| - 1].content));
    }

    /** What the evaluator makes of an answer with an open plan. */
    method Evaluate(r: Round, ghost pushes: nat, ghost had: seq<string>, ghost t: Tally) returns (goOn: bool, ghost after: Tally)
      requires Valid() && |messages| > 1 && had + t.arrived == t.shown + injected && Judged(r, topLevel, pushes)
      modifies this`messages, this`injected
      ensures Valid() && messages[0] == old(messages)[0]
      ensures after == t.(arrived := t.arrived + r.whileJudged) && had + after.arrived == after.shown + injected
      ensures goOn == Pushed(r, topLevel, pushes) && injected == old(injected) + r.whileJudged
      ensures goOn ==> messages == JudgedTo(old(messages), r, topLevel, pushes) + [UserMessage("Continue with the plan.")]
      ensures !goOn ==> messages == JudgedTo(old(messages), r, topLevel, pushes)
    {
      after := Receive(r.whileJudged, had, t);
      goOn := r.verdict == GoOn;
      if r.verdict == Unavailable {
        NoteUnavailable();
      } else if goOn {
        Append(UserMessage("Continue with the plan."));
      }
    }

    /** Shows the model, at the top of a round, whatever arrived before it. */
    method TakeInjected(arrived: seq<string>, ghost had: seq<string>, ghost t: Tally) returns (ghost after: Tally)
      requires Valid() && had + t.arrived == t.shown + injected
      modifies this`messages, this`injected
      ensures Valid() && injected == [] && messages[0] == old(messages)[0]
      ensures after == t.(arrived := t.arrived + arrived, shown := t.shown + old(injected) + arrived)
      ensures had + after.arrived == after.shown + injected
      ensures |messages| == |old(messages)| + |old(injected)| + |arrived| && messages[..|old(messages)|] == old(messages)
      ensures AllAnswered(old(messages)) ==> AllAnswered(messages)
    {
      after := Receive(arrived, had, t);
      var shown := DeliverInjected();
      after := after.(shown := after.shown + shown);
    }

    /** One round's model call, at a clean boundary: compaction first, the reply recorded. */
    method AskModel(summary: Option<string>, given: Option<Reply>) returns (reply: Option<Message>)
      requires Valid()
      modifies this`messages
      ensures Valid() && messages[0] == old(messages)[0]
      ensures reply == if given.Some? then Some(ReplyMessage(given.value)) else None
      ensures reply.Some? ==> |messages| > 1 && messages[|messages| - 1] == reply.value
      ensures AllAnswered(old(messages)) ==>
                if reply.Some? then AnsweredUpTo(messages, |messages| - 1) else AllAnswered(messages)
    {
      MaybeCompact(summary);
      reply := CallModel(given);
      if reply.Some? {
        if AllAnswered(messages) { AnsweredAppend(messages, reply.value); }
        Append(reply.value);
      }
    }

    /** An answer without tool calls ends the turn unless something keeps it going. */
    method EndOrPush(r: Round, ghost had: seq<string>, ghost t: Tally, pushes: nat, blocks: nat,
                     ghost modelRounds: nat, ghost toolCalls: nat, ghost repeated: multiset<string>)
      returns (ended: bool, pushed: nat, blocked: nat, ghost after: Tally)
      requires Valid() && |messages| > 1 && had + t.arrived == t.shown + injected && injected == []
      requires Counted(budget, t, modelRounds, toolCalls, repeated, pushes, blocks) && AsksNothing(messages[|messages| - 1])
      modifies this`messages, this`injected
      ensures Valid() && had + after.arrived == after.shown + injected && messages[0] == old(messages)[0]
      ensures Counted(budget, after, modelRounds, toolCalls, repeated, pushed, blocked)
      ensures after == t.(arrived := after.arrived, pushes := pushed, blocks := blocked)
      ensures pushed == pushes + (if Pushed(r, topLevel, pushes) then 1 else 0)
      ensures blocked == blocks + (if Hooked(r, topLevel, pushes, blocks) then 1 else 0)
      ensures ended <==> r.during == [] && pushed == pushes && blocked == blocks
      ensures r.during != [] ==> injected == r.during && messages == old(messages)
      ensures ended ==> messages == JudgedTo(old(messages), r, topLevel, pushes)
      ensures AllAnswered(old(messages)) ==> AllAnswered(messages)
    {
      pushed, blocked := pushes, blocks;
      after := Receive(r.during, had, t);
      var next;
      next, after := AfterFinalAnswer(r, pushes, blocks, had, after);
      if next == PushedOn {
        pushed := pushes + 1;
        after := after.(pushes := pushed);
      } else if next == HookBlocked {
        blocked := blocks + 1;
        after := after.(blocks := blocked);
      }
      ended := next == Ended;
      if AllAnswered(old(messages)) {
        JudgedAnswered(old(messages), r, topLevel, pushes);
        if next == PushedOn || next == HookBlocked {
          AnsweredAppend(JudgedTo(old(messages), r, topLevel, pushes), messages[|messages| - 1]);
        }
      }
    }

    /** Whether the budgets let a batch run, and the counters when they do. */
    method AdmitBatch(calls: seq<Call>, toolCalls: nat, repeated: multiset<string>)
      returns (ok: bool, total: nat, counted: multiset<string>)
      requires budget.maxRepeatedToolCalls > 0 ==> forall s :: repeated[s] <= budget.maxRepeatedToolCalls
      ensures ok <==> (budget.maxToolCalls > 0 ==> toolCalls + |calls| <= budget.maxToolCalls) && RepeatsAllowed(repeated, calls)
      ensures ok ==> total == toolCalls + |calls|
      ensures ok && budget.maxRepeatedToolCalls > 0 ==> counted == repeated + Signatures(calls)
    {
      total, counted := toolCalls + |calls|, repeated;
      if budget.maxToolCalls > 0 && total > budget.maxToolCalls {
        return false, total, counted;
      }
      ok, counted := CountRepeats(calls, repeated);
    }

    /** One round's tool calls, run together or, where a budget forbids it, not at all. */
    method ToolRound(assistant: Message, result: nat -> string, modelRounds: nat, toolCalls: nat, repeated: multiset<string>,
                     ghost t: Tally, ghost pushes: nat, ghost blocks: nat)
      returns (ran: bool, total: nat, counted: multiset<string>, ghost after: Tally)
      requires Valid() && messages[|messages| - 1] == assistant && assistant.role == Assistant
      requires Counted(budget, t, modelRounds, toolCalls, repeated, pushes, blocks)
      modifies this`messages
      ensures Valid() && messages[0] == old(messages)[0]
      ensures !ran ==> after == t && messages == old(messages)
      ensures ran <==> BatchFits(budget, t.executed, assistant.calls)
      ensures ran ==> Counted(budget, after, modelRounds, total, counted, pushes, blocks)
                      && after == t.(executed := t.executed + Signatures(assistant.calls))
      ensures ran ==> Answered(old(messages), assistant.calls, result, messages)
      ensures ran && AnsweredUpTo(old(messages), |old(messages)| - 1) ==> AllAnswered(messages)
    {
      ran, total, counted := AdmitBatch(assistant.calls, toolCalls, repeated);
      if !ran {
        after := t;
        return;
      }
      SignatureCount(assistant.calls);
      after := t.(executed := t.executed + Signatures(assistant.calls));
      AppendToolResults(assistant.calls, result);
    }

    /** Records the user's message and asks the prompt hook, which may stop the turn or add context. */
    method StartTurn(input: string, start: Start) returns (stopped: bool)
      requires Valid()
      modifies this`messages
      ensures Valid() && stopped == (topLevel && start.hookStops)
      ensures messages == old(messages) + [UserMessage(if topLevel && !start.hookStops && start.context != ""
                                                       then input + "\n\n" + start.context else input)]
      ensures AllAnswered(old(messages)) ==> AllAnswered(messages)
    {
      ghost var was := messages;
      Append(UserMessage(input));
      if AllAnswered(was) { AnsweredAppend(was, UserMessage(input)); }
      if topLevel && start.hookStops {
        return true;
      }
      if topLevel && start.context != "" {
        ghost var asked := messages;
        RewriteLast(input + "\n\n" + start.context);
        if AllAnswered(asked) { RewritingKeepsAnswered(asked, messages, |asked|); }
      }
      return false;
    }

    /** The model's answer, when it calls no tools. */
    method HearAnswer(ghost rounds: seq<Round>, ghost k: nat, r: Round, ghost had: seq<string>, ghost t: Tally,
                      ghost toolCalls: nat, ghost repeated: multiset<string>, pushes: nat, blocks: nat)
      returns (over: Option<Ending>, pushed: nat, blocked: nat, ghost after: Tally)
      requires Valid() && |messages| > 1 && had + t.arrived == t.shown + injected && injected == []
      requires k < |rounds| && r == rounds[k] && Heard(budget, r, k) && IsAnswer(r)
      requires messages[|messages| - 1] == ReplyMessage(r.reply.value)
      requires Standing(budget, topLevel, rounds, k, t.(modelCalls := k), toolCalls, repeated, pushes, blocks)
      requires t.modelCalls == k + 1
      modifies this`messages, this`injected
      ensures Valid() && messages[0] == old(messages)[0] && had + after.arrived == after.shown + injected
      ensures over.None? ==> Passes(budget, topLevel, rounds, k)
                             && Standing(budget, topLevel, rounds, k + 1, after, toolCalls, repeated, pushed, blocked)
      ensures over.Some? ==> over.value == FinalAnswer && DoneBy(budget, topLevel, rounds, k, FinalAnswer, after)
      ensures over.Some? ==> messages[|messages| - 1] == Spoken(rounds, k, topLevel)
      ensures AnsweredUpTo(old(messages), |old(messages)| - 1) ==> AllAnswered(messages)
    {
      var ended;
      ended, pushed, blocked, after := EndOrPush(r, had, t, pushes, blocks, k + 1, toolCalls, repeated);
      if ended {
        EndsEarly(budget, topLevel, rounds, k, t.(modelCalls := k), toolCalls, repeated, pushes, blocks, FinalAnswer, after);
        SpokenIs(old(messages), rounds, k, topLevel);
        return Some(FinalAnswer), pushed, blocked, after;
      }
      AnswerPasses(budget, topLevel, rounds, k, t.(modelCalls := k), toolCalls, repeated, pushes, blocks, after, pushed, blocked);
      over := None;
    }

    /** The model's reply, when it calls tools. */
    method CallTools(ghost rounds: seq<Round>, k: nat, r: Round, assistant: Message, ghost t: Tally,
                     toolCalls: nat, repeated: multiset<string>, ghost pushes: nat, ghost blocks: nat)
      returns (over: Option<Ending>, total: nat, counted: multiset<string>, ghost after: Tally)
      requires Valid() && messages[|messages| - 1] == assistant && r.reply.Some? && assistant == ReplyMessage(r.reply.value)
      requires k < |rounds| && r == rounds[k] && Heard(budget, r, k) && !IsAnswer(r)
      requires Standing(budget, topLevel, rounds, k, t.(modelCalls := k), toolCalls, repeated, pushes, blocks)
      requires t.modelCalls == k + 1
      modifies this`messages
      ensures Valid() && messages[0] == old(messages)[0] && after.arrived == t.arrived && after.shown == t.shown
      ensures over.None? ==> Passes(budget, topLevel, rounds, k)
                             && Standing(budget, topLevel, rounds, k + 1, after, total, counted, pushes, blocks)
      ensures over.Some? ==> over.value in {ToolBudget, FutileEdits} && DoneBy(budget, topLevel, rounds, k, over.value, after)
      ensures AnsweredUpTo(old(messages), |old(messages)| - 1) ==>
                if over.None? then AllAnswered(messages) else LeavesAnswered(messages, over.value, rounds, k)
    {
      var ran;
      ran, total, counted, after := ToolRound(assistant, r.result, k + 1, toolCalls, repeated, t, pushes, blocks);
      if !ran {
        EndsEarly(budget, topLevel, rounds, k, t.(modelCalls := k), toolCalls, repeated, pushes, blocks, ToolBudget, after);
        return Some(ToolBudget), total, counted, after;
      }
      if r.futileEdits {
        FutileEnds(budget, topLevel, rounds, k, after, total, counted, pushes, blocks);
        after := after.(modelCalls := k + 2);
        ForceAnswer(r.wrapUp);
        return Some(FutileEdits), total, counted, after;
      }
      BatchPasses(budget, topLevel, rounds, k, after, total, counted, pushes, blocks);
      over := None;
    }

    /** The head of a round: unless the turn was cancelled or has no round left, what has arrived is shown and the
        model is asked; a reply that repeats itself ends the turn with a last request. */
    method OpenRound(ghost rounds: seq<Round>, k: nat, r: Round, ghost had: seq<string>, ghost t: Tally,
                     ghost toolCalls: nat, ghost repeated: multiset<string>, ghost pushes: nat, ghost blocks: nat)
      returns (over: Option<Ending>, reply: Option<Message>, ghost after: Tally)
      requires Valid() && had + t.arrived == t.shown + injected && k < |rounds| && r == rounds[k]
      requires Standing(budget, topLevel, rounds, k, t, toolCalls, repeated, pushes, blocks)
      modifies this`messages, this`injected
      ensures Valid() && messages[0] == old(messages)[0] && had + after.arrived == after.shown + injected
      ensures over.None? ==> Heard(budget, r, k) && reply == Some(ReplyMessage(r.reply.value)) && injected == []
                             && |messages| > 1 && messages[|messages| - 1] == reply.value
                             && after == t.(arrived := after.arrived, shown := after.shown, modelCalls := k + 1)
      ensures over.Some? ==> over.value != FinalAnswer && DoneBy(budget, topLevel, rounds, k, over.value, after)
      ensures AllAnswered(old(messages)) ==>
                if over.None? then AnsweredUpTo(messages, |messages| - 1) else LeavesAnswered(messages, over.value, rounds, k)
    {
      after, reply := t, None;
      if r.cancelled {
        EndsEarly(budget, topLevel, rounds, k, t, toolCalls, repeated, pushes, blocks, Cancelled, after);
        return Some(Cancelled), None, after;
      }
      after := TakeInjected(r.before, had, t);
      if budget.maxModelRounds > 0 && k >= budget.maxModelRounds {
        after := after.(modelCalls := k + 1);
        EndsEarly(budget, topLevel, rounds, k, t, toolCalls, repeated, pushes, blocks, RoundBudget, after);
        BudgetStop(r.wrapUp);
        return Some(RoundBudget), None, after;
      }
      after := after.(modelCalls := k + 1);
      reply := AskModel(r.summary, r.reply);
      if reply.None? {
        EndsEarly(budget, topLevel, rounds, k, t, toolCalls, repeated, pushes, blocks, CallFailed, after);
        return Some(CallFailed), reply, after;
      }
      if r.repetition {
        after := after.(modelCalls := k + 2);
        EndsEarly(budget, topLevel, rounds, k, t, toolCalls, repeated, pushes, blocks, Repetition, after);
        RepeatsItself(r);
        return Some(Repetition), reply, after;
      }
      over := None;
    }

    /** One round. */
    method PlayRound(ghost rounds: seq<Round>, k: nat, r: Round, ghost had: seq<string>, ghost t: Tally,
                     toolCalls: nat, repeated: multiset<string>, pushes: nat, blocks: nat)
      returns (over: Option<Ending>, total: nat, counted: multiset<string>, pushed: nat, blocked: nat, ghost after: Tally)
      requires Valid() && had + t.arrived == t.shown + injected && k < |rounds| && r == rounds[k]
      requires Standing(budget, topLevel, rounds, k, t, toolCalls, repeated, pushes, blocks)
      modifies this`messages, this`injected
      ensures Valid() && messages[0] == old(messages)[0] && had + after.arrived == after.shown + injected
      ensures over.None? ==> Passes(budget, topLevel, rounds, k)
                             && Standing(budget, topLevel, rounds, k + 1, after, total, counted, pushed, blocked)
      ensures over.Some? ==> DoneBy(budget, topLevel, rounds, k, over.value, after)
      ensures over == Some(FinalAnswer) ==> messages[|messages| - 1] == Spoken(rounds, k, topLevel)
      ensures AllAnswered(old(messages)) ==>
                if over.None? then AllAnswered(messages) else LeavesAnswered(messages, over.value, rounds, k)
    {
      total, counted, pushed, blocked := toolCalls, repeated, pushes, blocks;
      var reply;
      over, reply, after := OpenRound(rounds, k, r, had, t, toolCalls, repeated, pushes, blocks);
      if over.Some? {
        return;
      }
      if |reply.value.calls| == 0 {
        over, pushed, blocked, after := HearAnswer(rounds, k, r, had, after, toolCalls, repeated, pushes, blocks);
      } else {
        over, total, counted, after := CallTools(rounds, k, r, reply.value, after, toolCalls, repeated, pushes, blocks);
      }
    }

    /** A reply that repeats itself is followed by a last request; its tool calls, if any, stay open. */
    method RepeatsItself(r: Round)
      requires Valid() && messages[|messages| - 1].role == Assistant
      modifies this`messages
      ensures Valid() && messages[0] == old(messages)[0]
      ensures AnsweredUpTo(old(messages), |old(messages)| - 1) && old(messages)[|old(messages)| - 1].calls == [] ==>
                AnsweredUpTo(messages, |messages| - 1)
    {
      ForceAnswer(r.wrapUp);
    }

    /** The rounds of a turn. */
    method PlayRounds(rounds: seq<Round>, ghost had: seq<string>) returns (ghost t: Tally, ghost n: nat, ghost why: Ending)
      requires Valid() && had == injected
      modifies this`messages, this`injected
      ensures Valid() && messages[0] == old(messages)[0] && had + t.arrived == t.shown + injected
      ensures Finished(budget, topLevel, rounds, n, why, t)
      ensures AllAnswered(old(messages)) ==> LeavesAnswered(messages, why, rounds, n)
      ensures why == FinalAnswer ==> messages[|messages| - 1] == Spoken(rounds, n, topLevel)
    {
      t := Tally(0, multiset{}, 0, 0, [], []);
      var stopBlocks, autoContinues, toolCalls := 0, 0, 0;
      var repeated: multiset<string> := multiset{};
      StartsOnCourse(budget, topLevel, rounds);
      for k := 0 to |rounds|
        invariant Valid() && messages[0] == old(messages)[0] && had + t.arrived == t.shown + injected
        invariant OnCourse(budget, topLevel, rounds, k, t, toolCalls, repeated, autoContinues, stopBlocks)
        invariant AllAnswered(old(messages)) ==> AllAnswered(messages)
      {
        ghost var before := t;
        var over, total, counted, pushed, blocked;
        over, total, counted, pushed, blocked, t :=
          PlayRound(rounds, k, rounds[k], had, t, toolCalls, repeated, autoContinues, stopBlocks);
        if over.Some? {
          FinishesIn(budget, topLevel, rounds, k, before, toolCalls, repeated, autoContinues, stopBlocks, over.value, t);
          return t, k, over.value;
        }
        GoesOn(budget, topLevel, rounds, k, t, total, counted, pushed, blocked);
        toolCalls, repeated, autoContinues, stopBlocks := total, counted, pushed, blocked;
      }
      FinishesCutOff(budget, topLevel, rounds, t, toolCalls, repeated, autoContinues, stopBlocks);
      return t, |rounds|, CutOff;
    }

    /** One user turn, as the world around it decides it round by round; when all rounds pass its context counts as
        cancelled. It takes the one course there is: every round before the last runs its whole batch, or is kept going. */
    method RunTurn(input: string, start: Start, rounds: seq<Round>) returns (ghost t: Tally, ghost n: nat, ghost why: Ending)
      requires Valid()
      modifies this`messages, this`injected
      ensures Valid() && messages[0] == old(messages)[0]
      ensures Course(budget, topLevel, start, rounds, n, why)
      ensures t.executed == Executed(rounds, n, why) && t.modelCalls == ModelCalls(n, why)
      ensures t.pushes == PushesIn(rounds[..n], topLevel) && t.blocks == BlocksIn(rounds[..n], topLevel)
      ensures WithinBudget(budget, t)
      ensures budget.maxModelRounds > 0 ==> t.modelCalls <= budget.maxModelRounds + 1
      ensures old(injected) + t.arrived == t.shown + injected
      ensures AllAnswered(old(messages)) ==> LeavesAnswered(messages, why, rounds, n)
      ensures why == FinalAnswer ==> messages[|messages| - 1] == Spoken(rounds, n, topLevel)
      ensures why == HookStopped ==> messages == old(messages) + [UserMessage(input)] && injected == old(injected)
    {
      var stopped := StartTurn(input, start);
      if stopped {
        t, n, why := Tally(0, multiset{}, 0, 0, [], []), 0, HookStopped;
        assert rounds[..0] == [];
        return;
      }
      t, n, why := PlayRounds(rounds, injected);
    }
  }

  /** A text with a line that says why the turn stopped. */
  function WithStatus(content: string): string {
    var text, status := TrimSpace(content), "[status: Evaluator unavailable; stopping with open plan.]";
    if text == "" then status else text + "\n\n" + status
  }

  function Noted(msgs: seq<Message>): seq<Message>
    requires msgs != []
  {
    var last := |msgs| - 1;
    msgs[last := msgs[last].(content := WithStatus(msgs[last].content))]
  }

  /** What asking the evaluator leaves of the answer: itself, or, when it was not available, the answer with a status. */
  function JudgedTo(msgs: seq<Message>, r: Round, topLevel: bool, pushes: nat): seq<Message>
    requires msgs != []
  {
    if Judged(r, topLevel, pushes) && r.verdict == Unavailable then Noted(msgs) else msgs
  }

  lemma JudgedAnswered(msgs: seq<Message>, r: Round, topLevel: bool, pushes: nat)
    requires msgs != [] && AllAnswered(msgs)
    ensures AllAnswered(JudgedTo(msgs, r, topLevel, pushes))
  {
    RewritingKeepsAnswered(msgs, JudgedTo(msgs, r, topLevel, pushes), |msgs|);
  }

  lemma OneMoreRound(rounds: seq<Round>, k: nat, topLevel: bool)
    requires k < |rounds|
    ensures var before, r := rounds[..k], rounds[k];
            && CallsIn(rounds[..k + 1])
               == CallsIn(before) + (if r.reply.Some? then Signatures(r.reply.value.calls) else multiset{})
            && PushesIn(rounds[..k + 1], topLevel)
               == PushesIn(before, topLevel) + (if IsAnswer(r) && Pushed(r, topLevel, PushesIn(before, topLevel)) then 1 else 0)
            && BlocksIn(rounds[..k + 1], topLevel)
               == BlocksIn(before, topLevel)
                  + (if IsAnswer(r) && Hooked(r, topLevel, PushesIn(before, topLevel), BlocksIn(before, topLevel)) then 1 else 0)
  {
    assert rounds[..k + 1][..k] == rounds[..k];
  }

  lemma NothingBetween(msgs: seq<Message>, keepTurns: int, goal: nat, boundary: nat)
    requires goal < |msgs| && msgs[goal].role == User && forall i :: 0 <= i < goal ==> msgs[i].role != User
    requires IsBoundary(msgs, KeptTurns(keepTurns), boundary)
    ensures CanCompact(msgs, keepTurns) ==> goal + 1 < boundary
  {
    if CanCompact(msgs, keepTurns) {
      var g, b :| CanSplice(msgs, keepTurns, g, b);
      OneBoundary(msgs, KeptTurns(keepTurns), boundary, b);
      assert g == goal;
    }
  }

  lemma Arrives(had: seq<string>, arrived: seq<string>, shown: seq<string>, waiting: seq<string>, more: seq<string>)
    requires had + arrived == shown + waiting
    ensures had + (arrived + more) == shown + (waiting + more)
  {
    assert had + (arrived + more) == (had + arrived) + more;
  }

  lemma NoLeadingResult(msgs: seq<Message>, from: nat)
    requires WholeBlocks(msgs) && from <= |msgs| && (from == 0 || (from == 1 && msgs[0].role == System))
    ensures from < |msgs| ==> msgs[from].role != Tool
  {
    assert from < |msgs| && msgs[from].role == Tool ==> InBlock(msgs, from);
  }
}
