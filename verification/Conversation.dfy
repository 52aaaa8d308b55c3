/** The messages of one conversation and the structure that must survive every rewrite of
    them: the results of a tool-calling message come all together, right after it, in the
    order of its calls - or not at all. */
module Conversation {
  datatype Role = System | User | Assistant | Tool | NoRole

  datatype Call = Call(id: string, name: string, args: string)

  /** content is a sequence of bytes, one char each. */
  datatype Message = Message(role: Role, content: string, calls: seq<Call>, callId: string, name: string)

  function UserMessage(text: string): Message {
    Message(User, text, [], "", "")
  }

  function ResultOf(c: Call, content: string): Message {
    Message(Tool, content, [], c.id, c.name)
  }

  predicate Answers(m: Message, c: Call) {
    m.role == Tool && m.callId == c.id && m.name == c.name
  }

  /** The message at a calls tools, and the messages after it are exactly their results. */
  ghost predicate BlockAt(msgs: seq<Message>, a: nat) {
    && a < |msgs| && msgs[a].role == Assistant
    && a + |msgs[a].calls| < |msgs|
    && forall k :: 0 <= k < |msgs[a].calls| ==> Answers(msgs[a + 1 + k], msgs[a].calls[k])
  }

  ghost predicate InBlock(msgs: seq<Message>, i: nat) {
    exists a: nat :: a < i && BlockAt(msgs, a) && i <= a + |msgs[a].calls|
  }

  /** Every tool result belongs to a complete block. */
  ghost predicate WholeBlocks(msgs: seq<Message>) {
    forall i :: 0 <= i < |msgs| && msgs[i].role == Tool ==> InBlock(msgs, i)
  }

  lemma BlockIsTools(msgs: seq<Message>, a: nat)
    requires BlockAt(msgs, a)
    ensures forall j :: a < j <= a + |msgs[a].calls| ==> msgs[j].role == Tool
  {
    forall j | a < j <= a + |msgs[a].calls| ensures msgs[j].role == Tool {
      assert Answers(msgs[a + 1 + (j - a - 1)], msgs[a].calls[j - a - 1]);
    }
  }

  /** A maximal run of tool results is one block: it starts right after the message it
      answers and has one result per call, in call order. */
  lemma RunsAreBlocks(msgs: seq<Message>, from: nat, to: nat)
    requires WholeBlocks(msgs) && from < to <= |msgs|
    requires forall i :: from <= i < to ==> msgs[i].role == Tool
    requires from == 0 || msgs[from - 1].role != Tool
    requires to == |msgs| || msgs[to].role != Tool
    ensures from > 0 && BlockAt(msgs, from - 1) && to - from == |msgs[from - 1].calls|
  {
    assert InBlock(msgs, from);
    var a: nat :| a < from && BlockAt(msgs, a) && from <= a + |msgs[a].calls|;
    BlockIsTools(msgs, a);
    var n := |msgs[a].calls|;
    if to > a + 1 + n {
      assert InBlock(msgs, a + 1 + n);
      var b: nat :| b < a + 1 + n && BlockAt(msgs, b) && a + 1 + n <= b + |msgs[b].calls|;
      BlockIsTools(msgs, b);
    }
  }

  // ----- What keeps blocks whole

  lemma AppendPlain(msgs: seq<Message>, m: Message)
    requires WholeBlocks(msgs) && m.role != Tool
    ensures WholeBlocks(msgs + [m])
  {
    var after := msgs + [m];
    forall i | 0 <= i < |after| && after[i].role == Tool ensures InBlock(after, i) {
      assert InBlock(msgs, i);
      var a: nat :| a < i && BlockAt(msgs, a) && i <= a + |msgs[a].calls|;
      assert BlockAt(after, a);
    }
  }

  ghost predicate ResultsOf(results: seq<Message>, calls: seq<Call>) {
    |results| == |calls| && forall k :: 0 <= k < |calls| ==> Answers(results[k], calls[k])
  }

  /** The only way results are added: all those of the last message, at once. */
  lemma AppendResults(msgs: seq<Message>, results: seq<Message>)
    requires WholeBlocks(msgs) && msgs != [] && msgs[|msgs| - 1].role == Assistant
    requires ResultsOf(results, msgs[|msgs| - 1].calls)
    ensures WholeBlocks(msgs + results)
  {
    var after, last := msgs + results, |msgs| - 1;
    assert BlockAt(after, last);
    forall i | 0 <= i < |after| && after[i].role == Tool ensures InBlock(after, i) {
      if i < |msgs| {
        assert InBlock(msgs, i);
        var a: nat :| a < i && BlockAt(msgs, a) && i <= a + |msgs[a].calls|;
        assert BlockAt(after, a);
      }
    }
  }

  /** The same messages up to what they say. */
  ghost predicate SameButContent(a: seq<Message>, b: seq<Message>) {
    |a| == |b| && forall i :: 0 <= i < |a| ==> b[i] == a[i].(content := b[i].content)
  }

  lemma RewritingKeepsBlocks(a: seq<Message>, b: seq<Message>)
    requires WholeBlocks(a) && SameButContent(a, b)
    ensures WholeBlocks(b)
  {
    forall i | 0 <= i < |b| && b[i].role == Tool ensures InBlock(b, i) {
      assert InBlock(a, i);
      var n: nat :| n < i && BlockAt(a, n) && i <= n + |a[n].calls|;
      forall k | 0 <= k < |b[n].calls| ensures Answers(b[n + 1 + k], b[n].calls[k]) {
        assert Answers(a[n + 1 + k], a[n].calls[k]);
      }
      assert BlockAt(b, n);
    }
  }

  lemma DropLastPlain(msgs: seq<Message>)
    requires WholeBlocks(msgs) && msgs != [] && msgs[|msgs| - 1].role != Tool
    ensures WholeBlocks(msgs[..|msgs| - 1])
  {
    var after := msgs[..|msgs| - 1];
    forall i | 0 <= i < |after| && after[i].role == Tool ensures InBlock(after, i) {
      assert InBlock(msgs, i);
      var a: nat :| a < i && BlockAt(msgs, a) && i <= a + |msgs[a].calls|;
      var n := |msgs[a].calls|;
      BlockIsTools(msgs, a);
      forall k | 0 <= k < n ensures Answers(after[a + 1 + k], after[a].calls[k]) {
        assert Answers(msgs[a + 1 + k], msgs[a].calls[k]);
      }
      assert BlockAt(after, a);
    }
  }

  /** Cutting off everything before a message that is no tool result splits no block. */
  lemma TailKeepsBlocks(msgs: seq<Message>, from: nat, head: seq<Message>)
    requires WholeBlocks(msgs) && from <= |msgs| && (from < |msgs| ==> msgs[from].role != Tool)
    requires forall i :: 0 <= i < |head| ==> head[i].role != Tool
    ensures WholeBlocks(head + msgs[from..])
  {
    var after := head + msgs[from..];
    forall i | 0 <= i < |after| && after[i].role == Tool ensures InBlock(after, i) {
      var old_ := i - |head| + from;
      assert InBlock(msgs, old_);
      var a: nat :| a < old_ && BlockAt(msgs, a) && old_ <= a + |msgs[a].calls|;
      BlockIsTools(msgs, a);
      var b := a - from + |head|;
      assert after[b] == msgs[a];
      forall k | 0 <= k < |after[b].calls| ensures Answers(after[b + 1 + k], after[b].calls[k]) {
        assert Answers(msgs[a + 1 + k], msgs[a].calls[k]);
        assert after[b + 1 + k] == msgs[a + 1 + k];
      }
      assert BlockAt(after, b);
    }
  }

  // ----- Calls that were answered

  /** Each of the first n messages that calls tools has its results right behind it. */
  ghost predicate AnsweredUpTo(msgs: seq<Message>, n: int) {
    forall a: nat :: a < n && a < |msgs| && msgs[a].role == Assistant && msgs[a].calls != [] ==> BlockAt(msgs, a)
  }

  ghost predicate AllAnswered(msgs: seq<Message>) {
    AnsweredUpTo(msgs, |msgs|)
  }

  predicate AsksNothing(m: Message) {
    m.role != Assistant || m.calls == []
  }

  lemma BlockStays(msgs: seq<Message>, more: seq<Message>, a: nat)
    requires BlockAt(msgs, a)
    ensures BlockAt(msgs + more, a)
  {
    var after := msgs + more;
    forall k | 0 <= k < |after[a].calls| ensures Answers(after[a + 1 + k], after[a].calls[k]) {
      assert Answers(msgs[a + 1 + k], msgs[a].calls[k]);
    }
  }

  /** Whatever follows leaves answered what was. */
  lemma AnsweredStays(msgs: seq<Message>, more: seq<Message>)
    requires AllAnswered(msgs)
    ensures AnsweredUpTo(msgs + more, |msgs|)
  {
    var after := msgs + more;
    forall a: nat | a < |msgs| && after[a].role == Assistant && after[a].calls != [] ensures BlockAt(after, a) {
      assert BlockAt(msgs, a);
      BlockStays(msgs, more, a);
    }
  }

  lemma AnsweredAppend(msgs: seq<Message>, m: Message)
    requires AllAnswered(msgs)
    ensures AnsweredUpTo(msgs + [m], |msgs|)
    ensures AsksNothing(m) ==> AllAnswered(msgs + [m])
  {
    AnsweredStays(msgs, [m]);
  }

  /** The results of the last message's calls answer it. */
  lemma AnsweredByResults(msgs: seq<Message>, results: seq<Message>)
    requires msgs != [] && AnsweredUpTo(msgs, |msgs| - 1) && ResultsOf(results, msgs[|msgs| - 1].calls)
    ensures AllAnswered(msgs + results)
  {
    var after, last := msgs + results, |msgs| - 1;
    ResultsAreTools(results, msgs[last].calls);
    forall a: nat | a < |after| && after[a].role == Assistant && after[a].calls != [] ensures BlockAt(after, a) {
      assert a < |msgs|;
      if a < last {
        assert BlockAt(msgs, a);
        BlockStays(msgs, results, a);
      }
    }
  }

  lemma ResultsAreTools(results: seq<Message>, calls: seq<Call>)
    requires ResultsOf(results, calls)
    ensures forall m :: m in results ==> m.role == Tool
  {
    forall m | m in results ensures m.role == Tool {
      var k :| 0 <= k < |results| && results[k] == m;
      assert Answers(results[k], calls[k]);
    }
  }

  lemma RewritingKeepsAnswered(a: seq<Message>, b: seq<Message>, n: int)
    requires AnsweredUpTo(a, n) && SameButContent(a, b)
    ensures AnsweredUpTo(b, n)
  {
    forall i: nat | i < n && i < |b| && b[i].role == Assistant && b[i].calls != [] ensures BlockAt(b, i) {
      assert BlockAt(a, i);
      forall k | 0 <= k < |b[i].calls| ensures Answers(b[i + 1 + k], b[i].calls[k]) {
        assert Answers(a[i + 1 + k], a[i].calls[k]);
      }
    }
  }

  lemma TailKeepsAnswered(msgs: seq<Message>, from: nat, head: seq<Message>)
    requires AllAnswered(msgs) && from <= |msgs| && forall i :: 0 <= i < |head| ==> AsksNothing(head[i])
    ensures AllAnswered(head + msgs[from..])
  {
    var after := head + msgs[from..];
    forall b: nat | b < |after| && after[b].role == Assistant && after[b].calls != [] ensures BlockAt(after, b) {
      var a := b - |head| + from;
      assert b >= |head| && after[b] == msgs[a];
      assert BlockAt(msgs, a);
      forall k | 0 <= k < |after[b].calls| ensures Answers(after[b + 1 + k], after[b].calls[k]) {
        assert Answers(msgs[a + 1 + k], msgs[a].calls[k]);
        assert after[b + 1 + k] == msgs[a + 1 + k];
      }
    }
  }

  lemma DropLastAnswered(msgs: seq<Message>)
    requires AllAnswered(msgs) && msgs != [] && msgs[|msgs| - 1].role != Tool
    ensures AllAnswered(msgs[..|msgs| - 1])
  {
    var after := msgs[..|msgs| - 1];
    forall a: nat | a < |after| && after[a].role == Assistant && after[a].calls != [] ensures BlockAt(after, a) {
      assert BlockAt(msgs, a);
      BlockIsTools(msgs, a);
      forall k | 0 <= k < |after[a].calls| ensures Answers(after[a + 1 + k], after[a].calls[k]) {
        assert Answers(msgs[a + 1 + k], msgs[a].calls[k]);
      }
    }
  }
}
