/** Fitting a conversation into the model's context: eviction of old tool output, truncation
    of the largest contents and the summary that replaces a whole prefix. */
module Compaction {
  import opened Conversation

  /** Reads the file a call's arguments name, "" when they name none. */
  type PathReader = string -> string

  const ELIDED_PREFIX := "[output elided to save context - re-run "
  const ELIDED_SUFFIX := " to retrieve it]"
  const READ_FILE := "read_file"
  const MARKER := "\n... [truncated to fit context]"

  function Elided(name: string): string {
    if name == "" then "[output elided to save context - re-run the tool to retrieve it]"
    else ELIDED_PREFIX + name + ELIDED_SUFFIX
  }

  // ----- Eviction: what it means

  /** The path a call id reads, by the last call of that id that names one. */
  function PathIn(calls: seq<Call>, path: PathReader, id: string, otherwise: string): string {
    if calls == [] then otherwise
    else
      var c := calls[|calls| - 1];
      if c.name == READ_FILE && c.id == id && path(c.args) != "" then path(c.args)
      else PathIn(calls[..|calls| - 1], path, id, otherwise)
  }

  function PathOf(msgs: seq<Message>, path: PathReader, id: string): string {
    if msgs == [] then ""
    else PathIn(msgs[|msgs| - 1].calls, path, id, PathOf(msgs[..|msgs| - 1], path, id))
  }

  /** How many tool results msgs holds. */
  function Tools(msgs: seq<Message>): (n: nat)
    ensures n <= |msgs|
  {
    if msgs == [] then 0
    else Tools(msgs[..|msgs| - 1]) + (if msgs[|msgs| - 1].role == Tool then 1 else 0)
  }

  ghost predicate ReadAgainLater(msgs: seq<Message>, path: PathReader, i: nat)
    requires i < |msgs|
  {
    exists j :: i < j < |msgs| && msgs[j].role == Tool
                && PathOf(msgs, path, msgs[j].callId) == PathOf(msgs, path, msgs[i].callId)
  }

  /** A tool result before protectFrom that is either older than the last keepTools results
      or the output of a file that is read again later. */
  ghost predicate Evictable(msgs: seq<Message>, path: PathReader, keepTools: int, protectFrom: int, i: nat)
    requires i < |msgs|
  {
    && msgs[i].role == Tool && i < protectFrom
    && (|| Tools(msgs) - Tools(msgs[..i]) > (if keepTools < 0 then 0 else keepTools)
        || (PathOf(msgs, path, msgs[i].callId) != "" && ReadAgainLater(msgs, path, i)))
  }

  // ----- Which results are too old

  /** rank numbers the marked places from 0 on. */
  ghost predicate Ranked(marked: seq<bool>, rank: seq<nat>) {
    && |rank| == |marked| + 1 && rank[0] == 0
    && forall n :: 0 <= n < |marked| ==> rank[n + 1] == rank[n] + (if marked[n] then 1 else 0)
  }

  /** The marked places among the first n of a rank below fewer. */
  ghost function LowRanked(marked: seq<bool>, rank: seq<nat>, n: nat, fewer: int): set<nat>
    requires n <= |marked| < |rank|
  {
    set i: nat | i < n && marked[i] && rank[i] < fewer
  }

  lemma {:induction false} LowRankedCount(marked: seq<bool>, rank: seq<nat>, n: nat, fewer: int)
    requires Ranked(marked, rank) && n <= |marked|
    ensures |LowRanked(marked, rank, n, fewer)| == if fewer < 0 then 0 else if fewer < rank[n] then fewer else rank[n]
  {
    if n == 0 {
      assert LowRanked(marked, rank, 0, fewer) == {};
    } else {
      LowRankedCount(marked, rank, n - 1, fewer);
      var before := LowRanked(marked, rank, n - 1, fewer);
      if marked[n - 1] && rank[n - 1] < fewer {
        assert LowRanked(marked, rank, n, fewer) == before + {n - 1};
      } else {
        assert LowRanked(marked, rank, n, fewer) == before;
      }
    }
  }

  lemma {:induction false} RankGrows(marked: seq<bool>, rank: seq<nat>, j: nat, i: nat)
    requires Ranked(marked, rank) && j <= i <= |marked|
    ensures rank[j] <= rank[i]
  {
    if j < i { RankGrows(marked, rank, j, i - 1); }
  }

  function ToolMarks(msgs: seq<Message>): seq<bool> {
    seq(|msgs|, i requires 0 <= i < |msgs| => msgs[i].role == Tool)
  }

  function ToolRanks(msgs: seq<Message>): seq<nat> {
    seq(|msgs| + 1, n requires 0 <= n <= |msgs| => Tools(msgs[..n]))
  }

  lemma ToolRankNext(msgs: seq<Message>, n: nat)
    requires n < |msgs|
    ensures ToolRanks(msgs)[n + 1] == ToolRanks(msgs)[n] + (if ToolMarks(msgs)[n] then 1 else 0)
  {
    BytesStep(msgs, n);
  }

  lemma ToolRankEnds(msgs: seq<Message>)
    ensures ToolRanks(msgs)[0] == 0 && ToolRanks(msgs)[|msgs|] == Tools(msgs)
  {
    assert msgs[..|msgs|] == msgs && msgs[..0] == [];
  }

  lemma ToolsRanked(msgs: seq<Message>)
    ensures Ranked(ToolMarks(msgs), ToolRanks(msgs)) && ToolRanks(msgs)[|msgs|] == Tools(msgs)
  {
    ToolRankEnds(msgs);
    var marked, rank := ToolMarks(msgs), ToolRanks(msgs);
    forall n | 0 <= n < |marked| ensures rank[n + 1] == rank[n] + (if marked[n] then 1 else 0) {
      ToolRankNext(msgs, n);
    }
  }

  /** The results too old to keep. */
  ghost function OldResults(msgs: seq<Message>, keepTools: nat): set<nat> {
    LowRanked(ToolMarks(msgs), ToolRanks(msgs), |msgs|, Tools(msgs) - keepTools)
  }

  /** A tool result goes exactly when it is too old or read again later. */
  lemma EvictedForAgeOrReadAgain(msgs: seq<Message>, path: PathReader, keepTools: nat, i: nat)
    requires i < |msgs| && msgs[i].role == Tool
    ensures Evictable(msgs, path, keepTools, |msgs|, i) <==>
              i in OldResults(msgs, keepTools) || (PathOf(msgs, path, msgs[i].callId) != "" && ReadAgainLater(msgs, path, i))
  {
    assert ToolMarks(msgs)[i] && ToolRanks(msgs)[i] == Tools(msgs[..i]);
  }

  lemma LowestFirst(marked: seq<bool>, rank: seq<nat>, fewer: int, j: nat, i: nat)
    requires Ranked(marked, rank) && j < i < |marked| && marked[j] && i in LowRanked(marked, rank, |marked|, fewer)
    ensures j in LowRanked(marked, rank, |marked|, fewer)
  {
    RankGrows(marked, rank, j, i);
  }

  lemma ExcessCount(marked: seq<bool>, rank: seq<nat>, total: nat, keep: nat)
    requires Ranked(marked, rank) && rank[|marked|] == total
    ensures |LowRanked(marked, rank, |marked|, total - keep)| == if total > keep then total - keep else 0
  {
    LowRankedCount(marked, rank, |marked|, total - keep);
  }

  /** As many are too old as there are more than keepTools. */
  lemma OldAreTheExcess(msgs: seq<Message>, keepTools: nat)
    ensures |OldResults(msgs, keepTools)| == if Tools(msgs) > keepTools then Tools(msgs) - keepTools else 0
  {
    ToolsRanked(msgs);
    ExcessCount(ToolMarks(msgs), ToolRanks(msgs), Tools(msgs), keepTools);
  }

  /** And these are the oldest. */
  lemma OnlyTheOldestGo(msgs: seq<Message>, keepTools: nat, j: nat, i: nat)
    requires j < i < |msgs| && msgs[j].role == Tool && i in OldResults(msgs, keepTools)
    ensures j in OldResults(msgs, keepTools)
  {
    ToolsRanked(msgs);
    LowestFirst(ToolMarks(msgs), ToolRanks(msgs), Tools(msgs) - keepTools, j, i);
  }

  /** out is msgs with exactly the evictable results replaced by their placeholder. */
  ghost predicate EvictedFrom(msgs: seq<Message>, path: PathReader, keepTools: int, protectFrom: int, out: seq<Message>) {
    && |out| == |msgs|
    && forall i :: 0 <= i < |msgs| ==> out[i] == EvictedAt(msgs, path, keepTools, protectFrom, i)
  }

  /** The bytes a conversation's contents hold. */
  function Bytes(msgs: seq<Message>): nat {
    if msgs == [] then 0 else Bytes(msgs[..|msgs| - 1]) + |msgs[|msgs| - 1].content|
  }

  // ----- Eviction: the loops

  function Known(paths: map<string, string>, id: string): string {
    if id in paths then paths[id] else ""
  }

  /** The calls of one message, each that names a file overriding what its id read before. */
  method ReadCalls(calls: seq<Call>, path: PathReader, before: map<string, string>) returns (out: map<string, string>)
    ensures forall id :: Known(out, id) == PathIn(calls, path, id, Known(before, id))
  {
    out := before;
    for k := 0 to |calls|
      invariant forall id :: Known(out, id) == PathIn(calls[..k], path, id, Known(before, id))
    {
      assert calls[..k + 1][..k] == calls[..k];
      if calls[k].name == READ_FILE {
        var p := path(calls[k].args);
        if p != "" {
          out := out[calls[k].id := p];
        }
      }
    }
    assert calls[..|calls|] == calls;
  }

  method ReadPaths(msgs: seq<Message>, path: PathReader) returns (out: map<string, string>)
    ensures forall id :: Known(out, id) == PathOf(msgs, path, id)
  {
    out := map[];
    for i := 0 to |msgs|
      invariant forall id :: Known(out, id) == PathOf(msgs[..i], path, id)
    {
      assert msgs[..i + 1][..i] == msgs[..i];
      out := ReadCalls(msgs[i].calls, path, out);
    }
    assert msgs[..|msgs|] == msgs;
  }

  /** The index of the last tool result of each path. */
  ghost predicate LatestReads(msgs: seq<Message>, path: PathReader, n: nat, latest: map<string, nat>)
    requires n <= |msgs|
  {
    && (forall p :: p in latest ==>
          latest[p] < n && msgs[latest[p]].role == Tool && PathOf(msgs, path, msgs[latest[p]].callId) == p && p != "")
    && (forall j :: 0 <= j < n && msgs[j].role == Tool && PathOf(msgs, path, msgs[j].callId) != "" ==>
          PathOf(msgs, path, msgs[j].callId) in latest && j <= latest[PathOf(msgs, path, msgs[j].callId)])
  }

  method FindLatestReads(msgs: seq<Message>, path: PathReader, paths: map<string, string>)
    returns (latest: map<string, nat>)
    requires forall id :: Known(paths, id) == PathOf(msgs, path, id)
    ensures LatestReads(msgs, path, |msgs|, latest)
  {
    latest := map[];
    for i := 0 to |msgs|
      invariant LatestReads(msgs, path, i, latest)
    {
      if msgs[i].role == Tool {
        var p := Known(paths, msgs[i].callId);
        if p != "" {
          latest := latest[p := i];
        }
      }
    }
  }

  lemma StaleIsReadAgain(msgs: seq<Message>, path: PathReader, latest: map<string, nat>, i: nat)
    requires LatestReads(msgs, path, |msgs|, latest) && i < |msgs| && msgs[i].role == Tool
    requires PathOf(msgs, path, msgs[i].callId) != ""
    ensures PathOf(msgs, path, msgs[i].callId) in latest
    ensures latest[PathOf(msgs, path, msgs[i].callId)] != i <==> ReadAgainLater(msgs, path, i)
  {
    var p := PathOf(msgs, path, msgs[i].callId);
    if latest[p] != i {
      assert i < latest[p] && msgs[latest[p]].role == Tool;
    }
  }

  lemma {:induction false} ToolsMonotone(msgs: seq<Message>, i: nat)
    requires i <= |msgs|
    ensures Tools(msgs[..i]) <= Tools(msgs)
    decreases |msgs|
  {
    if i < |msgs| {
      assert msgs[..|msgs| - 1][..i] == msgs[..i];
      ToolsMonotone(msgs[..|msgs| - 1], i);
    } else {
      assert msgs[..i] == msgs;
    }
  }

  method CountTools(msgs: seq<Message>) returns (total: nat)
    ensures total == Tools(msgs)
  {
    total := 0;
    for i := 0 to |msgs|
      invariant total == Tools(msgs[..i])
    {
      assert msgs[..i + 1][..i] == msgs[..i];
      if msgs[i].role == Tool {
        total := total + 1;
      }
    }
    assert msgs[..|msgs|] == msgs;
  }

  ghost function EvictedAt(msgs: seq<Message>, path: PathReader, keepTools: int, protectFrom: int, i: nat): Message
    requires i < |msgs|
  {
    if Evictable(msgs, path, keepTools, protectFrom, i) then msgs[i].(content := Elided(msgs[i].name)) else msgs[i]
  }

  /** Decides one tool result. */
  method EvictOne(msgs: seq<Message>, path: PathReader, keepTools: int, protectFrom: int, i: nat, pos: nat,
                  paths: map<string, string>, latest: map<string, nat>, keepFrom: int) returns (m: Message)
    requires i < |msgs| && msgs[i].role == Tool && pos == Tools(msgs[..i])
    requires forall id :: Known(paths, id) == PathOf(msgs, path, id)
    requires LatestReads(msgs, path, |msgs|, latest)
    requires keepFrom == Tools(msgs) - (if keepTools < 0 then 0 else keepTools)
    ensures m == EvictedAt(msgs, path, keepTools, protectFrom, i)
  {
    if i >= protectFrom {
      return msgs[i];
    }
    var p := Known(paths, msgs[i].callId);
    if p != "" {
      StaleIsReadAgain(msgs, path, latest, i);
    }
    var staleRead := p != "" && latest[p] != i;
    var oldResult := pos < keepFrom;
    if !staleRead && !oldResult {
      return msgs[i];
    }
    return msgs[i].(content := Elided(msgs[i].name));
  }

  lemma BytesStep(msgs: seq<Message>, i: nat)
    requires i < |msgs|
    ensures Bytes(msgs[..i + 1]) == Bytes(msgs[..i]) + |msgs[i].content|
    ensures Tools(msgs[..i + 1]) == Tools(msgs[..i]) + (if msgs[i].role == Tool then 1 else 0)
  {
    assert msgs[..i + 1][..i] == msgs[..i];
  }

  ghost function EvictedTo(msgs: seq<Message>, path: PathReader, keepTools: int, protectFrom: int, n: nat): seq<Message>
    requires n <= |msgs|
  {
    seq(n, k requires 0 <= k < n => EvictedAt(msgs, path, keepTools, protectFrom, k))
  }

  lemma EvictedStep(msgs: seq<Message>, path: PathReader, keepTools: int, protectFrom: int, i: nat,
                    out: seq<Message>, m: Message)
    requires i < |msgs| && out == EvictedTo(msgs, path, keepTools, protectFrom, i)
    requires m == EvictedAt(msgs, path, keepTools, protectFrom, i)
    ensures out + [m] == EvictedTo(msgs, path, keepTools, protectFrom, i + 1)
    ensures Bytes(out + [m]) == Bytes(out) + |m.content|
  {
    assert (out + [m])[..i] == out;
  }

  lemma EvictedAll(msgs: seq<Message>, path: PathReader, keepTools: int, protectFrom: int, out: seq<Message>)
    requires out == EvictedTo(msgs, path, keepTools, protectFrom, |msgs|)
    ensures EvictedFrom(msgs, path, keepTools, protectFrom, out)
  {
    forall i | 0 <= i < |msgs| ensures out[i] == EvictedAt(msgs, path, keepTools, protectFrom, i) {
    }
  }

  /** Stage 1 drops all tool output but the newest keepTools; stage 2 drops every read of
      a file but its latest. Only contents change, and freed is exactly the bytes saved. */
  method EvictToolResults(msgs: seq<Message>, path: PathReader, keepTools: int, protectFrom: int)
    returns (out: seq<Message>, freed: nat)
    ensures EvictedFrom(msgs, path, keepTools, protectFrom, out)
    ensures freed == if Bytes(msgs) >= Bytes(out) then Bytes(msgs) - Bytes(out) else 0
  {
    var total := CountTools(msgs);
    var keepFrom := total - (if keepTools < 0 then 0 else keepTools);
    var paths := ReadPaths(msgs, path);
    var latest := FindLatestReads(msgs, path, paths);
    out := [];
    var saved, pos := 0, 0;
    for i := 0 to |msgs|
      invariant pos == Tools(msgs[..i]) && |out| == i
      invariant out == EvictedTo(msgs, path, keepTools, protectFrom, i)
      invariant saved == Bytes(msgs[..i]) - Bytes(out)
    {
      BytesStep(msgs, i);
      var m := msgs[i];
      if msgs[i].role == Tool {
        m := EvictOne(msgs, path, keepTools, protectFrom, i, pos, paths, latest, keepFrom);
        saved := saved + |msgs[i].content| - |m.content|;
        pos := pos + 1;
      }
      EvictedStep(msgs, path, keepTools, protectFrom, i, out, m);
      out := out + [m];
    }
    assert msgs[..|msgs|] == msgs;
    EvictedAll(msgs, path, keepTools, protectFrom, out);
    freed := if saved < 0 then 0 else saved;
  }

  // ----- Eviction: what it keeps

  lemma EvictionIsRewriting(msgs: seq<Message>, path: PathReader, keepTools: int, protectFrom: int, out: seq<Message>)
    requires EvictedFrom(msgs, path, keepTools, protectFrom, out)
    ensures SameButContent(msgs, out)
    ensures forall i :: 0 <= i < |msgs| && (i >= protectFrom || msgs[i].role != Tool) ==> out[i] == msgs[i]
  {
  }

  lemma {:induction false} SamePaths(a: seq<Message>, b: seq<Message>, path: PathReader, id: string)
    requires SameButContent(a, b)
    ensures PathOf(a, path, id) == PathOf(b, path, id)
  {
    if a != [] {
      assert b[|b| - 1].calls == a[|a| - 1].calls;
      SamePaths(a[..|a| - 1], b[..|b| - 1], path, id);
    }
  }

  lemma {:induction false} SameTools(a: seq<Message>, b: seq<Message>)
    requires SameButContent(a, b)
    ensures Tools(a) == Tools(b)
  {
    if a != [] {
      assert b[|b| - 1].role == a[|a| - 1].role;
      SameTools(a[..|a| - 1], b[..|b| - 1]);
    }
  }

  lemma SameEvictable(a: seq<Message>, b: seq<Message>, path: PathReader, keepTools: int, protectFrom: int, i: nat)
    requires SameButContent(a, b) && i < |a|
    ensures Evictable(a, path, keepTools, protectFrom, i) == Evictable(b, path, keepTools, protectFrom, i)
  {
    SameTools(a, b);
    SameTools(a[..i], b[..i]);
    forall j | 0 <= j < |a| ensures a[j].role == b[j].role && a[j].callId == b[j].callId {
    }
    forall id ensures PathOf(a, path, id) == PathOf(b, path, id) {
      SamePaths(a, b, path, id);
    }
    assert ReadAgainLater(a, path, i) == ReadAgainLater(b, path, i);
  }

  /** Evicting twice is evicting once: the second pass changes nothing and frees nothing. */
  lemma EvictionIsIdempotent(msgs: seq<Message>, path: PathReader, keepTools: int, protectFrom: int,
                             once: seq<Message>, twice: seq<Message>)
    requires EvictedFrom(msgs, path, keepTools, protectFrom, once)
    requires EvictedFrom(once, path, keepTools, protectFrom, twice)
    ensures twice == once
  {
    EvictionIsRewriting(msgs, path, keepTools, protectFrom, once);
    forall i | 0 <= i < |once| ensures twice[i] == once[i] {
      SameEvictable(msgs, once, path, keepTools, protectFrom, i);
    }
  }

  // ----- Where the untouched tail begins

  /** The first user message, the conversation's goal, or -1. */
  method FirstUserIndex(msgs: seq<Message>) returns (goal: int)
    ensures -1 <= goal < |msgs|
    ensures goal >= 0 ==> msgs[goal].role == User && forall i :: 0 <= i < goal ==> msgs[i].role != User
    ensures goal < 0 ==> forall i :: 0 <= i < |msgs| ==> msgs[i].role != User
  {
    for i := 0 to |msgs|
      invariant forall k :: 0 <= k < i ==> msgs[k].role != User
    {
      if msgs[i].role == User {
        return i;
      }
    }
    return -1;
  }

  /** The shortest tail from b holds at least keepTurns messages and does not start with a tool result; b is
      0 when the conversation is shorter. */
  ghost predicate IsBoundary(msgs: seq<Message>, keepTurns: int, b: nat) {
    var keep := if keepTurns < 1 then 1 else keepTurns;
    && b <= |msgs| && (b == 0 || (b < |msgs| && msgs[b].role != Tool))
    && (b <= |msgs| - keep || b == 0)
    && forall i :: b < i <= |msgs| - keep ==> msgs[i].role == Tool
  }

  lemma OneBoundary(msgs: seq<Message>, keepTurns: int, b: nat, c: nat)
    requires IsBoundary(msgs, keepTurns, b) && IsBoundary(msgs, keepTurns, c)
    ensures b == c
  {
  }

  /** The start of a tail of at least keepTurns messages that splits no tool block. */
  method SafeBoundary(msgs: seq<Message>, keepTurns: int) returns (b: nat)
    ensures IsBoundary(msgs, keepTurns, b)
  {
    var keep := if keepTurns < 1 then 1 else keepTurns;
    var start := |msgs| - keep;
    if start < 0 {
      start := 0;
    }
    b := start;
    while b > 0 && msgs[b].role == Tool
      invariant b <= start
      invariant forall i :: b < i <= start ==> msgs[i].role == Tool
    {
      b := b - 1;
    }
  }
}
