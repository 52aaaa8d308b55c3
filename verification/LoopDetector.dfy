/** The detector that stops a model stuck on one line. */
module LoopDetector {
  import opened Text

  const REPEAT_LINE_LIMIT := 6

  datatype Watch = Watch(cur: string, last: string, count: nat, tripped: bool)

  const Idle := Watch("", "", 0, false)

  /** What one rune of the stream does. */
  function Noticed(w: Watch, c: char): Watch {
    if w.tripped then w
    else if c != '\n' then w.(cur := w.cur + [c])
    else
      var line := TrimSpace(w.cur);
      if line == "" then w.(cur := "")
      else
        var count := if line == w.last then w.count + 1 else 1;
        Watch("", line, count, count >= REPEAT_LINE_LIMIT)
  }

  function Watched(w: Watch, s: string): Watch {
    if s == "" then w else Noticed(Watched(w, s[..|s| - 1]), s[|s| - 1])
  }

  function WatchedChunks(w: Watch, chunks: seq<string>): Watch {
    if chunks == [] then w else Watched(WatchedChunks(w, chunks[..|chunks| - 1]), chunks[|chunks| - 1])
  }

  function Flat(chunks: seq<string>): string {
    if chunks == [] then "" else Flat(chunks[..|chunks| - 1]) + chunks[|chunks| - 1]
  }

  // ----- Independence of chunking

  lemma {:induction false} WatchedConcat(w: Watch, a: string, b: string)
    ensures Watched(w, a + b) == Watched(Watched(w, a), b)
  {
    if b == "" {
      assert a + b == a;
    } else {
      WatchedConcat(w, a, b[..|b| - 1]);
      assert (a + b)[..|a + b| - 1] == a + b[..|b| - 1];
    }
  }

  /** However a stream is cut into deltas, empty ones too, the detector ends as if it came whole. */
  lemma {:induction false} ChunksDoNotMatter(w: Watch, chunks: seq<string>)
    ensures WatchedChunks(w, chunks) == Watched(w, Flat(chunks))
  {
    if chunks != [] {
      ChunksDoNotMatter(w, chunks[..|chunks| - 1]);
      WatchedConcat(w, Flat(chunks[..|chunks| - 1]), chunks[|chunks| - 1]);
    }
  }

  // ----- What it looks for, in terms of the whole stream

  /** The text after the last line break. */
  function Unfinished(s: string): string {
    if s == "" || s[|s| - 1] == '\n' then "" else Unfinished(s[..|s| - 1]) + [s[|s| - 1]]
  }

  /** The lines that a line break ends. */
  function CompleteLines(s: string): seq<string> {
    if s == "" then []
    else
      CompleteLines(s[..|s| - 1]) + (if s[|s| - 1] == '\n' then [Unfinished(s[..|s| - 1])] else [])
  }

  function Joined(lines: seq<string>): string {
    if lines == [] then "" else Joined(lines[..|lines| - 1]) + lines[|lines| - 1] + "\n"
  }

  /** Splitting into lines loses nothing and no line holds a line break. */
  lemma {:induction false} LinesAreTheText(s: string)
    ensures Joined(CompleteLines(s)) + Unfinished(s) == s
    ensures '\n' !in Unfinished(s) && forall k :: 0 <= k < |CompleteLines(s)| ==> '\n' !in CompleteLines(s)[k]
  {
    if s != "" {
      var before := s[..|s| - 1];
      LinesAreTheText(before);
      assert s == before + [s[|s| - 1]];
      if s[|s| - 1] == '\n' {
        var lines := CompleteLines(s);
        assert lines[..|lines| - 1] == CompleteLines(before);
        assert Joined(lines) == Joined(CompleteLines(before)) + Unfinished(before) + "\n";
      } else {
        assert CompleteLines(s) == CompleteLines(before);
      }
    }
  }

  /** The lines trimmed, blank ones left out. */
  function Shown(lines: seq<string>): seq<string> {
    if lines == [] then []
    else
      var line := TrimSpace(lines[|lines| - 1]);
      Shown(lines[..|lines| - 1]) + (if line == "" then [] else [line])
  }

  ghost predicate SameFrom(lines: seq<string>, i: int) {
    0 <= i <= |lines| - REPEAT_LINE_LIMIT
    && forall k :: i <= k < i + REPEAT_LINE_LIMIT ==> lines[k] == lines[i]
  }

  /** Some line occurs REPEAT_LINE_LIMIT times in a row. */
  ghost predicate Repeats(lines: seq<string>) {
    exists i :: SameFrom(lines, i)
  }

  /** How often the last line has occurred in a row. */
  function Trailing(lines: seq<string>): nat {
    if |lines| < 2 then |lines|
    else if lines[|lines| - 1] == lines[|lines| - 2] then Trailing(lines[..|lines| - 1]) + 1
    else 1
  }

  lemma {:induction false} TrailingMeans(lines: seq<string>)
    requires lines != []
    ensures 1 <= Trailing(lines) <= |lines|
    ensures forall k :: |lines| - Trailing(lines) <= k < |lines| ==> lines[k] == lines[|lines| - 1]
    ensures Trailing(lines) < |lines| ==> lines[|lines| - Trailing(lines) - 1] != lines[|lines| - 1]
  {
    if |lines| >= 2 { TrailingMeans(lines[..|lines| - 1]); }
  }

  lemma RunEndsOrWasThere(lines: seq<string>, i: int)
    requires lines != [] && SameFrom(lines, i)
    ensures SameFrom(lines[..|lines| - 1], i) || Trailing(lines) >= REPEAT_LINE_LIMIT
  {
    TrailingMeans(lines);
  }

  lemma LongRunRepeats(lines: seq<string>)
    requires lines != [] && Trailing(lines) >= REPEAT_LINE_LIMIT
    ensures Repeats(lines)
  {
    TrailingMeans(lines);
    assert SameFrom(lines, |lines| - REPEAT_LINE_LIMIT);
  }

  lemma RunStays(lines: seq<string>, i: int)
    requires lines != [] && SameFrom(lines[..|lines| - 1], i)
    ensures SameFrom(lines, i)
  {
    assert forall k :: 0 <= k < |lines| - 1 ==> lines[..|lines| - 1][k] == lines[k];
  }

  lemma RepeatsOneMore(lines: seq<string>)
    requires lines != []
    ensures Repeats(lines) <==> Repeats(lines[..|lines| - 1]) || Trailing(lines) >= REPEAT_LINE_LIMIT
  {
    if Repeats(lines) {
      var i :| SameFrom(lines, i);
      RunEndsOrWasThere(lines, i);
    }
    if Repeats(lines[..|lines| - 1]) {
      var i :| SameFrom(lines[..|lines| - 1], i);
      RunStays(lines, i);
    }
    if Trailing(lines) >= REPEAT_LINE_LIMIT { LongRunRepeats(lines); }
  }

  /** While the detector has not tripped, its fields are what the stream so far says they are. */
  ghost predicate Tracks(w: Watch, s: string) {
    var lines := Shown(CompleteLines(s));
    && w.cur == Unfinished(s)
    && w.count == Trailing(lines)
    && w.last == (if lines == [] then "" else lines[|lines| - 1])
  }

  lemma {:induction false} DetectorTracks(s: string)
    ensures Watched(Idle, s).tripped <==> Repeats(Shown(CompleteLines(s)))
    ensures !Watched(Idle, s).tripped ==> Tracks(Watched(Idle, s), s)
  {
    if s == "" {
      assert !Repeats([]);
    } else {
      var before := s[..|s| - 1];
      DetectorTracks(before);
      var w := Watched(Idle, before);
      var lines, now := Shown(CompleteLines(before)), Shown(CompleteLines(s));
      if s[|s| - 1] == '\n' {
        var all := CompleteLines(s);
        assert all[..|all| - 1] == CompleteLines(before);
        if now != lines {
          assert now[..|now| - 1] == lines;
          RepeatsOneMore(now);
          if !w.tripped { CountOneMore(lines, TrimSpace(w.cur)); }
        }
      } else {
        assert CompleteLines(s) == CompleteLines(before);
      }
    }
  }

  lemma CountOneMore(lines: seq<string>, line: string)
    requires line != ""
    ensures Trailing(lines + [line])
            == if lines != [] && lines[|lines| - 1] == line then Trailing(lines) + 1 else 1
  {
    assert (lines + [line])[..|lines|] == lines;
  }

  /** A stream trips the detector, in whatever deltas it arrives, exactly when some non-blank line,
      trimmed, comes six times in a row among the complete lines that are not blank. */
  lemma TripsExactly(chunks: seq<string>)
    ensures WatchedChunks(Idle, chunks).tripped <==> Repeats(Shown(CompleteLines(Flat(chunks))))
  {
    ChunksDoNotMatter(Idle, chunks);
    DetectorTracks(Flat(chunks));
  }

  lemma {:induction false} TrippedStays(w: Watch, s: string)
    requires w.tripped
    ensures Watched(w, s) == w
  {
    if s != "" { TrippedStays(w, s[..|s| - 1]); }
  }

  lemma WatchedOne(w: Watch, s: string, i: nat)
    requires i < |s|
    ensures Watched(w, s[..i + 1]) == Noticed(Watched(w, s[..i]), s[i])
  {
    assert s[..i + 1][..i] == s[..i];
  }

  lemma TrippedAt(w: Watch, s: string, i: nat)
    requires i <= |s| && Watched(w, s[..i]).tripped
    ensures Watched(w, s) == Watched(w, s[..i])
  {
    WatchedConcat(w, s[..i], s[i..]);
    assert s[..i] + s[i..] == s;
    TrippedStays(Watched(w, s[..i]), s[i..]);
  }

  class Detector {
    var cur: string
    var last: string
    var count: nat
    var tripped: bool

    constructor ()
      ensures View() == Idle
    {
      cur, last, count, tripped := "", "", 0, false;
    }

    function View(): Watch
      reads this
    {
      Watch(cur, last, count, tripped)
    }

    method Feed(s: string) returns (stop: bool)
      modifies this
      ensures View() == Watched(old(View()), s) && stop == tripped
    {
      if tripped || s == "" {
        if tripped { TrippedStays(View(), s); }
        return tripped;
      }
      var i := 0;
      while i < |s|
        invariant 0 <= i <= |s| && !tripped
        invariant View() == Watched(old(View()), s[..i])
      {
        var c := s[i];
        WatchedOne(old(View()), s, i);
        i := i + 1;
        if c != '\n' {
          cur := cur + [c];
          continue;
        }
        var line := TrimSpace(cur);
        cur := "";
        if line == "" { continue; }
        if line == last {
          count := count + 1;
        } else {
          last := line;
          count := 1;
        }
        if count >= REPEAT_LINE_LIMIT {
          tripped := true;
          TrippedAt(old(View()), s, i);
          return true;
        }
      }
      assert s[..i] == s;
      return false;
    }
  }
}
