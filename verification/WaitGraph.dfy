/** What keeps the graph of waits free of cycles when a table changes. */
module WaitGraph {
  import opened TicketRules

  ghost predicate EdgeFrom(after: seq<Ticket>, before: seq<Ticket>, sources: set<string>, targets: set<string>,
                           a: string, b: string)
  {
    b in Edges(after, a) ==> b in Edges(before, a) || (a in sources && b in targets)
  }

  /** Every wait of the new table is an old one, or goes from sources to targets. */
  ghost predicate EdgesFrom(after: seq<Ticket>, before: seq<Ticket>, sources: set<string>, targets: set<string>) {
    forall a, b :: EdgeFrom(after, before, sources, targets, a, b)
  }

  ghost predicate NewStep(before: seq<Ticket>, path: seq<string>, i: nat)
    requires i < |path| - 1
  {
    path[i + 1] !in Edges(before, path[i])
  }

  lemma OldSteps(before: seq<Ticket>, path: seq<string>)
    requires path != [] && forall i: nat :: i < |path| - 1 ==> !NewStep(before, path, i)
    ensures IsWalk(before, path)
  {
    forall i | 0 <= i < |path| - 1 ensures path[i + 1] in Edges(before, path[i]) {
      assert !NewStep(before, path, i);
    }
  }

  lemma WalkTail(rows: seq<Ticket>, path: seq<string>, i: nat)
    requires IsWalk(rows, path) && i < |path|
    ensures IsWalk(rows, path[i..])
  {
    var tail := path[i..];
    forall k | 0 <= k < |tail| - 1 ensures tail[k + 1] in Edges(rows, tail[k]) {
      assert tail[k] == path[i + k] && tail[k + 1] == path[i + k + 1];
    }
  }

  lemma StepEnds(after: seq<Ticket>, before: seq<Ticket>, sources: set<string>, targets: set<string>,
                 path: seq<string>, i: nat)
    requires EdgesFrom(after, before, sources, targets)
    requires IsWalk(after, path) && i < |path| - 1 && NewStep(before, path, i)
    ensures path[i] in sources && path[i + 1] in targets
  {
    assert EdgeFrom(after, before, sources, targets, path[i], path[i + 1]);
  }

  /** A chain of the new table from targets back to sources hides one of the old table. */
  lemma {:induction false} OldChainBack(after: seq<Ticket>, before: seq<Ticket>, sources: set<string>,
                                        targets: set<string>, path: seq<string>) returns (d: string, s: string)
    requires EdgesFrom(after, before, sources, targets)
    requires IsWalk(after, path) && path[0] in targets && path[|path| - 1] in sources
    ensures d in targets && s in sources && Reaches(before, d, s)
    decreases |path|
  {
    if i: nat :| i < |path| - 1 && NewStep(before, path, i) {
      StepEnds(after, before, sources, targets, path, i);
      WalkTail(after, path, i + 1);
      d, s := OldChainBack(after, before, sources, targets, path[i + 1..]);
    } else {
      d, s := path[0], path[|path| - 1];
      OldSteps(before, path);
      assert WalkBetween(before, path, d, s);
    }
  }

  /** Turning a closed chain so that it starts after its i-th step. */
  lemma Rotated(rows: seq<Ticket>, path: seq<string>, i: nat) returns (turned: seq<string>)
    requires IsWalk(rows, path) && i < |path| - 1 && path[0] == path[|path| - 1]
    ensures WalkBetween(rows, turned, path[i + 1], path[i])
  {
    turned := path[i + 1..] + path[1..i + 1];
    var cut := |path| - i - 1;
    forall k | 0 <= k < |turned| - 1 ensures turned[k + 1] in Edges(rows, turned[k]) {
      if k < cut - 1 {
        assert turned[k] == path[i + 1 + k] && turned[k + 1] == path[i + 1 + k + 1];
      } else if k == cut - 1 {
        assert turned[k] == path[|path| - 1] == path[0] && turned[k + 1] == path[1];
      } else {
        assert turned[k] == path[1 + k - cut] && turned[k + 1] == path[1 + k - cut + 1];
      }
    }
  }

  /** New waits keep the graph acyclic when, in the old table, nothing newly waited for
      reaches a ticket that gets a new wait. Testing the old table alone is enough,
      however many waits are added at once. */
  lemma NewWaitsKeepAcyclic(after: seq<Ticket>, before: seq<Ticket>, sources: set<string>, targets: set<string>)
    requires Acyclic(before) && EdgesFrom(after, before, sources, targets)
    requires forall d, s :: d in targets && s in sources ==> !Reaches(before, d, s)
    ensures Acyclic(after)
  {
    forall path | IsWalk(after, path) && |path| > 1 ensures path[0] != path[|path| - 1] {
      if path[0] == path[|path| - 1] {
        if i: nat :| i < |path| - 1 && NewStep(before, path, i) {
          StepEnds(after, before, sources, targets, path, i);
          var turned := Rotated(after, path, i);
          var d, s := OldChainBack(after, before, sources, targets, turned);
        } else {
          OldSteps(before, path);
        }
      }
    }
  }

  lemma FewerWaitsKeepAcyclic(after: seq<Ticket>, before: seq<Ticket>)
    requires Acyclic(before) && EdgesFrom(after, before, {}, {})
    ensures Acyclic(after)
  {
    NewWaitsKeepAcyclic(after, before, {}, {});
  }

  /** Two chains that meet make one. */
  lemma Joined(rows: seq<Ticket>, p: seq<string>, q: seq<string>, a: string, b: string, c: string)
    requires WalkBetween(rows, p, a, b) && WalkBetween(rows, q, b, c)
    ensures WalkBetween(rows, p + q[1..], a, c) && Reaches(rows, a, c)
  {
    var r := p + q[1..];
    forall i | 0 <= i < |r| - 1 ensures r[i + 1] in Edges(rows, r[i]) {
      if i >= |p| - 1 {
        assert r[i] == q[i - |p| + 1] && r[i + 1] == q[i - |p| + 2];
      }
    }
    assert WalkBetween(rows, r, a, c);
  }

  lemma ReachesTransitively(rows: seq<Ticket>, a: string, b: string, c: string)
    requires Reaches(rows, a, b) && Reaches(rows, b, c)
    ensures Reaches(rows, a, c)
  {
    var p :| WalkBetween(rows, p, a, b);
    var q :| WalkBetween(rows, q, b, c);
    Joined(rows, p, q, a, b, c);
  }

  lemma EdgeReaches(rows: seq<Ticket>, a: string, b: string)
    requires b in Edges(rows, a)
    ensures Reaches(rows, a, b)
  {
    SingleStop(rows, b);
    ExtendWalk(rows, a, [b], b);
  }

  /** In an acyclic table nothing waited for leads back. */
  lemma NoWayBack(rows: seq<Ticket>, a: string, b: string)
    requires Acyclic(rows) && b in Edges(rows, a)
    ensures !Reaches(rows, b, a)
  {
    if Reaches(rows, b, a) {
      var p :| WalkBetween(rows, p, b, a);
      ExtendWalk(rows, a, p, a);
    }
  }
}
