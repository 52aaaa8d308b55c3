/** What an agent may read beyond its working directory, as granted project by project.
    Paths are canonical: absolute, clean and free of links. Making one so, reading the file and writing
    it may fail; how they ended is passed in. */
module PathGrants {
  import opened Wrappers

  datatype Grant = Grant(project: string, dir: string)

  /** dir itself, or beneath it: a prefix test on whole path elements. */
  predicate Within(dir: string, path: string) {
    dir == path || dir + "/" <= path
  }

  // ----- What Within means

  lemma WithinTransitive(a: string, b: string, c: string)
    requires Within(a, b) && Within(b, c)
    ensures Within(a, c)
  {
    if a != b && b != c {
      assert (a + "/") == c[..|a| + 1];
    }
  }

  /** Two directories with a path in common lie one within the other. */
  lemma WithinComparable(a: string, b: string, c: string)
    requires Within(a, c) && Within(b, c)
    ensures Within(a, b) || Within(b, a)
  {
    if |a| <= |b| { ShorterFirst(a, b, c); } else { ShorterFirst(b, a, c); }
  }

  lemma ShorterFirst(a: string, b: string, c: string)
    requires Within(a, c) && Within(b, c) && |a| <= |b|
    ensures Within(a, b)
  {
    assert a == c[..|a|] && b == c[..|b|];
    if |a| < |b| { assert a + "/" == c[..|a| + 1] == b[..|a| + 1]; }
  }

  predicate IsElement(e: string) {
    e != "" && '/' !in e
  }

  predicate IsClean(elements: seq<string>) {
    forall i :: 0 <= i < |elements| ==> IsElement(elements[i])
  }

  function Rooted(elements: seq<string>): string {
    if elements == [] then "" else "/" + elements[0] + Rooted(elements[1..])
  }

  /** The canonical path with these elements. */
  function Path(elements: seq<string>): string {
    if elements == [] then "/" else Rooted(elements)
  }

  lemma FirstSlash(e: string, rest: string)
    requires IsElement(e) && rest != "" && rest[0] == '/'
    ensures (e + rest)[|e|] == '/' && forall k :: 0 <= k < |e| ==> (e + rest)[k] != '/'
  {
  }

  lemma SameElement(d: string, p: string, x: string, y: string)
    requires IsElement(d) && IsElement(p) && x != "" && x[0] == '/' && (y == "" || y[0] == '/')
    requires d + x <= p + y
    ensures d == p && x <= y
  {
    FirstSlash(d, x);
    assert y == "" ==> p + y == p;
    if y != "" { FirstSlash(p, y); }
    assert (p + y)[|d|] == (d + x)[|d|];
    assert |d| >= |p|;
    assert y != "" && |p| >= |d|;
    if |d| == |p| {
      assert d == (d + x)[..|d|] == (p + y)[..|p|] == p;
      assert x == (d + x)[|d|..] && y == (p + y)[|d|..];
    }
  }

  lemma OneElement(d: string, p: string, x: string, y: string)
    requires IsElement(d) && IsElement(p) && x != "" && x[0] == '/' && (y == "" || y[0] == '/')
    ensures "/" + d + x <= "/" + p + y <==> d == p && x <= y
  {
    if "/" + d + x <= "/" + p + y {
      assert d + x == ("/" + d + x)[1..] && p + y == ("/" + p + y)[1..];
      SameElement(d, p, x, y);
    }
    if d == p && x <= y {
      assert "/" + p + y == "/" + d + x + y[|x|..];
    }
  }

  lemma {:induction false} RootedPrefix(dir: seq<string>, path: seq<string>)
    requires IsClean(dir) && IsClean(path)
    ensures Rooted(dir) + "/" <= Rooted(path) <==> dir < path
  {
    if dir != [] && path != [] {
      RootedPrefix(dir[1..], path[1..]);
      var x := Rooted(dir[1..]) + "/";
      OneElement(dir[0], path[0], x, Rooted(path[1..]));
      assert Rooted(dir) + "/" == "/" + dir[0] + x;
      assert dir < path <==> dir[0] == path[0] && dir[1..] < path[1..];
    }
  }

  lemma {:induction false} RootedInjective(dir: seq<string>, path: seq<string>)
    requires IsClean(dir) && IsClean(path) && Rooted(dir) == Rooted(path)
    ensures dir == path
  {
    if dir != [] && path != [] {
      var x, y := Rooted(dir[1..]), Rooted(path[1..]);
      assert "/" + dir[0] + (x + "/") == Rooted(dir) + "/" && "/" + path[0] + (y + "/") == Rooted(path) + "/";
      OneElement(dir[0], path[0], x + "/", y + "/");
      OneElement(path[0], dir[0], y + "/", x + "/");
      assert x == (x + "/")[..|x|] && y == (y + "/")[..|y|];
      RootedInjective(dir[1..], path[1..]);
    }
  }

  /** A grant covers its directory and all paths below, except that one on the root directory
      covers the root alone: the test looks for "//". */
  lemma WithinIsBeneath(dir: seq<string>, path: seq<string>)
    requires IsClean(dir) && IsClean(path)
    ensures Within(Path(dir), Path(path)) <==> dir <= path && (dir != [] || path == [])
  {
    if dir == [] {
      if path != [] { NoDoubleSlash(path); }
    } else if path == [] {
      NoDoubleSlash(dir);
    } else {
      RootedPrefix(dir, path);
      if Rooted(dir) == Rooted(path) { RootedInjective(dir, path); }
      assert dir <= path <==> dir < path || dir == path;
    }
  }

  lemma NoDoubleSlash(path: seq<string>)
    requires IsClean(path) && path != []
    ensures Path(path)[0] == '/' && Path(path) != "/" && !("//" <= Path(path))
  {
    assert Path(path) == "/" + (path[0] + Rooted(path[1..]));
    assert Path(path)[1] == path[0][0];
  }

  // ----- What the operations make of the file

  ghost predicate Allows(gs: seq<Grant>, project: string, path: string) {
    exists g :: g in gs && g.project == project && Within(g.dir, path)
  }

  predicate Subsumed(g: Grant, project: string, dir: string) {
    g.project == project && Within(dir, g.dir)
  }

  /** The grants a test does not pick out. */
  function Except(gs: seq<Grant>, gone: Grant -> bool): seq<Grant> {
    if gs == [] then []
    else Except(gs[..|gs| - 1], gone) + (if gone(gs[|gs| - 1]) then [] else [gs[|gs| - 1]])
  }

  predicate Before(a: string, b: string) {
    if b == "" then false
    else if a == "" then true
    else a[0] < b[0] || (a[0] == b[0] && Before(a[1..], b[1..]))
  }

  predicate Precedes(g: Grant, h: Grant) {
    if g.project != h.project then Before(g.project, h.project) else Before(g.dir, h.dir)
  }

  function Inserted(gs: seq<Grant>, g: Grant): seq<Grant> {
    if gs == [] || !Precedes(g, gs[|gs| - 1]) then gs + [g]
    else Inserted(gs[..|gs| - 1], g) + [gs[|gs| - 1]]
  }

  /** By project, then directory: the order the file is written in. */
  function Sorted(gs: seq<Grant>): seq<Grant> {
    if gs == [] then [] else Inserted(Sorted(gs[..|gs| - 1]), gs[|gs| - 1])
  }

  ghost function WithGrant(gs: seq<Grant>, project: string, dir: string): seq<Grant> {
    if Allows(gs, project, dir) then gs
    else Sorted(Except(gs, h => Subsumed(h, project, dir)) + [Grant(project, dir)])
  }

  function WithoutGrant(gs: seq<Grant>, g: Grant): seq<Grant> {
    if g in gs then Sorted(Except(gs, h => h == g)) else gs
  }

  function OfProject(project: string): Grant -> bool {
    (h: Grant) => h.project == project
  }

  ghost predicate MadeFrom(gs: seq<Grant>, project: string) {
    exists g :: g in gs && g.project == project
  }

  ghost function WithoutProject(gs: seq<Grant>, project: string): seq<Grant> {
    if MadeFrom(gs, project) then Sorted(Except(gs, OfProject(project))) else gs
  }

  lemma {:induction false} ExceptMembers(gs: seq<Grant>, gone: Grant -> bool)
    ensures forall g :: multiset(Except(gs, gone))[g] == if gone(g) then 0 else multiset(gs)[g]
    ensures forall g :: g in Except(gs, gone) <==> g in gs && !gone(g)
  {
    if gs != [] {
      ExceptMembers(gs[..|gs| - 1], gone);
      assert gs == gs[..|gs| - 1] + [gs[|gs| - 1]];
    }
    forall g ensures g in Except(gs, gone) <==> g in gs && !gone(g) {
      assert g in Except(gs, gone) <==> multiset(Except(gs, gone))[g] > 0;
      assert g in gs <==> multiset(gs)[g] > 0;
    }
  }

  lemma {:induction false} InsertedMembers(gs: seq<Grant>, g: Grant)
    ensures multiset(Inserted(gs, g)) == multiset(gs) + multiset{g}
  {
    if gs != [] && Precedes(g, gs[|gs| - 1]) {
      InsertedMembers(gs[..|gs| - 1], g);
      assert gs == gs[..|gs| - 1] + [gs[|gs| - 1]];
    }
  }

  lemma SortedMembers(gs: seq<Grant>)
    ensures multiset(Sorted(gs)) == multiset(gs)
    ensures forall g :: g in Sorted(gs) <==> g in gs
  {
    SortedMultiset(gs);
    SameMembers(Sorted(gs), gs);
  }

  lemma {:induction false} SortedMultiset(gs: seq<Grant>)
    ensures multiset(Sorted(gs)) == multiset(gs)
  {
    if gs != [] {
      var init, last := gs[..|gs| - 1], gs[|gs| - 1];
      SortedMultiset(init);
      InsertedMembers(Sorted(init), last);
      assert gs == init + [last];
    }
  }

  lemma SameMembers(a: seq<Grant>, b: seq<Grant>)
    requires multiset(a) == multiset(b)
    ensures forall g :: g in a <==> g in b
  {
    forall g ensures g in a <==> g in b {
      assert g in a <==> g in multiset(a);
    }
  }

  // ----- The file is in order

  lemma {:induction false} BeforeIsTotal(a: string, b: string)
    ensures a == b || Before(a, b) || Before(b, a)
    ensures !(Before(a, b) && Before(b, a)) && !Before(a, a)
  {
    if a != "" { BeforeIsTotal(a[1..], a[1..]); }
    if a != "" && b != "" {
      BeforeIsTotal(a[1..], b[1..]);
      assert a == [a[0]] + a[1..] && b == [b[0]] + b[1..];
    }
  }

  lemma {:induction false} BeforeIsTransitive(a: string, b: string, c: string)
    requires Before(a, b) && Before(b, c)
    ensures Before(a, c)
  {
    if a != "" && a[0] == b[0] == c[0] { BeforeIsTransitive(a[1..], b[1..], c[1..]); }
  }

  /** a comes first where they part: it ends there, or has the smaller character. */
  ghost predicate PartsAt(a: string, b: string, k: nat) {
    && k <= |a| && k < |b| && a[..k] == b[..k] && (k == |a| || a[k] < b[k])
  }

  lemma PartsFirst(a: string, b: string, k: nat)
    requires PartsAt(a, b, k)
    ensures k > 0 ==> a != "" && b != "" && a[0] == b[0]
  {
    if k > 0 { assert a[..k][0] == b[..k][0]; }
  }

  /** The order of strings. */
  lemma {:induction false} BeforeMeans(a: string, b: string)
    ensures Before(a, b) <==> exists k: nat :: PartsAt(a, b, k)
  {
    if b == "" || a == "" || a[0] != b[0] {
      if Before(a, b) { assert PartsAt(a, b, 0); }
      forall k: nat | PartsAt(a, b, k) ensures Before(a, b) { PartsFirst(a, b, k); }
    } else {
      BeforeMeans(a[1..], b[1..]);
      if k: nat :| PartsAt(a[1..], b[1..], k) {
        assert a[..k + 1] == [a[0]] + a[1..][..k] && b[..k + 1] == [b[0]] + b[1..][..k];
        assert PartsAt(a, b, k + 1);
      }
      forall k: nat | PartsAt(a, b, k) ensures k > 0 && PartsAt(a[1..], b[1..], k - 1) {
        assert a[1..][..k - 1] == a[..k][1..] && b[1..][..k - 1] == b[..k][1..];
      }
    }
  }

  lemma PrecedesIsTransitive(g: Grant, h: Grant, k: Grant)
    requires !Precedes(h, g) && !Precedes(k, h)
    ensures !Precedes(k, g)
  {
    BeforeIsTotal(g.project, h.project);
    BeforeIsTotal(h.project, k.project);
    BeforeIsTotal(g.project, k.project);
    BeforeIsTotal(g.dir, h.dir);
    BeforeIsTotal(h.dir, k.dir);
    BeforeIsTotal(g.dir, k.dir);
    if Before(g.project, h.project) && Before(h.project, k.project) {
      BeforeIsTransitive(g.project, h.project, k.project);
    }
    if Before(g.dir, h.dir) && Before(h.dir, k.dir) { BeforeIsTransitive(g.dir, h.dir, k.dir); }
  }

  ghost predicate Ordered(gs: seq<Grant>) {
    forall i, j :: 0 <= i < j < |gs| ==> !Precedes(gs[j], gs[i])
  }

  lemma {:induction false} InsertedIsOrdered(gs: seq<Grant>, g: Grant)
    requires Ordered(gs)
    ensures Ordered(Inserted(gs, g))
  {
    if gs != [] {
      var last := gs[|gs| - 1];
      if Precedes(g, last) {
        var before := gs[..|gs| - 1];
        InsertedIsOrdered(before, g);
        InsertedMembers(before, g);
        forall h | h in Inserted(before, g) ensures !Precedes(last, h) {
          assert h in multiset(before) + multiset{g};
          BeforeIsTotal(g.project, last.project);
          BeforeIsTotal(g.dir, last.dir);
        }
      } else {
        forall i | 0 <= i < |gs| ensures !Precedes(g, gs[i]) {
          if i < |gs| - 1 { PrecedesIsTransitive(gs[i], last, g); }
        }
      }
    }
  }

  /** What is written is in order, whatever the order it was in. */
  lemma {:induction false} SortedIsOrdered(gs: seq<Grant>)
    ensures Ordered(Sorted(gs))
    ensures var s := Sorted(gs);
            forall i, j :: 0 <= i < j < |s| ==>
              if s[i].project == s[j].project then !Before(s[j].dir, s[i].dir) else !Before(s[j].project, s[i].project)
  {
    if gs != [] {
      SortedIsOrdered(gs[..|gs| - 1]);
      InsertedIsOrdered(Sorted(gs[..|gs| - 1]), gs[|gs| - 1]);
    }
  }

  // ----- No grant is redundant

  /** Of the grants of one project none lies within another, and none is recorded twice. */
  ghost predicate Antichain(gs: seq<Grant>) {
    && (forall g, h :: g in gs && h in gs && g.project == h.project && Within(g.dir, h.dir) ==> g == h)
    && (forall g :: g in gs ==> multiset(gs)[g] == 1)
  }

  lemma ExceptKeepsAntichain(gs: seq<Grant>, gone: Grant -> bool)
    requires Antichain(gs)
    ensures Antichain(Sorted(Except(gs, gone)))
  {
    ExceptMembers(gs, gone);
    SortedMembers(Except(gs, gone));
  }

  lemma AddKeepsAntichain(gs: seq<Grant>, project: string, dir: string)
    requires Antichain(gs)
    ensures Antichain(WithGrant(gs, project, dir))
  {
    if !Allows(gs, project, dir) {
      var kept := Except(gs, h => Subsumed(h, project, dir));
      ExceptMembers(gs, h => Subsumed(h, project, dir));
      SortedMembers(kept + [Grant(project, dir)]);
      assert Grant(project, dir) !in kept;
    }
  }

  /** One change of the file: saved says that writing it worked. */
  datatype Op =
    | AddOp(project: string, dir: string, saved: bool)
    | ForgetOp(project: string, dir: string, saved: bool)
    | ForgetProjectOp(project: string, saved: bool)

  ghost function Changed(gs: seq<Grant>, op: Op): seq<Grant> {
    if !op.saved then gs
    else
      match op
      case AddOp(project, dir, _) => WithGrant(gs, project, dir)
      case ForgetOp(project, dir, _) => WithoutGrant(gs, Grant(project, dir))
      case ForgetProjectOp(project, _) => WithoutProject(gs, project)
  }

  ghost function ChangedBy(gs: seq<Grant>, ops: seq<Op>): seq<Grant> {
    if ops == [] then gs else Changed(ChangedBy(gs, ops[..|ops| - 1]), ops[|ops| - 1])
  }

  /** Whatever is granted and forgotten, in whatever order, no grant of a project makes another redundant. */
  lemma {:induction false} EveryFileIsAntichain(ops: seq<Op>)
    ensures Antichain(ChangedBy([], ops))
  {
    if ops != [] {
      var before := ChangedBy([], ops[..|ops| - 1]);
      EveryFileIsAntichain(ops[..|ops| - 1]);
      match ops[|ops| - 1] {
        case AddOp(project, dir, _) => AddKeepsAntichain(before, project, dir);
        case ForgetOp(project, dir, _) => ExceptKeepsAntichain(before, h => h == Grant(project, dir));
        case ForgetProjectOp(project, _) => ExceptKeepsAntichain(before, OfProject(project));
      }
    }
  }

  // ----- What each operation changes about what is allowed

  /** Add allows exactly what was allowed and what lies within the directory, whatever was in the file. */
  lemma AddAllowsExactly(gs: seq<Grant>, project: string, dir: string, asking: string, path: string)
    ensures Allows(WithGrant(gs, project, dir), asking, path)
            <==> Allows(gs, asking, path) || (asking == project && Within(dir, path))
  {
    if Allows(gs, project, dir) {
      var g :| g in gs && g.project == project && Within(g.dir, dir);
      if Within(dir, path) { WithinTransitive(g.dir, dir, path); }
    } else {
      var kept := Except(gs, h => Subsumed(h, project, dir));
      var all := kept + [Grant(project, dir)];
      ExceptMembers(gs, h => Subsumed(h, project, dir));
      SortedMembers(all);
      if asking == project && Within(dir, path) { assert Grant(project, dir) in Sorted(all); }
      if Allows(gs, asking, path) {
        var g :| g in gs && g.project == asking && Within(g.dir, path);
        if Subsumed(g, project, dir) {
          WithinTransitive(dir, g.dir, path);
          assert Grant(project, dir) in Sorted(all);
        } else {
          assert g in Sorted(all);
        }
      }
    }
  }

  /** Add drops the grants beneath the new one and no other, however often one was recorded. */
  lemma AddLeaves(gs: seq<Grant>, g: Grant, h: Grant)
    ensures Allows(gs, g.project, g.dir) ==> WithGrant(gs, g.project, g.dir) == gs
    ensures !Allows(gs, g.project, g.dir) ==>
              multiset(WithGrant(gs, g.project, g.dir))[h]
              == (if h.project == g.project && Within(g.dir, h.dir) then 0 else multiset(gs)[h]) + (if h == g then 1 else 0)
  {
    var beneath := Except(gs, k => Subsumed(k, g.project, g.dir));
    ExceptMembers(gs, k => Subsumed(k, g.project, g.dir));
    SortedMultiset(beneath + [Grant(g.project, g.dir)]);
    assert Grant(g.project, g.dir) == g;
  }

  /** Forget drops the grant it names and no other. */
  lemma ForgetLeaves(gs: seq<Grant>, g: Grant, h: Grant)
    ensures multiset(WithoutGrant(gs, g))[h] == if h == g then 0 else multiset(gs)[h]
  {
    ExceptMembers(gs, k => k == g);
    SortedMultiset(Except(gs, k => k == g));
    assert g in gs <==> multiset(gs)[g] > 0;
  }

  /** ForgetProject drops the project's grants and no other. */
  lemma ForgetProjectLeaves(gs: seq<Grant>, project: string, h: Grant)
    ensures multiset(WithoutProject(gs, project))[h] == if h.project == project then 0 else multiset(gs)[h]
  {
    ExceptMembers(gs, OfProject(project));
    SortedMultiset(Except(gs, OfProject(project)));
    assert h in gs <==> multiset(gs)[h] > 0;
  }

  /** No other grant of the project is comparable with this one. */
  ghost predicate Alone(gs: seq<Grant>, g: Grant) {
    forall h :: h in gs && h.project == g.project && (Within(h.dir, g.dir) || Within(g.dir, h.dir)) ==> h == g
  }

  ghost predicate ForgetTakesAll(gs: seq<Grant>, g: Grant) {
    forall asking, path ::
      Allows(WithoutGrant(gs, g), asking, path)
      <==> Allows(gs, asking, path) && !(asking == g.project && Within(g.dir, path))
  }

  /** Forgetting a recorded grant takes back exactly the paths within its directory, if and only if the
      project has no other grant above or beneath it. A file edited by hand may have one; a file made by
      these operations has none. */
  lemma ForgetIsExact(gs: seq<Grant>, g: Grant)
    requires g in gs
    ensures ForgetTakesAll(gs, g) <==> Alone(gs, g)
    ensures Antichain(gs) ==> ForgetTakesAll(gs, g)
  {
    if Alone(gs, g) { ForgetTakesAllWhenAlone(gs, g); } else { ForgetLeavesSome(gs, g); }
  }

  lemma ForgetTakesAllWhenAlone(gs: seq<Grant>, g: Grant)
    requires g in gs && Alone(gs, g)
    ensures ForgetTakesAll(gs, g)
  {
    ExceptMembers(gs, h => h == g);
    var left := Except(gs, h => h == g);
    SortedMembers(left);
    forall asking, path
      ensures Allows(Sorted(left), asking, path)
              <==> Allows(gs, asking, path) && !(asking == g.project && Within(g.dir, path))
    {
      if Allows(Sorted(left), asking, path) {
        var h :| h in Sorted(left) && h.project == asking && Within(h.dir, path);
        assert h in gs && h != g;
        if asking == g.project && Within(g.dir, path) { WithinComparable(g.dir, h.dir, path); }
      } else if Allows(gs, asking, path) {
        var h :| h in gs && h.project == asking && Within(h.dir, path);
        assert h !in Sorted(left);
      }
    }
  }

  lemma ForgetLeavesSome(gs: seq<Grant>, g: Grant)
    requires g in gs && !Alone(gs, g)
    ensures !ForgetTakesAll(gs, g)
  {
    var h :| h in gs && h.project == g.project && (Within(h.dir, g.dir) || Within(g.dir, h.dir)) && h != g;
    ExceptMembers(gs, k => k == g);
    SortedMembers(Except(gs, k => k == g));
    var path := if Within(h.dir, g.dir) then g.dir else h.dir;
    assert h in WithoutGrant(gs, g);
    assert Allows(WithoutGrant(gs, g), g.project, path);
  }

  /** Forgetting a project takes back everything it was granted, and nothing of any other. */
  lemma ForgetProjectIsExact(gs: seq<Grant>, project: string, asking: string, path: string)
    ensures Allows(WithoutProject(gs, project), asking, path) <==> Allows(gs, asking, path) && asking != project
  {
    if MadeFrom(gs, project) {
      var left := Except(gs, OfProject(project));
      ExceptMembers(gs, OfProject(project));
      SortedMembers(left);
      if Allows(gs, asking, path) && asking != project {
        var g :| g in gs && g.project == asking && Within(g.dir, path);
        assert g in Sorted(left);
      }
    }
  }

  // ----- The file itself

  datatype Answer<T> = Answer(value: T) | Failure

  /** project and dir are canonical paths, or None where making one so failed; readable and writable say
      whether the file can be read and written. */
  class GrantFile {
    var grants: seq<Grant>

    constructor ()
      ensures grants == []
    {
      grants := [];
    }

    method Load() returns (f: array<Grant>)
      ensures fresh(f) && f[..] == grants
    {
      f := new Grant[|grants|](k requires 0 <= k < |grants| reads this => grants[k]);
    }

    method Save(gs: seq<Grant>, writable: bool) returns (ok: bool)
      modifies this
      ensures ok == writable && grants == if writable then Sorted(gs) else old(grants)
    {
      if writable { grants := Sorted(gs); }
      ok := writable;
    }

    method Allowed(project: Option<string>, path: Option<string>, readable: bool) returns (r: Answer<bool>)
      ensures r.Failure? <==> project.None? || path.None? || !readable
      ensures r.Answer? ==> (r.value <==> Allows(grants, project.value, path.value))
    {
      if project.None? || path.None? || !readable { return Failure; }
      var f := Load();
      var k := 0;
      while k < f.Length
        invariant 0 <= k <= f.Length && f[..] == grants
        invariant !Allows(grants[..k], project.value, path.value)
      {
        AllowsOneMore(grants, k, project.value, path.value);
        if f[k].project == project.value && Within(f[k].dir, path.value) {
          assert grants[k] in grants;
          return Answer(true);
        }
        k := k + 1;
      }
      assert grants[..k] == grants;
      return Answer(false);
    }

    /** Filters the loaded array in place, unless a grant already covers dir, and writes what is left with
        the new grant. */
    method Add(project: Option<string>, dir: Option<string>, readable: bool, writable: bool) returns (ok: bool)
      modifies this
      ensures var runs := project.Some? && dir.Some? && readable;
              && (ok <==> runs && (writable || Allows(old(grants), project.value, dir.value)))
              && grants == if runs && writable then WithGrant(old(grants), project.value, dir.value) else old(grants)
    {
      if project.None? || dir.None? || !readable { return false; }
      var project, dir := project.value, dir.value;
      var f := Load();
      var n, k := 0, 0;
      while k < f.Length
        invariant 0 <= n <= k <= f.Length == |grants| && grants == old(grants)
        invariant f[..n] == Except(grants[..k], h => Subsumed(h, project, dir))
        invariant forall j :: k <= j < f.Length ==> f[j] == grants[j]
        invariant !Allows(grants[..k], project, dir)
      {
        var g := f[k];
        assert g == grants[k];
        AllowsOneMore(grants, k, project, dir);
        ExceptOneMore(grants, k, h => Subsumed(h, project, dir));
        k := k + 1;
        if g.project == project {
          if Within(g.dir, dir) {
            assert g in grants;
            return true;
          }
          if Within(dir, g.dir) { continue; }
        }
        f[n] := g;
        assert f[..n + 1] == f[..n] + [g];
        n := n + 1;
      }
      assert grants[..k] == grants;
      ok := Save(f[..n] + [Grant(project, dir)], writable);
    }

    method Forget(project: Option<string>, dir: Option<string>, readable: bool, writable: bool)
      returns (r: Answer<bool>)
      modifies this
      ensures var runs := project.Some? && dir.Some? && readable;
              && (runs ==>
                    var g := Grant(project.value, dir.value);
                    && (r == if g !in old(grants) then Answer(false) else if writable then Answer(true) else Failure)
                    && grants == if writable then WithoutGrant(old(grants), g) else old(grants))
              && (!runs ==> r == Failure && grants == old(grants))
    {
      if project.None? || dir.None? || !readable { return Failure; }
      var gone := Grant(project.value, dir.value);
      var f := Load();
      var n, k, found := 0, 0, false;
      while k < f.Length
        invariant 0 <= n <= k <= f.Length == |grants| && grants == old(grants)
        invariant f[..n] == Except(grants[..k], h => h == gone)
        invariant forall j :: k <= j < f.Length ==> f[j] == grants[j]
        invariant found <==> gone in grants[..k]
      {
        var g := f[k];
        assert g == grants[k] && grants[..k + 1] == grants[..k] + [g];
        ExceptOneMore(grants, k, h => h == gone);
        k := k + 1;
        if g == gone {
          found := true;
          continue;
        }
        f[n] := g;
        assert f[..n + 1] == f[..n] + [g];
        n := n + 1;
      }
      assert grants[..k] == grants;
      if !found { return Answer(false); }
      var ok := Save(f[..n], writable);
      r := if ok then Answer(true) else Failure;
    }

    method ForgetProject(project: Option<string>, readable: bool, writable: bool) returns (r: Answer<nat>)
      modifies this
      ensures project.None? || !readable ==> r == Failure && grants == old(grants)
      ensures project.Some? && readable ==>
                (grants == (if writable then WithoutProject(old(grants), project.value) else old(grants))
                 && (r.Failure? <==> MadeFrom(old(grants), project.value) && !writable)
                 && (r.Answer? ==> r.value == |old(grants)| - |Except(old(grants), OfProject(project.value))|))
    {
      if project.None? || !readable { return Failure; }
      var project := project.value;
      var f := Load();
      var n, k, count := 0, 0, 0;
      while k < f.Length
        invariant 0 <= n <= k <= f.Length == |grants| && grants == old(grants)
        invariant f[..n] == Except(grants[..k], OfProject(project))
        invariant forall j :: k <= j < f.Length ==> f[j] == grants[j]
        invariant count == k - n && (count > 0 <==> MadeFrom(grants[..k], project))
      {
        var g := f[k];
        assert g == grants[k];
        MadeFromOneMore(grants, k, project);
        ExceptOneMore(grants, k, OfProject(project));
        k := k + 1;
        if g.project == project {
          count := count + 1;
          continue;
        }
        f[n] := g;
        assert f[..n + 1] == f[..n] + [g];
        n := n + 1;
      }
      assert grants[..k] == grants;
      if count == 0 { return Answer(0); }
      var ok := Save(f[..n], writable);
      r := if ok then Answer(count) else Failure;
    }
  }

  lemma ExceptOneMore(gs: seq<Grant>, k: nat, gone: Grant -> bool)
    requires k < |gs|
    ensures Except(gs[..k + 1], gone) == Except(gs[..k], gone) + (if gone(gs[k]) then [] else [gs[k]])
  {
    assert gs[..k + 1][..k] == gs[..k];
  }

  lemma AllowsOneMore(gs: seq<Grant>, k: nat, project: string, path: string)
    requires k < |gs|
    ensures Allows(gs[..k + 1], project, path)
            <==> Allows(gs[..k], project, path) || (gs[k].project == project && Within(gs[k].dir, path))
  {
    assert gs[..k + 1] == gs[..k] + [gs[k]];
    if gs[k].project == project && Within(gs[k].dir, path) { assert gs[k] in gs[..k + 1]; }
    if Allows(gs[..k], project, path) {
      var g :| g in gs[..k] && g.project == project && Within(g.dir, path);
      assert g in gs[..k + 1];
    }
  }

  lemma MadeFromOneMore(gs: seq<Grant>, k: nat, project: string)
    requires k < |gs|
    ensures MadeFrom(gs[..k + 1], project) <==> MadeFrom(gs[..k], project) || gs[k].project == project
  {
    assert gs[..k + 1] == gs[..k] + [gs[k]];
    if gs[k].project == project { assert gs[k] in gs[..k + 1]; }
    if MadeFrom(gs[..k], project) {
      var g :| g in gs[..k] && g.project == project;
      assert g in gs[..k + 1];
    }
  }
}
