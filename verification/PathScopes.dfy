/**
 Path scopes of an auto-dispatch materialization
 (apps/server/src/autodispatch_materializer.ts): the meet of the approved and the
 configured scopes, the canonical snapshot roots, and the check that a plan stays
 inside them.  A path is a sequence of code units, compared as the source does.
 */
module PathScopes {
  import opened Sequences
  import Kernel

  type Path = string

  const DOT: Path := "."

  // ----- withinScope -----

  /** `path` lies strictly below the directory `scope`. */
  predicate Below(path: Path, scope: Path) {
    scope + "/" <= path
  }

  predicate Covers(scope: Path, path: Path) {
    path == scope || (scope != DOT && Below(path, scope))
  }

  predicate WithinScope(path: Path, scopes: seq<Path>) {
    exists scope :: scope in scopes && Covers(scope, path)
  }

  lemma CoversTransitive(a: Path, b: Path, c: Path)
    requires Covers(a, b) && Covers(b, c)
    ensures Covers(a, c)
  {
    BelowTransitive(c, b, a);
  }

  lemma BelowTransitive(path: Path, mid: Path, top: Path)
    ensures Below(path, mid) && Below(mid, top) ==> Below(path, top)
  {
    if Below(path, mid) && Below(mid, top) {
      assert mid[..|top| + 1] == top + "/" && path[..|mid|] == mid;
      assert path[..|top| + 1] == mid[..|top| + 1];
    }
  }

  lemma NothingIsAboveDot(scope: Path)
    ensures !Below(DOT, scope)
  {
    assert (scope + "/")[|scope|] == '/' && DOT[0] == '.';
  }

  /** Two directories that both contain a path are comparable. */
  lemma AncestorsComparable(a: Path, b: Path, path: Path)
    requires path == a || Below(path, a)
    requires path == b || Below(path, b)
    ensures a == b || Below(a, b) || Below(b, a)
  {
    assert a <= path && b <= path;
    if |a| < |b| {
      assert path[..|b|] == b && path[..|a| + 1] == a + "/";
      assert b[..|a| + 1] == a + "/";
    } else if |b| < |a| {
      assert path[..|a|] == a && path[..|b| + 1] == b + "/";
      assert a[..|b| + 1] == b + "/";
    } else {
      assert path[..|a|] == a && path[..|b|] == b;
    }
  }

  // ----- the same by path segments -----

  /** One more character in front of the segments of a path. */
  function Prepend(c: char, segments: seq<Path>): seq<Path>
    requires segments != []
  {
    if c == '/' then [""] + segments else [[c] + segments[0]] + segments[1..]
  }

  /** The segments of a path, between the slashes. */
  function Segments(path: Path): (r: seq<Path>)
    ensures r != []
  {
    if path == "" then [""]
    else Prepend(path[0], Segments(path[1..]))
  }

  function Joined(segments: seq<Path>): Path
    requires segments != []
  {
    if |segments| == 1 then segments[0] else segments[0] + "/" + Joined(segments[1..])
  }

  lemma {:induction false} JoinedSegments(path: Path)
    ensures Joined(Segments(path)) == path
  {
    if path != "" {
      JoinedSegments(path[1..]);
      var rest := Segments(path[1..]);
      assert path == [path[0]] + path[1..];
      if path[0] == '/' {
        assert Segments(path)[1..] == rest;
      } else {
        assert Segments(path)[1..] == rest[1..];
      }
    }
  }

  lemma SegmentsStep(c: char, a: seq<Path>, b: seq<Path>)
    requires a != []
    ensures Prepend(c, a + b) == Prepend(c, a) + b
  {
  }

  lemma {:induction false} SegmentsBelow(scope: Path, rest: Path)
    ensures Segments(scope + "/" + rest) == Segments(scope) + Segments(rest)
  {
    var path := scope + "/" + rest;
    if scope == "" {
      assert path[1..] == rest;
    } else {
      var below := scope[1..] + "/" + rest;
      SegmentsBelow(scope[1..], rest);
      assert path[1..] == below && path[0] == scope[0];
      SegmentsStep(scope[0], Segments(scope[1..]), Segments(rest));
    }
  }

  lemma {:induction false} JoinedBelow(a: seq<Path>, b: seq<Path>)
    requires a != [] && b != []
    ensures Joined(a + b) == Joined(a) + "/" + Joined(b)
  {
    if |a| == 1 {
      assert (a + b)[1..] == b;
    } else {
      JoinedBelow(a[1..], b);
      assert (a + b)[1..] == a[1..] + b;
      assert Joined(a + b) == a[0] + "/" + (Joined(a[1..]) + "/" + Joined(b));
    }
  }

  /** A scope other than "." covers exactly the paths that begin with all its segments, so `src`
      does not cover `src2`; the scope "." covers only itself. */
  lemma CoversBySegments(scope: Path, path: Path)
    ensures Covers(scope, path) <==> if scope == "." then path == "." else Segments(scope) <= Segments(path)
  {
    var a, b := Segments(scope), Segments(path);
    JoinedSegments(scope);
    JoinedSegments(path);
    if Below(path, scope) {
      var rest := path[|scope| + 1..];
      assert path == scope + "/" + rest;
      SegmentsBelow(scope, rest);
    }
    if a <= b && |a| == |b| {
      assert a == b;
    } else if a <= b {
      var more := b[|a|..];
      assert b == a + more;
      JoinedBelow(a, more);
      assert path == (scope + "/") + Joined(more);
    }
  }

  // ----- an insertion-ordered set of strings -----

  function Add(acc: seq<Path>, path: Path): seq<Path> {
    if path in acc then acc else acc + [path]
  }

  function AddAll(acc: seq<Path>, paths: seq<Path>): (r: seq<Path>)
    ensures forall p :: p in r <==> p in acc || p in paths
    ensures NoDuplicates(acc) ==> NoDuplicates(r)
    decreases paths
  {
    if paths == [] then acc else AddAll(Add(acc, paths[0]), paths[1..])
  }

  lemma AddOne(acc: seq<Path>, path: Path)
    ensures AddAll(acc, [path]) == Add(acc, path)
  {
    assert [path][1..] == [];
    assert AddAll(Add(acc, path), [path][1..]) == Add(acc, path);
  }

  // ----- intersectScopes -----

  /** What one (approved, configured) pair contributes: the narrower of the two. */
  function Narrower(approved: Path, current: Path): seq<Path> {
    if approved == current || WithinScope(approved, [current]) then [approved]
    else if WithinScope(current, [approved]) then [current]
    else []
  }

  function RowScopes(acc: seq<Path>, approved: Path, configScopes: seq<Path>): seq<Path> {
    if configScopes == [] then acc
    else
      var n := |configScopes| - 1;
      AddAll(RowScopes(acc, approved, configScopes[..n]), Narrower(approved, configScopes[n]))
  }

  function IntersectScopes(policyScopes: seq<Path>, configScopes: seq<Path>): seq<Path> {
    if policyScopes == [] then []
    else
      var n := |policyScopes| - 1;
      RowScopes(IntersectScopes(policyScopes[..n], configScopes), policyScopes[n], configScopes)
  }

  lemma {:induction false} RowScopesContent(acc: seq<Path>, approved: Path, configScopes: seq<Path>)
    ensures forall p :: p in RowScopes(acc, approved, configScopes) <==>
              p in acc || exists c :: c in configScopes && p in Narrower(approved, c)
    ensures NoDuplicates(acc) ==> NoDuplicates(RowScopes(acc, approved, configScopes))
  {
    if configScopes != [] {
      var n := |configScopes| - 1;
      RowScopesContent(acc, approved, configScopes[..n]);
      assert configScopes == configScopes[..n] + [configScopes[n]];
    }
  }

  ghost predicate FromPair(path: Path, policyScopes: seq<Path>, configScopes: seq<Path>) {
    exists a, c :: a in policyScopes && c in configScopes && path in Narrower(a, c)
  }

  lemma {:induction false} IntersectScopesContent(policyScopes: seq<Path>, configScopes: seq<Path>)
    ensures forall p :: p in IntersectScopes(policyScopes, configScopes) <==> FromPair(p, policyScopes, configScopes)
    ensures NoDuplicates(IntersectScopes(policyScopes, configScopes))
  {
    if policyScopes != [] {
      var n := |policyScopes| - 1;
      IntersectScopesContent(policyScopes[..n], configScopes);
      RowScopesContent(IntersectScopes(policyScopes[..n], configScopes), policyScopes[n], configScopes);
      assert policyScopes == policyScopes[..n] + [policyScopes[n]];
    }
  }

  /** A pair contributes a path inside both members, and one above every path
      inside both. */
  lemma NarrowerIsMeet(a: Path, c: Path, path: Path)
    ensures forall s :: s in Narrower(a, c) ==> (s == a || s == c) && Covers(a, s) && Covers(c, s)
    ensures Covers(a, path) && Covers(c, path) ==> exists s :: s in Narrower(a, c) && Covers(s, path)
  {
    assert WithinScope(a, [c]) <==> Covers(c, a) by { assert c in [c]; }
    assert WithinScope(c, [a]) <==> Covers(a, c) by { assert a in [a]; }
    if Covers(a, path) && Covers(c, path) {
      AncestorsComparable(a, c, path);
      NothingIsAboveDot(a);
      NothingIsAboveDot(c);
      if a == c || Covers(c, a) {
        assert a in Narrower(a, c);
      } else {
        assert c in Narrower(a, c);
      }
    }
  }

  /** The intersection is the exact meet: a path is inside it precisely when it is
      inside both the approved and the configured scopes. */
  lemma IntersectScopesIsMeet(policyScopes: seq<Path>, configScopes: seq<Path>, path: Path)
    ensures WithinScope(path, IntersectScopes(policyScopes, configScopes)) <==>
            WithinScope(path, policyScopes) && WithinScope(path, configScopes)
  {
    var meet := IntersectScopes(policyScopes, configScopes);
    IntersectScopesContent(policyScopes, configScopes);
    if WithinScope(path, meet) {
      var s :| s in meet && Covers(s, path);
      var a, c :| a in policyScopes && c in configScopes && s in Narrower(a, c);
      NarrowerIsMeet(a, c, s);
      CoversTransitive(a, s, path);
      CoversTransitive(c, s, path);
    }
    if WithinScope(path, policyScopes) && WithinScope(path, configScopes) {
      var a :| a in policyScopes && Covers(a, path);
      var c :| c in configScopes && Covers(c, path);
      NarrowerIsMeet(a, c, path);
      var s :| s in Narrower(a, c) && Covers(s, path);
      assert s in meet;
    }
  }

  /** The nested loops over a growing set. */
  method ComputeIntersectScopes(policyScopes: seq<Path>, configScopes: seq<Path>) returns (scopes: seq<Path>)
    ensures scopes == IntersectScopes(policyScopes, configScopes)
    ensures forall path :: WithinScope(path, scopes) <==>
              WithinScope(path, policyScopes) && WithinScope(path, configScopes)
    ensures NoDuplicates(scopes)
  {
    scopes := [];
    for i := 0 to |policyScopes|
      invariant scopes == IntersectScopes(policyScopes[..i], configScopes)
    {
      var approved := policyScopes[i];
      ghost var row := scopes;
      for j := 0 to |configScopes|
        invariant scopes == RowScopes(row, approved, configScopes[..j])
      {
        var current := configScopes[j];
        assert configScopes[..j + 1][..j] == configScopes[..j] && configScopes[..j + 1][j] == current;
        AddOne(scopes, approved);
        AddOne(scopes, current);
        if approved == current || WithinScope(approved, [current]) {
          scopes := Add(scopes, approved);
        } else if WithinScope(current, [approved]) {
          scopes := Add(scopes, current);
        }
      }
      assert configScopes[..|configScopes|] == configScopes;
      assert policyScopes[..i + 1][..i] == policyScopes[..i];
    }
    assert policyScopes[..|policyScopes|] == policyScopes;
    IntersectScopesContent(policyScopes, configScopes);
    forall path ensures WithinScope(path, scopes) <==>
                        WithinScope(path, policyScopes) && WithinScope(path, configScopes)
    {
      IntersectScopesIsMeet(policyScopes, configScopes, path);
    }
  }

  // ----- collapseSnapshotRoots -----

  /** What copying `root` brings into a snapshot; the root "." is everything. */
  predicate Copies(root: Path, path: Path) {
    root == DOT || path == root || Below(path, root)
  }

  predicate CopiedBy(path: Path, roots: seq<Path>) {
    exists root :: root in roots && Copies(root, path)
  }

  predicate Redundant(candidate: Path, roots: seq<Path>) {
    exists other :: other in roots && other != candidate && (other == DOT || Below(candidate, other))
  }

  function Essential(unique: seq<Path>, roots: seq<Path>): (r: seq<Path>)
    ensures forall p :: p in r <==> p in unique && !Redundant(p, roots)
    ensures NoDuplicates(unique) ==> NoDuplicates(r)
  {
    if unique == [] then []
    else (if Redundant(unique[0], roots) then [] else [unique[0]]) + Essential(unique[1..], roots)
  }

  /** Code-unit order, the `<` of the source's comparator. */
  predicate Less(a: Path, b: Path) {
    b != "" && (a == "" || a[0] < b[0] || (a[0] == b[0] && Less(a[1..], b[1..])))
  }

  /** At the first place where they differ, `a` ends or has the smaller code unit. */
  lemma {:induction false} LessAt(a: Path, b: Path)
    ensures Less(a, b) <==>
            exists i :: && 0 <= i <= |a| && i < |b| && a[..i] == b[..i] && (i == |a| || a[i] < b[i])
  {
    if Less(a, b) && a != "" && a[0] == b[0] {
      LessAt(a[1..], b[1..]);
      var i :| && 0 <= i <= |a[1..]| && i < |b[1..]| && a[1..][..i] == b[1..][..i]
               && (i == |a[1..]| || a[1..][i] < b[1..][i]);
      assert a[..i + 1] == [a[0]] + a[1..][..i] && b[..i + 1] == [b[0]] + b[1..][..i];
    } else if Less(a, b) {
      assert a[..0] == b[..0];
    }
    if i :| 0 <= i <= |a| && i < |b| && a[..i] == b[..i] && (i == |a| || a[i] < b[i]) {
      if i > 0 {
        assert a[0] == a[..i][0] && b[0] == b[..i][0];
        LessAt(a[1..], b[1..]);
        assert a[1..][..i - 1] == a[..i][1..] && b[1..][..i - 1] == b[..i][1..];
      }
    }
  }

  lemma {:induction false} LessTotal(a: Path, b: Path)
    ensures Less(a, b) || a == b || Less(b, a)
    ensures !(Less(a, b) && Less(b, a)) && !Less(a, a)
  {
    if a != "" && b != "" {
      LessTotal(a[1..], b[1..]);
      assert a == [a[0]] + a[1..] && b == [b[0]] + b[1..];
    }
    if a != "" {
      LessTotal(a[1..], a[1..]);
    }
  }

  lemma {:induction false} LessTransitive(a: Path, b: Path, c: Path)
    requires Less(a, b) && Less(b, c)
    ensures Less(a, c)
  {
    if a != "" && a[0] == b[0] == c[0] {
      LessTransitive(a[1..], b[1..], c[1..]);
    }
  }

  predicate StrictlySorted(paths: seq<Path>) {
    forall i, j :: 0 <= i < j < |paths| ==> Less(paths[i], paths[j])
  }

  function Insert(path: Path, sorted: seq<Path>): (r: seq<Path>)
    ensures forall p :: p in r <==> p == path || p in sorted
  {
    if sorted == [] || Less(path, sorted[0]) then [path] + sorted
    else [sorted[0]] + Insert(path, sorted[1..])
  }

  function Sort(paths: seq<Path>): (r: seq<Path>)
    ensures forall p :: p in r <==> p in paths
  {
    if paths == [] then [] else Insert(paths[0], Sort(paths[1..]))
  }

  lemma {:induction false} InsertSorted(path: Path, sorted: seq<Path>)
    requires StrictlySorted(sorted) && path !in sorted
    ensures StrictlySorted(Insert(path, sorted))
  {
    if sorted != [] {
      if Less(path, sorted[0]) {
        forall i | 0 < i < |sorted| ensures Less(path, sorted[i]) {
          LessTransitive(path, sorted[0], sorted[i]);
        }
      } else {
        LessTotal(path, sorted[0]);
        InsertSorted(path, sorted[1..]);
        var rest := Insert(path, sorted[1..]);
        forall i | 0 <= i < |rest| ensures Less(sorted[0], rest[i]) {
          assert rest[i] in rest;
        }
      }
    }
  }

  lemma {:induction false} SortSorted(paths: seq<Path>)
    requires NoDuplicates(paths)
    ensures StrictlySorted(Sort(paths))
  {
    if paths != [] {
      SortSorted(paths[1..]);
      InsertSorted(paths[0], Sort(paths[1..]));
    }
  }

  /** A strictly sorted sequence is determined by its elements. */
  lemma {:induction false} SortedUnique(a: seq<Path>, b: seq<Path>)
    requires StrictlySorted(a) && StrictlySorted(b)
    requires forall p :: p in a <==> p in b
    ensures a == b
  {
    if a != [] {
      assert a[0] in b;
    }
    if b != [] {
      assert b[0] in a;
    }
    if a != [] && b != [] {
      LessTotal(a[0], b[0]);
      forall p ensures p in a[1..] <==> p in b[1..] {
        LessTotal(a[0], a[0]);
        assert p in a <==> p == a[0] || p in a[1..];
        assert p in b <==> p == b[0] || p in b[1..];
      }
      SortedUnique(a[1..], b[1..]);
    }
  }

  function CollapseSnapshotRoots(roots: seq<Path>): seq<Path> {
    var unique := AddAll([], roots);
    Sort(Essential(unique, unique))
  }

  /** No element is a proper ancestor of another, and "." stands alone. */
  predicate Antichain(roots: seq<Path>) {
    forall r :: r in roots ==> !Redundant(r, roots)
  }

  /** The result keeps exactly the roots no other root makes redundant; it is
      strictly sorted and an antichain. */
  lemma CollapseShape(roots: seq<Path>)
    ensures forall p :: p in CollapseSnapshotRoots(roots) <==> p in roots && !Redundant(p, roots)
    ensures StrictlySorted(CollapseSnapshotRoots(roots))
    ensures Antichain(CollapseSnapshotRoots(roots))
  {
    var unique := AddAll([], roots);
    SortSorted(Essential(unique, unique));
    forall p ensures Redundant(p, unique) <==> Redundant(p, roots) {
    }
  }

  /** Dropping the covered roots loses no path: some shortest root still copies it. */
  lemma CollapseCoverage(roots: seq<Path>, path: Path)
    ensures CopiedBy(path, CollapseSnapshotRoots(roots)) <==> CopiedBy(path, roots)
  {
    CollapseShape(roots);
    if CopiedBy(path, roots) {
      var root :| root in roots && Copies(root, path);
      ShortestCopier(roots, root, path);
    }
  }

  lemma {:induction false} ShortestCopier(roots: seq<Path>, root: Path, path: Path)
    requires root in roots && Copies(root, path)
    ensures CopiedBy(path, CollapseSnapshotRoots(roots))
    decreases |root|
  {
    CollapseShape(roots);
    if DOT in roots {
      forall other ensures !Below(DOT, other) {
        NothingIsAboveDot(other);
      }
      assert !Redundant(DOT, roots);
      assert Copies(DOT, path);
      assert DOT in CollapseSnapshotRoots(roots);
    } else if Redundant(root, roots) {
      var other :| other in roots && other != root && (other == DOT || Below(root, other));
      BelowTransitive(path, root, other);
      ShortestCopier(roots, other, path);
    }
  }

  /** Canonical form: two root lists collapse to the same list exactly when they
      copy the same paths. */
  lemma CollapseCanonical(a: seq<Path>, b: seq<Path>)
    ensures CollapseSnapshotRoots(a) == CollapseSnapshotRoots(b) <==>
            (forall path :: CopiedBy(path, a) <==> CopiedBy(path, b))
  {
    var ca, cb := CollapseSnapshotRoots(a), CollapseSnapshotRoots(b);
    CollapseShape(a);
    CollapseShape(b);
    if ca == cb {
      forall path ensures CopiedBy(path, a) <==> CopiedBy(path, b) {
        CollapseCoverage(a, path);
        CollapseCoverage(b, path);
      }
    } else if forall path :: CopiedBy(path, a) <==> CopiedBy(path, b) {
      forall p ensures p in ca <==> p in cb {
        if p in ca { SameElement(a, b, p); }
        if p in cb { SameElement(b, a, p); }
      }
      SortedUnique(ca, cb);
    }
  }

  lemma SameElement(a: seq<Path>, b: seq<Path>, root: Path)
    requires forall path :: CopiedBy(path, a) <==> CopiedBy(path, b)
    requires root in CollapseSnapshotRoots(a)
    ensures root in CollapseSnapshotRoots(b)
  {
    var ca, cb := CollapseSnapshotRoots(a), CollapseSnapshotRoots(b);
    CollapseShape(a);
    CollapseShape(b);
    forall path ensures CopiedBy(path, ca) <==> CopiedBy(path, cb) {
      CollapseCoverage(a, path);
      CollapseCoverage(b, path);
    }
    assert Copies(root, root);
    assert CopiedBy(root, cb);
    var up :| up in cb && Copies(up, root);
    assert Copies(up, up);
    assert CopiedBy(up, ca);
    var top :| top in ca && Copies(top, up);
    if top == DOT || up == DOT {
      DotOnlyByDot(ca, cb);
      assert !Redundant(root, ca);
    } else {
      BelowTransitive(root, up, top);
      assert top == root || Below(root, top);
      assert !Redundant(root, ca);
      assert top == root;
      assert |up| <= |root| && |top| <= |up|;
    }
  }

  lemma DotOnlyByDot(a: seq<Path>, b: seq<Path>)
    requires forall path :: CopiedBy(path, a) <==> CopiedBy(path, b)
    ensures DOT in a <==> DOT in b
  {
    assert Copies(DOT, DOT);
    forall r | Copies(r, DOT) ensures r == DOT {
      NothingIsAboveDot(r);
    }
    if DOT in a { assert CopiedBy(DOT, b); }
    if DOT in b { assert CopiedBy(DOT, a); }
  }

  /** Collapsing twice is collapsing once. */
  lemma CollapseIdempotent(roots: seq<Path>)
    ensures CollapseSnapshotRoots(CollapseSnapshotRoots(roots)) == CollapseSnapshotRoots(roots)
  {
    forall path ensures CopiedBy(path, CollapseSnapshotRoots(roots)) <==> CopiedBy(path, roots) {
      CollapseCoverage(roots, path);
    }
    CollapseCanonical(CollapseSnapshotRoots(roots), roots);
  }

  // ----- policy scopes and plans -----

  datatype Scopes = Scopes(read: seq<Path>, write: seq<Path>)

  /** The part of the configuration the scope rules read; `topLevel` is empty when
      no materialization is configured. */
  datatype Config = Config(scopes: Scopes, topLevel: seq<Path>)

  datatype Plan = Plan(operation: Kernel.Operation, relevantPaths: seq<Path>)

  function PolicyWriteScopes(config: Config, policy: Scopes): seq<Path> {
    IntersectScopes(policy.write, config.scopes.write)
  }

  function PolicyScopes(config: Config, policy: Scopes, plan: Plan): seq<Path> {
    var read := AddAll([], IntersectScopes(policy.read, config.scopes.read));
    var both := if plan.operation.Implement? then AddAll(read, PolicyWriteScopes(config, policy)) else read;
    AddAll(both, config.topLevel)
  }

  /** The scopes a plan is checked against, and (without ".") its edit paths. */
  function PlanScopes(config: Config, policy: Scopes, plan: Plan): seq<Path> {
    if plan.operation.Implement? then PolicyWriteScopes(config, policy)
    else PolicyScopes(config, policy, plan)
  }

  function Filter(paths: seq<Path>, drop: seq<Path>): (r: seq<Path>)
    ensures forall p :: p in r <==> p in paths && p !in drop
  {
    if paths == [] then []
    else (if paths[0] in drop then [] else [paths[0]]) + Filter(paths[1..], drop)
  }

  function AllowedPaths(config: Config, policy: Scopes, plan: Plan): seq<Path> {
    Filter(PlanScopes(config, policy, plan), [DOT])
  }

  function SnapshotRoots(config: Config, policy: Scopes, plan: Plan): seq<Path> {
    CollapseSnapshotRoots(Filter(PolicyScopes(config, policy, plan), config.topLevel))
  }

  predicate AcceptsPlan(config: Config, policy: Scopes, plan: Plan) {
    forall p :: p in plan.relevantPaths ==> p != DOT && WithinScope(p, PlanScopes(config, policy, plan))
  }

  /** The loop of `assertPlanScope`. */
  method AssertPlanScope(config: Config, policy: Scopes, plan: Plan) returns (ok: bool)
    ensures ok <==> AcceptsPlan(config, policy, plan)
  {
    var scopes := PlanScopes(config, policy, plan);
    for i := 0 to |plan.relevantPaths|
      invariant forall j :: 0 <= j < i ==>
                  plan.relevantPaths[j] != DOT && WithinScope(plan.relevantPaths[j], scopes)
    {
      var relevant := plan.relevantPaths[i];
      if relevant == DOT || !WithinScope(relevant, scopes) {
        assert relevant in plan.relevantPaths;
        return false;
      }
    }
    return true;
  }

  /** An implement plan is accepted exactly when no relevant path is "." and each
      lies in both the approved and the configured write scopes. */
  lemma ImplementPlanAccepted(config: Config, policy: Scopes, plan: Plan)
    requires plan.operation.Implement?
    ensures AcceptsPlan(config, policy, plan) <==>
            forall p :: p in plan.relevantPaths ==>
              p != DOT && WithinScope(p, policy.write) && WithinScope(p, config.scopes.write)
  {
    forall p | p in plan.relevantPaths
      ensures WithinScope(p, PlanScopes(config, policy, plan)) <==>
              WithinScope(p, policy.write) && WithinScope(p, config.scopes.write)
    {
      IntersectScopesIsMeet(policy.write, config.scopes.write, p);
    }
  }

  /** What the scopes of a plan cover: what policy and config both allow to read, for an implement
      plan also what both allow to write, and the allowed top-level files. */
  lemma PolicyScopesCover(config: Config, policy: Scopes, plan: Plan, path: Path)
    ensures WithinScope(path, PolicyScopes(config, policy, plan)) <==>
            || (WithinScope(path, policy.read) && WithinScope(path, config.scopes.read))
            || (plan.operation.Implement? && WithinScope(path, policy.write) && WithinScope(path, config.scopes.write))
            || WithinScope(path, config.topLevel)
  {
    IntersectScopesIsMeet(policy.read, config.scopes.read, path);
    IntersectScopesIsMeet(policy.write, config.scopes.write, path);
    var all, read := PolicyScopes(config, policy, plan), IntersectScopes(policy.read, config.scopes.read);
    assert forall s :: s in all <==>
             s in read || (plan.operation.Implement? && s in PolicyWriteScopes(config, policy)) || s in config.topLevel;
  }

  /** An investigate plan is accepted exactly when no relevant path is "." and each lies in both
      the approved and the configured read scopes or is an allowed top-level file. */
  lemma InvestigatePlanAccepted(config: Config, policy: Scopes, plan: Plan)
    requires plan.operation.Investigate?
    ensures AcceptsPlan(config, policy, plan) <==>
            forall p :: p in plan.relevantPaths ==>
              && p != DOT
              && ((WithinScope(p, policy.read) && WithinScope(p, config.scopes.read))
                  || WithinScope(p, config.topLevel))
  {
    forall p | p in plan.relevantPaths
      ensures WithinScope(p, PlanScopes(config, policy, plan)) <==>
              (WithinScope(p, policy.read) && WithinScope(p, config.scopes.read)) || WithinScope(p, config.topLevel)
    {
      PolicyScopesCover(config, policy, plan, p);
    }
  }

  /** Every path of an accepted plan may be used under the profile and is present in the sealed
      snapshot, below a copied root or as an allowed top-level file. */
  lemma AcceptedPathsAreUsable(config: Config, policy: Scopes, plan: Plan, path: Path)
    requires AcceptsPlan(config, policy, plan) && path in plan.relevantPaths
    ensures WithinScope(path, AllowedPaths(config, policy, plan))
    ensures CopiedBy(path, SnapshotRoots(config, policy, plan)) || WithinScope(path, config.topLevel)
  {
    var s :| s in PlanScopes(config, policy, plan) && Covers(s, path);
    assert s != DOT;
    assert s in AllowedPaths(config, policy, plan);
    var all := PolicyScopes(config, policy, plan);
    assert s in all;
    if s !in config.topLevel {
      var roots := Filter(all, config.topLevel);
      assert s in roots && Copies(s, path);
      assert CopiedBy(path, roots);
      CollapseCoverage(roots, path);
    }
  }

  /** The snapshot copies exactly what some scope reaches that policy and config have in common,
      for reading or, under an implement plan, for writing, and that is no top-level file. */
  lemma SnapshotCopiesExactly(config: Config, policy: Scopes, plan: Plan, path: Path)
    ensures CopiedBy(path, SnapshotRoots(config, policy, plan)) <==>
            exists s :: && Copies(s, path) && s !in config.topLevel
                        && (FromPair(s, policy.read, config.scopes.read) ||
                            (plan.operation.Implement? && FromPair(s, policy.write, config.scopes.write)))
  {
    var roots := Filter(PolicyScopes(config, policy, plan), config.topLevel);
    CollapseCoverage(roots, path);
    IntersectScopesContent(policy.read, config.scopes.read);
    IntersectScopesContent(policy.write, config.scopes.write);
    assert forall s :: s in roots <==>
             && s !in config.topLevel
             && (FromPair(s, policy.read, config.scopes.read) ||
                 (plan.operation.Implement? && FromPair(s, policy.write, config.scopes.write)));
  }

  /** Whatever the configuration becomes, what an implement profile may edit never
      exceeds what the policy approved for writing. */
  lemma ConfigOnlyNarrows(config: Config, policy: Scopes, plan: Plan, path: Path)
    requires plan.operation.Implement?
    ensures WithinScope(path, AllowedPaths(config, policy, plan)) <==>
            path != DOT && WithinScope(path, policy.write) && WithinScope(path, config.scopes.write)
  {
    var meet := PolicyWriteScopes(config, policy);
    IntersectScopesIsMeet(policy.write, config.scopes.write, path);
    if WithinScope(path, AllowedPaths(config, policy, plan)) {
      var s :| s in AllowedPaths(config, policy, plan) && Covers(s, path);
      assert s in meet && s != DOT;
      assert path != DOT by {
        NothingIsAboveDot(s);
      }
    }
    if path != DOT && WithinScope(path, meet) {
      var s :| s in meet && Covers(s, path);
      assert s in AllowedPaths(config, policy, plan);
    }
  }

  /** An investigate profile reaches exactly what policy and config both allow to read and the
      allowed top-level files. */
  lemma InvestigateProfile(config: Config, policy: Scopes, plan: Plan, path: Path)
    requires plan.operation.Investigate?
    ensures WithinScope(path, AllowedPaths(config, policy, plan)) <==>
            && path != DOT
            && ((WithinScope(path, policy.read) && WithinScope(path, config.scopes.read))
                || WithinScope(path, config.topLevel))
  {
    var all := PolicyScopes(config, policy, plan);
    PolicyScopesCover(config, policy, plan, path);
    if WithinScope(path, AllowedPaths(config, policy, plan)) {
      var s :| s in AllowedPaths(config, policy, plan) && Covers(s, path);
      assert s in all && s != DOT;
      assert path != DOT by {
        NothingIsAboveDot(s);
      }
    }
    if path != DOT && WithinScope(path, all) {
      var s :| s in all && Covers(s, path);
      assert s in AllowedPaths(config, policy, plan);
    }
  }
}
