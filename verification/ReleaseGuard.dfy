/** The public-release guard: it scans only the blobs that an outbound commit
    changed, yet its verdict speaks about every whole tree that leaves. */
module ReleaseGuard {
  import GuardText
  import opened Prelude

  type Path = string
  type Bytes = string
  type Commit = string
  type Tree = map<Path, Bytes>

  datatype Match = Match(rule: string, fingerprint: string)
  datatype Scope = OutboundDiff | OutboundBlob
  datatype Finding = Finding(rule: string, scope: Scope, path: Path, fingerprint: string, commit: Commit)
  type Change = GuardText.Change
  datatype Key = Key(path: Path, rule: string, fingerprint: string)

  const EXIT_USAGE := 2
  const EXIT_GIT := 4
  const EXIT_BLOB := 11
  const EXIT_DIFF := 12

  type Scan = Bytes -> seq<Match>

  ghost function ChangedPaths(changes: seq<Change>): set<Path> {
    set i | 0 <= i < |changes| && changes[i].status != 'D' :: changes[i].path
  }

  /** What the guard needs from a diff: the paths it reports as anything but deleted include
      every path whose blob is new or different, and exist. Rename and copy detection may
      choose any sources. */
  ghost predicate ExactDiff(old_: Tree, new_: Tree, changes: seq<Change>) {
    && (forall p | p in new_ && (p !in old_ || old_[p] != new_[p]) :: p in ChangedPaths(changes))
    && ChangedPaths(changes) <= new_.Keys
  }

  /** A repository: commits, parents and trees; `order` numbers the commits topologically,
      which is what it means for the history to be acyclic. The three functions are git's. */
  datatype Git = Git(
    parents: map<Commit, seq<Commit>>,
    trees: map<Commit, Tree>,
    order: map<Commit, nat>,
    nameStatus: (Tree, Tree) -> seq<Change>,
    patch: (Tree, Tree, Change) -> Bytes,
    revList: (set<Commit>, Commit) -> seq<Commit>)
  {
    /** The files of a commit. */
    function TreeOf(c: Commit): Tree {
      if c in trees then trees[c] else map[]
    }

    /** A commit is compared with each of its parents; a root is compared once, with the empty tree. */
    function Sides(c: Commit): nat {
      if c in parents && parents[c] != [] then |parents[c]| else 1
    }

    function SideTree(c: Commit, i: nat): Tree {
      if c in parents && i < |parents[c]| then TreeOf(parents[c][i]) else map[]
    }

    function ChangesAt(c: Commit, i: nat): seq<Change> {
      nameStatus(SideTree(c, i), TreeOf(c))
    }

    /** The paths that the diffs against the first `n` parents report, deletions aside. */
    ghost function ChangedUpTo(c: Commit, n: nat): set<Path> {
      if n == 0 then {} else ChangedUpTo(c, n - 1) + ChangedPaths(ChangesAt(c, n - 1))
    }

    ghost function Changed(c: Commit): set<Path> {
      ChangedUpTo(c, Sides(c))
    }

    ghost predicate Dag() {
      && trees.Keys == parents.Keys == order.Keys
      && (forall c, q | c in parents && q in parents[c] :: q in parents && order[q] < order[c])
    }

    /** `a` is `c` or one of its ancestors. */
    ghost predicate Reaches(c: Commit, a: Commit)
      requires Dag() && c in parents
      decreases order[c]
    {
      a == c || exists q | q in parents[c] :: Reaches(q, a)
    }

    /** `rev-list head ^bases`: what the push would publish. */
    ghost predicate Outbound(bases: set<Commit>, head: Commit, c: Commit)
      requires Dag() && bases <= parents.Keys && head in parents
    {
      Reaches(head, c) && forall b | b in bases :: !Reaches(b, c)
    }

    ghost predicate Valid() {
      && Dag()
      && (forall old_, new_ :: ExactDiff(old_, new_, nameStatus(old_, new_)))
      && (forall bases, head, c | bases <= parents.Keys && head in parents ::
            c in revList(bases, head) <==> Outbound(bases, head, c))
    }
  }

  // ---- Baselines ----

  /** Match `m` at path `p` is already public: some baseline ref has it at that very path. */
  ghost predicate InBaseline(git: Git, scan: Scan, refs: seq<Commit>, p: Path, m: Match) {
    exists r | r in refs :: p in git.TreeOf(r) && m in scan(git.TreeOf(r)[p])
  }

  /** The resolver behind both baselines: the one for an existing remote ref holds a single
      commit, the one for a new ref holds every ref of the remote's namespace. */
  class Baseline {
    const git: Git
    const scan: Scan
    const refs: seq<Commit>
    var cache: map<Path, set<Key>>

    ghost predicate Valid()
      reads this
    {
      forall p, k | p in cache :: k in cache[p] <==>
        k.path == p && InBaseline(git, scan, refs, p, Match(k.rule, k.fingerprint))
    }

    constructor (git: Git, scan: Scan, refs: seq<Commit>)
      ensures Valid() && this.git == git && this.scan == scan && this.refs == refs
    {
      this.git, this.scan, this.refs := git, scan, refs;
      cache := map[];
    }

    /** Answers from the cache exactly what a fresh scan of the refs would answer. */
    method Contains(path: Path, m: Match) returns (known: bool)
      requires Valid()
      modifies this
      ensures Valid()
      ensures known <==> InBaseline(git, scan, refs, path, m)
    {
      if path !in cache {
        var keys: set<Key> := {};
        for i := 0 to |refs|
          invariant unchanged(this)
          invariant forall k :: k in keys <==> k.path == path &&
                                               InBaseline(git, scan, refs[..i], path, Match(k.rule, k.fingerprint))
        {
          assert refs[..i + 1] == refs[..i] + [refs[i]];
          if path in git.TreeOf(refs[i]) {
            var ms := scan(git.TreeOf(refs[i])[path]);
            ghost var before := keys;
            for j := 0 to |ms|
              invariant forall k :: k in keys <==>
                                    k in before || (k.path == path && Match(k.rule, k.fingerprint) in ms[..j])
            {
              keys := keys + {Key(path, ms[j].rule, ms[j].fingerprint)};
            }
            assert ms[..|ms|] == ms;
          }
        }
        assert refs[..|refs|] == refs;
        cache := cache[path := keys];
      }
      known := Key(path, m.rule, m.fingerprint) in cache[path];
    }
  }

  // ---- Scanning a range ----

  datatype RangeResult = RangeResult(diffFindings: set<Finding>, blobFindings: set<Finding>)
  {
    function ExitCode(): int {
      if blobFindings != {} then EXIT_BLOB else if diffFindings != {} then EXIT_DIFF else 0
    }
  }

  /** The non-baseline matches among `ms`, as keys at one path. */
  ghost function FreshKeys(git: Git, scan: Scan, refs: seq<Commit>, path: Path, ms: seq<Match>): set<Key> {
    set m | m in ms && !InBaseline(git, scan, refs, path, m) :: Key(path, m.rule, m.fingerprint)
  }

  /** What the patches of `changes` contribute. */
  ghost function PatchKeys(git: Git, scan: Scan, refs: seq<Commit>, old_: Tree, new_: Tree,
                           changes: seq<Change>): set<Key> {
    if changes == [] then {} else
      var n := |changes| - 1;
      PatchKeys(git, scan, refs, old_, new_, changes[..n])
      + FreshKeys(git, scan, refs, changes[n].path, scan(git.patch(old_, new_, changes[n])))
  }

  /** What commit `c` contributes against its first `n` parents. */
  ghost function DiffKeys(git: Git, scan: Scan, refs: seq<Commit>, c: Commit, n: nat): set<Key> {
    if n == 0 then {} else
      DiffKeys(git, scan, refs, c, n - 1)
      + PatchKeys(git, scan, refs, git.SideTree(c, n - 1), git.TreeOf(c), git.ChangesAt(c, n - 1))
  }

  /** What the blobs of commit `c` at `paths` contribute. */
  ghost function BlobKeys(git: Git, scan: Scan, refs: seq<Commit>, c: Commit, paths: set<Path>): set<Key>
    requires paths <= git.TreeOf(c).Keys
  {
    set p, m | p in paths && m in scan(git.TreeOf(c)[p]) && !InBaseline(git, scan, refs, p, m) ::
        Key(p, m.rule, m.fingerprint)
  }

  /** The keys of the non-baseline matches among `ms`. */
  method Fresh(b: Baseline, path: Path, ms: seq<Match>) returns (keys: set<Key>)
    requires b.Valid()
    modifies b
    ensures b.Valid()
    ensures keys == FreshKeys(b.git, b.scan, b.refs, path, ms)
  {
    keys := {};
    for j := 0 to |ms|
      invariant b.Valid()
      invariant keys == FreshKeys(b.git, b.scan, b.refs, path, ms[..j])
    {
      assert ms[..j + 1] == ms[..j] + [ms[j]];
      var known := b.Contains(path, ms[j]);
      if !known {
        keys := keys + {Key(path, ms[j].rule, ms[j].fingerprint)};
      }
    }
    assert ms[..|ms|] == ms;
  }

  lemma ChangedPathsAdd(changes: seq<Change>, n: nat)
    requires n < |changes|
    ensures ChangedPaths(changes[..n + 1])
         == ChangedPaths(changes[..n]) + if changes[n].status != 'D' then {changes[n].path} else {}
  {
    assert changes[..n + 1] == changes[..n] + [changes[n]];
  }

  /** The inner loop of a commit: the changes against one parent. */
  method ScanParent(b: Baseline, old_: Tree, new_: Tree, changes: seq<Change>)
    returns (keys: set<Key>, changed: set<Path>)
    requires b.Valid()
    modifies b
    ensures b.Valid()
    ensures keys == PatchKeys(b.git, b.scan, b.refs, old_, new_, changes) && changed == ChangedPaths(changes)
  {
    keys, changed := {}, {};
    for n := 0 to |changes|
      invariant b.Valid()
      invariant keys == PatchKeys(b.git, b.scan, b.refs, old_, new_, changes[..n])
      invariant changed == ChangedPaths(changes[..n])
    {
      assert changes[..n + 1][..n] == changes[..n];
      ChangedPathsAdd(changes, n);
      var more := Fresh(b, changes[n].path, b.scan(b.git.patch(old_, new_, changes[n])));
      keys := keys + more;
      if changes[n].status != 'D' {
        changed := changed + {changes[n].path};
      }
    }
    assert changes[..|changes|] == changes;
  }

  method ScanPatches(b: Baseline, c: Commit) returns (keys: set<Key>, changed: set<Path>)
    requires b.Valid()
    modifies b
    ensures b.Valid()
    ensures keys == DiffKeys(b.git, b.scan, b.refs, c, b.git.Sides(c))
    ensures changed == b.git.Changed(c)
  {
    keys, changed := {}, {};
    for n := 0 to b.git.Sides(c)
      invariant b.Valid()
      invariant keys == DiffKeys(b.git, b.scan, b.refs, c, n)
      invariant changed == b.git.ChangedUpTo(c, n)
    {
      var moreKeys, morePaths := ScanParent(b, b.git.SideTree(c, n), b.git.TreeOf(c), b.git.ChangesAt(c, n));
      keys, changed := keys + moreKeys, changed + morePaths;
    }
  }

  lemma BlobKeysAdd(git: Git, scan: Scan, refs: seq<Commit>, c: Commit, paths: set<Path>, p: Path)
    requires paths + {p} <= git.TreeOf(c).Keys
    ensures BlobKeys(git, scan, refs, c, paths + {p})
         == BlobKeys(git, scan, refs, c, paths) + FreshKeys(git, scan, refs, p, scan(git.TreeOf(c)[p]))
  {}

  method ScanBlobs(b: Baseline, c: Commit, changed: set<Path>) returns (keys: set<Key>)
    requires b.Valid() && changed <= b.git.TreeOf(c).Keys
    modifies b
    ensures b.Valid()
    ensures keys == BlobKeys(b.git, b.scan, b.refs, c, changed)
  {
    keys := {};
    var rest := changed;
    while rest != {}
      invariant b.Valid() && rest <= changed
      invariant keys == BlobKeys(b.git, b.scan, b.refs, c, changed - rest)
    {
      var p :| p in rest;
      BlobKeysAdd(b.git, b.scan, b.refs, c, changed - rest, p);
      assert changed - rest + {p} == changed - (rest - {p});
      var more := Fresh(b, p, b.scan(b.git.TreeOf(c)[p]));
      keys := keys + more;
      rest := rest - {p};
    }
    assert changed - rest == changed;
  }

  lemma {:induction false} ChangedExists(git: Git, c: Commit, n: nat)
    requires git.Valid()
    ensures git.ChangedUpTo(c, n) <= git.TreeOf(c).Keys
  {
    if n > 0 {
      ChangedExists(git, c, n - 1);
      assert ExactDiff(git.SideTree(c, n - 1), git.TreeOf(c), git.ChangesAt(c, n - 1));
    }
  }

  /** A later commit takes over the keys it shares with an earlier one. */
  function Mark(found: map<Key, Commit>, keys: set<Key>, c: Commit): map<Key, Commit> {
    found + map k | k in keys :: c
  }

  /** All blob keys that commits contribute, each attributed to the last commit that has it. */
  ghost function BlobMap(git: Git, scan: Scan, refs: seq<Commit>, commits: seq<Commit>): map<Key, Commit>
    requires git.Valid()
  {
    if commits == [] then map[] else
      var n := |commits| - 1;
      var c := commits[n];
      ChangedExists(git, c, git.Sides(c));
      Mark(BlobMap(git, scan, refs, commits[..n]), BlobKeys(git, scan, refs, c, git.Changed(c)), c)
  }

  ghost function DiffMap(git: Git, scan: Scan, refs: seq<Commit>, commits: seq<Commit>): map<Key, Commit> {
    if commits == [] then map[] else
      var n := |commits| - 1;
      var c := commits[n];
      Mark(DiffMap(git, scan, refs, commits[..n]), DiffKeys(git, scan, refs, c, git.Sides(c)), c)
  }

  function Findings(scope: Scope, keys: map<Key, Commit>): (fs: set<Finding>)
    ensures forall f ::
        f in fs <==>
        (var k := Key(f.path, f.rule, f.fingerprint); f.scope == scope && k in keys && keys[k] == f.commit)
    ensures fs == {} <==> keys == map[]
  {
    var fs := set k | k in keys :: Finding(k.rule, scope, k.path, k.fingerprint, keys[k]);
    assert forall k | k in keys :: Finding(k.rule, scope, k.path, k.fingerprint, keys[k]) in fs;
    fs
  }

  method ScanCommitRange(b: Baseline, commits: seq<Commit>) returns (r: RangeResult)
    requires b.Valid() && b.git.Valid()
    modifies b
    ensures b.Valid()
    ensures r == RangeResult(Findings(OutboundDiff, DiffMap(b.git, b.scan, b.refs, commits)),
                             Findings(OutboundBlob, BlobMap(b.git, b.scan, b.refs, commits)))
  {
    var diff: map<Key, Commit>, blob: map<Key, Commit> := map[], map[];
    for n := 0 to |commits|
      invariant b.Valid()
      invariant diff == DiffMap(b.git, b.scan, b.refs, commits[..n])
      invariant blob == BlobMap(b.git, b.scan, b.refs, commits[..n])
    {
      assert commits[..n + 1][..n] == commits[..n];
      var c := commits[n];
      var diffKeys, changed := ScanPatches(b, c);
      ChangedExists(b.git, c, b.git.Sides(c));
      var blobKeys := ScanBlobs(b, c, changed);
      diff, blob := Mark(diff, diffKeys, c), Mark(blob, blobKeys, c);
    }
    assert commits[..|commits|] == commits;
    r := RangeResult(Findings(OutboundDiff, diff), Findings(OutboundBlob, blob));
  }

  /** A blob that commit `c` introduced at `k.path` holds a match that is not in the baseline. */
  ghost predicate BlobHit(git: Git, scan: Scan, refs: seq<Commit>, c: Commit, k: Key) {
    var m := Match(k.rule, k.fingerprint);
    && k.path in git.Changed(c)
    && k.path in git.TreeOf(c) && m in scan(git.TreeOf(c)[k.path])
    && !InBaseline(git, scan, refs, k.path, m)
  }

  lemma BlobKeysHit(git: Git, scan: Scan, refs: seq<Commit>, c: Commit, k: Key)
    requires git.Changed(c) <= git.TreeOf(c).Keys
    ensures k in BlobKeys(git, scan, refs, c, git.Changed(c)) <==> BlobHit(git, scan, refs, c, k)
  {
    if BlobHit(git, scan, refs, c, k) {
      var m := Match(k.rule, k.fingerprint);
      assert k == Key(k.path, m.rule, m.fingerprint);
    }
  }

  lemma MarkAt(found: map<Key, Commit>, keys: set<Key>, c: Commit, k: Key)
    ensures k in Mark(found, keys, c) <==> k in found || k in keys
    ensures k in Mark(found, keys, c) ==> Mark(found, keys, c)[k] == if k in keys then c else found[k]
  {}

  lemma MembersSnoc(commits: seq<Commit>, n: nat)
    requires |commits| == n + 1
    ensures forall d :: d in commits <==> d in commits[..n] || d == commits[n]
  {}

  lemma BlobKeysMean(git: Git, scan: Scan, refs: seq<Commit>, c: Commit, k: Key)
    requires git.Valid()
    ensures git.Changed(c) <= git.TreeOf(c).Keys
    ensures k in BlobKeys(git, scan, refs, c, git.Changed(c)) <==> BlobHit(git, scan, refs, c, k)
  {
    ChangedExists(git, c, git.Sides(c));
    BlobKeysHit(git, scan, refs, c, k);
  }

  /** The reported blob keys are exactly the hits, each with a commit that really has it. */
  lemma {:induction false} BlobMapExact(git: Git, scan: Scan, refs: seq<Commit>, commits: seq<Commit>, k: Key)
    requires git.Valid()
    ensures k in BlobMap(git, scan, refs, commits) <==> exists c | c in commits :: BlobHit(git, scan, refs, c, k)
    ensures var found := BlobMap(git, scan, refs, commits);
      k in found ==> found[k] in commits && BlobHit(git, scan, refs, found[k], k)
  {
    if commits != [] {
      var n := |commits| - 1;
      var c := commits[n];
      BlobMapExact(git, scan, refs, commits[..n], k);
      BlobKeysMean(git, scan, refs, c, k);
      MarkAt(BlobMap(git, scan, refs, commits[..n]), BlobKeys(git, scan, refs, c, git.Changed(c)), c, k);
      MembersSnoc(commits, n);
    }
  }

  ghost predicate PatchHit(git: Git, scan: Scan, refs: seq<Commit>, old_: Tree, new_: Tree, changes: seq<Change>,
                           k: Key) {
    var m := Match(k.rule, k.fingerprint);
    && !InBaseline(git, scan, refs, k.path, m)
    && exists change | change in changes :: change.path == k.path && m in scan(git.patch(old_, new_, change))
  }

  ghost predicate SideHit(git: Git, scan: Scan, refs: seq<Commit>, c: Commit, i: nat, k: Key) {
    PatchHit(git, scan, refs, git.SideTree(c, i), git.TreeOf(c), git.ChangesAt(c, i), k)
  }

  /** The patch of some change of `c` at `k.path` holds a match that is not in the baseline. */
  ghost predicate DiffHit(git: Git, scan: Scan, refs: seq<Commit>, c: Commit, k: Key) {
    exists i: nat | i < git.Sides(c) :: SideHit(git, scan, refs, c, i, k)
  }

  lemma {:induction false} PatchKeysHit(git: Git, scan: Scan, refs: seq<Commit>, old_: Tree, new_: Tree,
                                        changes: seq<Change>, k: Key)
    ensures k in PatchKeys(git, scan, refs, old_, new_, changes) <==> PatchHit(git, scan, refs, old_, new_, changes, k)
  {
    if changes != [] {
      var n := |changes| - 1;
      PatchKeysHit(git, scan, refs, old_, new_, changes[..n], k);
      assert forall change :: change in changes <==> change in changes[..n] || change == changes[n];
      assert k == Key(k.path, k.rule, k.fingerprint);
    }
  }

  lemma SideKeysHit(git: Git, scan: Scan, refs: seq<Commit>, c: Commit, i: nat, k: Key)
    ensures k in PatchKeys(git, scan, refs, git.SideTree(c, i), git.TreeOf(c), git.ChangesAt(c, i))
       <==> SideHit(git, scan, refs, c, i, k)
  {
    PatchKeysHit(git, scan, refs, git.SideTree(c, i), git.TreeOf(c), git.ChangesAt(c, i), k);
  }

  /** One of the first `n` sides has a hit, counted as the keys are. */
  ghost predicate HitBefore(git: Git, scan: Scan, refs: seq<Commit>, c: Commit, n: nat, k: Key) {
    n > 0 && (HitBefore(git, scan, refs, c, n - 1, k) || SideHit(git, scan, refs, c, n - 1, k))
  }

  lemma {:induction false} HitBeforeIff(git: Git, scan: Scan, refs: seq<Commit>, c: Commit, n: nat, k: Key)
    ensures HitBefore(git, scan, refs, c, n, k) <==> exists i: nat | i < n :: SideHit(git, scan, refs, c, i, k)
  {
    if n > 0 { HitBeforeIff(git, scan, refs, c, n - 1, k); }
  }

  lemma {:induction false} DiffKeysHit(git: Git, scan: Scan, refs: seq<Commit>, c: Commit, n: nat, k: Key)
    ensures k in DiffKeys(git, scan, refs, c, n) <==> HitBefore(git, scan, refs, c, n, k)
  {
    if n > 0 {
      DiffKeysHit(git, scan, refs, c, n - 1, k);
      SideKeysHit(git, scan, refs, c, n - 1, k);
    }
  }

  lemma DiffKeysMean(git: Git, scan: Scan, refs: seq<Commit>, c: Commit, k: Key)
    ensures k in DiffKeys(git, scan, refs, c, git.Sides(c)) <==> DiffHit(git, scan, refs, c, k)
  {
    DiffKeysHit(git, scan, refs, c, git.Sides(c), k);
    HitBeforeIff(git, scan, refs, c, git.Sides(c), k);
  }

  /** The reported diff keys are exactly the hits in patches, each with a commit that has it. */
  lemma {:induction false} DiffMapExact(git: Git, scan: Scan, refs: seq<Commit>, commits: seq<Commit>, k: Key)
    ensures k in DiffMap(git, scan, refs, commits) <==> exists c | c in commits :: DiffHit(git, scan, refs, c, k)
    ensures var found := DiffMap(git, scan, refs, commits);
      k in found ==> found[k] in commits && DiffHit(git, scan, refs, found[k], k)
  {
    if commits != [] {
      var n := |commits| - 1;
      var c := commits[n];
      DiffMapExact(git, scan, refs, commits[..n], k);
      DiffKeysMean(git, scan, refs, c, k);
      MarkAt(DiffMap(git, scan, refs, commits[..n]), DiffKeys(git, scan, refs, c, git.Sides(c)), c, k);
      MembersSnoc(commits, n);
    }
  }

  // ---- Coverage: changed paths are enough ----

  lemma {:induction false} ReachesParent(git: Git, c: Commit, a: Commit, q: Commit)
    requires git.Dag() && c in git.parents && git.Reaches(c, a) && a in git.parents && q in git.parents[a]
    ensures git.Reaches(c, q)
    decreases git.order[c]
  {
    if a == c {
      assert git.Reaches(q, q);
    } else {
      var d :| d in git.parents[c] && git.Reaches(d, a);
      ReachesParent(git, d, a, q);
    }
  }

  lemma {:induction false} ChangedMonotone(git: Git, c: Commit, m: nat, n: nat)
    requires m <= n
    ensures git.ChangedUpTo(c, m) <= git.ChangedUpTo(c, n)
  {
    if m < n { ChangedMonotone(git, c, m, n - 1); }
  }

  /** The blob `x` at path `p` was introduced by some outbound commit, whose scan therefore saw it. */
  ghost predicate Introduced(git: Git, bases: set<Commit>, head: Commit, p: Path, x: Bytes)
    requires git.Dag() && bases <= git.parents.Keys && head in git.parents
  {
    exists c | git.Outbound(bases, head, c) :: p in git.Changed(c) && p in git.TreeOf(c) && git.TreeOf(c)[p] == x
  }

  /** The blob `x` already sits at path `p` in a commit that the other side has. */
  ghost predicate AlreadyPublic(git: Git, bases: set<Commit>, p: Path, x: Bytes)
    requires git.Dag() && bases <= git.parents.Keys
  {
    exists b, c | b in bases && git.Reaches(b, c) :: p in git.TreeOf(c) && git.TreeOf(c)[p] == x
  }

  lemma SideIntroduces(git: Git, bases: set<Commit>, head: Commit, c: Commit, p: Path, i: nat)
    requires git.Valid() && bases <= git.parents.Keys && head in git.parents
    requires git.Outbound(bases, head, c) && p in git.TreeOf(c) && i < git.Sides(c)
    requires p !in git.SideTree(c, i) || git.SideTree(c, i)[p] != git.TreeOf(c)[p]
    ensures Introduced(git, bases, head, p, git.TreeOf(c)[p])
  {
    assert ExactDiff(git.SideTree(c, i), git.TreeOf(c), git.ChangesAt(c, i));
    ChangedMonotone(git, c, i + 1, git.Sides(c));
  }

  /** Every file of every outbound commit, merges and roots included, was scanned where it was
      introduced or was public already at the same path. */
  lemma {:induction false} Coverage(git: Git, bases: set<Commit>, head: Commit, c: Commit, p: Path)
    requires git.Valid() && bases <= git.parents.Keys && head in git.parents
    requires git.Outbound(bases, head, c) && p in git.TreeOf(c)
    ensures Introduced(git, bases, head, p, git.TreeOf(c)[p]) || AlreadyPublic(git, bases, p, git.TreeOf(c)[p])
    decreases if c in git.order then git.order[c] else 0
  {
    if i: nat :| i < git.Sides(c) && (p !in git.SideTree(c, i) || git.SideTree(c, i)[p] != git.TreeOf(c)[p]) {
      SideIntroduces(git, bases, head, c, p, i);
    } else {
      assert p in git.SideTree(c, 0);
      var q := git.parents[c][0];
      if b :| b in bases && git.Reaches(b, q) {
      } else {
        ReachesParent(git, head, c, q);
        Coverage(git, bases, head, q, p);
      }
    }
  }

  function ToSet<T>(s: seq<T>): set<T> { set x | x in s }

  /** Nothing new leaves: each match in each outbound file is in the baseline for its path,
      unless the very same file was public at that path already. */
  ghost predicate NothingNewLeaks(git: Git, scan: Scan, refs: seq<Commit>, head: Commit)
    requires git.Dag() && ToSet(refs) <= git.parents.Keys && head in git.parents
  {
    forall c, p, m | git.Outbound(ToSet(refs), head, c) && p in git.TreeOf(c) && m in scan(git.TreeOf(c)[p]) ::
      InBaseline(git, scan, refs, p, m) || AlreadyPublic(git, ToSet(refs), p, git.TreeOf(c)[p])
  }

  lemma CleanScanCovers(git: Git, scan: Scan, refs: seq<Commit>, head: Commit)
    requires git.Valid() && ToSet(refs) <= git.parents.Keys && head in git.parents
    requires forall c, k | git.Outbound(ToSet(refs), head, c) :: !BlobHit(git, scan, refs, c, k)
    ensures NothingNewLeaks(git, scan, refs, head)
  {
    var bases := ToSet(refs);
    forall c, p, m | git.Outbound(bases, head, c) && p in git.TreeOf(c) && m in scan(git.TreeOf(c)[p])
      ensures InBaseline(git, scan, refs, p, m) || AlreadyPublic(git, bases, p, git.TreeOf(c)[p])
    {
      Coverage(git, bases, head, c, p);
      if Introduced(git, bases, head, p, git.TreeOf(c)[p]) {
        var d :| git.Outbound(bases, head, d) && p in git.Changed(d) && p in git.TreeOf(d)
            && git.TreeOf(d)[p] == git.TreeOf(c)[p];
        assert !BlobHit(git, scan, refs, d, Key(p, m.rule, m.fingerprint));
        assert m == Match(m.rule, m.fingerprint);
      }
    }
  }

  // ---- Entry points ----

  /** The finding names an outbound commit that introduced, at that path, a blob with that match. */
  ghost predicate RealFinding(git: Git, scan: Scan, refs: seq<Commit>, head: Commit, f: Finding) {
    && git.Dag() && head in git.parents && ToSet(refs) <= git.parents.Keys
    && git.Outbound(ToSet(refs), head, f.commit)
    && BlobHit(git, scan, refs, f.commit, Key(f.path, f.rule, f.fingerprint))
  }

  /** Some outbound commit introduced, at some path, a blob with a match that is not in the baseline. */
  ghost predicate AnyBlobHit(git: Git, scan: Scan, refs: seq<Commit>, head: Commit)
    requires git.Dag() && head in git.parents && ToSet(refs) <= git.parents.Keys
  {
    exists c, k | git.Outbound(ToSet(refs), head, c) :: BlobHit(git, scan, refs, c, k)
  }

  /** The finding names an outbound commit with that match in a patch at that path. */
  ghost predicate RealDiffFinding(git: Git, scan: Scan, refs: seq<Commit>, head: Commit, f: Finding) {
    && git.Dag() && head in git.parents && ToSet(refs) <= git.parents.Keys
    && git.Outbound(ToSet(refs), head, f.commit)
    && DiffHit(git, scan, refs, f.commit, Key(f.path, f.rule, f.fingerprint))
  }

  ghost predicate AnyDiffHit(git: Git, scan: Scan, refs: seq<Commit>, head: Commit)
    requires git.Dag() && head in git.parents && ToSet(refs) <= git.parents.Keys
  {
    exists c, k | git.Outbound(ToSet(refs), head, c) :: DiffHit(git, scan, refs, c, k)
  }

  lemma RangeMeaning(git: Git, scan: Scan, refs: seq<Commit>, head: Commit, commits: seq<Commit>)
    requires git.Valid() && head in git.parents && ToSet(refs) <= git.parents.Keys
    requires commits == git.revList(ToSet(refs), head)
    ensures var found := Findings(OutboundBlob, BlobMap(git, scan, refs, commits));
      && (found != {} <==> AnyBlobHit(git, scan, refs, head))
      && (found == {} ==> NothingNewLeaks(git, scan, refs, head))
      && (forall f | f in found :: RealFinding(git, scan, refs, head, f))
  {
    var found := Findings(OutboundBlob, BlobMap(git, scan, refs, commits));
    forall f | f in found ensures RealFinding(git, scan, refs, head, f) {
      BlobMapExact(git, scan, refs, commits, Key(f.path, f.rule, f.fingerprint));
      assert f.commit in commits;
    }
    if found == {} {
      forall c, k | git.Outbound(ToSet(refs), head, c) ensures !BlobHit(git, scan, refs, c, k) {
        assert c in commits;
        BlobMapExact(git, scan, refs, commits, k);
      }
      CleanScanCovers(git, scan, refs, head);
    } else {
      var f :| f in found;
      assert RealFinding(git, scan, refs, head, f);
    }
  }

  lemma DiffMeaning(git: Git, scan: Scan, refs: seq<Commit>, head: Commit, commits: seq<Commit>)
    requires git.Valid() && head in git.parents && ToSet(refs) <= git.parents.Keys
    requires commits == git.revList(ToSet(refs), head)
    ensures var found := Findings(OutboundDiff, DiffMap(git, scan, refs, commits));
      && (found != {} <==> AnyDiffHit(git, scan, refs, head))
      && (forall f | f in found :: RealDiffFinding(git, scan, refs, head, f))
  {
    var found := Findings(OutboundDiff, DiffMap(git, scan, refs, commits));
    forall f | f in found ensures RealDiffFinding(git, scan, refs, head, f) {
      DiffMapExact(git, scan, refs, commits, Key(f.path, f.rule, f.fingerprint));
      assert f.commit in commits;
    }
    if found == {} {
      forall c, k | git.Outbound(ToSet(refs), head, c) ensures !DiffHit(git, scan, refs, c, k) {
        assert c in commits;
        DiffMapExact(git, scan, refs, commits, k);
      }
    } else {
      var f :| f in found;
      assert RealDiffFinding(git, scan, refs, head, f);
    }
  }

  /** `verify --range BASE..HEAD`, and each line of a push: the refs are both the excluded
      history and the baseline. There are findings exactly if there is something to find. */
  method VerifyRange(git: Git, scan: Scan, refs: seq<Commit>, head: Commit) returns (r: RangeResult)
    requires git.Valid() && head in git.parents && ToSet(refs) <= git.parents.Keys
    ensures r.blobFindings != {} <==> AnyBlobHit(git, scan, refs, head)
    ensures r.diffFindings != {} <==> AnyDiffHit(git, scan, refs, head)
    ensures r.blobFindings == {} ==> NothingNewLeaks(git, scan, refs, head)
    ensures forall f | f in r.blobFindings :: RealFinding(git, scan, refs, head, f)
    ensures forall f | f in r.diffFindings :: RealDiffFinding(git, scan, refs, head, f)
    ensures forall f | f in r.blobFindings :: f.scope == OutboundBlob
    ensures forall f | f in r.diffFindings :: f.scope == OutboundDiff
  {
    var b := new Baseline(git, scan, refs);
    var commits := git.revList(ToSet(refs), head);
    r := ScanCommitRange(b, commits);
    RangeMeaning(git, scan, refs, head, commits);
    DiffMeaning(git, scan, refs, head, commits);
  }

  /** One line of the pre-push protocol; a zero object id is None. */
  datatype PushLine = PushLine(local: Option<Commit>, remote: Option<Commit>)
  {
    function Bases(remoteRefs: seq<Commit>): seq<Commit> {
      match remote case Some(r) => [r] case None => remoteRefs
    }

    /** An unknown commit, or a new ref while the remote's namespace is empty. */
    predicate Rejected(git: Git, remoteRefs: seq<Commit>) {
      local.Some? &&
      (local.value !in git.parents || Bases(remoteRefs) == [] || !(ToSet(Bases(remoteRefs)) <= git.parents.Keys))
    }

    ghost predicate Clean(git: Git, scan: Scan, remoteRefs: seq<Commit>)
      requires git.Dag()
    {
      !Rejected(git, remoteRefs) && (local.Some? ==> NothingNewLeaks(git, scan, Bases(remoteRefs), local.value))
    }

    ghost predicate BlobHits(git: Git, scan: Scan, remoteRefs: seq<Commit>)
      requires git.Dag()
    {
      local.Some? && !Rejected(git, remoteRefs) && AnyBlobHit(git, scan, Bases(remoteRefs), local.value)
    }

    ghost predicate DiffHits(git: Git, scan: Scan, remoteRefs: seq<Commit>)
      requires git.Dag()
    {
      local.Some? && !Rejected(git, remoteRefs) && AnyDiffHit(git, scan, Bases(remoteRefs), local.value)
    }

    /** The finding is a real one of this line. */
    ghost predicate Finds(git: Git, scan: Scan, remoteRefs: seq<Commit>, f: Finding) {
      local.Some? &&
      if f.scope.OutboundBlob? then RealFinding(git, scan, Bases(remoteRefs), local.value, f)
      else RealDiffFinding(git, scan, Bases(remoteRefs), local.value, f)
    }
  }

  ghost predicate SomeBlobHits(git: Git, scan: Scan, remoteRefs: seq<Commit>, lines: seq<PushLine>)
    requires git.Dag()
  {
    exists line | line in lines :: line.BlobHits(git, scan, remoteRefs)
  }

  ghost predicate SomeDiffHits(git: Git, scan: Scan, remoteRefs: seq<Commit>, lines: seq<PushLine>)
    requires git.Dag()
  {
    exists line | line in lines :: line.DiffHits(git, scan, remoteRefs)
  }

  ghost predicate SomeFinds(git: Git, scan: Scan, remoteRefs: seq<Commit>, lines: seq<PushLine>, f: Finding) {
    exists line | line in lines :: line.Finds(git, scan, remoteRefs, f)
  }

  ghost predicate AllClean(git: Git, scan: Scan, remoteRefs: seq<Commit>, lines: seq<PushLine>)
    requires git.Dag()
  {
    forall line | line in lines :: line.Clean(git, scan, remoteRefs)
  }

  lemma LinesSnoc(git: Git, scan: Scan, remoteRefs: seq<Commit>, lines: seq<PushLine>, line: PushLine)
    requires git.Dag()
    ensures var more := lines + [line];
      && (SomeBlobHits(git, scan, remoteRefs, more) <==>
          SomeBlobHits(git, scan, remoteRefs, lines) || line.BlobHits(git, scan, remoteRefs))
      && (SomeDiffHits(git, scan, remoteRefs, more) <==>
          SomeDiffHits(git, scan, remoteRefs, lines) || line.DiffHits(git, scan, remoteRefs))
      && (AllClean(git, scan, remoteRefs, more) <==>
          AllClean(git, scan, remoteRefs, lines) && line.Clean(git, scan, remoteRefs))
  {
    assert forall l :: l in lines + [line] <==> l in lines || l == line;
  }

  lemma FindsSnoc(git: Git, scan: Scan, remoteRefs: seq<Commit>, lines: seq<PushLine>, line: PushLine, f: Finding)
    ensures SomeFinds(git, scan, remoteRefs, lines + [line], f)
       <==> SomeFinds(git, scan, remoteRefs, lines, f) || line.Finds(git, scan, remoteRefs, f)
  {
    assert forall l :: l in lines + [line] <==> l in lines || l == line;
  }

  /** What the guard has found says exactly what there is to find in these lines. */
  ghost predicate Reports(git: Git, scan: Scan, remoteRefs: seq<Commit>, lines: seq<PushLine>, r: RangeResult)
    requires git.Dag()
  {
    && (r.blobFindings != {} <==> SomeBlobHits(git, scan, remoteRefs, lines))
    && (r.diffFindings != {} <==> SomeDiffHits(git, scan, remoteRefs, lines))
    && (forall f | f in r.blobFindings + r.diffFindings :: SomeFinds(git, scan, remoteRefs, lines, f))
    && (r.blobFindings == {} ==> AllClean(git, scan, remoteRefs, lines))
  }

  /** The same of one line. */
  ghost predicate LineReports(git: Git, scan: Scan, remoteRefs: seq<Commit>, line: PushLine, r: RangeResult)
    requires git.Dag()
  {
    && (r.blobFindings != {} <==> line.BlobHits(git, scan, remoteRefs))
    && (r.diffFindings != {} <==> line.DiffHits(git, scan, remoteRefs))
    && (forall f | f in r.blobFindings + r.diffFindings :: line.Finds(git, scan, remoteRefs, f))
    && (r.blobFindings == {} ==> line.Clean(git, scan, remoteRefs))
  }

  method VerifyLine(git: Git, scan: Scan, remoteRefs: seq<Commit>, line: PushLine) returns (r: RangeResult)
    requires git.Valid() && !line.Rejected(git, remoteRefs)
    ensures LineReports(git, scan, remoteRefs, line, r)
  {
    r := RangeResult({}, {});
    if line.local.Some? { r := VerifyRange(git, scan, line.Bases(remoteRefs), line.local.value); }
  }

  lemma ReportsMore(git: Git, scan: Scan, remoteRefs: seq<Commit>, lines: seq<PushLine>, all: RangeResult,
                    line: PushLine, r: RangeResult)
    requires git.Dag() && Reports(git, scan, remoteRefs, lines, all) && LineReports(git, scan, remoteRefs, line, r)
    ensures Reports(git, scan, remoteRefs, lines + [line],
                    RangeResult(all.diffFindings + r.diffFindings, all.blobFindings + r.blobFindings))
  {
    LinesSnoc(git, scan, remoteRefs, lines, line);
    var sum := RangeResult(all.diffFindings + r.diffFindings, all.blobFindings + r.blobFindings);
    forall f | f in sum.blobFindings + sum.diffFindings ensures SomeFinds(git, scan, remoteRefs, lines + [line], f) {
      FindsSnoc(git, scan, remoteRefs, lines, line, f);
      if f !in all.blobFindings + all.diffFindings { assert f in r.blobFindings + r.diffFindings; }
    }
  }

  // ---- Lines of a push as they arrive ----

  /** How git writes object ids here, and which commit an object id stands for. */
  datatype Objects = Objects(idLength: nat, commitOf: string -> Commit)

  predicate HexDigit(c: char) { '0' <= c <= '9' || 'a' <= c <= 'f' || 'A' <= c <= 'F' }

  predicate IsId(objects: Objects, s: string) { |s| == objects.idLength && forall i | 0 <= i < |s| :: HexDigit(s[i]) }

  predicate IsZero(s: string) { forall i | 0 <= i < |s| :: s[i] == '0' }

  function Resolved(objects: Objects, s: string): Option<Commit> {
    if IsZero(s) then None else Some(objects.commitOf(s))
  }

  predicate BadRef(s: string) { s == "" || s[0] == '-' }

  /** A line has a local ref and object id, and a remote ref and object id. */
  function LineOf(objects: Objects, parts: seq<string>): PushLine
    requires |parts| == 4
  {
    PushLine(Resolved(objects, parts[1]), Resolved(objects, parts[3]))
  }

  function LineError(git: Git, objects: Objects, remoteRefs: seq<Commit>, parts: seq<string>): Option<int>
    requires |parts| == 4
  {
    if BadRef(parts[0]) || BadRef(parts[2]) then Some(EXIT_USAGE)
    else if !IsId(objects, parts[1]) || !IsId(objects, parts[3]) then Some(EXIT_GIT)
    else if LineOf(objects, parts).Rejected(git, remoteRefs) then Some(EXIT_GIT)
    else None
  }

  predicate FourEach(raw: seq<seq<string>>) { forall i | 0 <= i < |raw| :: |raw[i]| == 4 }

  /** The error of the first line that has one. */
  function FirstError(git: Git, objects: Objects, remoteRefs: seq<Commit>, raw: seq<seq<string>>): Option<int>
    requires FourEach(raw)
  {
    if raw == [] then None else
    var e := FirstError(git, objects, remoteRefs, raw[..|raw| - 1]);
    if e.Some? then e else LineError(git, objects, remoteRefs, raw[|raw| - 1])
  }

  function LinesOf(objects: Objects, raw: seq<seq<string>>): (lines: seq<PushLine>)
    requires FourEach(raw)
    ensures |lines| == |raw|
  {
    if raw == [] then [] else LinesOf(objects, raw[..|raw| - 1]) + [LineOf(objects, raw[|raw| - 1])]
  }

  lemma {:induction false} ErrorStays(git: Git, objects: Objects, remoteRefs: seq<Commit>, raw: seq<seq<string>>,
                                      n: nat)
    requires FourEach(raw) && n <= |raw| && FirstError(git, objects, remoteRefs, raw[..n]).Some?
    ensures FirstError(git, objects, remoteRefs, raw) == FirstError(git, objects, remoteRefs, raw[..n])
    decreases |raw|
  {
    if n < |raw| {
      assert raw[..|raw| - 1][..n] == raw[..n];
      ErrorStays(git, objects, remoteRefs, raw[..|raw| - 1], n);
    } else {
      assert raw[..n] == raw;
    }
  }

  /** The first `n` lines are in order, and `all` reports on them. */
  ghost predicate SoFar(git: Git, scan: Scan, objects: Objects, remoteRefs: seq<Commit>, raw: seq<seq<string>>, n: nat,
                        all: RangeResult)
    requires git.Dag() && FourEach(raw) && n <= |raw|
  {
    && FirstError(git, objects, remoteRefs, raw[..n]).None?
    && Reports(git, scan, remoteRefs, LinesOf(objects, raw[..n]), all)
  }

  lemma StopsHere(git: Git, objects: Objects, remoteRefs: seq<Commit>, raw: seq<seq<string>>, n: nat)
    requires FourEach(raw) && n < |raw| && FirstError(git, objects, remoteRefs, raw[..n]).None?
    requires LineError(git, objects, remoteRefs, raw[n]).Some?
    ensures FirstError(git, objects, remoteRefs, raw) == LineError(git, objects, remoteRefs, raw[n])
  {
    assert raw[..n + 1][..n] == raw[..n];
    ErrorStays(git, objects, remoteRefs, raw, n + 1);
  }

  lemma LinesNext(git: Git, objects: Objects, remoteRefs: seq<Commit>, raw: seq<seq<string>>, n: nat)
    requires FourEach(raw) && n < |raw|
    ensures LinesOf(objects, raw[..n + 1]) == LinesOf(objects, raw[..n]) + [LineOf(objects, raw[n])]
    ensures FirstError(git, objects, remoteRefs, raw[..n]).None?
        ==> FirstError(git, objects, remoteRefs, raw[..n + 1]) == LineError(git, objects, remoteRefs, raw[n])
  {
    assert raw[..n + 1][..n] == raw[..n];
  }

  lemma OneMoreLine(git: Git, scan: Scan, objects: Objects, remoteRefs: seq<Commit>, raw: seq<seq<string>>, n: nat,
                    all: RangeResult, r: RangeResult)
    requires git.Dag() && FourEach(raw) && n < |raw| && SoFar(git, scan, objects, remoteRefs, raw, n, all)
    requires LineError(git, objects, remoteRefs, raw[n]).None?
    requires LineReports(git, scan, remoteRefs, LineOf(objects, raw[n]), r)
    ensures SoFar(git, scan, objects, remoteRefs, raw, n + 1,
                  RangeResult(all.diffFindings + r.diffFindings, all.blobFindings + r.blobFindings))
  {
    LinesNext(git, objects, remoteRefs, raw, n);
    ReportsMore(git, scan, remoteRefs, LinesOf(objects, raw[..n]), all, LineOf(objects, raw[n]), r);
  }

  lemma AllSoFar(git: Git, scan: Scan, objects: Objects, remoteRefs: seq<Commit>, raw: seq<seq<string>>,
                 all: RangeResult)
    requires git.Dag() && FourEach(raw) && SoFar(git, scan, objects, remoteRefs, raw, |raw|, all)
    ensures FirstError(git, objects, remoteRefs, raw).None?
    ensures Reports(git, scan, remoteRefs, LinesOf(objects, raw), all)
  {
    assert raw[..|raw|] == raw;
  }

  /** All lines in turn, up to the first one in error. */
  method VerifyLines(git: Git, scan: Scan, objects: Objects, remoteRefs: seq<Commit>, raw: seq<seq<string>>)
    returns (error: Option<int>, all: RangeResult)
    requires git.Valid() && FourEach(raw)
    ensures error == FirstError(git, objects, remoteRefs, raw)
    ensures error.None? ==> SoFar(git, scan, objects, remoteRefs, raw, |raw|, all)
  {
    all := RangeResult({}, {});
    for n := 0 to |raw|
      invariant SoFar(git, scan, objects, remoteRefs, raw, n, all)
    {
      error := LineError(git, objects, remoteRefs, raw[n]);
      if error.Some? {
        StopsHere(git, objects, remoteRefs, raw, n);
        return error, all;
      }
      var result := VerifyLine(git, scan, remoteRefs, LineOf(objects, raw[n]));
      OneMoreLine(git, scan, objects, remoteRefs, raw, n, all, result);
      all := RangeResult(all.diffFindings + result.diffFindings, all.blobFindings + result.blobFindings);
    }
    assert raw[..|raw|] == raw;
    error := None;
  }

  // ---- What a push means, word by word ----

  /** Both refs of a line are named. */
  predicate RefsNamed(words: seq<string>)
    requires |words| == 4
  {
    words[0] != "" && words[0][0] != '-' && words[2] != "" && words[2][0] != '-'
  }

  /** What the range leaves out, and what counts as public: the remote object, or for a ref that is new
      everything the remote has. */
  function BasesOf(objects: Objects, remoteRefs: seq<Commit>, remoteId: string): seq<Commit> {
    if forall i | 0 <= i < |remoteId| :: remoteId[i] == '0' then remoteRefs else [objects.commitOf(remoteId)]
  }

  /** The line publishes commits (it does not delete the ref), and all of them can be told. */
  predicate Publishes(git: Git, objects: Objects, remoteRefs: seq<Commit>, words: seq<string>)
    requires |words| == 4
  {
    var bases := BasesOf(objects, remoteRefs, words[3]);
    && (exists i | 0 <= i < |words[1]| :: words[1][i] != '0')
    && objects.commitOf(words[1]) in git.parents && bases != [] && ToSet(bases) <= git.parents.Keys
  }

  const HEX_DIGITS: set<char> := {'0', '1', '2', '3', '4', '5', '6', '7', '8', '9',
                                  'a', 'b', 'c', 'd', 'e', 'f', 'A', 'B', 'C', 'D', 'E', 'F'}

  /** An object id as the repository writes them. */
  predicate WellWritten(objects: Objects, s: string) { |s| == objects.idLength && forall c | c in s :: c in HEX_DIGITS }

  lemma IdIff(objects: Objects, s: string)
    ensures IsId(objects, s) <==> WellWritten(objects, s)
  {
    assert forall c: char :: HexDigit(c) <==> c in HEX_DIGITS;
  }

  /** A line that stops the guard. */
  predicate Stops(git: Git, objects: Objects, remoteRefs: seq<Commit>, words: seq<string>)
    requires |words| == 4
  {
    || !RefsNamed(words) || !WellWritten(objects, words[1]) || !WellWritten(objects, words[3])
    || ((exists i | 0 <= i < |words[1]| :: words[1][i] != '0') && !Publishes(git, objects, remoteRefs, words))
  }

  lemma LineErrorMeans(git: Git, objects: Objects, remoteRefs: seq<Commit>, words: seq<string>)
    requires |words| == 4
    ensures LineError(git, objects, remoteRefs, words)
         == if !Stops(git, objects, remoteRefs, words) then None else Some(if RefsNamed(words) then 4 else 2)
  {
    IdIff(objects, words[1]);
    IdIff(objects, words[3]);
  }

  /** Pushing the local object of the line publishes a new blob with a match. */
  ghost predicate PushesBlob(git: Git, scan: Scan, objects: Objects, remoteRefs: seq<Commit>, words: seq<string>)
    requires git.Dag() && |words| == 4
  {
    Publishes(git, objects, remoteRefs, words)
    && AnyBlobHit(git, scan, BasesOf(objects, remoteRefs, words[3]), objects.commitOf(words[1]))
  }

  ghost predicate PushesDiff(git: Git, scan: Scan, objects: Objects, remoteRefs: seq<Commit>, words: seq<string>)
    requires git.Dag() && |words| == 4
  {
    Publishes(git, objects, remoteRefs, words)
    && AnyDiffHit(git, scan, BasesOf(objects, remoteRefs, words[3]), objects.commitOf(words[1]))
  }

  /** Nothing new leaks through the line. */
  ghost predicate PushesClean(git: Git, scan: Scan, objects: Objects, remoteRefs: seq<Commit>, words: seq<string>)
    requires git.Dag() && |words| == 4
  {
    Publishes(git, objects, remoteRefs, words) ==>
      NothingNewLeaks(git, scan, BasesOf(objects, remoteRefs, words[3]), objects.commitOf(words[1]))
  }

  /** The finding is about what pushing the local object of the line publishes. */
  ghost predicate PushFinding(git: Git, scan: Scan, objects: Objects, remoteRefs: seq<Commit>, words: seq<string>,
                              f: Finding)
    requires |words| == 4
  {
    var bases, head := BasesOf(objects, remoteRefs, words[3]), objects.commitOf(words[1]);
    if f.scope.OutboundBlob? then RealFinding(git, scan, bases, head, f)
    else RealDiffFinding(git, scan, bases, head, f)
  }

  lemma {:induction false} LinesAt(objects: Objects, raw: seq<seq<string>>, i: nat)
    requires FourEach(raw) && i < |raw|
    ensures LinesOf(objects, raw)[i] == LineOf(objects, raw[i])
  {
    if i < |raw| - 1 { LinesAt(objects, raw[..|raw| - 1], i); }
  }

  lemma LineMeans(git: Git, scan: Scan, objects: Objects, remoteRefs: seq<Commit>, words: seq<string>)
    requires git.Dag() && |words| == 4
    ensures var line := LineOf(objects, words);
      && (line.BlobHits(git, scan, remoteRefs) <==> PushesBlob(git, scan, objects, remoteRefs, words))
      && (line.DiffHits(git, scan, remoteRefs) <==> PushesDiff(git, scan, objects, remoteRefs, words))
      && (line.Clean(git, scan, remoteRefs) ==> PushesClean(git, scan, objects, remoteRefs, words))
  {}

  lemma LineFinds(git: Git, scan: Scan, objects: Objects, remoteRefs: seq<Commit>, words: seq<string>, f: Finding)
    requires |words| == 4 && LineOf(objects, words).Finds(git, scan, remoteRefs, f)
    ensures PushFinding(git, scan, objects, remoteRefs, words, f)
  {}

  /** The findings and the exit code of an accepted push, in terms of its words. */
  ghost predicate PushReported(git: Git, scan: Scan, objects: Objects, remoteRefs: seq<Commit>, raw: seq<seq<string>>,
                               r: RangeResult)
    requires git.Dag() && FourEach(raw)
  {
    && (r.ExitCode() == 11 <==> exists i | 0 <= i < |raw| :: PushesBlob(git, scan, objects, remoteRefs, raw[i]))
    && (r.ExitCode() == 12 <==> (exists i | 0 <= i < |raw| :: PushesDiff(git, scan, objects, remoteRefs, raw[i]))
                                && !exists i | 0 <= i < |raw| :: PushesBlob(git, scan, objects, remoteRefs, raw[i]))
    && r.ExitCode() in {0, 11, 12}
    && (r.ExitCode() != 11 ==> forall i | 0 <= i < |raw| :: PushesClean(git, scan, objects, remoteRefs, raw[i]))
    && (forall f | f in r.blobFindings + r.diffFindings ::
          exists i | 0 <= i < |raw| :: PushFinding(git, scan, objects, remoteRefs, raw[i], f))
  }

  lemma BlobsMean(git: Git, scan: Scan, objects: Objects, remoteRefs: seq<Commit>, raw: seq<seq<string>>)
    requires git.Dag() && FourEach(raw)
    ensures SomeBlobHits(git, scan, remoteRefs, LinesOf(objects, raw)) <==>
      exists i | 0 <= i < |raw| :: PushesBlob(git, scan, objects, remoteRefs, raw[i])
  {
    var lines := LinesOf(objects, raw);
    forall i | 0 <= i < |raw|
      ensures lines[i].BlobHits(git, scan, remoteRefs) <==> PushesBlob(git, scan, objects, remoteRefs, raw[i])
    {
      LinesAt(objects, raw, i);
      LineMeans(git, scan, objects, remoteRefs, raw[i]);
    }
    if line :| line in lines && line.BlobHits(git, scan, remoteRefs) {
      var i :| 0 <= i < |lines| && lines[i] == line;
      assert PushesBlob(git, scan, objects, remoteRefs, raw[i]);
    }
  }

  lemma DiffsMean(git: Git, scan: Scan, objects: Objects, remoteRefs: seq<Commit>, raw: seq<seq<string>>)
    requires git.Dag() && FourEach(raw)
    ensures SomeDiffHits(git, scan, remoteRefs, LinesOf(objects, raw)) <==>
      exists i | 0 <= i < |raw| :: PushesDiff(git, scan, objects, remoteRefs, raw[i])
  {
    var lines := LinesOf(objects, raw);
    forall i | 0 <= i < |raw|
      ensures lines[i].DiffHits(git, scan, remoteRefs) <==> PushesDiff(git, scan, objects, remoteRefs, raw[i])
    {
      LinesAt(objects, raw, i);
      LineMeans(git, scan, objects, remoteRefs, raw[i]);
    }
    if line :| line in lines && line.DiffHits(git, scan, remoteRefs) {
      var i :| 0 <= i < |lines| && lines[i] == line;
      assert PushesDiff(git, scan, objects, remoteRefs, raw[i]);
    }
  }

  lemma CleanMeans(git: Git, scan: Scan, objects: Objects, remoteRefs: seq<Commit>, raw: seq<seq<string>>, i: nat)
    requires git.Dag() && FourEach(raw) && AllClean(git, scan, remoteRefs, LinesOf(objects, raw)) && i < |raw|
    ensures PushesClean(git, scan, objects, remoteRefs, raw[i])
  {
    LinesAt(objects, raw, i);
    LineMeans(git, scan, objects, remoteRefs, raw[i]);
    assert LinesOf(objects, raw)[i] in LinesOf(objects, raw);
  }

  lemma FindsMean(git: Git, scan: Scan, objects: Objects, remoteRefs: seq<Commit>, raw: seq<seq<string>>, f: Finding)
    requires FourEach(raw) && SomeFinds(git, scan, remoteRefs, LinesOf(objects, raw), f)
    ensures exists i | 0 <= i < |raw| :: PushFinding(git, scan, objects, remoteRefs, raw[i], f)
  {
    var lines := LinesOf(objects, raw);
    var line :| line in lines && line.Finds(git, scan, remoteRefs, f);
    var i :| 0 <= i < |lines| && lines[i] == line;
    LinesAt(objects, raw, i);
    LineFinds(git, scan, objects, remoteRefs, raw[i], f);
  }

  lemma PushMeans(git: Git, scan: Scan, objects: Objects, remoteRefs: seq<Commit>, raw: seq<seq<string>>,
                  r: RangeResult)
    requires git.Dag() && FourEach(raw) && Reports(git, scan, remoteRefs, LinesOf(objects, raw), r)
    ensures PushReported(git, scan, objects, remoteRefs, raw, r)
  {
    BlobsMean(git, scan, objects, remoteRefs, raw);
    DiffsMean(git, scan, objects, remoteRefs, raw);
    if r.blobFindings == {} {
      forall i | 0 <= i < |raw| ensures PushesClean(git, scan, objects, remoteRefs, raw[i]) {
        CleanMeans(git, scan, objects, remoteRefs, raw, i);
      }
    }
    forall f | f in r.blobFindings + r.diffFindings
      ensures exists i | 0 <= i < |raw| :: PushFinding(git, scan, objects, remoteRefs, raw[i], f)
    {
      FindsMean(git, scan, objects, remoteRefs, raw, f);
    }
  }

  /** The code of the first line that stops the guard. */
  ghost predicate PushStopped(git: Git, objects: Objects, remoteRefs: seq<Commit>, raw: seq<seq<string>>, code: int)
    requires FourEach(raw)
  {
    exists i | 0 <= i < |raw| ::
      && Stops(git, objects, remoteRefs, raw[i]) && (forall j | 0 <= j < i :: !Stops(git, objects, remoteRefs, raw[j]))
      && code == if RefsNamed(raw[i]) then 4 else 2
  }

  lemma {:induction false} FirstErrorMeans(git: Git, objects: Objects, remoteRefs: seq<Commit>, raw: seq<seq<string>>)
    requires FourEach(raw)
    ensures var e := FirstError(git, objects, remoteRefs, raw);
      && (e.None? <==> forall i | 0 <= i < |raw| :: !Stops(git, objects, remoteRefs, raw[i]))
      && (e.Some? ==> PushStopped(git, objects, remoteRefs, raw, e.value))
  {
    if raw != [] {
      var n := |raw| - 1;
      var front := raw[..n];
      FirstErrorMeans(git, objects, remoteRefs, front);
      LineErrorMeans(git, objects, remoteRefs, raw[n]);
      var e := FirstError(git, objects, remoteRefs, front);
      assert forall i | 0 <= i < n :: front[i] == raw[i];
      if e.Some? {
        var i :| 0 <= i < n && Stops(git, objects, remoteRefs, front[i])
            && (forall j | 0 <= j < i :: !Stops(git, objects, remoteRefs, front[j]))
            && e.value == if RefsNamed(front[i]) then 4 else 2;
        assert Stops(git, objects, remoteRefs, raw[i]);
      }
    }
  }

  /** Findings accumulate over the lines, and only a bad line stops the guard, with the code of the first one.
      The exit code says exactly what there is to find: the blob code for a blob in any line, the diff code
      for a patch if there is no blob, and zero for neither. Unless it is the blob code, nothing new leaks
      through any line. */
  method VerifyPrePush(git: Git, scan: Scan, objects: Objects, remoteRefs: seq<Commit>, raw: seq<seq<string>>)
    returns (r: Result<RangeResult, int>)
    requires git.Valid()
    ensures r.Ok? <==> FourEach(raw) && forall i | 0 <= i < |raw| :: !Stops(git, objects, remoteRefs, raw[i])
    ensures r.Err? && !FourEach(raw) ==> r.error == 2
    ensures r.Err? && FourEach(raw) ==> PushStopped(git, objects, remoteRefs, raw, r.error)
    ensures r.Ok? ==> PushReported(git, scan, objects, remoteRefs, raw, r.value)
  {
    if i :| 0 <= i < |raw| && |raw[i]| != 4 { return Err(EXIT_USAGE); }
    var error, all := VerifyLines(git, scan, objects, remoteRefs, raw);
    FirstErrorMeans(git, objects, remoteRefs, raw);
    if error.Some? { return Err(error.value); }
    AllSoFar(git, scan, objects, remoteRefs, raw, all);
    PushMeans(git, scan, objects, remoteRefs, raw, all);
    r := Ok(all);
  }
}
