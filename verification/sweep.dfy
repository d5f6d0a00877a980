/**
 * The depth-bounded sweep of a directory graph that may hold symlink cycles, and the deduplication of
 * its hits by real path with resolved parents remembered.
 */
module Sweeps {
  import opened Json
  import opened Orders

  /** A path by its components; an absolute one begins with the root component. */
  type Path = seq<string>

  const RootName := "/"
  const ParentName := ".."
  const SelfName := "."

  function Rank(name: string): nat {
    if name == RootName then 0 else if name == SelfName then 1 else if name == ParentName then 2 else 3
  }

  /** The kind of component decides first; two names compare by their letters. */
  predicate NameLeq(a: string, b: string) { if Rank(a) == Rank(b) then StringLeq(a, b) else Rank(a) < Rank(b) }

  predicate PathLeq(a: Path, b: Path) { Lex(NameLeq, a, b) }

  lemma PathsAreOrdered()
    ensures TotalOrder(PathLeq)
  {
    StringsAreOrdered();
    assert TotalOrder(NameLeq);
    LexIsOrdered(NameLeq);
    var lex := (a: Path, b: Path) => Lex(NameLeq, a, b);
    assert forall a, b :: PathLeq(a, b) == lex(a, b);
  }

  /** Paths from the root sort before paths from here, these before paths from the parent, all before other names. */
  lemma KindsComeInOrder(name: string, p: Path, q: Path)
    requires IsName(name)
    ensures PathLeq([RootName] + p, [SelfName] + q) && !PathLeq([SelfName] + q, [RootName] + p)
    ensures PathLeq([SelfName] + p, [ParentName] + q) && !PathLeq([ParentName] + q, [SelfName] + p)
    ensures PathLeq([ParentName] + p, [name] + q) && !PathLeq([name] + q, [ParentName] + p)
    ensures PathLeq([name] + p, [name] + q) <==> PathLeq(p, q)
  {
    assert ([name] + p)[1..] == p && ([name] + q)[1..] == q;
  }

  // ----- Directories -----

  type DirId = nat

  /** `target` is the directory an entry leads to, through any symlinks; None for anything else. */
  datatype Entry = Entry(name: string, target: Option<DirId>)

  /** Directories that can be read, each with its entries in the order they are listed. */
  datatype FileSystem = FileSystem(root: DirId, dirs: map<DirId, seq<Entry>>)

  function Lookup(entries: seq<Entry>, name: string): Option<DirId> {
    if entries == [] then None
    else if entries[0].name == name then entries[0].target
    else Lookup(entries[1..], name)
  }

  function Resolve(fs: FileSystem, path: Path): Option<DirId> {
    if path == [] then Some(fs.root)
    else match Resolve(fs, path[..|path| - 1])
         case None => None
         case Some(d) => if d in fs.dirs then Lookup(fs.dirs[d], path[|path| - 1]) else None
  }

  /** What reading a directory gives; None when it is not one, or cannot be read. */
  function ReadDir(fs: FileSystem, path: Path): Option<seq<Entry>> {
    match Resolve(fs, path)
    case None => None
    case Some(d) => if d in fs.dirs then Some(fs.dirs[d]) else None
  }

  ghost predicate NamesDistinct(fs: FileSystem) {
    forall d, i, j :: d in fs.dirs && 0 <= i < j < |fs.dirs[d]| ==> fs.dirs[d][i].name != fs.dirs[d][j].name
  }

  const SkipDirNames: set<string> := {"target", "node_modules", ".git", "dist", "build"}

  const SweepMaxDepth: nat := 12

  // ----- What a sweep should find -----

  /** The sweep steps from the directory at `p[..k]` into `p[k]`. */
  ghost predicate StepsInto(fs: FileSystem, p: Path, k: nat)
    requires k < |p|
  {
    && ReadDir(fs, p[..k]).Some? && p[k] !in SkipDirNames
    && exists e :: e in ReadDir(fs, p[..k]).value && e.name == p[k] && e.target.Some?
  }

  /** The last component of `p` is listed and is no directory. */
  ghost predicate IsListedFile(fs: FileSystem, p: Path)
    requires p != []
  {
    && ReadDir(fs, p[..|p| - 1]).Some?
    && exists e :: e in ReadDir(fs, p[..|p| - 1]).value && e.name == p[|p| - 1] && e.target.None?
  }

  /** A matching file below `from`, at most `fuel` levels down, through directories that are not skipped. */
  ghost predicate Found(fs: FileSystem, isMatch: Path -> bool, from: Path, fuel: nat, p: Path) {
    && |from| < |p| <= |from| + fuel && p[..|from|] == from
    && (forall k :: |from| <= k < |p| - 1 ==> StepsInto(fs, p, k))
    && IsListedFile(fs, p) && isMatch(p)
  }

  // ----- The hits of a bounded unfolding -----

  ghost function Hits(fs: FileSystem, isMatch: Path -> bool, path: Path, fuel: nat): multiset<Path>
    decreases fuel, 0
  {
    if fuel == 0 || ReadDir(fs, path).None? then multiset{}
    else HitsAmong(fs, isMatch, path, ReadDir(fs, path).value, fuel)
  }

  ghost function HitsAmong(fs: FileSystem, isMatch: Path -> bool, path: Path, entries: seq<Entry>, fuel: nat): multiset<Path>
    requires fuel > 0
    decreases fuel - 1, |entries| + 1
  {
    if entries == [] then multiset{}
    else
      HitsAmong(fs, isMatch, path, entries[..|entries| - 1], fuel) + HitsAt(fs, isMatch, path, entries[|entries| - 1], fuel)
  }

  ghost function HitsAt(fs: FileSystem, isMatch: Path -> bool, path: Path, e: Entry, fuel: nat): multiset<Path>
    requires fuel > 0
    decreases fuel - 1, 1
  {
    var child := path + [e.name];
    if e.target.Some? then (if e.name in SkipDirNames then multiset{} else Hits(fs, isMatch, child, fuel - 1))
    else if isMatch(child) then multiset{child} else multiset{}
  }

  /** The size of that unfolding: the loop's measure. */
  ghost function Size(fs: FileSystem, path: Path, fuel: nat): nat
    decreases fuel, 0
  {
    1 + if fuel == 0 || ReadDir(fs, path).None? then 0 else SizeAmong(fs, path, ReadDir(fs, path).value, fuel)
  }

  ghost function SizeAmong(fs: FileSystem, path: Path, entries: seq<Entry>, fuel: nat): nat
    requires fuel > 0
    decreases fuel - 1, |entries| + 1
  {
    if entries == [] then 0
    else
      var e := entries[|entries| - 1];
      SizeAmong(fs, path, entries[..|entries| - 1], fuel)
      + if e.target.Some? && e.name !in SkipDirNames then Size(fs, path + [e.name], fuel - 1) else 0
  }

  // ----- The hits are what should be found -----

  lemma {:induction false} AmongMember(fs: FileSystem, isMatch: Path -> bool, path: Path, entries: seq<Entry>, fuel: nat, p: Path)
    requires fuel > 0
    ensures p in HitsAmong(fs, isMatch, path, entries, fuel) <==> exists e :: e in entries && p in HitsAt(fs, isMatch, path, e, fuel)
  {
    if entries != [] {
      var init, last := entries[..|entries| - 1], entries[|entries| - 1];
      AmongMember(fs, isMatch, path, init, fuel, p);
      assert entries == init + [last];
      assert HitsAmong(fs, isMatch, path, entries, fuel) == HitsAmong(fs, isMatch, path, init, fuel) + HitsAt(fs, isMatch, path, last, fuel);
      assert forall e :: e in entries <==> e in init || e == last;
    }
  }

  lemma FoundThrough(fs: FileSystem, isMatch: Path -> bool, path: Path, fuel: nat, p: Path, e: Entry)
    requires fuel > 0 && ReadDir(fs, path).Some? && e in ReadDir(fs, path).value && e.target.Some? && e.name !in SkipDirNames
    requires Found(fs, isMatch, path + [e.name], fuel - 1, p)
    ensures Found(fs, isMatch, path, fuel, p)
  {
    var child, d := path + [e.name], |path|;
    assert p[..|child|] == child;
    assert p[..d] == path && p[d] == e.name by {
      assert p[..d] == p[..|child|][..d] && p[d] == p[..|child|][d];
    }
    forall k | d <= k < |p| - 1
      ensures StepsInto(fs, p, k)
    {
      if k == d {
        assert e in ReadDir(fs, p[..k]).value;
      }
    }
  }

  lemma FoundBelow(fs: FileSystem, isMatch: Path -> bool, path: Path, fuel: nat, p: Path) returns (e: Entry)
    requires Found(fs, isMatch, path, fuel, p)
    ensures ReadDir(fs, path).Some? && e in ReadDir(fs, path).value && e.name == p[|path|]
    ensures if e.target.Some? then e.name !in SkipDirNames && Found(fs, isMatch, path + [e.name], fuel - 1, p)
            else p == path + [e.name] && isMatch(p)
  {
    var d := |path|;
    if d == |p| - 1 {
      e :| e in ReadDir(fs, path).value && e.name == p[d] && e.target.None?;
      assert p == path + [e.name];
    } else {
      assert StepsInto(fs, p, d);
      e :| e in ReadDir(fs, path).value && e.name == p[d] && e.target.Some?;
      assert p[..d + 1] == path + [e.name];
    }
  }

  /** The hits are exactly the matching files on paths of at most the bounded number of unskipped steps. */
  lemma {:induction false} HitsAreFound(fs: FileSystem, isMatch: Path -> bool, path: Path, fuel: nat, p: Path)
    ensures p in Hits(fs, isMatch, path, fuel) <==> Found(fs, isMatch, path, fuel, p)
    decreases fuel
  {
    if fuel > 0 && ReadDir(fs, path).Some? {
      var entries := ReadDir(fs, path).value;
      AmongMember(fs, isMatch, path, entries, fuel, p);
      if e :| e in entries && p in HitsAt(fs, isMatch, path, e, fuel) {
        HitIsFound(fs, isMatch, path, fuel, p, e);
      }
      if Found(fs, isMatch, path, fuel, p) {
        var e := FoundBelow(fs, isMatch, path, fuel, p);
        if e.target.Some? {
          HitsAreFound(fs, isMatch, path + [e.name], fuel - 1, p);
        }
        assert p in HitsAt(fs, isMatch, path, e, fuel);
      }
    } else if Found(fs, isMatch, path, fuel, p) {
      var e := FoundBelow(fs, isMatch, path, fuel, p);
    }
  }

  lemma {:induction false} HitIsFound(fs: FileSystem, isMatch: Path -> bool, path: Path, fuel: nat, p: Path, e: Entry)
    requires fuel > 0 && ReadDir(fs, path).Some? && e in ReadDir(fs, path).value
    requires p in HitsAt(fs, isMatch, path, e, fuel)
    ensures Found(fs, isMatch, path, fuel, p)
    decreases fuel, 0
  {
    if e.target.Some? {
      HitsAreFound(fs, isMatch, path + [e.name], fuel - 1, p);
      FoundThrough(fs, isMatch, path, fuel, p, e);
    } else {
      assert p[..|path|] == path && p[|p| - 1] == e.name;
    }
  }

  lemma {:induction false} HitStartsWith(fs: FileSystem, isMatch: Path -> bool, path: Path, e: Entry, fuel: nat, p: Path)
    requires fuel > 0 && p in HitsAt(fs, isMatch, path, e, fuel)
    ensures |p| > |path| && p[|path|] == e.name
  {
    if e.target.Some? {
      var child := path + [e.name];
      HitsAreFound(fs, isMatch, child, fuel - 1, p);
      assert p[|path|] == p[..|child|][|path|];
    }
  }

  lemma {:induction false} AmongOnce(fs: FileSystem, isMatch: Path -> bool, path: Path, entries: seq<Entry>, fuel: nat, p: Path)
    requires fuel > 0
    requires forall i, j :: 0 <= i < j < |entries| ==> entries[i].name != entries[j].name
    requires forall e :: e in entries ==> HitsAt(fs, isMatch, path, e, fuel)[p] <= 1
    ensures HitsAmong(fs, isMatch, path, entries, fuel)[p] <= 1
  {
    if entries != [] {
      var init, last := entries[..|entries| - 1], entries[|entries| - 1];
      AmongOnce(fs, isMatch, path, init, fuel, p);
      AmongMember(fs, isMatch, path, init, fuel, p);
      if e :| e in init && p in HitsAt(fs, isMatch, path, e, fuel) && p in HitsAt(fs, isMatch, path, last, fuel) {
        HitStartsWith(fs, isMatch, path, e, fuel, p);
        HitStartsWith(fs, isMatch, path, last, fuel, p);
        assert false;
      }
    }
  }

  /** Each is hit once: two entries of a directory never lead to the same path. */
  lemma {:induction false} HitsOnce(fs: FileSystem, isMatch: Path -> bool, path: Path, fuel: nat, p: Path)
    requires NamesDistinct(fs)
    ensures Hits(fs, isMatch, path, fuel)[p] <= 1
    decreases fuel, 1
  {
    if fuel > 0 && ReadDir(fs, path).Some? {
      var entries := ReadDir(fs, path).value;
      forall e | e in entries
        ensures HitsAt(fs, isMatch, path, e, fuel)[p] <= 1
      {
        HitsAtOnce(fs, isMatch, path, e, fuel, p);
      }
      AmongOnce(fs, isMatch, path, entries, fuel, p);
    }
  }

  lemma {:induction false} HitsAtOnce(fs: FileSystem, isMatch: Path -> bool, path: Path, e: Entry, fuel: nat, p: Path)
    requires NamesDistinct(fs) && fuel > 0
    ensures HitsAt(fs, isMatch, path, e, fuel)[p] <= 1
    decreases fuel, 0
  {
    HitsOnce(fs, isMatch, path + [e.name], fuel - 1, p);
  }

  // ----- The worklist -----

  /** How many levels may still be listed from a directory at this depth. */
  function Fuel(depth: nat): nat { if depth > SweepMaxDepth then 0 else SweepMaxDepth + 1 - depth }

  ghost function StackHits(fs: FileSystem, isMatch: Path -> bool, stack: seq<(Path, nat)>): multiset<Path> {
    if stack == [] then multiset{}
    else
      var top := stack[|stack| - 1];
      StackHits(fs, isMatch, stack[..|stack| - 1]) + Hits(fs, isMatch, top.0, Fuel(top.1))
  }

  ghost function StackSize(fs: FileSystem, stack: seq<(Path, nat)>): nat {
    if stack == [] then 0
    else
      var top := stack[|stack| - 1];
      StackSize(fs, stack[..|stack| - 1]) + Size(fs, top.0, Fuel(top.1))
  }

  lemma {:induction false} PushOnStack(fs: FileSystem, isMatch: Path -> bool, stack: seq<(Path, nat)>, path: Path, depth: nat)
    ensures StackHits(fs, isMatch, stack + [(path, depth)]) == StackHits(fs, isMatch, stack) + Hits(fs, isMatch, path, Fuel(depth))
    ensures StackSize(fs, stack + [(path, depth)]) == StackSize(fs, stack) + Size(fs, path, Fuel(depth))
  {
    assert (stack + [(path, depth)])[..|stack|] == stack;
  }

  lemma {:induction false} AmongSnoc(fs: FileSystem, isMatch: Path -> bool, dir: Path, entries: seq<Entry>, i: nat, fuel: nat)
    requires fuel > 0 && i < |entries|
    ensures HitsAmong(fs, isMatch, dir, entries[..i + 1], fuel) ==
            HitsAmong(fs, isMatch, dir, entries[..i], fuel) + HitsAt(fs, isMatch, dir, entries[i], fuel)
    ensures var e := entries[i];
            SizeAmong(fs, dir, entries[..i + 1], fuel) ==
            SizeAmong(fs, dir, entries[..i], fuel)
            + if e.target.Some? && e.name !in SkipDirNames then Size(fs, dir + [e.name], fuel - 1) else 0
  {
    assert entries[..i + 1][..i] == entries[..i];
  }

  /** One entry: a directory goes on the stack one level deeper unless skipped, a matching file is a hit. */
  method Take(fs: FileSystem, isMatch: Path -> bool, dir: Path, depth: nat, e: Entry, out0: seq<Path>, stack0: seq<(Path, nat)>)
    returns (out: seq<Path>, stack: seq<(Path, nat)>)
    requires depth <= SweepMaxDepth
    ensures multiset(out) + StackHits(fs, isMatch, stack) ==
            (multiset(out0) + StackHits(fs, isMatch, stack0)) + HitsAt(fs, isMatch, dir, e, Fuel(depth))
    ensures StackSize(fs, stack) ==
            StackSize(fs, stack0) + if e.target.Some? && e.name !in SkipDirNames then Size(fs, dir + [e.name], Fuel(depth) - 1) else 0
  {
    out, stack := out0, stack0;
    var path := dir + [e.name];
    if e.target.Some? {
      if e.name in SkipDirNames {
        return;
      }
      PushOnStack(fs, isMatch, stack, path, depth + 1);
      stack := stack + [(path, depth + 1)];
    } else if isMatch(path) {
      out := out + [path];
    }
  }

  /** List one directory, entry by entry. */
  method Expand(fs: FileSystem, isMatch: Path -> bool, dir: Path, depth: nat, entries: seq<Entry>,
                out0: seq<Path>, stack0: seq<(Path, nat)>) returns (out: seq<Path>, stack: seq<(Path, nat)>)
    requires depth <= SweepMaxDepth
    ensures multiset(out) + StackHits(fs, isMatch, stack) ==
            (multiset(out0) + StackHits(fs, isMatch, stack0)) + HitsAmong(fs, isMatch, dir, entries, Fuel(depth))
    ensures StackSize(fs, stack) == StackSize(fs, stack0) + SizeAmong(fs, dir, entries, Fuel(depth))
  {
    out, stack := out0, stack0;
    ghost var before := multiset(out0) + StackHits(fs, isMatch, stack0);
    var i := 0;
    while i < |entries|
      invariant i <= |entries|
      invariant multiset(out) + StackHits(fs, isMatch, stack) == before + HitsAmong(fs, isMatch, dir, entries[..i], Fuel(depth))
      invariant StackSize(fs, stack) == StackSize(fs, stack0) + SizeAmong(fs, dir, entries[..i], Fuel(depth))
    {
      AmongSnoc(fs, isMatch, dir, entries, i, Fuel(depth));
      out, stack := Take(fs, isMatch, dir, depth, entries[i], out, stack);
      i := i + 1;
    }
    assert entries[..i] == entries;
  }

  /** One turn of the worklist: no hit is lost or doubled, and less is left to list. */
  method Turn(fs: FileSystem, isMatch: Path -> bool, out0: seq<Path>, stack0: seq<(Path, nat)>)
    returns (out: seq<Path>, stack: seq<(Path, nat)>)
    requires stack0 != []
    ensures multiset(out) + StackHits(fs, isMatch, stack) == multiset(out0) + StackHits(fs, isMatch, stack0)
    ensures StackSize(fs, stack) < StackSize(fs, stack0)
  {
    var (dir, depth) := stack0[|stack0| - 1];
    out, stack := out0, stack0[..|stack0| - 1];
    if depth > SweepMaxDepth {
      return;
    }
    var entries := ReadDir(fs, dir);
    if entries.None? {
      return;
    }
    out, stack := Expand(fs, isMatch, dir, depth, entries.value, out, stack);
  }

  /**
   * The sweep ends on every directory graph, cyclic ones included, and returns, sorted, exactly the
   * matching files on paths of at most the bounded number of unskipped directory steps, each once.
   */
  method Sweep(fs: FileSystem, isMatch: Path -> bool) returns (out: seq<Path>)
    ensures Sorted(PathLeq, out)
    ensures forall p :: p in out <==> Found(fs, isMatch, [], SweepMaxDepth + 1, p)
    ensures NamesDistinct(fs) ==> Distinct(out)
  {
    out := [];
    var stack: seq<(Path, nat)> := [([], 0)];
    PushOnStack(fs, isMatch, [], [], 0);
    assert [] + stack == stack;
    while stack != []
      invariant multiset(out) + StackHits(fs, isMatch, stack) == Hits(fs, isMatch, [], SweepMaxDepth + 1)
      decreases StackSize(fs, stack)
    {
      out, stack := Turn(fs, isMatch, out, stack);
    }
    HitsReadOut(fs, isMatch, out);
    ghost var raw := out;
    PathsAreOrdered();
    out := Sort(PathLeq, out);
    SameElements(out, raw);
  }

  lemma {:induction false} HitsReadOut(fs: FileSystem, isMatch: Path -> bool, out: seq<Path>)
    requires multiset(out) == Hits(fs, isMatch, [], SweepMaxDepth + 1)
    ensures forall p :: p in out <==> Found(fs, isMatch, [], SweepMaxDepth + 1, p)
    ensures NamesDistinct(fs) ==> Distinct(out)
  {
    forall p
      ensures p in out <==> Found(fs, isMatch, [], SweepMaxDepth + 1, p)
      ensures NamesDistinct(fs) ==> multiset(out)[p] <= 1
    {
      HitsAreFound(fs, isMatch, [], SweepMaxDepth + 1, p);
      assert p in out <==> p in multiset(out);
      if NamesDistinct(fs) {
        HitsOnce(fs, isMatch, [], SweepMaxDepth + 1, p);
      }
    }
    DistinctByCount(out);
  }

  /**
   * In plain figures: the sweep finds a matching file behind at most twelve directories, none of which is a
   * build or dependency directory, and each of which leads on to the next.
   */
  lemma SweepLimits(fs: FileSystem, isMatch: Path -> bool, p: Path)
    ensures Found(fs, isMatch, [], SweepMaxDepth + 1, p) <==>
              && 0 < |p| && |p| - 1 <= 12
              && (forall k :: 0 <= k < |p| - 1 ==> p[k] !in {"target", "node_modules", ".git", "dist", "build"})
              && (forall k :: 0 <= k < |p| - 1 ==> ListsDirectory(fs, p[..k], p[k]))
              && IsListedFile(fs, p) && isMatch(p)
  {
    forall k | 0 <= k < |p| - 1
      ensures StepsInto(fs, p, k) <==>
                p[k] !in {"target", "node_modules", ".git", "dist", "build"} && ListsDirectory(fs, p[..k], p[k])
    {
    }
    assert p[..0] == [];
  }

  /** The directory at `d` can be read and lists a directory of this name. */
  ghost predicate ListsDirectory(fs: FileSystem, d: Path, name: string) {
    ReadDir(fs, d).Some? && exists e :: e in ReadDir(fs, d).value && e.name == name && e.target.Some?
  }

  // ----- Real paths -----

  /** What the file system answers while the sweep's hits are resolved. */
  datatype Links = Links(canonical: Path -> Option<Path>, isSymlink: Path -> bool)

  function Absolute(root: Path, hit: Path): Path { if hit != [] && hit[0] == RootName then hit else root + hit }

  function Parent(p: Path): Option<Path> { if p == [] || p == [RootName] then None else Some(p[..|p| - 1]) }

  function FileName(p: Path): Option<string> {
    if p == [] || p[|p| - 1] in {RootName, ParentName, SelfName} then None else Some(p[|p| - 1])
  }

  function OrSelf(r: Option<Path>, p: Path): Path { if r.Some? then r.value else p }

  /** A hit resolved on its own: its parent first, and the leaf only when that is a link itself. */
  function ResolveHit(links: Links, root: Path, hit: Path): Path {
    var absolute := Absolute(root, hit);
    if Parent(absolute).None? || FileName(absolute).None? then absolute
    else
      var parent := Parent(absolute).value;
      var candidate := OrSelf(links.canonical(parent), parent) + [FileName(absolute).value];
      if links.isSymlink(candidate) then OrSelf(links.canonical(candidate), candidate) else candidate
  }

  ghost predicate CacheSound(links: Links, cache: map<Path, Path>) {
    forall p :: p in cache ==> cache[p] == OrSelf(links.canonical(p), p)
  }

  /** Resolve one hit, looking its parent up first. */
  method ResolveCached(links: Links, root: Path, hit: Path, cache0: map<Path, Path>)
    returns (resolved: Path, parentCache: map<Path, Path>)
    requires CacheSound(links, cache0)
    ensures CacheSound(links, parentCache)
    ensures resolved == ResolveHit(links, root, hit)
  {
    parentCache := cache0;
    var absolute := Absolute(root, hit);
    var parent := Parent(absolute);
    if parent.None? {
      return absolute, parentCache;
    }
    if parent.value !in parentCache {
      parentCache := parentCache[parent.value := OrSelf(links.canonical(parent.value), parent.value)];
    }
    var resolvedParent := parentCache[parent.value];
    var fileName := FileName(absolute);
    if fileName.None? {
      return absolute, parentCache;
    }
    resolved := resolvedParent + [fileName.value];
    if links.isSymlink(resolved) {
      resolved := OrSelf(links.canonical(resolved), resolved);
    }
  }

  /** Resolving each parent once and remembering it gives the same set as resolving every hit on its own. */
  method RealpathDedup(links: Links, root: Path, hits: seq<Path>) returns (out: seq<Path>)
    ensures Sorted(PathLeq, out) && Distinct(out)
    ensures forall x :: x in out <==> exists h :: h in hits && x == ResolveHit(links, root, h)
  {
    var parentCache: map<Path, Path> := map[];
    var found: set<Path> := {};
    var i := 0;
    while i < |hits|
      invariant i <= |hits| && CacheSound(links, parentCache)
      invariant forall x :: x in found <==> exists h :: h in hits[..i] && x == ResolveHit(links, root, h)
    {
      assert hits[..i + 1] == hits[..i] + [hits[i]];
      var resolved: Path;
      resolved, parentCache := ResolveCached(links, root, hits[i], parentCache);
      found := found + {resolved};
      i := i + 1;
    }
    assert hits[..i] == hits;
    PathsAreOrdered();
    out := SetInOrder(PathLeq, found);
  }

  /** A relative hit is one under the root; an absolute one stands for itself, whatever the root. */
  lemma HitsAreTakenFromRoot(links: Links, root: Path, other: Path, hit: Path)
    ensures hit != [] && hit[0] == RootName ==> ResolveHit(links, root, hit) == ResolveHit(links, other, hit)
    ensures root != [] && root[0] == RootName && (hit == [] || hit[0] != RootName) ==>
              ResolveHit(links, root, hit) == ResolveHit(links, other, root + hit)
  {
  }

  /** The root and a path that ends in no name are taken as they are. */
  lemma NamelessStandsForItself(links: Links, root: Path, hit: Path)
    requires hit != [] && hit[0] == RootName && hit[|hit| - 1] in {RootName, ParentName, SelfName}
    ensures ResolveHit(links, root, hit) == hit
  {
  }

  // ----- A disk with links -----

  /**
   * Directories and other files by their real paths, and links by the place they stand at, each with the
   * real path it leads to in the end.  A link that leads to neither is dangling.
   */
  datatype Disk = Disk(dirs: set<Path>, files: set<Path>, links: map<Path, Path>)

  predicate Exists(disk: Disk, p: Path) { p in disk.dirs || p in disk.files }

  predicate IsName(n: string) { n !in {RootName, ParentName, SelfName} }

  /** One step from a real directory. */
  function StepFrom(disk: Disk, d: Path, name: string): Option<Path> {
    if name == SelfName then Some(d)
    else if name == ParentName then Some(if |d| > 1 then d[..|d| - 1] else d)
    else
      var target := if d + [name] in disk.links then disk.links[d + [name]] else d + [name];
      if Exists(disk, target) then Some(target) else None
  }

  /** The real path, found component by component; a file has nothing below it. */
  function Real(disk: Disk, p: Path): Option<Path> {
    if p == [] then None
    else if |p| == 1 then (if p[0] == RootName then Some(p) else None)
    else match Real(disk, p[..|p| - 1])
         case None => None
         case Some(d) => if d in disk.dirs then StepFrom(disk, d, p[|p| - 1]) else None
  }

  /** Links are looked for at the leaf only, under its parent's real path. */
  function IsLink(disk: Disk, p: Path): bool {
    |p| > 1 && match Real(disk, p[..|p| - 1])
               case None => false
               case Some(d) => d in disk.dirs && IsName(p[|p| - 1]) && d + [p[|p| - 1]] in disk.links
  }

  function LinksOf(disk: Disk): Links { Links((p: Path) => Real(disk, p), (p: Path) => IsLink(disk, p)) }

  predicate UnderDirectory(disk: Disk, p: Path) {
    |p| > 1 && p[..|p| - 1] in disk.dirs && IsName(p[|p| - 1])
  }

  /** Everything stands under a real directory, and no real path is a link. */
  ghost predicate DiskSound(disk: Disk) {
    && [RootName] in disk.dirs && [RootName] !in disk.links
    && (forall p :: p in disk.dirs ==> p == [RootName] || UnderDirectory(disk, p))
    && (forall p :: p in disk.files || p in disk.links ==> UnderDirectory(disk, p))
    && (forall p :: Exists(disk, p) ==> p !in disk.links)
  }

  lemma {:induction false} RealOfReal(disk: Disk, p: Path)
    requires DiskSound(disk) && Exists(disk, p)
    ensures Real(disk, p) == Some(p)
  {
    if |p| > 1 {
      RealOfReal(disk, p[..|p| - 1]);
      assert p == p[..|p| - 1] + [p[|p| - 1]];
    }
  }

  lemma {:induction false} RealExists(disk: Disk, p: Path)
    requires DiskSound(disk) && Real(disk, p).Some?
    ensures Exists(disk, Real(disk, p).value)
  {
    if |p| > 1 {
      RealExists(disk, p[..|p| - 1]);
    } else {
      assert p == [p[0]];
    }
  }

  /** Resolution goes component by component, and only links change a name under a resolved directory. */
  ghost predicate LinksCoherent(links: Links) {
    && (forall d, n :: IsName(n) && links.canonical(d).Some? ==>
          links.canonical(d + [n]) == links.canonical(links.canonical(d).value + [n]))
    && (forall d, n :: IsName(n) && links.canonical(d + [n]).Some? && links.canonical(d).Some? ==>
          links.isSymlink(links.canonical(d).value + [n]) || links.canonical(d + [n]).value == links.canonical(d).value + [n])
    && (forall d, n :: IsName(n) && links.canonical(d + [n]).Some? ==> links.canonical(d).Some?)
  }

  lemma DisksAreCoherent(disk: Disk)
    requires DiskSound(disk)
    ensures LinksCoherent(LinksOf(disk))
  {
    forall d: Path, n | IsName(n)
      ensures Real(disk, d + [n]).Some? ==> Real(disk, d).Some?
      ensures Real(disk, d).Some? ==> Real(disk, d + [n]) == Real(disk, Real(disk, d).value + [n])
      ensures Real(disk, d).Some? && Real(disk, d + [n]).Some? ==>
                IsLink(disk, Real(disk, d).value + [n]) || Real(disk, d + [n]).value == Real(disk, d).value + [n]
    {
      assert (d + [n])[..|d|] == d;
      if Real(disk, d).Some? {
        var r := Real(disk, d).value;
        RealExists(disk, d);
        RealOfReal(disk, r);
        assert (r + [n])[..|r|] == r;
      }
    }
  }

  lemma CoherentResolves(links: Links, root: Path, hit: Path)
    requires LinksCoherent(links) && FileName(Absolute(root, hit)).Some?
    requires links.canonical(Absolute(root, hit)).Some? && Parent(Absolute(root, hit)).Some?
    ensures Some(ResolveHit(links, root, hit)) == links.canonical(Absolute(root, hit))
  {
    var p := Absolute(root, hit);
    assert p == p[..|p| - 1] + [p[|p| - 1]];
  }

  /** On every sound disk, a hit that exists resolves the short way round to its full real path. */
  lemma {:induction false} ResolvesToCanonical(disk: Disk, root: Path, hit: Path)
    requires DiskSound(disk)
    requires FileName(Absolute(root, hit)).Some? && Real(disk, Absolute(root, hit)).Some?
    ensures Some(ResolveHit(LinksOf(disk), root, hit)) == Real(disk, Absolute(root, hit))
  {
    DisksAreCoherent(disk);
    CoherentResolves(LinksOf(disk), root, hit);
  }

  /** So existing hits collapse exactly when they are the same file. */
  lemma {:induction false} SameFileSameHit(disk: Disk, root: Path, a: Path, b: Path)
    requires DiskSound(disk)
    requires FileName(Absolute(root, a)).Some? && Real(disk, Absolute(root, a)).Some?
    requires FileName(Absolute(root, b)).Some? && Real(disk, Absolute(root, b)).Some?
    ensures ResolveHit(LinksOf(disk), root, a) == ResolveHit(LinksOf(disk), root, b) <==>
            Real(disk, Absolute(root, a)) == Real(disk, Absolute(root, b))
  {
    ResolvesToCanonical(disk, root, a);
    ResolvesToCanonical(disk, root, b);
  }

  const Vault: Path := [RootName, "vault"]
  const Tree: Path := [RootName, "tree"]

  /** A directory, a file in it, a link to the directory beside it, and a link to the file inside it. */
  const LinkedDisk := Disk({[RootName], Vault}, {Vault + ["state.json"]}, map[Tree := Vault, Vault + ["alias"] := Vault + ["state.json"]])

  /** Such a disk is sound: through the directory link, through `..`, and through the file link, one file is found. */
  lemma AliasesMeet()
    ensures DiskSound(LinkedDisk)
    ensures ResolveHit(LinksOf(LinkedDisk), [RootName], Tree + ["state.json"]) == Vault + ["state.json"]
    ensures ResolveHit(LinksOf(LinkedDisk), [RootName], Tree + [ParentName] + ["vault"] + ["alias"]) == Vault + ["state.json"]
    ensures ResolveHit(LinksOf(LinkedDisk), Tree, ["state.json"]) == Vault + ["state.json"]
  {
    LinkedDiskIsSound();
    var up := Tree + [ParentName];
    assert [RootName] + ["tree"] == Tree && [RootName] + ["vault"] == Vault;
    assert Vault + ["alias"] != Vault + ["state.json"] by {
      assert (Vault + ["alias"])[2] != (Vault + ["state.json"])[2];
    }
    RealStep(LinkedDisk, [RootName], "tree");
    RealStep(LinkedDisk, Tree, "state.json");
    RealStep(LinkedDisk, Tree, ParentName);
    RealStep(LinkedDisk, up, "vault");
    RealStep(LinkedDisk, up + ["vault"], "alias");
    ResolvesToCanonical(LinkedDisk, [RootName], Tree + ["state.json"]);
    HitsAreTakenFromRoot(LinksOf(LinkedDisk), Tree, [RootName], ["state.json"]);
    ResolvesToCanonical(LinkedDisk, [RootName], up + ["vault"] + ["alias"]);
  }

  lemma {:induction false} RealStep(disk: Disk, p: Path, n: string)
    requires Real(disk, p).Some? && Real(disk, p).value in disk.dirs
    ensures Real(disk, p + [n]) == StepFrom(disk, Real(disk, p).value, n)
  {
    assert (p + [n])[..|p|] == p;
  }

  lemma LinkedDiskIsSound()
    ensures DiskSound(LinkedDisk)
  {
    assert Tree[..1] == [RootName] && Vault[..1] == [RootName];
    assert (Vault + ["alias"])[..2] == Vault && (Vault + ["state.json"])[..2] == Vault;
    assert Vault[1] != Tree[1] && (Vault + ["alias"])[2] != (Vault + ["state.json"])[2];
  }
}
