/** The reader of the cache: the service that imports its archives at boot. */
module Preloading {
  import opened Basics
  import opened Names
  import opened Layout
  import opened Filling
  import opened Passes
  import Protocol
  import ProtocolSafety

  /** What becomes of an archive when its turn comes: it may have vanished since
      the scan, and its import may fail. */
  datatype Fate = Vanished | Imported | Rejected

  function Count(fates: seq<Fate>, f: Fate): nat {
    if fates == [] then 0 else Count(fates[..|fates| - 1], f) + if fates[|fates| - 1] == f then 1 else 0
  }

  lemma {:induction false} CountsAddUp(fates: seq<Fate>)
    ensures Count(fates, Imported) + Count(fates, Vanished) + Count(fates, Rejected) == |fates|
  {
    if fates != [] {
      CountsAddUp(fates[..|fates| - 1]);
    }
  }

  lemma {:induction false} CountsExactly(fates: seq<Fate>, f: Fate)
    ensures Count(fates, f) == multiset(fates)[f]
  {
    if fates != [] {
      CountsExactly(fates[..|fates| - 1], f);
      assert fates == fates[..|fates| - 1] + [fates[|fates| - 1]];
    }
  }

  lemma {:induction false} CountsSome(fates: seq<Fate>, f: Fate)
    ensures Count(fates, f) > 0 <==> f in fates
  {
    if fates != [] {
      CountsSome(fates[..|fates| - 1], f);
      assert fates == fates[..|fates| - 1] + [fates[|fates| - 1]];
    }
  }

  /** Tries every archive, whatever becomes of the others. The exit code tells
      exactly whether one that was still there could not be imported. */
  method Preload(fates: seq<Fate>) returns (scanned: nat, imported: nat, skipped: nat, failures: nat, exit: nat)
    ensures scanned == |fates| && imported + skipped + failures == scanned
    ensures imported == Count(fates, Imported) && skipped == Count(fates, Vanished) && failures == Count(fates, Rejected)
    ensures exit != 0 <==> Rejected in fates
  {
    scanned, skipped, failures := 0, 0, 0;
    while scanned < |fates|
      invariant scanned <= |fates|
      invariant skipped == Count(fates[..scanned], Vanished) && failures == Count(fates[..scanned], Rejected)
    {
      var fate := fates[scanned];
      scanned := scanned + 1;
      assert fates[..scanned][..scanned - 1] == fates[..scanned - 1];
      if fate.Vanished? {
        skipped := skipped + 1;
        continue;
      }
      if fate.Rejected? {
        failures := failures + 1;
      }
    }
    assert fates[..scanned] == fates;
    CountsAddUp(fates);
    CountsSome(fates, Rejected);
    imported := scanned - skipped - failures;
    exit := if failures != 0 then 1 else 0;
  }

  // ----- what the two globs reach -----

  const SUFFIX := ".tar"

  predicate IsTar(name: string) {
    |name| >= |SUFFIX| && name[|name| - |SUFFIX|..] == SUFFIX
  }

  /** A glob's star leaves hidden names out. */
  predicate IsShown(name: string) {
    name != "" && name[0] != '.'
  }

  /** What the first glob reaches, by name alone. */
  predicate FlatReached(root: Root, f: string) {
    f in root && IsShown(f) && IsTar(f)
  }

  lemma TarExactly(f: string)
    ensures IsTar(f) <==> exists a: string :: f == a + ".tar"
  {
    if IsTar(f) {
      assert f == f[..|f| - |SUFFIX|] + ".tar";
    }
  }

  lemma FlatReachedExactly(root: Root, f: string)
    ensures FlatReached(root, f) <==> f in root && f != "" && f[0] != '.' && exists a: string :: f == a + ".tar"
  {
    TarExactly(f);
  }

  /** There still, links followed, so that it is handed to the import. */
  predicate IsThere(node: Option<Node>) {
    node.Some? && node != Some(Link(Dangling)) && node != Some(Link(Loop))
  }

  /** What the first glob reaches where a collection has just left: a flat file,
      a resource, or what another writer seeded. It asks for a name and not for a
      file, so a resource's directory is among them, exactly when the resource's
      name ends like an archive's. */
  lemma FlatReaches(root: Root, keep: set<string>, locked: set<string>, f: string)
    requires Uncollected(root, keep, locked) == {} && FlatReached(root, f)
    ensures !IsTemporary(f)
    ensures root[f].Flat? || f in keep || (root[f].Dir? && Seeded(root[f].folder) != Ok(false))
  {
    assert f !in Uncollected(root, keep, locked);
    assert LOST_FOUND[|LOST_FOUND| - |SUFFIX|..] != SUFFIX;
  }

  lemma FlatReachesResources(root: Root, n: string)
    requires IsResourceName(n) && n in root
    ensures FlatReached(root, n) <==> IsTar(n)
  {
    ResourceNames(n);
  }

  /** There are such resources, and the import is handed the directory of one as
      soon as it is filled. */
  lemma DirectoryIsHanded(root: Root, source: string, p: Pulled)
    requires Publishable(p)
    ensures var after := root["a.tar" := Filled(AGENT, source, p)];
      IsResourceName("a.tar") && FlatReached(after, "a.tar") && after["a.tar"].Dir? && IsThere(At(after, "a.tar"))
  {
    assert "a.tar"[1..] == SUFFIX;
  }

  /** What the second glob reaches: a file, or whatever is there under that name. */
  predicate Reached(root: Root, d: string, f: string) {
    && d in root && IsShown(d) && Through(At(root, d)).Some?
    && IsShown(f) && IsTar(f) && f in Through(At(root, d)).value.items
  }

  lemma ReachedExactly(root: Root, d: string, f: string)
    ensures Reached(root, d, f) <==>
      && d in root && d != "" && d[0] != '.' && f != "" && f[0] != '.' && (exists a: string :: f == a + ".tar")
      && exists g: Folder :: (root[d] == Dir(g) || root[d] == Link(ToFolder(g))) && f in g.items
  {
    TarExactly(f);
    if d in root && Through(At(root, d)).Some? {
      var g := Through(At(root, d)).value;
      assert root[d] == Dir(g) || root[d] == Link(ToFolder(g));
    }
  }

  /** Neither an extraction's temporary nor anything of the store's own is ever
      reached, and in a resource's directory every archive with a name that is
      not hidden is. */
  lemma ReachesArchivesOnly(root: Root, d: string, f: string)
    ensures Reached(root, d, f) ==> !IsTemporary(d) && f != SENTINEL && f != SPARE
    ensures IsResourceName(d) && d in root && Through(At(root, d)).Some? ==>
      (Reached(root, d, f) <==> IsShown(f) && IsTar(f) && f in Through(At(root, d)).value.items)
  {
  }

  /** An extraction under way is out of reach from its first file to its swap,
      whatever it is called. */
  lemma DraftsAreHidden(root: Root, name: string, digits: string, f: string)
    ensures !Reached(root, TempPrefix(name) + digits, f)
  {
  }

  /** At every moment of every run, an archive the second glob reaches in a
      resource's directory the store wrote is a whole file of one extraction: a
      name that is shown is never the one an adoption writes to. */
  lemma ArchivesAreWhole(start: Protocol.State, steps: seq<Protocol.Step>, s: Protocol.State, n: string, f: string)
    requires Protocol.Init(start) && Protocol.Run(start, steps, s) && IsShown(f)
    requires Protocol.Resource(n) in s.names && s.names[Protocol.Resource(n)] in s.dirs
    requires var d := s.dirs[s.names[Protocol.Resource(n)]]; d.author.Some? && Protocol.Finds(d, f)
    ensures var d := s.dirs[s.names[Protocol.Resource(n)]];
      var w := d.author.value;
      && w in s.procs && s.procs[w].job.Write? && s.procs[w].job.name == n
      && f in d.files && f in AllFiles(s.procs[w].job.image) && d.files[f] == AllFiles(s.procs[w].job.image)[f]
  {
    ProtocolSafety.ReadersSeeWholeFiles(start, steps, s, n);
    ProtocolSafety.CompleteMeansOneExtraction(start, steps, s, n);
    assert SPARE[0] == '.';
  }
}
