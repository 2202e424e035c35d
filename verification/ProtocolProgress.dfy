/** An extraction that is left alone completes: the protocol's steps lead there. */
module ProtocolProgress {
  import opened Basics
  import opened Protocol
  import opened ProtocolInvariant
  import opened ProtocolSafety

  /** The steps lead from s to t, and are all p's. */
  ghost predicate Solo(s: State, p: Pid, steps: seq<Step>, t: State) {
    Run(s, steps, t) && forall k :: 0 <= k < |steps| ==> steps[k].pid == p
  }

  lemma RunAfter(s: State, first: Step, rest: seq<Step>, t: State)
    requires Enabled(s, first.pid, first.action) && Run(Do(s, first.pid, first.action), rest, t)
    ensures Run(s, [first] + rest, t)
  {
    var steps := [first] + rest;
    assert steps[0] == first && steps[1..] == rest;
  }

  lemma FirstAndRest(a: seq<Step>, b: seq<Step>)
    requires a != []
    ensures [a[0]] + (a[1..] + b) == a + b
  {
  }

  lemma {:induction false} RunThen(s: State, a: seq<Step>, u: State, b: seq<Step>, t: State)
    requires Run(s, a, u) && Run(u, b, t)
    ensures Run(s, a + b, t)
    decreases |a|
  {
    if a == [] {
      assert a + b == b;
    } else {
      RunThen(Do(s, a[0].pid, a[0].action), a[1..], u, b, t);
      RunAfter(s, a[0], a[1..] + b, t);
      FirstAndRest(a, b);
    }
  }

  lemma SoloThen(s: State, p: Pid, a: seq<Step>, u: State, b: seq<Step>, t: State)
    requires Solo(s, p, a, u) && Solo(u, p, b, t)
    ensures Solo(s, p, a + b, t)
  {
    RunThen(s, a, u, b, t);
  }

  lemma SoloOne(s: State, p: Pid, a: Action)
    requires Enabled(s, p, a)
    ensures Solo(s, p, [Step(p, a)], Do(s, p, a))
  {
    assert Run(Do(s, p, a), [], Do(s, p, a));
  }

  lemma SoloTwo(s: State, p: Pid, a: Action, b: Action)
    requires Enabled(s, p, a) && Enabled(Do(s, p, a), p, b)
    ensures Solo(s, p, [Step(p, a), Step(p, b)], Do(Do(s, p, a), p, b))
  {
    SoloOne(s, p, a);
    SoloOne(Do(s, p, a), p, b);
    SoloThen(s, p, [Step(p, a)], Do(s, p, a), [Step(p, b)], Do(Do(s, p, a), p, b));
  }

  // ----- writing the files -----

  lemma NextIsNew(image: seq<Body>, done: nat)
    requires done < |image|
    ensures image[done].name in FilesOf(image, done) ==> !Distinct(NamesOf(image))
  {
    if image[done].name in FilesOf(image, done) {
      FilesListed(image, done, image[done].name);
      var k :| 0 <= k < done && image[k].name == image[done].name;
      assert NamesOf(image)[k] == NamesOf(image)[done];
    }
  }

  /** p writes the files of image into its temporary, and done of them are there. */
  ghost predicate Drafting(s: State, p: Pid, tmp: Name, i: Ino, image: seq<Body>, done: nat) {
    && p in s.procs && s.procs[p].job.Write? && s.procs[p].job.image == image
    && s.procs[p].phase == Writing(tmp, i, done, None) && done <= |image| && i in s.dirs
    && s.dirs[i] == Draft(p, tmp, FilesOf(image, done), NoMarker)
  }

  /** The state in which p is further, with these files. */
  function Further(s: State, p: Pid, tmp: Name, i: Ino, image: seq<Body>, done: nat): State
    requires p in s.procs && done <= |image|
  {
    Put(SetDir(s, i, Draft(p, tmp, FilesOf(image, done), NoMarker)), p, Writing(tmp, i, done, None))
  }

  lemma OneMoreFile(image: seq<Body>, done: nat)
    requires done < |image|
    ensures var b := image[done];
      FilesOf(image, done)[b.name := b.bytes[..0]][b.name := b.bytes[..|b.bytes|]] == FilesOf(image, done + 1)
  {
    assert image[done].bytes[..|image[done].bytes|] == image[done].bytes;
  }

  lemma WritesOne(s: State, p: Pid, tmp: Name, i: Ino, image: seq<Body>, done: nat) returns (steps: seq<Step>)
    requires Drafting(s, p, tmp, i, image, done) && done < |image| && Distinct(NamesOf(image))
    ensures Solo(s, p, steps, Further(s, p, tmp, i, image, done + 1))
  {
    NextIsNew(image, done);
    OneMoreFile(image, done);
    var n := |image[done].bytes|;
    var u := Do(s, p, Create);
    var v := Do(u, p, Append(n));
    var w := Do(v, p, CloseFile);
    SoloTwo(s, p, Create, Append(n));
    SoloOne(v, p, CloseFile);
    steps := [Step(p, Create), Step(p, Append(n))] + [Step(p, CloseFile)];
    SoloThen(s, p, [Step(p, Create), Step(p, Append(n))], v, [Step(p, CloseFile)], w);
    assert v.dirs[i] == Draft(p, tmp, FilesOf(image, done + 1), NoMarker);
    assert w == Further(s, p, tmp, i, image, done + 1);
  }

  lemma {:induction false} WritesAll(s: State, p: Pid, tmp: Name, i: Ino, image: seq<Body>, done: nat)
    returns (steps: seq<Step>)
    requires Drafting(s, p, tmp, i, image, done) && Distinct(NamesOf(image))
    ensures Solo(s, p, steps, Further(s, p, tmp, i, image, |image|))
    decreases |image| - done
  {
    if done == |image| {
      steps := [];
      assert Further(s, p, tmp, i, image, done) == s;
    } else {
      var first := WritesOne(s, p, tmp, i, image, done);
      var u := Further(s, p, tmp, i, image, done + 1);
      var rest := WritesAll(u, p, tmp, i, image, done + 1);
      assert Further(u, p, tmp, i, image, |image|) == Further(s, p, tmp, i, image, |image|);
      steps := first + rest;
      SoloThen(s, p, first, u, rest, Further(s, p, tmp, i, image, |image|));
    }
  }

  /** The whole replacement, with its sentinel. */
  function SealedIn(s: State, p: Pid, tmp: Name, i: Ino): State
    requires p in s.procs && s.procs[p].job.Write?
  {
    var job := s.procs[p].job;
    Put(SetDir(s, i, Draft(p, tmp, AllFiles(job.image), Whole(NamesOf(job.image), job.owner))), p, Sealed(tmp, i))
  }

  lemma Seals(s: State, p: Pid, tmp: Name, i: Ino)
    returns (steps: seq<Step>)
    requires p in s.procs && s.procs[p].job.Write? && s.procs[p].job.image != []
    requires Drafting(s, p, tmp, i, s.procs[p].job.image, |s.procs[p].job.image|)
    ensures Solo(s, p, steps, SealedIn(s, p, tmp, i))
  {
    steps := [Step(p, BeginMarker), Step(p, EndMarker)];
    SoloTwo(s, p, BeginMarker, EndMarker);
    assert Do(Do(s, p, BeginMarker), p, EndMarker) == SealedIn(s, p, tmp, i);
  }

  // ----- the swap -----

  function Emptied(d: Folder): Folder {
    d.(files := map[], marker := NoMarker, spare := NoMarker)
  }

  /** p is removing a directory. */
  ghost predicate Removing(s: State, p: Pid, prior: Ino) {
    && p in s.procs && Target(s.procs[p]).Some? && Target(s.procs[p]).value.1 == prior && prior in s.dirs
  }

  lemma UnlinksOne(s: State, p: Pid, prior: Ino, c: Child)
    requires Removing(s, p, prior) && Holds(s.dirs[prior], c)
    ensures Solo(s, p, [Step(p, Unlink(c))], SetDir(s, prior, Without(s.dirs[prior], c)))
  {
    SoloOne(s, p, Unlink(c));
  }

  lemma FewerFiles(files: map<string, Bytes>, f: string)
    requires f in files
    ensures |files - {f}| < |files|
  {
    assert files.Keys == (files - {f}).Keys + {f};
  }

  function FilesGone(s: State, prior: Ino): State
    requires prior in s.dirs
  {
    SetDir(s, prior, s.dirs[prior].(files := map[]))
  }

  lemma FilesGoneFrom(s: State, prior: Ino, c: Child)
    requires prior in s.dirs && c.OfFile?
    ensures s.dirs[prior].files == map[] ==> FilesGone(s, prior) == s
    ensures FilesGone(SetDir(s, prior, Without(s.dirs[prior], c)), prior) == FilesGone(s, prior)
  {
  }

  lemma {:induction false} UnlinksFiles(s: State, p: Pid, prior: Ino) returns (steps: seq<Step>)
    requires Removing(s, p, prior)
    ensures Solo(s, p, steps, FilesGone(s, prior))
    decreases |s.dirs[prior].files|
  {
    var d := s.dirs[prior];
    if d.files == map[] {
      steps := [];
      FilesGoneFrom(s, prior, OfFile(""));
    } else {
      var f :| f in d.files;
      UnlinksOne(s, p, prior, OfFile(f));
      var u := SetDir(s, prior, Without(d, OfFile(f)));
      FewerFiles(d.files, f);
      var rest := UnlinksFiles(u, p, prior);
      FilesGoneFrom(s, prior, OfFile(f));
      steps := [Step(p, Unlink(OfFile(f)))] + rest;
      SoloThen(s, p, [Step(p, Unlink(OfFile(f)))], u, rest, FilesGone(s, prior));
    }
  }

  /** One of the two sentinel files, if it is there. */
  lemma UnlinksMarker(s: State, p: Pid, prior: Ino, c: Child) returns (steps: seq<Step>)
    requires Removing(s, p, prior) && !c.OfFile?
    ensures Solo(s, p, steps, SetDir(s, prior, Without(s.dirs[prior], c)))
  {
    if Holds(s.dirs[prior], c) {
      UnlinksOne(s, p, prior, c);
      steps := [Step(p, Unlink(c))];
    } else {
      steps := [];
      assert SetDir(s, prior, Without(s.dirs[prior], c)) == s;
    }
  }

  /** RemoveAll gets to the end of what the name held. */
  lemma Empties(s: State, p: Pid, prior: Ino) returns (steps: seq<Step>)
    requires Removing(s, p, prior)
    ensures Solo(s, p, steps, SetDir(s, prior, Emptied(s.dirs[prior])))
  {
    var d := s.dirs[prior];
    var a := UnlinksFiles(s, p, prior);
    var u := FilesGone(s, prior);
    var b := UnlinksMarker(u, p, prior, OfMarker);
    var v := SetDir(u, prior, Without(u.dirs[prior], OfMarker));
    var c := UnlinksMarker(v, p, prior, OfSpare);
    var w := SetDir(v, prior, Without(v.dirs[prior], OfSpare));
    SoloThen(s, p, a, u, b, v);
    SoloThen(s, p, a + b, v, c, w);
    assert w == SetDir(s, prior, Emptied(d));
    steps := a + b + c;
  }

  /** RemoveAll got to its end: the directory is empty, and its name leads nowhere. */
  function Removed(s: State, p: Pid): State
    requires p in s.procs && Target(s.procs[p]).Some?
    requires Target(s.procs[p]).value.0 in s.names && Target(s.procs[p]).value.1 in s.dirs
  {
    var n, i := Target(s.procs[p]).value.0, Target(s.procs[p]).value.1;
    Put(Unname(SetDir(s, i, Emptied(s.dirs[i])), p, n), p, AfterRmdir(s.procs[p].phase))
  }

  /** It does when nothing interferes, whoever removes. */
  lemma Removes(s: State, p: Pid) returns (steps: seq<Step>)
    requires p in s.procs && Target(s.procs[p]).Some?
    requires Target(s.procs[p]).value.0 in s.names && Target(s.procs[p]).value.1 in s.dirs
    requires s.names[Target(s.procs[p]).value.0] == Target(s.procs[p]).value.1
    ensures Solo(s, p, steps, Removed(s, p))
  {
    var i := Target(s.procs[p]).value.1;
    var more := Empties(s, p, i);
    var v := SetDir(s, i, Emptied(s.dirs[i]));
    SoloOne(v, p, Rmdir);
    steps := more + [Step(p, Rmdir)];
    SoloThen(s, p, more, v, [Step(p, Rmdir)], Do(v, p, Rmdir));
  }

  /** Nothing is at the name any more, and p goes on to the rename. */
  ghost predicate ClearedIn(s: State, t: State, p: Pid, tmp: Name, i: Ino, n: Name) {
    && p in s.procs && t.procs == s.procs[p := s.procs[p].(phase := Cleared(tmp, i))]
    && t.names == s.names - {n} && t.published == s.published && i in s.dirs && i in t.dirs && t.dirs[i] == s.dirs[i]
    && (forall o :: o in s.dirs && !(n in s.names && s.names[n] == o) ==> o in t.dirs && t.dirs[o] == s.dirs[o])
  }

  lemma Clears(s: State, p: Pid, tmp: Name, i: Ino) returns (steps: seq<Step>, t: State)
    requires p in s.procs && s.procs[p].job.Write? && s.procs[p].phase == Sealed(tmp, i)
    requires Replaceable(s, s.procs[p].job.name, s.procs[p].job.owner) && i in s.dirs
    requires var n := Resource(s.procs[p].job.name); n in s.names ==> s.names[n] in s.dirs && s.names[n] != i
    ensures Solo(s, p, steps, t) && ClearedIn(s, t, p, tmp, i, Resource(s.procs[p].job.name))
  {
    var n := Resource(s.procs[p].job.name);
    SoloOne(s, p, BeginRemove);
    var u := Do(s, p, BeginRemove);
    var first := [Step(p, BeginRemove)];
    if n !in s.names {
      steps, t := first, u;
      assert s.names - {n} == s.names;
    } else {
      var more := Removes(u, p);
      t := Removed(u, p);
      steps := first + more;
      SoloThen(s, p, first, u, more, t);
    }
  }

  /** The resource is there, as its extraction wrote it, and no other is touched. */
  ghost predicate Extracted(s: State, t: State, p: Pid) {
    && p in s.procs && p in t.procs && s.procs[p].job.Write? && t.procs[p] == s.procs[p].(phase := Finished)
    && var job := s.procs[p].job;
       && StateOf(t, job.name) == Complete && t.dirs[t.names[Resource(job.name)]].author == Some(p)
       && t.dirs[t.names[Resource(job.name)]].files == AllFiles(job.image)
       && t.dirs[t.names[Resource(job.name)]].marker == Whole(NamesOf(job.image), job.owner)
       && (forall r :: r != job.name && Resource(r) in s.names && s.names[Resource(r)] in s.dirs ==> Untouched(s, t, r))
  }

  lemma Renames(t: State, p: Pid, tmp: Name, i: Ino) returns (steps: seq<Step>, u: State)
    requires p in t.procs && t.procs[p].job.Write? && t.procs[p].phase == Cleared(tmp, i)
    requires tmp in t.names && t.names[tmp] == i && Resource(t.procs[p].job.name) !in t.names
    ensures Solo(t, p, steps, u) && p in u.procs && u.procs[p] == t.procs[p].(phase := Finished)
    ensures u.names == (t.names - {tmp})[Resource(t.procs[p].job.name) := i] && u.dirs == t.dirs
  {
    SoloTwo(t, p, Rename, Close);
    steps, u := [Step(p, Rename), Step(p, Close)], Do(Do(t, p, Rename), p, Close);
  }

  lemma ListedIsThere(image: seq<Body>)
    ensures forall f :: f in NamesOf(image) ==> f in AllFiles(image)
  {
    forall f | f in NamesOf(image)
      ensures f in AllFiles(image)
    {
      var k :| 0 <= k < |image| && NamesOf(image)[k] == f;
      ListedInFiles(image, |image|, k);
    }
  }

  lemma Swaps(s: State, t: State, p: Pid, tmp: Name, i: Ino) returns (steps: seq<Step>, u: State)
    requires NamesOk(s) && p in s.procs && s.procs[p].job.Write? && s.procs[p].phase == Sealed(tmp, i)
    requires Ready(s, p, tmp, i) && ClearedIn(s, t, p, tmp, i, Resource(s.procs[p].job.name))
    ensures Solo(t, p, steps, u) && Extracted(s, u, p)
  {
    var n := Resource(s.procs[p].job.name);
    assert tmp in t.names && t.names[tmp] == i;
    steps, u := Renames(t, p, tmp, i);
    NowComplete(s.procs[p].job, p, tmp, u, i);
    OthersUntouched(s, t, u, p, tmp, i);
  }

  lemma NowComplete(job: Job, p: Pid, tmp: Name, u: State, i: Ino)
    requires job.Write? && Resource(job.name) in u.names && u.names[Resource(job.name)] == i && i in u.dirs
    requires u.dirs[i] == Draft(p, tmp, AllFiles(job.image), Whole(NamesOf(job.image), job.owner))
    ensures StateOf(u, job.name) == Complete
  {
    ListedIsThere(job.image);
  }

  lemma OthersUntouched(s: State, t: State, u: State, p: Pid, tmp: Name, i: Ino)
    requires NamesOk(s) && p in s.procs && s.procs[p].job.Write? && tmp.Temporary?
    requires ClearedIn(s, t, p, tmp, i, Resource(s.procs[p].job.name))
    requires u.names == (t.names - {tmp})[Resource(s.procs[p].job.name) := i] && u.dirs == t.dirs
    ensures forall r :: r != s.procs[p].job.name && Resource(r) in s.names && s.names[Resource(r)] in s.dirs ==>
      Untouched(s, u, r)
  {
    var n := Resource(s.procs[p].job.name);
    forall r | Resource(r) != n && Resource(r) in s.names && s.names[Resource(r)] in s.dirs
      ensures Untouched(s, u, r)
    {
      assert NameOk(s, Resource(r));
      assert n in s.names ==> NameOk(s, n);
    }
  }

  /** The first half: the whole replacement with its sentinel. */
  lemma Drafts(s: State, p: Pid, tmp: Name, i: Ino) returns (steps: seq<Step>, t: State)
    requires p in s.procs && s.procs[p].job.Write? && s.procs[p].job.image != []
    requires Distinct(NamesOf(s.procs[p].job.image)) && Drafting(s, p, tmp, i, s.procs[p].job.image, 0)
    ensures Solo(s, p, steps, t) && t == SealedIn(s, p, tmp, i)
  {
    var image := s.procs[p].job.image;
    var a := WritesAll(s, p, tmp, i, image, 0);
    var u := Further(s, p, tmp, i, image, |image|);
    var b := Seals(u, p, tmp, i);
    t := SealedIn(u, p, tmp, i);
    SoloThen(s, p, a, u, b, t);
    assert t == SealedIn(s, p, tmp, i);
    steps := a + b;
  }

  /** The second half: the swap. */
  lemma Publishes(s: State, p: Pid, tmp: Name, i: Ino) returns (steps: seq<Step>, t: State)
    requires NamesOk(s) && p in s.procs && s.procs[p].job.Write? && s.procs[p].phase == Sealed(tmp, i)
    requires Ready(s, p, tmp, i) && Replaceable(s, s.procs[p].job.name, s.procs[p].job.owner)
    ensures Solo(s, p, steps, t) && Extracted(s, t, p)
  {
    var n := Resource(s.procs[p].job.name);
    assert n in s.names ==> NameOk(s, n);
    var a, u := Clears(s, p, tmp, i);
    var b: seq<Step>;
    b, t := Swaps(s, u, p, tmp, i);
    SoloThen(s, p, a, u, b, t);
    steps := a + b;
  }

  lemma StillReplaceable(s: State, p: Pid, tmp: Name, i: Ino)
    requires NamesOk(s) && p in s.procs && s.procs[p].job.Write? && i !in s.published
    requires Replaceable(s, s.procs[p].job.name, s.procs[p].job.owner)
    ensures Replaceable(SealedIn(s, p, tmp, i), s.procs[p].job.name, s.procs[p].job.owner)
    ensures forall r :: Resource(r) in s.names ==> s.names[Resource(r)] != i
  {
    forall r | Resource(r) in s.names
      ensures s.names[Resource(r)] != i
    {
      assert NameOk(s, Resource(r));
    }
  }

  /** An extraction whose temporary was just created, of an image the store takes
      and over something it may replace. */
  ghost predicate SetOut(s: State, p: Pid) {
    && p in s.procs && s.procs[p].job.Write?
    && s.procs[p].phase.Writing? && s.procs[p].phase.done == 0 && s.procs[p].phase.part.None?
    && Distinct(NamesOf(s.procs[p].job.image)) && s.procs[p].job.image != []
    && Replaceable(s, s.procs[p].job.name, s.procs[p].job.owner)
  }

  lemma SetOutDrafts(s: State, p: Pid)
    requires NamesOk(s) && SetOut(s, p) && ProcOk(s, p)
    ensures var ph := s.procs[p].phase; Drafting(s, p, ph.tmp, ph.ino, s.procs[p].job.image, 0) && ph.ino !in s.published
  {
  }

  lemma SealedIsReady(s: State, p: Pid, tmp: Name, i: Ino)
    requires NamesOk(s) && p in s.procs && s.procs[p].phase == Sealed(tmp, i) && ProcOk(s, p)
    ensures s.procs[p].job.Write? && Ready(s, p, tmp, i)
  {
  }

  /** From any state of any run, such an extraction has a run of its own to its
      end. There the resource is Complete with exactly its files, and every other
      resource is as it was. */
  lemma LeftAloneItCompletes(start: State, before: seq<Step>, s: State, p: Pid) returns (steps: seq<Step>, t: State)
    requires Init(start) && Run(start, before, s) && SetOut(s, p)
    ensures Solo(s, p, steps, t) && Extracted(s, t, p)
  {
    Reachable(start, before, s);
    var tmp, i := s.procs[p].phase.tmp, s.procs[p].phase.ino;
    SetOutDrafts(s, p);
    var a, u := Drafts(s, p, tmp, i);
    StillReplaceable(s, p, tmp, i);
    RunKeeps(s, a, u);
    SealedIsReady(u, p, tmp, i);
    var b: seq<Step>;
    b, t := Publishes(u, p, tmp, i);
    SoloThen(s, p, a, u, b, t);
    ExtractedSince(s, u, t, p, tmp, i);
    steps := a + b;
  }

  lemma ExtractedSince(s: State, u: State, t: State, p: Pid, tmp: Name, i: Ino)
    requires p in s.procs && s.procs[p].job.Write? && u == SealedIn(s, p, tmp, i) && Extracted(u, t, p)
    requires forall r :: Resource(r) in s.names ==> s.names[Resource(r)] != i
    ensures Extracted(s, t, p)
  {
    forall r | r != s.procs[p].job.name && Resource(r) in s.names && s.names[Resource(r)] in s.dirs
      ensures Untouched(s, t, r)
    {
      assert Untouched(u, t, r);
    }
  }

  // ----- creating the temporary -----

  /** The temporary is there, empty, locked by p, and nothing else has changed. */
  ghost predicate CreatedIn(s: State, t: State, p: Pid) {
    && p in s.procs && s.procs[p].job.Write? && p in t.procs
    && var tmp, i := Temporary(s.procs[p].job.name, s.nextId), s.nextIno;
       && t.procs[p] == s.procs[p].(phase := Writing(tmp, i, 0, None))
       && t.names == s.names[tmp := i] && t.locks == s.locks[i := p]
       && t.dirs == s.dirs[i := Folder(Some(p), tmp, map[], NoMarker, NoMarker)]
  }

  lemma Makes(s: State, p: Pid) returns (steps: seq<Step>, t: State)
    requires p in s.procs && s.procs[p].job.Write? && s.procs[p].phase.Creating?
    ensures Solo(s, p, steps, t) && p in t.procs && t.procs[p].job == s.procs[p].job
    ensures var tmp, i, l := Temporary(s.procs[p].job.name, s.nextId), s.nextIno, s.procs[p].phase.losses;
      && t.procs[p].phase == Opened(tmp, i, l) && t.names == s.names[tmp := i] && t.locks == s.locks
      && t.dirs == s.dirs[i := Folder(Some(p), tmp, map[], NoMarker, NoMarker)]
  {
    var tmp := Temporary(s.procs[p].job.name, s.nextId);
    SoloTwo(s, p, Mkdir, Open(tmp));
    steps, t := [Step(p, Mkdir), Step(p, Open(tmp))], Do(Do(s, p, Mkdir), p, Open(tmp));
  }

  lemma Creates(s: State, p: Pid) returns (steps: seq<Step>, t: State)
    requires p in s.procs && s.procs[p].job.Write? && s.procs[p].phase.Creating? && s.nextIno !in s.locks
    ensures Solo(s, p, steps, t) && CreatedIn(s, t, p)
  {
    var a, u := Makes(s, p);
    SoloTwo(u, p, Flock, Recheck);
    t := Do(Do(u, p, Flock), p, Recheck);
    SoloThen(s, p, a, u, [Step(p, Flock), Step(p, Recheck)], t);
    steps := a + [Step(p, Flock), Step(p, Recheck)];
  }

  lemma CreatedSetsOut(s: State, t: State, p: Pid)
    requires NamesOk(s) && CreatedIn(s, t, p)
    requires Distinct(NamesOf(s.procs[p].job.image)) && s.procs[p].job.image != []
    requires Replaceable(s, s.procs[p].job.name, s.procs[p].job.owner)
    ensures SetOut(t, p)
    ensures forall r :: Resource(r) in s.names && s.names[Resource(r)] in s.dirs ==> Untouched(s, t, r)
  {
    assert s.nextIno !in s.dirs;
    assert Resource(s.procs[p].job.name) in s.names ==> NameOk(s, Resource(s.procs[p].job.name));
  }

  /** From its first call on: in any state of any run, an extraction that has not
      begun has a run of its own to its end, where the resource is Complete with
      exactly its files, and every other resource is as it was. */
  lemma StartedItCompletes(start: State, before: seq<Step>, s: State, p: Pid) returns (steps: seq<Step>, t: State)
    requires Init(start) && Run(start, before, s)
    requires p in s.procs && s.procs[p].job.Write? && s.procs[p].phase.Creating?
    requires Distinct(NamesOf(s.procs[p].job.image)) && s.procs[p].job.image != []
    requires Replaceable(s, s.procs[p].job.name, s.procs[p].job.owner)
    ensures Solo(s, p, steps, t) && Extracted(s, t, p)
  {
    Reachable(start, before, s);
    assert s.nextIno !in s.locks;
    var a, u := Creates(s, p);
    CreatedSetsOut(s, u, p);
    RunThen(start, before, s, a, u);
    var b: seq<Step>;
    b, t := LeftAloneItCompletes(start, before + a, u, p);
    SoloThen(s, p, a, u, b, t);
    steps := a + b;
    ExtractedFrom(s, u, t, p);
  }

  lemma ExtractedFrom(s: State, u: State, t: State, p: Pid)
    requires CreatedIn(s, u, p) && Extracted(u, t, p)
    requires forall r :: Resource(r) in s.names && s.names[Resource(r)] in s.dirs ==> Untouched(s, u, r)
    ensures Extracted(s, t, p)
  {
    forall r | r != s.procs[p].job.name && Resource(r) in s.names && s.names[Resource(r)] in s.dirs
      ensures Untouched(s, t, r)
    {
      assert Untouched(s, u, r);
      assert Untouched(u, t, r);
    }
  }
}
