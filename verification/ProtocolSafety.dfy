/** What holds in every run of the store's protocol, whoever dies and whenever. */
module ProtocolSafety {
  import opened Basics
  import opened Protocol
  import opened ProtocolInvariant
  import Names

  /** The steps that touch no name and no directory. */
  predicate Moves(a: Action) {
    a.Crash? || a.Fail? || a.Open? || a.Flock? || a.Recheck? || a.CloseFile? || a.BeginRemove? || a.Close?
    || a.Drop? || a.ReadMarker?
  }

  lemma EarlyMovesOwn(s: State, p: Pid, a: Action)
    requires NamesOk(s) && (a.Crash? || a.Fail? || a.Open? || a.Flock? || a.Recheck?) && Enabled(s, p, a) && ProcOk(s, p)
    ensures MoveOk(s, Do(s, p, a), p)
  {
    match a {
      case Crash => CrashOwn(s, p);
      case Fail => FailOwn(s, p);
      case Open(n) => OpenOwn(s, p, n);
      case Flock => FlockOwn(s, p);
      case Recheck => RecheckOwn(s, p);
    }
  }

  lemma LateMovesOwn(s: State, p: Pid, a: Action)
    requires a.CloseFile? || a.BeginRemove? || a.Close? || a.Drop? || a.ReadMarker?
    requires NamesOk(s) && PublishedOk(s) && Enabled(s, p, a) && ProcOk(s, p)
    ensures MoveOk(s, Do(s, p, a), p)
  {
    match a {
      case CloseFile => CloseFileOwn(s, p);
      case BeginRemove => BeginRemoveOwn(s, p);
      case Close => CloseOwn(s, p);
      case Drop(n) => DropOwn(s, p, n);
      case ReadMarker => ReadMarkerOwn(s, p);
    }
  }

  lemma MovesOwn(s: State, p: Pid, a: Action)
    requires NamesOk(s) && PublishedOk(s) && Moves(a) && Enabled(s, p, a) && ProcOk(s, p)
    ensures MoveOk(s, Do(s, p, a), p)
  {
    if a.CloseFile? || a.BeginRemove? || a.Close? || a.Drop? || a.ReadMarker? {
      LateMovesOwn(s, p, a);
    } else {
      EarlyMovesOwn(s, p, a);
    }
  }

  lemma MoveStepKeeps(s: State, p: Pid, a: Action)
    requires Inv(s) && Moves(a) && Enabled(s, p, a)
    ensures Steps(s, Do(s, p, a), p)
  {
    MovesOwn(s, p, a);
    MoveKeeps(s, p, Do(s, p, a));
  }

  lemma NameStepKeeps(s: State, p: Pid, a: Action)
    requires Inv(s) && (a.Spawn? || a.Mkdir? || a.Rmdir? || a.Rename?) && Enabled(s, p, a)
    ensures Steps(s, Do(s, p, a), p)
  {
    match a {
      case Spawn(job) => SpawnKeeps(s, p, job);
      case Mkdir => MkdirKeeps(s, p);
      case Rmdir => RmdirKeeps(s, p);
      case Rename => RenameKeeps(s, p);
    }
  }

  /** Any step of any process keeps the invariant. */
  lemma StepKeeps(s: State, p: Pid, a: Action)
    requires Inv(s) && Enabled(s, p, a)
    ensures Steps(s, Do(s, p, a), p)
  {
    if Moves(a) {
      MoveStepKeeps(s, p, a);
    } else if a.Spawn? || a.Mkdir? || a.Rmdir? || a.Rename? {
      NameStepKeeps(s, p, a);
    } else if a.Create? || a.Append? || a.BeginMarker? || a.EndMarker? {
      WriteKeeps(s, p, a);
    } else if a.Unlink? {
      UnlinkKeeps(s, p, a.child);
    } else {
      AdoptKeeps(s, p, a);
    }
  }

  lemma {:induction false} RunKeeps(s: State, steps: seq<Step>, t: State)
    requires Inv(s) && Run(s, steps, t)
    ensures Inv(t)
    decreases |steps|
  {
    if steps != [] {
      StepKeeps(s, steps[0].pid, steps[0].action);
      RunKeeps(Do(s, steps[0].pid, steps[0].action), steps[1..], t);
    }
  }

  lemma Reachable(s: State, steps: seq<Step>, t: State)
    requires Init(s) && Run(s, steps, t)
    ensures Inv(t)
  {
    InitKeeps(s);
    RunKeeps(s, steps, t);
  }

  /** Any process at work may die, whatever it is doing: its lock goes with it,
      and all else stays as it is. */
  lemma MayDie(s: State, p: Pid)
    requires p in s.procs && !s.procs[p].phase.Finished? && !s.procs[p].phase.GaveUp? && !s.procs[p].phase.Dead?
    ensures Enabled(s, p, Crash)
    ensures var t := Do(s, p, Crash);
      && t.procs == s.procs[p := Proc(s.procs[p].job, Dead)] && t.names == s.names && t.dirs == s.dirs
      && (forall i :: i in t.locks ==> i in s.locks && t.locks[i] == s.locks[i])
      && (LocksOk(s) ==> forall i :: i in s.locks ==> (i in t.locks <==> s.locks[i] != p))
  {
  }

  // ----- a temporary in use stays -----

  /** From the return of createTemporary to the swap. */
  predicate Holding(ph: Phase) {
    ph.Writing? || ph.Sealing? || ph.Sealed? || ph.Clearing? || ph.Cleared?
  }

  ghost predicate Safe(s: State, p: Pid, tmp: Name, i: Ino) {
    && tmp in s.names && s.names[tmp] == i && i in s.dirs
    && i in s.locks && s.locks[i] == p
    && s.dirs[i].author == Some(p)
  }

  lemma HeldSafe(s: State, p: Pid)
    requires Inv(s) && p in s.procs && Holding(s.procs[p].phase)
    ensures Safe(s, p, s.procs[p].phase.tmp, s.procs[p].phase.ino)
  {
  }

  lemma HeldStep(s: State, p: Pid, q: Pid, a: Action)
    requires Inv(s) && p in s.procs && Holding(s.procs[p].phase) && q != p && Enabled(s, q, a)
    ensures var t, ph := Do(s, q, a), s.procs[p].phase;
      Inv(t) && p in t.procs && t.procs[p] == s.procs[p]
      && ph.ino in s.dirs && ph.ino in t.dirs && t.dirs[ph.ino] == s.dirs[ph.ino]
  {
    HeldSafe(s, p);
    StepKeeps(s, q, a);
    assert Leaves(s, Do(s, q, a), p);
  }

  /** No step of the run is p's own. */
  predicate Others(steps: seq<Step>, p: Pid) {
    forall k :: 0 <= k < |steps| ==> steps[k].pid != p
  }

  /** Whatever the other processes do, and whichever of them die, a temporary
      its writer holds stays where it is, as its writer left it. */
  lemma {:induction false} HeldRun(s: State, p: Pid, steps: seq<Step>, t: State)
    requires Inv(s) && p in s.procs && Holding(s.procs[p].phase)
    requires Run(s, steps, t) && Others(steps, p)
    ensures var ph := s.procs[p].phase;
      Safe(t, p, ph.tmp, ph.ino) && ph.ino in s.dirs && t.dirs[ph.ino] == s.dirs[ph.ino]
    ensures p in t.procs && t.procs[p] == s.procs[p]
    decreases |steps|
  {
    if steps == [] {
      HeldSafe(s, p);
    } else {
      var u := Do(s, steps[0].pid, steps[0].action);
      HeldStep(s, p, steps[0].pid, steps[0].action);
      HeldRun(u, p, steps[1..], t);
    }
  }

  /** What createTemporary returns: a directory that is there, empty and locked. */
  lemma CreatedEmpty(s: State, p: Pid)
    requires Inv(s) && p in s.procs && s.procs[p].phase.Writing?
    requires s.procs[p].phase.done == 0 && s.procs[p].phase.part.None?
    ensures var ph := s.procs[p].phase; Safe(s, p, ph.tmp, ph.ino) && Empty(s.dirs[ph.ino])
  {
  }

  /** For any writers and collectors, interleaved in any way from any cache
      path: once createTemporary returned, the temporary is there and empty, and
      no run of the others changes it. */
  lemma TemporaryIsSafe(start: State, before: seq<Step>, s: State, p: Pid, after: seq<Step>, t: State)
    requires Init(start) && Run(start, before, s) && p in s.procs
    requires var ph := s.procs[p].phase; ph.Writing? || ph.Sealing? || ph.Sealed? || ph.Clearing? || ph.Cleared?
    requires Run(s, after, t) && forall k :: 0 <= k < |after| ==> after[k].pid != p
    ensures var ph := s.procs[p].phase;
      && ph.tmp in s.names && s.names[ph.tmp] == ph.ino && ph.tmp in t.names && t.names[ph.tmp] == ph.ino
      && ph.ino in t.locks && t.locks[ph.ino] == p && p in t.procs && t.procs[p] == s.procs[p]
      && ph.ino in s.dirs && ph.ino in t.dirs && t.dirs[ph.ino] == s.dirs[ph.ino]
      && (ph.Writing? && ph.done == 0 && ph.part.None? ==>
            var d := t.dirs[ph.ino]; d.files == map[] && d.marker == NoMarker && d.spare == NoMarker)
  {
    Reachable(start, before, s);
    HeldSafe(s, p);
    HeldRun(s, p, after, t);
    var ph := s.procs[p].phase;
    if ph.Writing? && ph.done == 0 && ph.part.None? {
      CreatedEmpty(s, p);
    }
  }

  /** createTemporary gives up for loss only when three different directories
      of its own were each removed by a GC or a sweep. */
  lemma GivesUpAfterThreeLosses(start: State, steps: seq<Step>, s: State, p: Pid)
    requires Init(start) && Run(start, steps, s) && p in s.procs && s.procs[p].phase.GaveUp?
    ensures var l := s.procs[p].phase.losses;
      && |l| == 3 && l[0] != l[1] && l[0] != l[2] && l[1] != l[2]
      && (forall k :: 0 <= k < 3 ==> l[k] in s.collected)
  {
    Reachable(start, steps, s);
  }

  // ----- what a crash leaves -----

  /** A directory that is complete by a listing of its extraction is that
      extraction, neither short of a file nor torn, exactly when no adoption has
      put its own file in the place of one of them. */
  lemma CompleteIsWhole(d: Folder, image: seq<Body>)
    requires FromOne(d, image) && d.marker.Whole? && (forall f :: f in d.marker.listed ==> Finds(d, f))
    ensures d.files == AllFiles(image) <==> d.spare == NoMarker || Names.SPARE !in AllFiles(image)
    ensures d.files - {Names.SPARE} == AllFiles(image) - {Names.SPARE}
  {
    forall f | f in AllFiles(image)
      ensures Finds(d, f)
    {
      FilesListed(image, |image|, f);
      var k :| 0 <= k < |image| && image[k].name == f;
      assert NamesOf(image)[k] == f;
    }
  }

  lemma PublishedFrom(s: State, n: string)
    requires Inv(s) && Resource(n) in s.names && s.dirs[s.names[Resource(n)]].author.Some?
    ensures var d := s.dirs[s.names[Resource(n)]];
      && d.author.value in s.procs && s.procs[d.author.value].job.Write? && s.procs[d.author.value].job.name == n
      && FromOne(d, s.procs[d.author.value].job.image)
  {
  }

  /** At every moment of every run, after a death at any step as well: when
      State answers Complete for a directory the store wrote, it holds the files
      one extraction of that resource wrote, with their bytes, and no others. All
      of them, exactly when no file of the image has the name Adopt writes to, or
      no adoption has come to it. */
  lemma CompleteMeansOneExtraction(start: State, steps: seq<Step>, s: State, n: string)
    requires Init(start) && Run(start, steps, s) && Resource(n) in s.names
    requires s.names[Resource(n)] in s.dirs && s.dirs[s.names[Resource(n)]].author.Some?
    ensures var d := s.dirs[s.names[Resource(n)]];
      var w := d.author.value;
      && w in s.procs && s.procs[w].job.Write? && s.procs[w].job.name == n
      && (StateOf(s, n) == Complete ==>
            && d.marker.listed == NamesOf(s.procs[w].job.image)
            && s.procs[w].job.image != [] && Distinct(NamesOf(s.procs[w].job.image))
            && d.files - {Names.SPARE} == AllFiles(s.procs[w].job.image) - {Names.SPARE}
            && (d.files == AllFiles(s.procs[w].job.image) <==>
                  d.spare == NoMarker || Names.SPARE !in AllFiles(s.procs[w].job.image)))
  {
    Reachable(start, steps, s);
    PublishedFrom(s, n);
    var d := s.dirs[s.names[Resource(n)]];
    if StateOf(s, n) == Complete {
      CompleteIsWhole(d, s.procs[d.author.value].job.image);
    }
  }

  /** Every file a reader finds under a resource's name in a directory the store
      wrote is whole, at every moment, and the sentinel is never torn. The one
      other file there may be is the one an adoption is about to rename. */
  lemma ReadersSeeWholeFiles(start: State, steps: seq<Step>, s: State, n: string)
    requires Init(start) && Run(start, steps, s) && Resource(n) in s.names
    requires s.names[Resource(n)] in s.dirs && s.dirs[s.names[Resource(n)]].author.Some?
    ensures var d := s.dirs[s.names[Resource(n)]];
      var w := d.author.value;
      && w in s.procs && s.procs[w].job.Write? && d.marker != Torn
      && (forall f :: f in d.files ==>
            f in AllFiles(s.procs[w].job.image) && d.files[f] == AllFiles(s.procs[w].job.image)[f])
      && (forall f :: Finds(d, f) && f !in d.files ==> f == Names.SPARE && d.spare != NoMarker)
  {
    Reachable(start, steps, s);
    PublishedFrom(s, n);
  }

  /** What the protocol's State answers, spelled out. */
  lemma AnswersExactly(s: State, n: string)
    requires Resource(n) in s.names ==> s.names[Resource(n)] in s.dirs
    ensures StateOf(s, n) == Absent <==> Resource(n) !in s.names
    ensures StateOf(s, n) == Complete <==>
      Resource(n) in s.names && var d := s.dirs[s.names[Resource(n)]];
      d.marker.Whole? && forall f :: f in d.marker.listed ==>
        f in d.files || (f == ".image-cache-agent.json.tmp" && d.spare != NoMarker)
  {
  }

  // ----- who changes what is at a resource's name -----

  ghost predicate Untouched(s: State, t: State, n: string)
    requires Resource(n) in s.names && s.names[Resource(n)] in s.dirs
  {
    var i := s.names[Resource(n)];
    Resource(n) in t.names && t.names[Resource(n)] == i && i in t.dirs && t.dirs[i] == s.dirs[i]
  }

  /** p is an extraction of n at its swap, with a whole replacement and its
      sentinel in its temporary. */
  ghost predicate SwapsIn(s: State, p: Pid, n: string) {
    && p in s.procs && s.procs[p].job.Write? && s.procs[p].job.name == n && s.procs[p].phase.Clearing?
    && Ready(s, p, s.procs[p].phase.tmp, s.procs[p].phase.ino)
  }

  /** p is a GC, no sentinel in the directory names anybody but the agent, and
      this very directory is what p came by, or it is empty, as one that a removal
      by name has only left to unlink. */
  ghost predicate Collects(s: State, p: Pid, n: string)
    requires Resource(n) in s.names && s.names[Resource(n)] in s.dirs
  {
    && p in s.procs && s.procs[p].phase.Dropping? && s.procs[p].phase.name == n
    && (s.dirs[s.names[Resource(n)]].marker.Whole? ==> s.dirs[s.names[Resource(n)]].marker.owner == AGENT)
    && (s.procs[p].phase.ino == s.names[Resource(n)] || Empty(s.dirs[s.names[Resource(n)]]))
  }

  /** The files are as they were, but for one with the name Adopt writes to. */
  predicate SpareAside(before: map<string, Bytes>, after: map<string, Bytes>) {
    after == before || after == before - {Names.SPARE}
  }

  /** p adopts n: the files stay, but for one with the name Adopt writes to, and
      the sentinel is the old one or the same listing under the agent's name. */
  ghost predicate TakesOver(s: State, t: State, p: Pid, n: string)
    requires Resource(n) in s.names && s.names[Resource(n)] in s.dirs
  {
    var i := s.names[Resource(n)];
    && p in s.procs && s.procs[p].job == Adopt(n)
    && Resource(n) in t.names && t.names[Resource(n)] == i && i in t.dirs
    && SpareAside(s.dirs[i].files, t.dirs[i].files)
    && (s.dirs[i].marker.Whole? ==>
          t.dirs[i].marker == s.dirs[i].marker || t.dirs[i].marker == Whole(s.dirs[i].marker.listed, AGENT))
  }

  lemma MoveTouches(s: State, p: Pid, a: Action, n: string)
    requires Inv(s) && Moves(a) && Enabled(s, p, a) && Resource(n) in s.names
    ensures Untouched(s, Do(s, p, a), n)
  {
    MovesOwn(s, p, a);
    assert NameOk(s, Resource(n));
  }

  lemma UnlinkTouches(s: State, p: Pid, c: Child, n: string)
    requires NamesOk(s) && Enabled(s, p, Unlink(c)) && ProcOk(s, p) && Resource(n) in s.names
    ensures Untouched(s, Do(s, p, Unlink(c)), n) || SwapsIn(s, p, n) || Collects(s, p, n)
  {
  }

  lemma RmdirTouches(s: State, p: Pid, n: string)
    requires NamesOk(s) && Enabled(s, p, Rmdir) && ProcOk(s, p) && Resource(n) in s.names
    ensures Untouched(s, Do(s, p, Rmdir), n) || SwapsIn(s, p, n) || Collects(s, p, n)
  {
  }

  lemma AdoptTouches(s: State, p: Pid, a: Action, n: string)
    requires NamesOk(s) && OfAdopt(a) && Enabled(s, p, a) && ProcOk(s, p)
    requires Resource(n) in s.names
    ensures Untouched(s, Do(s, p, a), n) || TakesOver(s, Do(s, p, a), p, n)
  {
    AdoptDoes(s, p, a);
    assert NameOk(s, Resource(n));
  }

  lemma WriteTouches(s: State, p: Pid, a: Action, n: string)
    requires NamesOk(s) && (a.Create? || a.Append? || a.BeginMarker? || a.EndMarker?) && Enabled(s, p, a) && ProcOk(s, p)
    requires Resource(n) in s.names
    ensures Untouched(s, Do(s, p, a), n)
  {
  }

  lemma NameTouches(s: State, p: Pid, a: Action, n: string)
    requires NamesOk(s) && (a.Spawn? || a.Mkdir? || a.Rename?) && Enabled(s, p, a) && (p in s.procs ==> ProcOk(s, p))
    requires Resource(n) in s.names
    ensures Untouched(s, Do(s, p, a), n)
  {
  }

  lemma StepTouches(s: State, p: Pid, a: Action, n: string)
    requires Inv(s) && Enabled(s, p, a) && Resource(n) in s.names && s.names[Resource(n)] in s.dirs
    ensures var t := Do(s, p, a);
      Untouched(s, t, n) || SwapsIn(s, p, n) || Collects(s, p, n) || TakesOver(s, t, p, n)
  {
    if Moves(a) { MoveTouches(s, p, a, n); }
    else if a.Spawn? || a.Mkdir? || a.Rename? { NameTouches(s, p, a, n); }
    else if a.Unlink? { UnlinkTouches(s, p, a.child, n); }
    else if a.Rmdir? { RmdirTouches(s, p, n); }
    else if OfAdopt(a) { AdoptTouches(s, p, a, n); }
    else { WriteTouches(s, p, a, n); }
  }

  /** In every run, a step leaves what is at a resource's name as it is, unless
      it belongs to an extraction of that resource whose replacement is whole in
      its temporary, to a GC of a directory nobody else owns, or to an adoption,
      which changes the owner and at most one file. */
  lemma OnlyThreeChangeAResource(start: State, steps: seq<Step>, s: State, p: Pid, a: Action, n: string)
    requires Init(start) && Run(start, steps, s) && Enabled(s, p, a)
    requires Resource(n) in s.names && s.names[Resource(n)] in s.dirs
    ensures var t := Do(s, p, a);
      Untouched(s, t, n) || SwapsIn(s, p, n) || Collects(s, p, n) || TakesOver(s, t, p, n)
  {
    Reachable(start, steps, s);
    StepTouches(s, p, a, n);
  }

  /** The directory at the name, its files but perhaps the spare, and its sentinel. */
  ghost predicate At(s: State, n: string, i: Ino, files: map<string, Bytes>, listed: seq<string>, owner: string) {
    && Resource(n) in s.names && s.names[Resource(n)] == i && i in s.dirs
    && SpareAside(files, s.dirs[i].files) && s.dirs[i].marker == Whole(listed, owner)
  }

  /** No step of the run removes what is at the name: no swap of it, and no GC
      that is at this very directory. */
  ghost predicate NobodyRemoves(s: State, steps: seq<Step>, t: State, n: string)
    requires Run(s, steps, t)
    decreases |steps|
  {
    steps == [] ||
    (Resource(n) in s.names && s.names[Resource(n)] in s.dirs
     && !SwapsIn(s, steps[0].pid, n) && !Collects(s, steps[0].pid, n)
     && NobodyRemoves(Do(s, steps[0].pid, steps[0].action), steps[1..], t, n))
  }

  lemma RecordStep(
    s: State, p: Pid, a: Action, n: string, i: Ino, files: map<string, Bytes>, listed: seq<string>, owner: string)
    requires Inv(s) && Enabled(s, p, a) && !SwapsIn(s, p, n) && At(s, n, i, files, listed, owner) && !Collects(s, p, n)
    ensures At(Do(s, p, a), n, i, files, listed, owner) || At(Do(s, p, a), n, i, files, listed, AGENT)
  {
    StepTouches(s, p, a, n);
  }

  lemma {:induction false} RecordIsOldOrNew(
    s: State, steps: seq<Step>, t: State, n: string, i: Ino, files: map<string, Bytes>, listed: seq<string>, owner: string)
    requires Inv(s) && Run(s, steps, t) && NobodyRemoves(s, steps, t, n)
    requires At(s, n, i, files, listed, owner)
    ensures At(t, n, i, files, listed, owner) || At(t, n, i, files, listed, AGENT)
    decreases |steps|
  {
    if steps != [] {
      var p, a := steps[0].pid, steps[0].action;
      RecordStep(s, p, a, n, i, files, listed, owner);
      StepKeeps(s, p, a);
      var u := Do(s, p, a);
      if At(u, n, i, files, listed, owner) {
        RecordIsOldOrNew(u, steps[1..], t, n, i, files, listed, owner);
      } else {
        RecordIsOldOrNew(u, steps[1..], t, n, i, files, listed, AGENT);
      }
    }
  }

  /** Whatever adopts the directory, and wherever an adoption dies: the sentinel
      is the old one or the same listing under the agent's name, and the files
      stay, but for one with the name Adopt writes to. */
  lemma AdoptionIsAtomic(
    start: State, before: seq<Step>, s: State, after: seq<Step>, t: State, n: string)
    requires Init(start) && Run(start, before, s) && Run(s, after, t) && NobodyRemoves(s, after, t, n)
    requires Resource(n) in s.names && s.names[Resource(n)] in s.dirs && s.dirs[s.names[Resource(n)]].marker.Whole?
    ensures var i := s.names[Resource(n)];
      var d := s.dirs[i];
      && Resource(n) in t.names && t.names[Resource(n)] == i && i in t.dirs
      && (t.dirs[i].marker == d.marker || t.dirs[i].marker == Whole(d.marker.listed, AGENT))
      && SpareAside(d.files, t.dirs[i].files) && (Names.SPARE !in d.files ==> t.dirs[i].files == d.files)
  {
    var i := s.names[Resource(n)];
    var d := s.dirs[i];
    Reachable(start, before, s);
    RecordIsOldOrNew(s, after, t, n, i, d.files, d.marker.listed, d.marker.owner);
    assert Names.SPARE !in d.files ==> d.files - {Names.SPARE} == d.files;
  }

  /** No step of the run is an extraction's or an adoption's of n. */
  ghost predicate NobodyClaims(s: State, steps: seq<Step>, t: State, n: string)
    requires Run(s, steps, t)
    decreases |steps|
  {
    steps == [] ||
    (var p := steps[0].pid;
     && (p in s.procs ==> (s.procs[p].job.Write? ==> s.procs[p].job.name != n) && s.procs[p].job != Adopt(n))
     && NobodyClaims(Do(s, p, steps[0].action), steps[1..], t, n))
  }

  lemma {:induction false} SeededStaysFrom(s: State, steps: seq<Step>, t: State, n: string)
    requires Inv(s) && Run(s, steps, t) && NobodyClaims(s, steps, t, n)
    requires Resource(n) in s.names && s.names[Resource(n)] in s.dirs
    requires s.dirs[s.names[Resource(n)]].marker.Whole? && s.dirs[s.names[Resource(n)]].marker.owner != AGENT
    ensures Untouched(s, t, n)
    decreases |steps|
  {
    if steps != [] {
      StepTouches(s, steps[0].pid, steps[0].action, n);
      StepKeeps(s, steps[0].pid, steps[0].action);
      SeededStaysFrom(Do(s, steps[0].pid, steps[0].action), steps[1..], t, n);
    }
  }

  /** Over any run in which no extraction and no adoption of the resource takes a
      step, a directory whose sentinel names another writer stays exactly as it
      is, whatever collectors do and whoever dies. */
  lemma SeededStays(start: State, before: seq<Step>, s: State, after: seq<Step>, t: State, n: string)
    requires Init(start) && Run(start, before, s) && Run(s, after, t) && NobodyClaims(s, after, t, n)
    requires Resource(n) in s.names && s.names[Resource(n)] in s.dirs
    requires s.dirs[s.names[Resource(n)]].marker.Whole? && s.dirs[s.names[Resource(n)]].marker.owner != AGENT
    ensures var i := s.names[Resource(n)];
      Resource(n) in t.names && t.names[Resource(n)] == i && i in t.dirs && t.dirs[i] == s.dirs[i]
  {
    Reachable(start, before, s);
    SeededStaysFrom(s, after, t, n);
  }

  /** The rename publishes the resource complete, in one step. */
  lemma RenameCompletes(start: State, steps: seq<Step>, s: State, p: Pid)
    requires Init(start) && Run(start, steps, s) && Enabled(s, p, Rename)
    ensures var t, job := Do(s, p, Rename), s.procs[p].job;
      && StateOf(s, job.name) == Absent && StateOf(t, job.name) == Complete
      && t.dirs[t.names[Resource(job.name)]].files == AllFiles(job.image)
      && t.dirs[t.names[Resource(job.name)]].marker == Whole(NamesOf(job.image), job.owner)
  {
    Reachable(start, steps, s);
    RenamePublishes(s, p);
    var image := s.procs[p].job.image;
    forall f | f in NamesOf(image)
      ensures f in AllFiles(image)
    {
      var k :| 0 <= k < |image| && NamesOf(image)[k] == f;
      ListedInFiles(image, |image|, k);
    }
  }

  lemma NameIsGone(s: State, p: Pid)
    requires NamesOk(s) && p in s.procs && ProcOk(s, p)
    requires s.procs[p].phase.Owning? && s.procs[p].phase.ino in s.published
    ensures s.procs[p].phase.tmp !in s.names
  {
  }

  /** A GC or a sweep that opened the temporary before the swap can lock the
      published directory after it. It removes by name, so it removes nothing. */
  lemma LateCollectorIsHarmless(start: State, steps: seq<Step>, s: State, p: Pid)
    requires Init(start) && Run(start, steps, s) && p in s.procs
    requires s.procs[p].phase.Owning? && s.procs[p].phase.ino in s.published
    ensures Enabled(s, p, BeginRemove)
    ensures Do(s, p, BeginRemove).procs[p].phase == Letting(s.procs[p].phase.ino)
  {
    Reachable(start, steps, s);
    NameIsGone(s, p);
  }
}
