/** What each process that is left alone comes to, beside an extraction that
    succeeds: a collector and a GC remove what they are after, an extraction that
    fails cleans up, an adoption ends with the agent's sentinel. */
module ProtocolRemoval {
  import opened Basics
  import opened Protocol
  import opened ProtocolInvariant
  import opened ProtocolSafety
  import opened ProtocolProgress
  import Names

  lemma PutAgain(s: State, p: Pid, a: Phase, b: Phase)
    requires p in s.procs
    ensures Put(Put(s, p, a), p, b) == Put(s, p, b)
  {
  }

  lemma SoloOn(s: State, p: Pid, before: seq<Step>, u: State, a: Action) returns (steps: seq<Step>)
    requires Solo(s, p, before, u) && Enabled(u, p, a)
    ensures Solo(s, p, steps, Do(u, p, a))
  {
    SoloOne(u, p, a);
    steps := before + [Step(p, a)];
    SoloThen(s, p, before, u, [Step(p, a)], Do(u, p, a));
  }

  // ----- a collector -----

  /** The name leads nowhere, its directory is empty and counted as collected,
      and nothing else has changed. */
  function Swept(s: State, n: Name, i: Ino): State
    requires i in s.dirs
  {
    s.(names := s.names - {n},
       dirs := s.dirs[i := s.dirs[i].(files := map[], marker := NoMarker, spare := NoMarker)],
       collected := s.collected + {i})
  }

  /** It opens the directory and locks it, and RemoveAll finds it at its name. */
  lemma Locks(s: State, p: Pid, tmp: Name) returns (steps: seq<Step>)
    requires p in s.procs && s.procs[p] == Proc(Collect, Idle) && tmp.Temporary?
    requires tmp in s.names && s.names[tmp] !in s.locks
    ensures Solo(s, p, steps, Put(Take(s, p, s.names[tmp]), p, Emptying(tmp, s.names[tmp])))
  {
    var i := s.names[tmp];
    var u, v := Put(s, p, Seen(tmp, i)), Put(Take(s, p, i), p, Owning(tmp, i));
    PutAgain(Take(s, p, i), p, Seen(tmp, i), Owning(tmp, i));
    PutAgain(Take(s, p, i), p, Owning(tmp, i), Emptying(tmp, i));
    SoloOne(s, p, Open(tmp));
    steps := SoloOn(s, p, [Step(p, Open(tmp))], u, Flock);
    steps := SoloOn(s, p, steps, v, BeginRemove);
  }

  /** A collector that comes by a temporary nobody holds removes it. */
  lemma SweepsOne(s: State, p: Pid, tmp: Name) returns (steps: seq<Step>)
    requires p in s.procs && s.procs[p] == Proc(Collect, Idle) && tmp.Temporary?
    requires tmp in s.names && s.names[tmp] in s.dirs && s.names[tmp] !in s.locks
    ensures Solo(s, p, steps, Swept(s, tmp, s.names[tmp]))
  {
    var u := Put(Take(s, p, s.names[tmp]), p, Emptying(tmp, s.names[tmp]));
    var v := Removed(u, p);
    var a := Locks(s, p, tmp);
    var b := Removes(u, p);
    SweptIs(s, p, tmp, u, v);
    SoloThen(s, p, a, u, b, v);
    steps := SoloOn(s, p, a + b, v, Close);
  }

  lemma EmptiedIs(s: State, p: Pid, tmp: Name, u: State, v: State)
    requires p in s.procs && s.procs[p] == Proc(Collect, Idle) && tmp.Temporary?
    requires tmp in s.names && s.names[tmp] in s.dirs
    requires u == Put(Take(s, p, s.names[tmp]), p, Emptying(tmp, s.names[tmp])) && v == Removed(u, p)
    ensures v == Put(Take(Swept(s, tmp, s.names[tmp]), p, s.names[tmp]), p, Letting(s.names[tmp]))
  {
    PutAgain(s, p, Emptying(tmp, s.names[tmp]), Letting(s.names[tmp]));
  }

  lemma SweptIs(s: State, p: Pid, tmp: Name, u: State, v: State)
    requires p in s.procs && s.procs[p] == Proc(Collect, Idle) && tmp.Temporary?
    requires tmp in s.names && s.names[tmp] in s.dirs && s.names[tmp] !in s.locks
    requires u == Put(Take(s, p, s.names[tmp]), p, Emptying(tmp, s.names[tmp])) && v == Removed(u, p)
    ensures Enabled(v, p, Close) && Do(v, p, Close) == Swept(s, tmp, s.names[tmp])
  {
    var i := s.names[tmp];
    EmptiedIs(s, p, tmp, u, v);
    assert s.locks[i := p] - {i} == s.locks;
    assert s.procs[p := Proc(Collect, Letting(i))][p := Proc(Collect, Idle)] == s.procs;
  }

  /** From any state of any run: a leftover temporary is removed by any collector
      that comes by it, and nothing else is touched. */
  lemma LeftoverIsRemoved(start: State, before: seq<Step>, s: State, p: Pid, tmp: Name)
    returns (steps: seq<Step>, t: State)
    requires Init(start) && Run(start, before, s) && p in s.procs && s.procs[p] == Proc(Collect, Idle)
    requires tmp.Temporary? && tmp in s.names && s.names[tmp] !in s.locks
    ensures Solo(s, p, steps, t)
    ensures var i := s.names[tmp];
      && t.names == s.names - {tmp} && i in t.collected && t.procs == s.procs && t.locks == s.locks
      && (forall o :: o in s.dirs && o != i ==> o in t.dirs && t.dirs[o] == s.dirs[o])
  {
    Reachable(start, before, s);
    assert NameOk(s, tmp);
    steps := SweepsOne(s, p, tmp);
    t := Swept(s, tmp, s.names[tmp]);
  }

  /** A GC that comes by a directory without a sentinel, or with the agent's,
      and decides that no resource keeps it, removes it, and touches nothing else. */
  lemma OrphanIsRemoved(start: State, before: seq<Step>, s: State, p: Pid, n: string)
    returns (steps: seq<Step>, t: State)
    requires Init(start) && Run(start, before, s) && p in s.procs && s.procs[p] == Proc(Collect, Idle)
    requires Resource(n) in s.names && s.names[Resource(n)] in s.dirs
    requires var m := s.dirs[s.names[Resource(n)]].marker; m.Whole? ==> m.owner == AGENT
    ensures Solo(s, p, steps, t)
    ensures var i := s.names[Resource(n)];
      && t.names == s.names - {Resource(n)} && i in t.collected && t.procs == s.procs && t.locks == s.locks
      && (forall o :: o in s.dirs && o != i ==> o in t.dirs && t.dirs[o] == s.dirs[o])
  {
    var i := s.names[Resource(n)];
    var u := Put(s, p, Dropping(n, i));
    SoloOne(s, p, Drop(n));
    steps := Removes(u, p);
    t := Removed(u, p);
    SoloThen(s, p, [Step(p, Drop(n))], u, steps, t);
    steps := [Step(p, Drop(n))] + steps;
    assert s.procs[p := Proc(Collect, Dropping(n, i))][p := Proc(Collect, Idle)] == s.procs;
  }

  // ----- an extraction that loses its temporaries -----

  /** The writer creates a temporary, the collector removes it before it is
      locked, and the writer finds it gone. */
  lemma LosesOne(s: State, w: Pid, c: Pid) returns (steps: seq<Step>, t: State)
    requires w in s.procs && s.procs[w].job.Write? && s.procs[w].phase.Creating?
    requires c in s.procs && s.procs[c] == Proc(Collect, Idle)
    requires Temporary(s.procs[w].job.name, s.nextId) !in s.names && s.nextIno !in s.locks
    ensures Run(s, steps, t)
    ensures t.procs == s.procs[w := s.procs[w].(phase := AfterLoss(s.nextIno, s.procs[w].phase.losses))]
    ensures t.names == s.names && t.locks == s.locks && t.collected == s.collected + {s.nextIno}
    ensures t.nextIno == s.nextIno + 1 && t.nextId == s.nextId + 1
  {
    var tmp, i, l := Temporary(s.procs[w].job.name, s.nextId), s.nextIno, s.procs[w].phase.losses;
    var u := Do(s, w, Mkdir);
    SoloOne(s, w, Mkdir);
    var more := SweepsOne(u, c, tmp);
    var v := Swept(u, tmp, i);
    assert v.names == s.names;
    RunThen(s, [Step(w, Mkdir)], u, more, v);
    SoloOne(v, w, Open(tmp));
    t := Do(v, w, Open(tmp));
    RunThen(s, [Step(w, Mkdir)] + more, v, [Step(w, Open(tmp))], t);
    steps := [Step(w, Mkdir)] + more + [Step(w, Open(tmp))];
    PutAgain(s, w, Phase.Made(tmp, i, l), AfterLoss(i, l));
  }

  predicate AreNext(losses: seq<Ino>, i: Ino) {
    |losses| == 3 && losses[0] == i && losses[1] == i + 1 && losses[2] == i + 2
  }

  /** Three times in a row, and it gives up. */
  lemma LosesThree(s: State, w: Pid, c: Pid) returns (steps: seq<Step>, t: State)
    requires w != c && w in s.procs && s.procs[w].job.Write? && s.procs[w].phase == Creating([])
    requires c in s.procs && s.procs[c] == Proc(Collect, Idle)
    requires (forall n :: n in s.names && n.Temporary? ==> n.id < s.nextId) && s.locks == map[]
    ensures Run(s, steps, t) && t.names == s.names && w in t.procs && t.procs[w].job == s.procs[w].job
    ensures t.procs[w].phase.GaveUp? && AreNext(t.procs[w].phase.losses, s.nextIno)
    ensures t.collected == s.collected + {s.nextIno, s.nextIno + 1, s.nextIno + 2}
  {
    var x, u := LosesOne(s, w, c);
    var y, v := LosesOne(u, w, c);
    var z: seq<Step>;
    z, t := LosesOne(v, w, c);
    RunThen(s, x, u, y, v);
    RunThen(s, x + y, v, z, t);
    steps := x + y + z;
  }

  lemma SpawnTwo(start: State, job: Job) returns (steps: seq<Step>, u: State)
    requires Init(start) && job.Write?
    ensures Run(start, steps, u) && u.names == start.names && u.locks == map[] && u.collected == start.collected
    ensures u.nextIno == start.nextIno && u.nextId == start.nextId
    ensures 0 in u.procs && u.procs[0].job == job && u.procs[0].phase == Creating([])
    ensures 1 in u.procs && u.procs[1] == Proc(Collect, Idle)
  {
    var a := Do(start, 0, Spawn(job));
    u := Do(a, 1, Spawn(Collect));
    SoloOne(start, 0, Spawn(job));
    SoloOne(a, 1, Spawn(Collect));
    RunThen(start, [Step(0, Spawn(job))], a, [Step(1, Spawn(Collect))], u);
    steps := [Step(0, Spawn(job))] + [Step(1, Spawn(Collect))];
  }

  /** From any cache path there is a run in which createTemporary gives up, after
      a collector removed three directories it had made. */
  lemma ThreeLosses(start: State, job: Job) returns (steps: seq<Step>, s: State)
    requires Init(start) && job.Write?
    ensures Run(start, steps, s) && s.names == start.names && 0 in s.procs && s.procs[0].job == job
    ensures s.procs[0].phase.GaveUp?
    ensures AreNext(s.procs[0].phase.losses, start.nextIno)
    ensures s.collected == start.collected + {start.nextIno, start.nextIno + 1, start.nextIno + 2}
  {
    var a, u := SpawnTwo(start, job);
    steps, s := LosesThree(u, 0, 1);
    RunThen(start, a, u, steps, s);
    steps := a + steps;
  }

  // ----- an extraction that fails -----

  /** Between the creation of its temporary and the rename. */
  predicate AtWork(ph: Phase) {
    || ph.Made? || ph.Opened? || ph.Locked? || ph.Writing? || ph.Sealing? || ph.Sealed? || ph.Clearing? || ph.Cleared?
  }

  /** Its lock is closed, and p is about to remove its temporary. */
  function Undone(s: State, p: Pid): State
    requires p in s.procs && AtWork(s.procs[p].phase)
  {
    var ph := s.procs[p].phase;
    Put(if ph.Made? || ph.Opened? then s else Unlock(s, ph.ino), p, Undoing(ph.tmp, ph.ino))
  }

  lemma FailsFirst(s: State, p: Pid)
    requires p in s.procs && AtWork(s.procs[p].phase)
    ensures var ph := s.procs[p].phase;
      Solo(s, p, [Step(p, Fail)],
           Put(s, p, if ph.Made? || ph.Opened? then Undoing(ph.tmp, ph.ino) else Backing(ph.tmp, ph.ino)))
  {
    SoloOne(s, p, Fail);
  }

  lemma ClosesNext(s: State, p: Pid, tmp: Name, i: Ino)
    requires p in s.procs
    ensures Solo(Put(s, p, Backing(tmp, i)), p, [Step(p, Close)], Put(Unlock(s, i), p, Undoing(tmp, i)))
  {
    PutAgain(Unlock(s, i), p, Backing(tmp, i), Undoing(tmp, i));
    SoloOne(Put(s, p, Backing(tmp, i)), p, Close);
  }

  lemma Fails(s: State, p: Pid) returns (steps: seq<Step>)
    requires p in s.procs && AtWork(s.procs[p].phase)
    ensures Solo(s, p, steps, Undone(s, p)) && steps != [] && steps[0] == Step(p, Fail)
  {
    var ph := s.procs[p].phase;
    FailsFirst(s, p);
    steps := [Step(p, Fail)];
    if !ph.Made? && !ph.Opened? {
      ClosesNext(s, p, ph.tmp, ph.ino);
      SoloThen(s, p, steps, Put(s, p, Backing(ph.tmp, ph.ino)), [Step(p, Close)], Undone(s, p));
      steps := steps + [Step(p, Close)];
    }
  }

  lemma ErasesIt(s: State, p: Pid, tmp: Name, i: Ino) returns (steps: seq<Step>, t: State)
    requires p in s.procs && s.procs[p].phase == Undoing(tmp, i) && s.procs[p].job.Write?
    requires i in s.dirs && (tmp in s.names ==> s.names[tmp] == i)
    ensures Solo(s, p, steps, t)
    ensures t.names == s.names - {tmp} && t.procs == s.procs[p := s.procs[p].(phase := Finished)] && t.locks == s.locks
    ensures forall o :: o in s.dirs && o != i ==> o in t.dirs && t.dirs[o] == s.dirs[o]
  {
    SoloOne(s, p, BeginRemove);
    steps := [Step(p, BeginRemove)];
    if tmp in s.names {
      var v := Put(s, p, Erasing(tmp, i));
      PutAgain(s, p, Erasing(tmp, i), Finished);
      var more := Removes(v, p);
      t := Removed(v, p);
      SoloThen(s, p, steps, v, more, t);
      steps := steps + more;
    } else {
      t := Put(s, p, Finished);
    }
  }

  /** From any state of any run: when a call of an extraction fails, and its
      clean-up does not, its temporary is gone at the end and its lock is closed,
      and no other name or directory is touched. */
  lemma FailureCleansUp(start: State, before: seq<Step>, s: State, p: Pid) returns (steps: seq<Step>, t: State)
    requires Init(start) && Run(start, before, s) && p in s.procs && AtWork(s.procs[p].phase)
    ensures Solo(s, p, steps, t) && steps != [] && steps[0] == Step(p, Fail)
    ensures var ph := s.procs[p].phase;
      && t.names == s.names - {ph.tmp} && t.procs == s.procs[p := s.procs[p].(phase := Finished)]
      && t.locks == (if ph.Made? || ph.Opened? then s.locks else s.locks - {ph.ino})
      && (forall o :: o in s.dirs && o != ph.ino ==> o in t.dirs && t.dirs[o] == s.dirs[o])
  {
    var tmp, i := s.procs[p].phase.tmp, s.procs[p].phase.ino;
    BoundAtWork(start, before, s, p);
    var a := Fails(s, p);
    var u := Undone(s, p);
    var b: seq<Step>;
    b, t := ErasesIt(u, p, tmp, i);
    SoloThen(s, p, a, u, b, t);
    steps := a + b;
  }

  lemma BoundAtWork(start: State, before: seq<Step>, s: State, p: Pid)
    requires Init(start) && Run(start, before, s) && p in s.procs && AtWork(s.procs[p].phase)
    ensures s.procs[p].job.Write? && Bound(s, s.procs[p].phase.tmp, s.procs[p].phase.ino)
  {
    Reachable(start, before, s);
  }

  // ----- an adoption -----

  /** The directory while Adopt is at work on it. */
  function Sparing(s: State, p: Pid, spare: Marker, marker: Marker, ph: Phase): State
    requires p in s.procs && s.procs[p].job.Adopt?
    requires var n := Resource(s.procs[p].job.name); n in s.names && s.names[n] in s.dirs
  {
    var i := s.names[Resource(s.procs[p].job.name)];
    Put(SetDir(s, i, s.dirs[i].(files := s.dirs[i].files - {Names.SPARE}, spare := spare, marker := marker)), p, ph)
  }

  lemma Copies(s: State, p: Pid, i: Ino, listed: seq<string>, m: Marker)
    requires p in s.procs && s.procs[p].job.Adopt?
    requires var n := Resource(s.procs[p].job.name); n in s.names && s.names[n] == i && i in s.dirs
    requires m == s.dirs[i].marker
    ensures Solo(Put(s, p, Read(i, listed)), p, [Step(p, BeginSpare)], Sparing(s, p, Torn, m, Copying(i, listed)))
  {
    SoloOne(Put(s, p, Read(i, listed)), p, BeginSpare);
  }

  lemma Finishes(s: State, p: Pid, i: Ino, listed: seq<string>, m: Marker)
    requires p in s.procs && s.procs[p].job.Adopt?
    requires var n := Resource(s.procs[p].job.name); n in s.names && s.names[n] == i && i in s.dirs
    ensures Solo(Sparing(s, p, Torn, m, Copying(i, listed)), p, [Step(p, EndSpare)],
                 Sparing(s, p, Whole(listed, AGENT), m, Copied(i, listed)))
  {
    var u := Sparing(s, p, Torn, m, Copying(i, listed));
    assert u.dirs[i].files - {Names.SPARE} == u.dirs[i].files;
    PutAgain(SetDir(u, i, u.dirs[i].(spare := Whole(listed, AGENT))), p, Copying(i, listed), Copied(i, listed));
    SoloOne(u, p, EndSpare);
  }

  lemma TakesPlace(s: State, p: Pid, i: Ino, listed: seq<string>, m: Marker)
    requires p in s.procs && s.procs[p].job.Adopt?
    requires var n := Resource(s.procs[p].job.name); n in s.names && s.names[n] == i && i in s.dirs
    ensures Solo(Sparing(s, p, Whole(listed, AGENT), m, Copied(i, listed)), p, [Step(p, RenameSpare)],
                 Sparing(s, p, NoMarker, Whole(listed, AGENT), Finished))
  {
    SoloOne(Sparing(s, p, Whole(listed, AGENT), m, Copied(i, listed)), p, RenameSpare);
  }

  /** From any state of any run: an adoption that is left alone ends with the
      agent's name in the sentinel, its listing as it was, and no file gone but
      the one whose place it took. */
  lemma AdoptionCompletes(s: State, p: Pid) returns (steps: seq<Step>, t: State)
    requires p in s.procs && s.procs[p].job.Adopt? && s.procs[p].phase.Adopting?
    requires var n := Resource(s.procs[p].job.name);
      n in s.names && s.names[n] in s.dirs && s.dirs[s.names[n]].marker.Whole?
    ensures Solo(s, p, steps, t)
    ensures var i := s.names[Resource(s.procs[p].job.name)];
      && t.names == s.names && t.locks == s.locks && t.procs == s.procs[p := s.procs[p].(phase := Finished)]
      && t.dirs == s.dirs[i := s.dirs[i].(files := s.dirs[i].files - {Names.SPARE}, spare := NoMarker,
                                          marker := Whole(s.dirs[i].marker.listed, AGENT))]
  {
    var i := s.names[Resource(s.procs[p].job.name)];
    var m := s.dirs[i].marker;
    var l := m.listed;
    SoloOne(s, p, ReadMarker);
    Copies(s, p, i, l, m);
    Finishes(s, p, i, l, m);
    TakesPlace(s, p, i, l, m);
    var b, c := Sparing(s, p, Torn, m, Copying(i, l)), Sparing(s, p, Whole(l, AGENT), m, Copied(i, l));
    t := Sparing(s, p, NoMarker, Whole(l, AGENT), Finished);
    SoloThen(s, p, [Step(p, ReadMarker)], Put(s, p, Read(i, l)), [Step(p, BeginSpare)], b);
    steps := [Step(p, ReadMarker)] + [Step(p, BeginSpare)];
    SoloThen(s, p, steps, b, [Step(p, EndSpare)], c);
    SoloThen(s, p, steps + [Step(p, EndSpare)], c, [Step(p, RenameSpare)], t);
    steps := steps + [Step(p, EndSpare)] + [Step(p, RenameSpare)];
  }
}
