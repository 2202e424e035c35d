/** The store as a protocol: any number of processes write, collect and adopt
    under one cache path, one transition per system call, and any of them may
    die between two transitions.

    A process is the program of one call of the store. Inodes are never reused
    while the run lasts, the name of a temporary directory is never drawn twice,
    and `author` and `made` record which extraction created a directory, and where. */
module Protocol {
  import opened Basics
  import Names

  type Pid = nat
  type Ino = nat

  /** The entries of the cache path. Names.dfy shows that the two kinds of
      names never meet. */
  datatype Name = Resource(of: string) | Temporary(of: string, id: nat)

  /** The sentinel file, and the file Adopt renames over it. `Torn` is a file
      created and not written to its end. */
  datatype Marker = NoMarker | Torn | Whole(listed: seq<string>, owner: string)

  /** `spare` is what Adopt wrote under Names.SPARE. A file of the image may have
      that name too: the directory then has the one or the other. */
  datatype Folder = Folder(author: Option<Pid>, made: Name, files: map<string, Bytes>, marker: Marker, spare: Marker)

  datatype Child = OfFile(name: string) | OfMarker | OfSpare

  /** What a process was started for. */
  datatype Job =
    | Write(name: string, image: seq<Body>, owner: string)
    | Collect
    | Adopt(name: string)

  /** How far a process is. The first group is Extract, the second the removal
      of a temporary by GC or SweepTemporaries, then GC's removal of a
      resource's directory, then Adopt. `losses` are the temporaries Extract
      found gone before it could lock them. */
  datatype Phase =
    | Creating(losses: seq<Ino>)
    | Made(tmp: Name, ino: Ino, losses: seq<Ino>)
    | Opened(tmp: Name, ino: Ino, losses: seq<Ino>)
    | Locked(tmp: Name, ino: Ino, losses: seq<Ino>)
    | Writing(tmp: Name, ino: Ino, done: nat, part: Option<nat>)
    | Sealing(tmp: Name, ino: Ino)
    | Sealed(tmp: Name, ino: Ino)
    | Clearing(tmp: Name, ino: Ino, prior: Ino)
    | Cleared(tmp: Name, ino: Ino)
    | Swapped(ino: Ino)
    | Backing(tmp: Name, ino: Ino)
    | Undoing(tmp: Name, ino: Ino)
    | Erasing(tmp: Name, ino: Ino)
    | Finished
    | GaveUp(losses: seq<Ino>)
    | Idle
    | Seen(tmp: Name, ino: Ino)
    | Owning(tmp: Name, ino: Ino)
    | Emptying(tmp: Name, ino: Ino)
    | Letting(ino: Ino)
    | Dropping(name: string, ino: Ino)
    | Adopting
    | Read(ino: Ino, listed: seq<string>)
    | Copying(ino: Ino, listed: seq<string>)
    | Copied(ino: Ino, listed: seq<string>)
    | Withdrawing(ino: Ino, listed: seq<string>)
    | Dead

  datatype Proc = Proc(job: Job, phase: Phase)

  /** `published` are the inodes that have been at a resource's name, with that
      resource, and `collected` those whose name a GC or a sweep removed. */
  datatype State = State(
    names: map<Name, Ino>,
    dirs: map<Ino, Folder>,
    locks: map<Ino, Pid>,
    procs: map<Pid, Proc>,
    published: map<Ino, string>,
    collected: set<Ino>,
    nextIno: nat,
    nextId: nat)

  /** One system call of one process, or its death. */
  datatype Action =
    | Spawn(job: Job)
    | Crash
    | Fail            // the system call, the stream or the context fails
    | Mkdir
    | Open(name: Name)
    | Flock
    | Recheck
    | Create
    | Append(upto: nat)
    | CloseFile
    | BeginMarker
    | EndMarker
    | BeginRemove     // RemoveAll opens the directory
    | Unlink(child: Child)
    | Rmdir
    | Rename
    | Close
    | Drop(of: string) // GC reads the sentinel, and RemoveAll opens the directory
    | ReadMarker
    | BeginSpare
    | EndSpare
    | RenameSpare
    | RemoveSpare     // after a rename that failed

  /** The steps of Adopt on the directory. */
  predicate OfAdopt(a: Action) {
    a.BeginSpare? || a.EndSpare? || a.RenameSpare? || a.RemoveSpare?
  }

  // ----- what a directory holds -----

  predicate Holds(d: Folder, c: Child) {
    match c
    case OfFile(f) => f in d.files
    case OfMarker => d.marker != NoMarker
    case OfSpare => d.spare != NoMarker
  }

  function Without(d: Folder, c: Child): Folder {
    match c
    case OfFile(f) => d.(files := d.files - {f})
    case OfMarker => d.(marker := NoMarker)
    case OfSpare => d.(spare := NoMarker)
  }

  /** A stat of the name in the directory succeeds. */
  predicate Finds(d: Folder, f: string) {
    f in d.files || (f == Names.SPARE && d.spare != NoMarker)
  }

  predicate Empty(d: Folder) {
    d.files == map[] && d.marker == NoMarker && d.spare == NoMarker
  }

  // ----- who holds and claims what -----

  /** The inode a process holds the lock of. */
  function Held(ph: Phase): Option<Ino> {
    match ph
    case Locked(_, i, _) => Some(i)
    case Writing(_, i, _, _) => Some(i)
    case Sealing(_, i) => Some(i)
    case Sealed(_, i) => Some(i)
    case Clearing(_, i, _) => Some(i)
    case Cleared(_, i) => Some(i)
    case Swapped(i) => Some(i)
    case Backing(_, i) => Some(i)
    case Owning(_, i) => Some(i)
    case Emptying(_, i) => Some(i)
    case Letting(i) => Some(i)
    case _ => None
  }

  /** The directory a process is removing, and the name it removes last. */
  function Target(p: Proc): Option<(Name, Ino)> {
    match p.phase
    case Clearing(_, _, i) => if p.job.Write? then Some((Resource(p.job.name), i)) else None
    case Erasing(tmp, i) => Some((tmp, i))
    case Emptying(tmp, i) => Some((tmp, i))
    case Dropping(n, i) => Some((Resource(n), i))
    case _ => None
  }

  predicate Live(p: Proc) {
    !(p.phase.Finished? || p.phase.GaveUp? || p.phase.Dead?)
  }

  predicate Claims(p: Proc, n: string) {
    Live(p) && ((p.job.Write? && p.job.name == n) || (p.job.Adopt? && p.job.name == n))
  }

  // ----- the steps -----

  predicate Enabled(s: State, p: Pid, a: Action) {
    if a.Spawn? then
      p !in s.procs
      // One writer per resource name at a time.
      && (a.job.Collect? || forall q :: q in s.procs ==> !Claims(s.procs[q], a.job.name))
    else
      p in s.procs && Live(s.procs[p]) &&
      var job, ph := s.procs[p].job, s.procs[p].phase;
      match a
      case Crash => true
      case Fail => !ph.Idle?
      case Mkdir => ph.Creating? && job.Write?
      case Open(n) => (ph.Made? && n == ph.tmp) || (ph.Idle? && n.Temporary? && n in s.names)
      case Flock => (ph.Opened? && ph.ino !in s.locks) || ph.Seen?
      case Recheck => ph.Locked?
      case Create =>
        ph.Writing? && ph.part.None? && job.Write? && ph.done < |job.image|
        && ph.ino in s.dirs && job.image[ph.done].name !in s.dirs[ph.ino].files
      case Append(upto) =>
        ph.Writing? && ph.part.Some? && job.Write? && ph.done < |job.image| && ph.ino in s.dirs
        && ph.part.value <= upto <= |job.image[ph.done].bytes|
      case CloseFile =>
        ph.Writing? && job.Write? && ph.done < |job.image| && ph.part == Some(|job.image[ph.done].bytes|)
      // A stream without a single file ends in failure.
      case BeginMarker =>
        ph.Writing? && job.Write? && job.image != [] && ph.done == |job.image| && ph.part.None? && ph.ino in s.dirs
      case EndMarker => ph.Sealing? && job.Write? && ph.ino in s.dirs
      case BeginRemove =>
        (ph.Sealed? && job.Write? && Replaceable(s, job.name, job.owner)) || ph.Undoing? || ph.Owning?
      case Unlink(c) =>
        var t := Target(s.procs[p]);
        t.Some? && t.value.1 in s.dirs && Holds(s.dirs[t.value.1], c)
      case Rmdir => Target(s.procs[p]).Some?
      case Rename => ph.Cleared? && job.Write? && ph.tmp in s.names && Resource(job.name) !in s.names
      case Close => ph.Swapped? || ph.Backing? || ph.Letting?
      case Drop(n) => ph.Idle? && Resource(n) in s.names && s.names[Resource(n)] in s.dirs
        // Another writer's directory stays.
        && (s.dirs[s.names[Resource(n)]].marker.Whole? ==> s.dirs[s.names[Resource(n)]].marker.owner == AGENT)
      case ReadMarker => ph.Adopting? && job.Adopt? && Resource(job.name) in s.names
        && s.names[Resource(job.name)] in s.dirs && s.dirs[s.names[Resource(job.name)]].marker.Whole?
      case BeginSpare => ph.Read? && job.Adopt?
      case EndSpare => ph.Copying? && job.Adopt?
      case RenameSpare => ph.Copied? && job.Adopt?
      case RemoveSpare => ph.Withdrawing? && job.Adopt?
      case Spawn(_) => false
  }

  /** What Extract checks again at the swap. */
  predicate Replaceable(s: State, n: string, owner: string) {
    Resource(n) in s.names && s.names[Resource(n)] in s.dirs ==>
      owner == AGENT || s.dirs[s.names[Resource(n)]].marker != NoMarker
  }

  function Put(s: State, p: Pid, ph: Phase): State
    requires p in s.procs
  {
    s.(procs := s.procs[p := s.procs[p].(phase := ph)])
  }

  /** Where a process goes when a call of it fails. */
  function AfterFailure(ph: Phase): Phase {
    match ph
    case Creating(_) => Finished
    case Made(t, i, _) => Undoing(t, i)
    case Opened(t, i, _) => Undoing(t, i)
    case Locked(t, i, _) => Backing(t, i)
    case Writing(t, i, _, _) => Backing(t, i)
    case Sealing(t, i) => Backing(t, i)
    case Sealed(t, i) => Backing(t, i)
    case Clearing(t, i, _) => Backing(t, i)
    case Cleared(t, i) => Backing(t, i)
    case Swapped(i) => Swapped(i)
    case Backing(t, i) => Backing(t, i)
    case Undoing(_, _) => Finished
    case Erasing(_, _) => Finished
    case Seen(_, _) => Idle
    case Owning(_, i) => Letting(i)
    case Emptying(_, i) => Letting(i)
    case Letting(i) => Letting(i)
    case Dropping(_, _) => Idle
    case Adopting => Finished
    case Read(_, _) => Finished
    case Copying(_, _) => Finished
    case Copied(i, l) => Withdrawing(i, l)
    case Withdrawing(_, _) => Finished
    case _ => ph
  }

  /** A temporary was gone when Extract came to lock it. */
  function AfterLoss(ino: Ino, losses: seq<Ino>): Phase {
    if |losses| + 1 < TRIES then Creating(losses + [ino]) else GaveUp(losses + [ino])
  }

  function Start(job: Job): Phase {
    match job
    case Write(_, _, _) => Creating([])
    case Collect => Idle
    case Adopt(_) => Adopting
  }

  function Unlock(s: State, i: Ino): State {
    s.(locks := s.locks - {i})
  }

  function SetDir(s: State, i: Ino, d: Folder): State {
    s.(dirs := s.dirs[i := d])
  }

  function DoCrash(s: State, p: Pid): State
    requires p in s.procs
  {
    var i := Held(s.procs[p].phase);
    Put(if i.Some? then Unlock(s, i.value) else s, p, Dead)
  }

  function DoMkdir(s: State, p: Pid): State
    requires p in s.procs && s.procs[p].phase.Creating? && s.procs[p].job.Write?
  {
    var tmp, i := Temporary(s.procs[p].job.name, s.nextId), s.nextIno;
    Put(s.(names := s.names[tmp := i], dirs := s.dirs[i := Folder(Some(p), tmp, map[], NoMarker, NoMarker)],
           nextIno := i + 1, nextId := s.nextId + 1), p, Made(tmp, i, s.procs[p].phase.losses))
  }

  /** Extract opens the temporary it made, GC or a sweep one it listed. */
  function DoOpen(s: State, p: Pid, n: Name): State
    requires p in s.procs && (s.procs[p].phase.Made? || n in s.names)
  {
    var ph := s.procs[p].phase;
    if !ph.Made? then Put(s, p, Seen(n, s.names[n]))
    else if n in s.names then Put(s, p, Opened(ph.tmp, ph.ino, ph.losses))
    else Put(s, p, AfterLoss(ph.ino, ph.losses))
  }

  function Take(s: State, p: Pid, i: Ino): State {
    s.(locks := s.locks[i := p])
  }

  /** Extract waits for the lock, a removal gives up when it is held. */
  function DoFlock(s: State, p: Pid): State
    requires p in s.procs && (s.procs[p].phase.Opened? || s.procs[p].phase.Seen?)
  {
    var ph := s.procs[p].phase;
    if ph.Opened? then Put(Take(s, p, ph.ino), p, Locked(ph.tmp, ph.ino, ph.losses))
    else if ph.ino in s.locks then Put(s, p, Idle)
    else Put(Take(s, p, ph.ino), p, Owning(ph.tmp, ph.ino))
  }

  function DoRecheck(s: State, p: Pid): State
    requires p in s.procs && s.procs[p].phase.Locked?
  {
    var ph := s.procs[p].phase;
    if ph.tmp in s.names then Put(s, p, Writing(ph.tmp, ph.ino, 0, None))
    else Put(Unlock(s, ph.ino), p, AfterLoss(ph.ino, ph.losses))
  }

  /** RemoveAll opens what is at the name now: the inode that was opened for
      the lock may have left that name since. */
  function DoBeginRemove(s: State, p: Pid): State
    requires p in s.procs && (s.procs[p].phase.Sealed? || s.procs[p].phase.Undoing? || s.procs[p].phase.Owning?)
    requires s.procs[p].phase.Sealed? ==> s.procs[p].job.Write?
  {
    var ph := s.procs[p].phase;
    Put(s, p,
        if ph.Sealed? then
          var n := Resource(s.procs[p].job.name);
          if n in s.names then Clearing(ph.tmp, ph.ino, s.names[n]) else Cleared(ph.tmp, ph.ino)
        else if ph.Undoing? then
          if ph.tmp in s.names then Erasing(ph.tmp, s.names[ph.tmp]) else Finished
        else
          if ph.tmp in s.names then Emptying(ph.tmp, s.names[ph.tmp]) else Letting(ph.ino))
  }

  function DoUnlink(s: State, p: Pid, c: Child): State
    requires p in s.procs && Target(s.procs[p]).Some? && Target(s.procs[p]).value.1 in s.dirs
  {
    var i := Target(s.procs[p]).value.1;
    SetDir(s, i, Without(s.dirs[i], c))
  }

  function AfterRmdir(ph: Phase): Phase {
    match ph
    case Clearing(tmp, i, _) => Cleared(tmp, i)
    case Emptying(_, i) => Letting(i)
    case Erasing(_, _) => Finished
    case _ => Idle
  }

  /** The name n leads nowhere any more. A collector counts what it removed. */
  function Unname(s: State, p: Pid, n: Name): State
    requires p in s.procs && n in s.names
  {
    s.(names := s.names - {n},
       collected := if s.procs[p].job.Collect? then s.collected + {s.names[n]} else s.collected)
  }

  /** The directory goes by its name, and only when it is empty. */
  function DoRmdir(s: State, p: Pid): State
    requires p in s.procs && Target(s.procs[p]).Some?
  {
    var ph, n := s.procs[p].phase, Target(s.procs[p]).value.0;
    if n !in s.names then Put(s, p, AfterRmdir(ph))
    else if s.names[n] in s.dirs && !Empty(s.dirs[s.names[n]]) then Put(s, p, AfterFailure(ph))
    else Put(Unname(s, p, n), p, AfterRmdir(ph))
  }

  function DoRename(s: State, p: Pid): State
    requires p in s.procs && s.procs[p].phase.Cleared? && s.procs[p].job.Write?
    requires s.procs[p].phase.tmp in s.names
  {
    var tmp := s.procs[p].phase.tmp;
    var i := s.names[tmp];
    Put(s.(names := (s.names - {tmp})[Resource(s.procs[p].job.name) := i],
           published := s.published[i := s.procs[p].job.name]), p,
        Swapped(i))
  }

  /** The lock goes with the descriptor. A failed Extract closes it before it
      removes its temporary. */
  function DoClose(s: State, p: Pid): State
    requires p in s.procs && (s.procs[p].phase.Swapped? || s.procs[p].phase.Backing? || s.procs[p].phase.Letting?)
  {
    var ph := s.procs[p].phase;
    Put(Unlock(s, ph.ino), p,
        match ph
        case Swapped(_) => Finished
        case Backing(tmp, i) => Undoing(tmp, i)
        case _ => Idle)
  }

  function DoRenameSpare(s: State, p: Pid): State
    requires p in s.procs && s.procs[p].job.Adopt?
  {
    var n := Resource(s.procs[p].job.name);
    if n in s.names && s.names[n] in s.dirs && s.dirs[s.names[n]].spare != NoMarker then
      var d := s.dirs[s.names[n]];
      Put(SetDir(s, s.names[n], d.(marker := d.spare, spare := NoMarker)), p, Finished)
    else Put(s, p, Finished)
  }

  /** The file after the first `done` holds its first `upto` bytes. */
  function WriteFile(s: State, p: Pid, ph: Phase, upto: nat): State
    requires p in s.procs && ph.Writing? && s.procs[p].job.Write? && ph.done < |s.procs[p].job.image|
    requires upto <= |s.procs[p].job.image[ph.done].bytes| && ph.ino in s.dirs
  {
    var d, b := s.dirs[ph.ino], s.procs[p].job.image[ph.done];
    Put(SetDir(s, ph.ino, d.(files := d.files[b.name := b.bytes[..upto]])), p,
        Writing(ph.tmp, ph.ino, ph.done, Some(upto)))
  }

  function WriteMarker(s: State, i: Ino, m: Marker): State
    requires i in s.dirs
  {
    SetDir(s, i, s.dirs[i].(marker := m))
  }

  /** Adopt writes the file it is going to rename, or removes it, wherever the
      name leads. It takes the place of any file there. */
  function AdoptStep(s: State, p: Pid, m: Marker, ph: Phase): State
    requires p in s.procs && s.procs[p].job.Adopt?
  {
    var n := Resource(s.procs[p].job.name);
    if n in s.names && s.names[n] in s.dirs then
      var d := s.dirs[s.names[n]];
      Put(SetDir(s, s.names[n], d.(files := d.files - {Names.SPARE}, spare := m)), p, ph)
    else Put(s, p, Finished)
  }

  /** The state after process p does a. */
  function Do(s: State, p: Pid, a: Action): State
    requires Enabled(s, p, a)
  {
    if a.Spawn? then s.(procs := s.procs[p := Proc(a.job, Start(a.job))])
    else
      var job, ph := s.procs[p].job, s.procs[p].phase;
      match a
      case Crash => DoCrash(s, p)
      case Fail => Put(s, p, AfterFailure(ph))
      case Mkdir => DoMkdir(s, p)
      case Open(n) => DoOpen(s, p, n)
      case Flock => DoFlock(s, p)
      case Recheck => DoRecheck(s, p)
      case Create => WriteFile(s, p, ph, 0)
      case Append(upto) => WriteFile(s, p, ph, upto)
      case CloseFile => Put(s, p, Writing(ph.tmp, ph.ino, ph.done + 1, None))
      case BeginMarker => Put(WriteMarker(s, ph.ino, Torn), p, Sealing(ph.tmp, ph.ino))
      case EndMarker =>
        Put(WriteMarker(s, ph.ino, Whole(NamesOf(job.image), job.owner)), p, Sealed(ph.tmp, ph.ino))
      case BeginRemove => DoBeginRemove(s, p)
      case Unlink(c) => DoUnlink(s, p, c)
      case Rmdir => DoRmdir(s, p)
      case Rename => DoRename(s, p)
      case Close => DoClose(s, p)
      case Drop(n) => Put(s, p, Dropping(n, s.names[Resource(n)]))
      case ReadMarker =>
        var i := s.names[Resource(job.name)];
        Put(s, p, Read(i, s.dirs[i].marker.listed))
      case BeginSpare => AdoptStep(s, p, Torn, Copying(ph.ino, ph.listed))
      case EndSpare => AdoptStep(s, p, Whole(ph.listed, AGENT), Copied(ph.ino, ph.listed))
      case RenameSpare => DoRenameSpare(s, p)
      case RemoveSpare => AdoptStep(s, p, NoMarker, Finished)
      case Spawn(_) => s
  }

  // ----- runs -----

  /** Any cache path to start from, with nobody at work: resource directories
      and leftover temporaries that none of the extractions below wrote. */
  predicate Init(s: State) {
    && s.procs == map[] && s.locks == map[]
    && (forall n :: n in s.names ==> s.names[n] in s.dirs)
    && (forall n :: n in s.names && n.Temporary? ==> n.id < s.nextId && s.dirs[s.names[n]].made == n)
    && (forall n :: n in s.names && n.Resource? ==> s.names[n] in s.published && s.published[s.names[n]] == n.of)
    && (forall n :: n in s.names && n.Temporary? ==> s.names[n] !in s.published)
    && (forall i :: i in s.dirs ==> i < s.nextIno && s.dirs[i].author.None?)
    && (forall i :: i in s.published ==> i in s.dirs)
  }

  datatype Step = Step(pid: Pid, action: Action)

  /** The steps, one after the other, are each enabled and lead from s to t. */
  ghost predicate Run(s: State, steps: seq<Step>, t: State)
    decreases |steps|
  {
    if steps == [] then s == t
    else Enabled(s, steps[0].pid, steps[0].action)
         && Run(Do(s, steps[0].pid, steps[0].action), steps[1..], t)
  }

  // ----- what State answers -----

  datatype Answer = Absent | Incomplete | Complete

  /** State without the content check, which only ever answers Complete less
      often. */
  function StateOf(s: State, n: string): Answer {
    if Resource(n) !in s.names || s.names[Resource(n)] !in s.dirs then Absent
    else
      var d := s.dirs[s.names[Resource(n)]];
      if d.marker.Whole? && (forall f :: f in d.marker.listed ==> Finds(d, f)) then Complete
      else Incomplete
  }
}
