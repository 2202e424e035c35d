/** What every step of the store's protocol keeps. */
module ProtocolInvariant {
  import opened Basics
  import opened Protocol
  import Names

  /** A temporary name leads to the directory made under it, a resource's to
      one published there. */
  predicate NameOk(s: State, n: Name)
    requires n in s.names
  {
    var i := s.names[n];
    i in s.dirs &&
    match n
    case Resource(r) => i in s.published && s.published[i] == r
    case Temporary(_, id) => id < s.nextId && i !in s.published && s.dirs[i].made == n
  }

  ghost predicate NamesOk(s: State) {
    && (forall n :: n in s.names ==> NameOk(s, n))
    && (forall i :: i in s.dirs ==> i < s.nextIno)
    && (forall i :: i in s.published ==> i in s.dirs)
  }

  /** A lock is held by exactly the process that is past taking it. */
  ghost predicate LocksOk(s: State) {
    && (forall i :: i in s.locks ==>
          i in s.dirs && s.locks[i] in s.procs && Held(s.procs[s.locks[i]].phase) == Some(i))
    && (forall p :: p in s.procs && Held(s.procs[p].phase).Some? ==>
          var i := Held(s.procs[p].phase).value; i in s.locks && s.locks[i] == p)
  }

  ghost predicate ClaimsOk(s: State) {
    forall p, q, n :: p in s.procs && q in s.procs && Claims(s.procs[p], n) && Claims(s.procs[q], n) ==> p == q
  }

  /** tmp is the inode's name as long as it is a name at all. */
  ghost predicate Bound(s: State, tmp: Name, i: Ino) {
    tmp.Temporary? && tmp.id < s.nextId && i in s.dirs && (tmp in s.names ==> s.names[tmp] == i)
  }

  /** Different directories, each removed by a GC or a sweep. */
  ghost predicate LossesOk(s: State, losses: seq<Ino>) {
    && (forall k :: 0 <= k < |losses| ==> losses[k] in s.collected && losses[k] in s.dirs)
    && (forall j, k :: 0 <= j < k < |losses| ==> losses[j] != losses[k])
  }

  /** A finished directory whose sentinel does not name the agent. */
  predicate Foreign(d: Folder) {
    d.marker.Whole? && d.marker.owner != AGENT
  }

  /** The directory a process made and has not published: nobody else has it. */
  ghost predicate OwnTemporary(s: State, p: Pid, tmp: Name, i: Ino)
    requires p in s.procs
  {
    && Bound(s, tmp, i) && i !in s.published
    && s.procs[p].job.Write? && s.dirs[i].author == Some(p) && s.dirs[i].made == tmp
  }

  function Draft(p: Pid, tmp: Name, files: map<string, Bytes>, m: Marker): Folder {
    Folder(Some(p), tmp, files, m, NoMarker)
  }

  /** No name comes twice in the first `done` files. */
  predicate New(image: seq<Body>, done: nat) {
    done <= |image| && forall j, k :: 0 <= j < k < done ==> image[j].name != image[k].name
  }

  /** An image the store publishes. */
  predicate Fit(image: seq<Body>) {
    image != [] && New(image, |image|)
  }

  predicate Half(image: seq<Body>, done: nat, part: nat) {
    done < |image| && part <= |image[done].bytes|
  }

  /** On disk while the file after the first `done` is being written. */
  function HalfFiles(image: seq<Body>, done: nat, part: nat): map<string, Bytes>
    requires Half(image, done, part)
  {
    FilesOf(image, done)[image[done].name := image[done].bytes[..part]]
  }

  /** A whole replacement with its sentinel, under a temporary name. */
  ghost predicate Ready(s: State, p: Pid, t: Name, i: Ino)
    requires p in s.procs
  {
    && OwnTemporary(s, p, t, i) && t in s.names && Fit(s.procs[p].job.image)
    && s.dirs[i] == Draft(p, t, AllFiles(s.procs[p].job.image), Whole(NamesOf(s.procs[p].job.image), s.procs[p].job.owner))
  }

  /** A listing of what i's extraction wrote, if it was one. */
  ghost predicate Lists(s: State, i: Ino, listed: seq<string>) {
    i in s.dirs && s.dirs[i].author.Some? ==>
      var p := s.dirs[i].author.value;
      p in s.procs && s.procs[p].job.Write? && listed == NamesOf(s.procs[p].job.image)
  }

  /** While Adopt runs, the name keeps leading to the directory it read. */
  ghost predicate AdopterAt(s: State, p: Pid, i: Ino, listed: seq<string>)
    requires p in s.procs && NamesOk(s)
  {
    && s.procs[p].job.Adopt? && i in s.published && s.published[i] == s.procs[p].job.name && Lists(s, i, listed)
    && (Resource(s.procs[p].job.name) in s.names ==> s.names[Resource(s.procs[p].job.name)] == i)
    && (s.dirs[i].marker == NoMarker || (s.dirs[i].marker.Whole? && s.dirs[i].marker.listed == listed))
  }

  /** What a process may rely on where it is. */
  ghost predicate ProcOk(s: State, p: Pid)
    requires p in s.procs && NamesOk(s)
  {
    var job, ph := s.procs[p].job, s.procs[p].phase;
    match ph
    case Creating(l) => job.Write? && LossesOk(s, l) && |l| < TRIES
    case Made(t, i, l) => OwnTemporary(s, p, t, i) && s.dirs[i] == Draft(p, t, map[], NoMarker)
      && LossesOk(s, l) && i !in l && |l| < TRIES && (t !in s.names ==> i in s.collected)
    case Opened(t, i, l) => OwnTemporary(s, p, t, i) && s.dirs[i] == Draft(p, t, map[], NoMarker)
      && LossesOk(s, l) && i !in l && |l| < TRIES && (t !in s.names ==> i in s.collected)
    case Locked(t, i, l) => OwnTemporary(s, p, t, i) && s.dirs[i] == Draft(p, t, map[], NoMarker)
      && LossesOk(s, l) && i !in l && |l| < TRIES && (t !in s.names ==> i in s.collected)
    case Writing(t, i, done, part) => OwnTemporary(s, p, t, i) && t in s.names && done <= |job.image|
      && (part.None? ==> s.dirs[i] == Draft(p, t, FilesOf(job.image, done), NoMarker) && New(job.image, done))
      && (part.Some? ==> Half(job.image, done, part.value) && New(job.image, done + 1)
                         && s.dirs[i] == Draft(p, t, HalfFiles(job.image, done, part.value), NoMarker))
    case Sealing(t, i) => OwnTemporary(s, p, t, i) && t in s.names
      && s.dirs[i] == Draft(p, t, AllFiles(job.image), Torn) && Fit(job.image)
    case Sealed(t, i) => Ready(s, p, t, i)
    case Clearing(t, i, o) => Ready(s, p, t, i) && o in s.published && s.published[o] == job.name
    case Cleared(t, i) => Ready(s, p, t, i)
    case Swapped(i) => job.Write? && i in s.published
    case Backing(t, i) => OwnTemporary(s, p, t, i)
    case Undoing(t, i) => OwnTemporary(s, p, t, i)
    case Erasing(t, i) => OwnTemporary(s, p, t, i)
    case GaveUp(l) => job.Write? && |l| == TRIES && LossesOk(s, l)
    case Idle => job.Collect?
    case Seen(t, i) => job.Collect? && Bound(s, t, i)
    case Owning(t, i) => job.Collect? && Bound(s, t, i)
    case Emptying(t, i) => job.Collect? && Bound(s, t, i) && i !in s.published
    case Letting(i) => job.Collect?
    case Dropping(n, i) => job.Collect? && i in s.published && s.published[i] == n && !Foreign(s.dirs[i])
    case Adopting => job.Adopt?
    case Read(i, l) => AdopterAt(s, p, i, l)
    case Copying(i, l) => AdopterAt(s, p, i, l)
    case Copied(i, l) => AdopterAt(s, p, i, l)
      && (s.dirs[i].spare == NoMarker || s.dirs[i].spare == Whole(l, AGENT))
    case Withdrawing(i, l) => AdopterAt(s, p, i, l)
    case _ => true
  }

  /** The files of one extraction, each whole, and the sentinel that lists them
      all or none: some may have been removed since. */
  ghost predicate FromOne(d: Folder, image: seq<Body>) {
    && Fit(image)
    && (forall f :: f in d.files ==> f in AllFiles(image) && d.files[f] == AllFiles(image)[f])
    && (d.spare != NoMarker ==> Names.SPARE !in d.files)
    && (d.marker == NoMarker || (d.marker.Whole? && d.marker.listed == NamesOf(image)))
  }

  ghost predicate PublishedOk(s: State)
    requires NamesOk(s)
  {
    forall i :: i in s.published && s.dirs[i].author.Some? ==>
      var p := s.dirs[i].author.value;
      && p in s.procs && s.procs[p].job.Write? && s.procs[p].job.name == s.published[i]
      && FromOne(s.dirs[i], s.procs[p].job.image)
  }

  ghost predicate ProcsOk(s: State)
    requires NamesOk(s)
  {
    forall p :: p in s.procs ==> ProcOk(s, p)
  }

  ghost predicate Inv(s: State) {
    NamesOk(s) && LocksOk(s) && ClaimsOk(s) && PublishedOk(s) && ProcsOk(s)
  }

  lemma InitKeeps(s: State)
    requires Init(s)
    ensures Inv(s)
  {
  }

  // ----- what one process's step leaves to the others -----

  /** The inode a process is the only one to write to. */
  function Own(ph: Phase): Option<Ino> {
    match ph
    case Made(_, i, _) => Some(i)
    case Opened(_, i, _) => Some(i)
    case Locked(_, i, _) => Some(i)
    case Writing(_, i, _, _) => Some(i)
    case Sealing(_, i) => Some(i)
    case Sealed(_, i) => Some(i)
    case Clearing(_, i, _) => Some(i)
    case Cleared(_, i) => Some(i)
    case _ => None
  }

  /** Where Extract keeps a directory that must stay at its name. */
  function Kept(ph: Phase): Option<Name> {
    match ph
    case Writing(t, _, _, _) => Some(t)
    case Sealing(t, _) => Some(t)
    case Sealed(t, _) => Some(t)
    case Clearing(t, _, _) => Some(t)
    case Cleared(t, _) => Some(t)
    case _ => None
  }

  /** What nobody ever undoes. */
  ghost predicate Grows(s: State, t: State) {
    && (forall q :: q in s.procs ==> q in t.procs && t.procs[q].job == s.procs[q].job)
    && s.nextId <= t.nextId
    && (forall i :: i in s.dirs ==> i in t.dirs && t.dirs[i].author == s.dirs[i].author && t.dirs[i].made == s.dirs[i].made)
    && (forall i :: i in s.published ==> i in t.published && t.published[i] == s.published[i])
    && s.collected <= t.collected
    && (forall n :: n in t.names && n.Temporary? && n.id < s.nextId ==> n in s.names && t.names[n] == s.names[n])
  }

  /** What q made is as q left it. */
  ghost predicate LeavesOwn(s: State, t: State, q: Pid)
    requires q in s.procs && NamesOk(s) && NamesOk(t) && Grows(s, t)
  {
    var ph := s.procs[q].phase;
    && (forall i :: i in s.dirs && s.dirs[i].author == Some(q) && i !in s.published ==> i !in t.published)
    && (Own(ph).Some? && Own(ph).value in s.dirs ==>
          Own(ph).value in t.dirs && t.dirs[Own(ph).value] == s.dirs[Own(ph).value])
    && (Kept(ph).Some? && Kept(ph).value in s.names ==> Kept(ph).value in t.names)
    && (ph.Made? || ph.Opened? || ph.Locked? ==> ph.tmp in s.names && ph.tmp !in t.names ==> ph.ino in t.collected)
  }

  /** What q came upon is still what q found, or gone. */
  ghost predicate LeavesFound(s: State, t: State, q: Pid)
    requires q in s.procs && NamesOk(s) && NamesOk(t) && Grows(s, t)
  {
    var ph := s.procs[q].phase;
    && (ph.Dropping? && ph.ino in s.published && !Foreign(s.dirs[ph.ino]) ==> !Foreign(t.dirs[ph.ino]))
    && (ph.Emptying? && ph.ino !in s.published ==> ph.ino !in t.published)
    && (forall n :: Claims(s.procs[q], n) && s.procs[q].job.Adopt? && Resource(n) in t.names ==>
          Resource(n) in s.names && t.names[Resource(n)] == s.names[Resource(n)])
    && (ph.Read? || ph.Copying? || ph.Copied? || ph.Withdrawing? ==>
          ph.ino in s.published ==>
            && (t.dirs[ph.ino].marker == s.dirs[ph.ino].marker || t.dirs[ph.ino].marker == NoMarker)
            && (t.dirs[ph.ino].spare == s.dirs[ph.ino].spare || t.dirs[ph.ino].spare == NoMarker))
  }

  ghost predicate Leaves(s: State, t: State, q: Pid)
    requires q in s.procs && NamesOk(s) && NamesOk(t) && Grows(s, t)
  {
    t.procs[q] == s.procs[q] && LeavesOwn(s, t, q) && LeavesFound(s, t, q)
  }

  lemma WriterLeftAlone(s: State, t: State, q: Pid)
    requires NamesOk(s) && NamesOk(t) && Grows(s, t) && q in s.procs && t.procs[q] == s.procs[q]
    requires s.procs[q].job.Write? && LeavesOwn(s, t, q) && ProcOk(s, q)
    ensures ProcOk(t, q)
  {
  }

  lemma FinderLeftAlone(s: State, t: State, q: Pid)
    requires NamesOk(s) && NamesOk(t) && Grows(s, t) && q in s.procs && t.procs[q] == s.procs[q]
    requires !s.procs[q].job.Write? && LeavesFound(s, t, q) && ProcOk(s, q)
    ensures ProcOk(t, q)
  {
  }

  lemma LeftAlone(s: State, t: State, q: Pid)
    requires NamesOk(s) && NamesOk(t) && Grows(s, t)
    requires q in s.procs && Leaves(s, t, q)
    requires ProcOk(s, q)
    ensures ProcOk(t, q)
  {
    if s.procs[q].job.Write? { WriterLeftAlone(s, t, q); } else { FinderLeftAlone(s, t, q); }
  }

  // ----- putting a step together -----

  ghost predicate OwnOk(t: State, p: Pid) {
    NamesOk(t) && p in t.procs && ProcOk(t, p)
  }

  /** Only p moved, and it lays no new claim. */
  ghost predicate Moved(s: State, t: State, p: Pid) {
    && p in s.procs && Live(s.procs[p]) && p in t.procs
    && t.procs == s.procs[p := s.procs[p].(phase := t.procs[p].phase)]
  }

  /** t keeps the invariant, and leaves the others what they had in s. */
  ghost predicate Steps(s: State, t: State, p: Pid) {
    && NamesOk(s) && Inv(t) && Grows(s, t)
    && (forall q :: q in s.procs && q != p ==> Leaves(s, t, q))
  }

  lemma Assemble(s: State, t: State, p: Pid)
    requires Inv(s) && Moved(s, t, p)
    requires NamesOk(t) && LocksOk(t) && PublishedOk(t) && Grows(s, t) && OwnOk(t, p)
    requires forall q :: q in s.procs && q != p ==> Leaves(s, t, q)
    ensures Steps(s, t, p)
  {
    forall q | q in t.procs && q != p
      ensures ProcOk(t, q)
    {
      LeftAlone(s, t, q);
    }
    forall q, r, n | q in t.procs && r in t.procs && Claims(t.procs[q], n) && Claims(t.procs[r], n)
      ensures q == r
    {
      assert Claims(s.procs[q], n) && Claims(s.procs[r], n);
    }
  }

  /** The lock a process takes or leaves as it moves. */
  ghost predicate LockMove(s: State, p: Pid, ph: Phase, locks: map<Ino, Pid>)
    requires p in s.procs
  {
    var was := Held(s.procs[p].phase);
    || (Held(ph) == was && locks == s.locks)
    || (Held(ph).None? && was.Some? && locks == s.locks - {was.value})
    || (was.None? && Held(ph).Some? && Held(ph).value in s.dirs && Held(ph).value !in s.locks
        && locks == s.locks[Held(ph).value := p])
  }

  lemma LocksMove(s: State, p: Pid, ph: Phase, locks: map<Ino, Pid>, t: State)
    requires LocksOk(s) && p in s.procs && LockMove(s, p, ph, locks)
    requires t.procs == s.procs[p := s.procs[p].(phase := ph)] && t.locks == locks
    requires forall i :: i in s.dirs ==> i in t.dirs
    ensures LocksOk(t)
  {
  }

  /** No name and no directory changed. */
  ghost predicate SameNames(s: State, t: State) {
    && t.names == s.names && t.dirs == s.dirs && t.published == s.published && t.collected == s.collected
    && t.nextIno == s.nextIno && t.nextId == s.nextId
    && (forall q :: q in s.procs ==> q in t.procs && t.procs[q].job == s.procs[q].job)
  }

  lemma SameDisk(s: State, t: State)
    requires NamesOk(s) && PublishedOk(s) && SameNames(s, t)
    ensures NamesOk(t) && PublishedOk(t) && Grows(s, t)
  {
  }

  /** With the same disk, what q left is left. */
  lemma SameLeaves(s: State, t: State, q: Pid)
    requires NamesOk(s) && SameNames(s, t) && NamesOk(t) && Grows(s, t)
    requires q in s.procs && t.procs[q] == s.procs[q]
    ensures Leaves(s, t, q)
  {
  }

  /** A step that touches no name and no directory. */
  lemma MoveKeeps(s: State, p: Pid, t: State)
    requires Inv(s) && Moved(s, t, p) && SameNames(s, t)
    requires LockMove(s, p, t.procs[p].phase, t.locks)
    requires OwnOk(t, p)
    ensures Steps(s, t, p)
  {
    LocksMove(s, p, t.procs[p].phase, t.locks, t);
    SameDisk(s, t);
    forall q | q in s.procs && q != p
      ensures Leaves(s, t, q)
    {
      SameLeaves(s, t, q);
    }
    Assemble(s, t, p);
  }

  ghost predicate MoveOk(s: State, t: State, p: Pid) {
    Moved(s, t, p) && SameNames(s, t) && LockMove(s, p, t.procs[p].phase, t.locks) && OwnOk(t, p)
  }

  // ----- each step -----

  lemma SpawnClaims(s: State, p: Pid, job: Job)
    requires ClaimsOk(s) && Enabled(s, p, Spawn(job))
    ensures ClaimsOk(Do(s, p, Spawn(job)))
  {
  }

  lemma SpawnLocks(s: State, p: Pid, job: Job)
    requires LocksOk(s) && Enabled(s, p, Spawn(job))
    ensures LocksOk(Do(s, p, Spawn(job)))
  {
  }

  lemma SpawnOthers(s: State, p: Pid, job: Job, q: Pid)
    requires NamesOk(s) && PublishedOk(s) && Enabled(s, p, Spawn(job)) && q in s.procs && ProcOk(s, q)
    ensures var t := Do(s, p, Spawn(job));
      NamesOk(t) && Grows(s, t) && Leaves(s, t, q) && ProcOk(t, q)
  {
    var t := Do(s, p, Spawn(job));
    SameDisk(s, t);
    SameLeaves(s, t, q);
    LeftAlone(s, t, q);
  }

  lemma SpawnOwn(s: State, p: Pid, job: Job)
    requires NamesOk(s) && PublishedOk(s) && Enabled(s, p, Spawn(job))
    ensures var t := Do(s, p, Spawn(job));
      NamesOk(t) && PublishedOk(t) && Grows(s, t) && ProcOk(t, p)
  {
    SameDisk(s, Do(s, p, Spawn(job)));
  }

  lemma SpawnKeeps(s: State, p: Pid, job: Job)
    requires Inv(s) && Enabled(s, p, Spawn(job))
    ensures Steps(s, Do(s, p, Spawn(job)), p)
  {
    var t := Do(s, p, Spawn(job));
    SpawnOwn(s, p, job);
    SpawnLocks(s, p, job);
    SpawnClaims(s, p, job);
    forall q | q in s.procs
      ensures ProcOk(t, q) && Leaves(s, t, q)
    {
      SpawnOthers(s, p, job, q);
    }
  }

  lemma CrashOwn(s: State, p: Pid)
    requires NamesOk(s) && Enabled(s, p, Crash) && ProcOk(s, p)
    ensures MoveOk(s, Do(s, p, Crash), p)
  {
  }

  /** Extract goes on to its clean-up. */
  lemma FailExtractOwn(s: State, p: Pid)
    requires NamesOk(s) && Enabled(s, p, Fail) && ProcOk(s, p) && Own(s.procs[p].phase).Some?
    ensures MoveOk(s, Do(s, p, Fail), p)
  {
  }

  lemma FailOtherOwn(s: State, p: Pid)
    requires NamesOk(s) && Enabled(s, p, Fail) && ProcOk(s, p) && Own(s.procs[p].phase).None?
    ensures MoveOk(s, Do(s, p, Fail), p)
  {
  }

  lemma FailOwn(s: State, p: Pid)
    requires NamesOk(s) && Enabled(s, p, Fail) && ProcOk(s, p)
    ensures MoveOk(s, Do(s, p, Fail), p)
  {
    if Own(s.procs[p].phase).Some? { FailExtractOwn(s, p); } else { FailOtherOwn(s, p); }
  }

  lemma CloseFileOwn(s: State, p: Pid)
    requires NamesOk(s) && Enabled(s, p, CloseFile) && ProcOk(s, p)
    ensures MoveOk(s, Do(s, p, CloseFile), p)
  {
    var b, part := s.procs[p].job.image[s.procs[p].phase.done].bytes, s.procs[p].phase.part.value;
    assert b[..part] == b;
  }

  lemma CloseBackingOwn(s: State, p: Pid)
    requires NamesOk(s) && Enabled(s, p, Close) && ProcOk(s, p) && s.procs[p].phase.Backing?
    ensures MoveOk(s, Do(s, p, Close), p)
  {
  }

  lemma CloseLastOwn(s: State, p: Pid)
    requires NamesOk(s) && Enabled(s, p, Close) && ProcOk(s, p) && !s.procs[p].phase.Backing?
    ensures MoveOk(s, Do(s, p, Close), p)
  {
  }

  lemma CloseOwn(s: State, p: Pid)
    requires NamesOk(s) && Enabled(s, p, Close) && ProcOk(s, p)
    ensures MoveOk(s, Do(s, p, Close), p)
  {
    if s.procs[p].phase.Backing? { CloseBackingOwn(s, p); } else { CloseLastOwn(s, p); }
  }

  lemma DropOwn(s: State, p: Pid, n: string)
    requires NamesOk(s) && Enabled(s, p, Drop(n)) && ProcOk(s, p)
    ensures MoveOk(s, Do(s, p, Drop(n)), p)
  {
  }

  lemma ReadMarkerOwn(s: State, p: Pid)
    requires NamesOk(s) && PublishedOk(s) && Enabled(s, p, ReadMarker) && ProcOk(s, p)
    ensures MoveOk(s, Do(s, p, ReadMarker), p)
  {
    var n := Resource(s.procs[p].job.name);
    assert NameOk(s, n);
    var i := s.names[n];
    assert Lists(s, i, s.dirs[i].marker.listed);
    Goes(s, p, Read(i, s.dirs[i].marker.listed));
  }

  /** p goes on, holding what it held and with the same disk below it. */
  lemma Goes(s: State, p: Pid, ph: Phase)
    requires NamesOk(s) && p in s.procs && Live(s.procs[p])
    requires Held(ph) == Held(s.procs[p].phase)
    requires ProcOk(Put(s, p, ph), p)
    ensures MoveOk(s, Put(s, p, ph), p)
  {
  }

  lemma LetsGo(s: State, p: Pid, i: Ino, ph: Phase)
    requires NamesOk(s) && p in s.procs && Live(s.procs[p])
    requires Held(s.procs[p].phase) == Some(i) && Held(ph).None?
    requires ProcOk(Put(Unlock(s, i), p, ph), p)
    ensures MoveOk(s, Put(Unlock(s, i), p, ph), p)
  {
  }

  lemma SameLosses(s: State, t: State, l: seq<Ino>)
    requires LossesOk(s, l) && SameNames(s, t)
    ensures LossesOk(t, l)
  {
  }

  lemma OneMoreLoss(s: State, l: seq<Ino>, i: Ino)
    requires LossesOk(s, l) && i in s.collected && i in s.dirs && i !in l
    ensures LossesOk(s, l + [i])
  {
  }

  /** Extract found its temporary gone. */
  lemma Loses(s: State, p: Pid, t: State, i: Ino, l: seq<Ino>)
    requires NamesOk(s) && p in s.procs && s.procs[p].job.Write? && LossesOk(s, l) && |l| < TRIES
    requires i in s.collected && i in s.dirs && i !in l
    requires SameNames(s, t) && NamesOk(t) && p in t.procs && t.procs[p] == s.procs[p].(phase := AfterLoss(i, l))
    ensures ProcOk(t, p)
  {
    OneMoreLoss(s, l, i);
    SameLosses(s, t, l + [i]);
  }

  lemma OpenLostOwn(s: State, p: Pid, n: Name)
    requires NamesOk(s) && Enabled(s, p, Open(n)) && ProcOk(s, p) && s.procs[p].phase.Made? && n !in s.names
    ensures MoveOk(s, Do(s, p, Open(n)), p)
  {
    var ph := s.procs[p].phase;
    Loses(s, p, DoOpen(s, p, n), ph.ino, ph.losses);
  }

  lemma OpenMadeOwn(s: State, p: Pid, n: Name)
    requires NamesOk(s) && Enabled(s, p, Open(n)) && ProcOk(s, p) && s.procs[p].phase.Made? && n in s.names
    ensures MoveOk(s, Do(s, p, Open(n)), p)
  {
    SameLosses(s, DoOpen(s, p, n), s.procs[p].phase.losses);
  }

  lemma OpenListedOwn(s: State, p: Pid, n: Name)
    requires NamesOk(s) && Enabled(s, p, Open(n)) && ProcOk(s, p) && !s.procs[p].phase.Made?
    ensures MoveOk(s, Do(s, p, Open(n)), p)
  {
  }

  lemma OpenOwn(s: State, p: Pid, n: Name)
    requires NamesOk(s) && Enabled(s, p, Open(n)) && ProcOk(s, p)
    ensures MoveOk(s, Do(s, p, Open(n)), p)
  {
    if !s.procs[p].phase.Made? { OpenListedOwn(s, p, n); }
    else if n in s.names { OpenMadeOwn(s, p, n); }
    else { OpenLostOwn(s, p, n); }
  }

  lemma FlockOpenedOwn(s: State, p: Pid)
    requires NamesOk(s) && Enabled(s, p, Flock) && ProcOk(s, p) && s.procs[p].phase.Opened?
    ensures MoveOk(s, Do(s, p, Flock), p)
  {
    SameLosses(s, DoFlock(s, p), s.procs[p].phase.losses);
  }

  lemma FlockSeenOwn(s: State, p: Pid)
    requires NamesOk(s) && Enabled(s, p, Flock) && ProcOk(s, p) && s.procs[p].phase.Seen?
    ensures MoveOk(s, Do(s, p, Flock), p)
  {
  }

  lemma FlockOwn(s: State, p: Pid)
    requires NamesOk(s) && Enabled(s, p, Flock) && ProcOk(s, p)
    ensures MoveOk(s, Do(s, p, Flock), p)
  {
    if s.procs[p].phase.Opened? { FlockOpenedOwn(s, p); } else { FlockSeenOwn(s, p); }
  }

  lemma RecheckOwn(s: State, p: Pid)
    requires NamesOk(s) && Enabled(s, p, Recheck) && ProcOk(s, p)
    ensures MoveOk(s, Do(s, p, Recheck), p)
  {
    var ph, t := s.procs[p].phase, DoRecheck(s, p);
    if ph.tmp in s.names {
      Goes(s, p, t.procs[p].phase);
    } else {
      Loses(s, p, t, ph.ino, ph.losses);
      LetsGo(s, p, ph.ino, t.procs[p].phase);
    }
  }

  lemma BeginClearOwn(s: State, p: Pid)
    requires NamesOk(s) && Enabled(s, p, BeginRemove) && ProcOk(s, p) && s.procs[p].phase.Sealed?
    ensures MoveOk(s, Do(s, p, BeginRemove), p)
  {
    assert forall m :: m in s.names ==> NameOk(s, m);
  }

  lemma BeginEraseOwn(s: State, p: Pid)
    requires NamesOk(s) && Enabled(s, p, BeginRemove) && ProcOk(s, p) && s.procs[p].phase.Undoing?
    ensures MoveOk(s, Do(s, p, BeginRemove), p)
  {
  }

  lemma BeginEmptyOwn(s: State, p: Pid)
    requires NamesOk(s) && Enabled(s, p, BeginRemove) && ProcOk(s, p) && s.procs[p].phase.Owning?
    ensures MoveOk(s, Do(s, p, BeginRemove), p)
  {
    assert forall m :: m in s.names ==> NameOk(s, m);
  }

  lemma BeginRemoveOwn(s: State, p: Pid)
    requires NamesOk(s) && Enabled(s, p, BeginRemove) && ProcOk(s, p)
    ensures MoveOk(s, Do(s, p, BeginRemove), p)
  {
    if s.procs[p].phase.Sealed? { BeginClearOwn(s, p); }
    else if s.procs[p].phase.Undoing? { BeginEraseOwn(s, p); }
    else { BeginEmptyOwn(s, p); }
  }

  // ----- the steps that change a directory -----

  /** t is s with one directory changed and p moved, holding what it held. */
  ghost predicate Rewrites(s: State, t: State, p: Pid, i: Ino) {
    && p in s.procs && p in t.procs && i in s.dirs && i in t.dirs
    && t == Put(SetDir(s, i, t.dirs[i]), p, t.procs[p].phase)
    && Held(t.procs[p].phase) == Held(s.procs[p].phase)
    && t.dirs[i].author == s.dirs[i].author && t.dirs[i].made == s.dirs[i].made
  }

  lemma RewriteGrows(s: State, t: State, p: Pid, i: Ino)
    requires NamesOk(s) && LocksOk(s) && Rewrites(s, t, p, i)
    ensures NamesOk(t) && LocksOk(t) && Grows(s, t)
  {
  }

  lemma OwnRewriteLeaves(s: State, t: State, p: Pid, i: Ino, q: Pid)
    requires NamesOk(s) && NamesOk(t) && Grows(s, t) && Rewrites(s, t, p, i)
    requires s.dirs[i].author == Some(p) && i !in s.published
    requires q in s.procs && q != p && ProcOk(s, q)
    ensures Leaves(s, t, q)
  {
  }

  /** Extract writes to a directory only it knows. */
  lemma OwnRewriteKeeps(s: State, t: State, p: Pid, i: Ino)
    requires Inv(s) && p in s.procs && Live(s.procs[p]) && Rewrites(s, t, p, i)
    requires s.dirs[i].author == Some(p) && i !in s.published
    requires NamesOk(t) ==> ProcOk(t, p)
    ensures Steps(s, t, p)
  {
    RewriteGrows(s, t, p, i);
    forall q | q in s.procs && q != p
      ensures Leaves(s, t, q)
    {
      OwnRewriteLeaves(s, t, p, i, q);
    }
    Assemble(s, t, p);
  }

  lemma NewOn(image: seq<Body>, done: nat)
    requires done < |image| && New(image, done) && image[done].name !in FilesOf(image, done)
    ensures New(image, done + 1)
  {
    forall j | 0 <= j < done
      ensures image[j].name != image[done].name
    {
      ListedInFiles(image, done, j);
    }
  }

  lemma CreateOwn(s: State, p: Pid)
    requires NamesOk(s) && Enabled(s, p, Create) && ProcOk(s, p)
    ensures var t, i := Do(s, p, Create), s.procs[p].phase.ino;
      Rewrites(s, t, p, i) && s.dirs[i].author == Some(p) && i !in s.published && (NamesOk(t) ==> ProcOk(t, p))
  {
    NewOn(s.procs[p].job.image, s.procs[p].phase.done);
  }

  lemma AppendOwn(s: State, p: Pid, upto: nat)
    requires NamesOk(s) && Enabled(s, p, Append(upto)) && ProcOk(s, p)
    ensures var t, i := Do(s, p, Append(upto)), s.procs[p].phase.ino;
      Rewrites(s, t, p, i) && s.dirs[i].author == Some(p) && i !in s.published && (NamesOk(t) ==> ProcOk(t, p))
  {
  }

  lemma MarkerOwn(s: State, p: Pid, a: Action)
    requires NamesOk(s) && (a.BeginMarker? || a.EndMarker?) && Enabled(s, p, a) && ProcOk(s, p)
    ensures var t, i := Do(s, p, a), s.procs[p].phase.ino;
      Rewrites(s, t, p, i) && s.dirs[i].author == Some(p) && i !in s.published && (NamesOk(t) ==> ProcOk(t, p))
  {
  }

  lemma WriteKeeps(s: State, p: Pid, a: Action)
    requires Inv(s) && Enabled(s, p, a) && (a.Create? || a.Append? || a.BeginMarker? || a.EndMarker?)
    ensures Steps(s, Do(s, p, a), p)
  {
    if a.Create? { CreateOwn(s, p); }
    else if a.Append? { AppendOwn(s, p, a.upto); }
    else { MarkerOwn(s, p, a); }
    OwnRewriteKeeps(s, Do(s, p, a), p, s.procs[p].phase.ino);
  }

  lemma UnlinkRewrites(s: State, p: Pid, c: Child)
    requires NamesOk(s) && Enabled(s, p, Unlink(c)) && ProcOk(s, p)
    ensures var t, i := Do(s, p, Unlink(c)), Target(s.procs[p]).value.1;
      && Rewrites(s, t, p, i) && t.dirs[i] == Without(s.dirs[i], c) && Holds(s.dirs[i], c)
      && t.procs == s.procs
      && (i in s.published || (s.dirs[i].author == Some(p) && s.procs[p].phase.Erasing?)
          || Held(s.procs[p].phase) == Some(i))
  {
  }

  /** What p may unlink from is not what another process is writing. */
  lemma UnlinkNotOwn(s: State, p: Pid, i: Ino, c: Child, q: Pid)
    requires NamesOk(s) && LocksOk(s) && p in s.procs && i in s.dirs && Holds(s.dirs[i], c)
    requires i in s.published || s.dirs[i].author == Some(p) || Held(s.procs[p].phase) == Some(i)
    requires q in s.procs && q != p && ProcOk(s, q)
    ensures Own(s.procs[q].phase) != Some(i)
  {
  }

  lemma ShrinkLeaves(s: State, t: State, p: Pid, i: Ino, c: Child, q: Pid)
    requires NamesOk(s) && NamesOk(t) && Grows(s, t) && Rewrites(s, t, p, i) && t.dirs[i] == Without(s.dirs[i], c)
    requires q in s.procs && q != p && Own(s.procs[q].phase) != Some(i)
    ensures Leaves(s, t, q)
  {
  }

  lemma UnlinkPublished(s: State, t: State, i: Ino, c: Child)
    requires NamesOk(s) && NamesOk(t) && PublishedOk(s) && i in s.dirs
    requires t == SetDir(s, i, Without(s.dirs[i], c))
    ensures PublishedOk(t)
  {
  }

  lemma UnlinkKeeps(s: State, p: Pid, c: Child)
    requires Inv(s) && Enabled(s, p, Unlink(c))
    ensures Steps(s, Do(s, p, Unlink(c)), p)
  {
    var t, i := Do(s, p, Unlink(c)), Target(s.procs[p]).value.1;
    UnlinkRewrites(s, p, c);
    RewriteGrows(s, t, p, i);
    UnlinkPublished(s, t, i, c);
    UnlinkOwn(s, p, c);
    forall q | q in s.procs && q != p
      ensures Leaves(s, t, q)
    {
      UnlinkNotOwn(s, p, i, c, q);
      ShrinkLeaves(s, t, p, i, c, q);
    }
    Assemble(s, t, p);
  }

  lemma UnlinkOwn(s: State, p: Pid, c: Child)
    requires NamesOk(s) && LocksOk(s) && Enabled(s, p, Unlink(c)) && ProcOk(s, p)
    ensures OwnOk(Do(s, p, Unlink(c)), p)
  {
  }

  // ----- the steps that change a name -----

  /** t is s without the name n, which p removed as it moved. */
  ghost predicate Unnames(s: State, t: State, p: Pid, n: Name) {
    && p in s.procs && p in t.procs && n in s.names
    && t == Put(Unname(s, p, n), p, t.procs[p].phase)
    && Held(t.procs[p].phase) == Held(s.procs[p].phase)
  }

  lemma UnnameGrows(s: State, t: State, p: Pid, n: Name)
    requires NamesOk(s) && LocksOk(s) && PublishedOk(s) && Unnames(s, t, p, n)
    ensures NamesOk(t) && LocksOk(t) && PublishedOk(t) && Grows(s, t)
  {
  }

  lemma UnnameLeavesOwn(s: State, t: State, p: Pid, n: Name, q: Pid)
    requires NamesOk(s) && LocksOk(s) && Unnames(s, t, p, n) && NamesOk(t) && Grows(s, t)
    requires Target(s.procs[p]).Some? && Target(s.procs[p]).value.0 == n
    requires ProcOk(s, p)
    requires q in s.procs && q != p && ProcOk(s, q)
    ensures LeavesOwn(s, t, q)
  {
    var ph := s.procs[q].phase;
    if Own(ph).Some? && n == ph.tmp {
      assert s.procs[p].phase.Emptying?;
      assert Held(s.procs[p].phase) == Own(ph);
    }
  }

  lemma UnnameLeavesFound(s: State, t: State, p: Pid, n: Name, q: Pid)
    requires NamesOk(s) && LocksOk(s) && Unnames(s, t, p, n) && NamesOk(t) && Grows(s, t)
    requires Target(s.procs[p]).Some? && Target(s.procs[p]).value.0 == n
    requires ProcOk(s, p)
    requires q in s.procs && q != p && ProcOk(s, q)
    ensures LeavesFound(s, t, q)
  {
  }

  lemma UnnameLeaves(s: State, t: State, p: Pid, n: Name, q: Pid)
    requires NamesOk(s) && LocksOk(s) && Unnames(s, t, p, n) && NamesOk(t) && Grows(s, t)
    requires Target(s.procs[p]).Some? && Target(s.procs[p]).value.0 == n
    requires ProcOk(s, p)
    requires q in s.procs && q != p && ProcOk(s, q)
    ensures Leaves(s, t, q)
  {
    UnnameLeavesOwn(s, t, p, n, q);
    UnnameLeavesFound(s, t, p, n, q);
  }

  lemma RmdirOwn(s: State, t: State, p: Pid, n: Name)
    requires NamesOk(s) && Enabled(s, p, Rmdir) && ProcOk(s, p)
    requires Unnames(s, t, p, n) && NamesOk(t) && n == Target(s.procs[p]).value.0
    requires t.procs[p].phase == AfterRmdir(s.procs[p].phase)
    ensures ProcOk(t, p)
  {
  }

  /** There was nothing to remove, or it could not be removed. */
  lemma RmdirGoes(s: State, p: Pid)
    requires NamesOk(s) && Enabled(s, p, Rmdir) && ProcOk(s, p)
    requires var n := Target(s.procs[p]).value.0;
      n in s.names ==> !Empty(s.dirs[s.names[n]])
    ensures MoveOk(s, Do(s, p, Rmdir), p)
  {
    Goes(s, p, DoRmdir(s, p).procs[p].phase);
  }

  lemma RmdirUnnames(s: State, p: Pid)
    requires NamesOk(s) && Enabled(s, p, Rmdir) && ProcOk(s, p)
    requires var n := Target(s.procs[p]).value.0;
      n in s.names && Empty(s.dirs[s.names[n]])
    ensures var t := Do(s, p, Rmdir);
      Unnames(s, t, p, Target(s.procs[p]).value.0) && t.procs[p].phase == AfterRmdir(s.procs[p].phase)
  {
  }

  lemma RmdirKeeps(s: State, p: Pid)
    requires Inv(s) && Enabled(s, p, Rmdir)
    ensures Steps(s, Do(s, p, Rmdir), p)
  {
    var t, n := Do(s, p, Rmdir), Target(s.procs[p]).value.0;
    if n in s.names && Empty(s.dirs[s.names[n]]) {
      RmdirUnnames(s, p);
      UnnameGrows(s, t, p, n);
      RmdirOwn(s, t, p, n);
      forall q | q in s.procs && q != p
        ensures Leaves(s, t, q)
      {
        UnnameLeaves(s, t, p, n, q);
      }
      Assemble(s, t, p);
    } else {
      RmdirGoes(s, p);
      MoveKeeps(s, p, t);
    }
  }

  lemma MkdirNames(s: State, p: Pid)
    requires NamesOk(s) && Enabled(s, p, Mkdir)
    ensures NamesOk(Do(s, p, Mkdir)) && Grows(s, Do(s, p, Mkdir))
  {
  }

  lemma MkdirGrows(s: State, p: Pid)
    requires NamesOk(s) && LocksOk(s) && PublishedOk(s) && Enabled(s, p, Mkdir)
    ensures var t := Do(s, p, Mkdir);
      NamesOk(t) && LocksOk(t) && PublishedOk(t) && Grows(s, t)
  {
    MkdirNames(s, p);
  }

  lemma MkdirOwn(s: State, p: Pid)
    requires NamesOk(s) && Enabled(s, p, Mkdir) && ProcOk(s, p)
    requires NamesOk(Do(s, p, Mkdir)) && Grows(s, Do(s, p, Mkdir))
    ensures ProcOk(Do(s, p, Mkdir), p)
  {
  }

  lemma MkdirLeavesOwn(s: State, p: Pid, q: Pid)
    requires NamesOk(s) && Enabled(s, p, Mkdir) && NamesOk(Do(s, p, Mkdir)) && Grows(s, Do(s, p, Mkdir))
    requires q in s.procs && q != p && ProcOk(s, q)
    ensures LeavesOwn(s, Do(s, p, Mkdir), q)
  {
  }

  lemma MkdirLeavesFound(s: State, p: Pid, q: Pid)
    requires NamesOk(s) && Enabled(s, p, Mkdir) && NamesOk(Do(s, p, Mkdir)) && Grows(s, Do(s, p, Mkdir))
    requires q in s.procs && q != p && ProcOk(s, q)
    ensures LeavesFound(s, Do(s, p, Mkdir), q)
  {
  }

  lemma MkdirLeaves(s: State, p: Pid, q: Pid)
    requires NamesOk(s) && Enabled(s, p, Mkdir) && NamesOk(Do(s, p, Mkdir)) && Grows(s, Do(s, p, Mkdir))
    requires q in s.procs && q != p && ProcOk(s, q)
    ensures Leaves(s, Do(s, p, Mkdir), q)
  {
    MkdirLeavesOwn(s, p, q);
    MkdirLeavesFound(s, p, q);
  }

  lemma MkdirKeeps(s: State, p: Pid)
    requires Inv(s) && Enabled(s, p, Mkdir)
    ensures Steps(s, Do(s, p, Mkdir), p)
  {
    MkdirGrows(s, p);
    MkdirOwn(s, p);
    forall q | q in s.procs && q != p
      ensures Leaves(s, Do(s, p, Mkdir), q)
    {
      MkdirLeaves(s, p, q);
    }
    Assemble(s, Do(s, p, Mkdir), p);
  }

  /** t is s with i moved from its temporary name to p's resource. */
  ghost predicate Publishes(s: State, t: State, p: Pid, tmp: Name, i: Ino) {
    && p in s.procs && s.procs[p].job.Write? && Resource(s.procs[p].job.name) !in s.names
    && tmp in s.names && s.names[tmp] == i
    && t == Put(s.(names := (s.names - {tmp})[Resource(s.procs[p].job.name) := i],
                   published := s.published[i := s.procs[p].job.name]), p, Swapped(i))
    && Held(s.procs[p].phase) == Some(i)
  }

  lemma RenamePublishes(s: State, p: Pid)
    requires NamesOk(s) && Enabled(s, p, Rename) && ProcOk(s, p)
    ensures Ready(s, p, s.procs[p].phase.tmp, s.procs[p].phase.ino)
    ensures Publishes(s, Do(s, p, Rename), p, s.procs[p].phase.tmp, s.procs[p].phase.ino)
  {
  }

  lemma PublishNames(s: State, t: State, p: Pid, tmp: Name, i: Ino)
    requires NamesOk(s) && Publishes(s, t, p, tmp, i) && Ready(s, p, tmp, i)
    ensures NamesOk(t) && Grows(s, t)
  {
  }

  lemma PublishGrows(s: State, t: State, p: Pid, tmp: Name, i: Ino)
    requires NamesOk(s) && LocksOk(s) && Publishes(s, t, p, tmp, i) && Ready(s, p, tmp, i)
    ensures NamesOk(t) && LocksOk(t) && Grows(s, t) && ProcOk(t, p)
  {
    PublishNames(s, t, p, tmp, i);
  }

  lemma PublishedWhole(s: State, t: State, p: Pid, tmp: Name, i: Ino)
    requires NamesOk(s) && NamesOk(t) && PublishedOk(s) && Publishes(s, t, p, tmp, i) && Ready(s, p, tmp, i)
    ensures PublishedOk(t)
  {
  }

  lemma PublishLeavesOwn(s: State, t: State, p: Pid, tmp: Name, i: Ino, q: Pid)
    requires NamesOk(s) && LocksOk(s) && ClaimsOk(s) && Publishes(s, t, p, tmp, i) && Ready(s, p, tmp, i)
    requires Live(s.procs[p]) && NamesOk(t) && Grows(s, t)
    requires q in s.procs && q != p && ProcOk(s, q)
    ensures LeavesOwn(s, t, q)
  {
    assert t.dirs == s.dirs && s.dirs[i].author == Some(p);
  }

  lemma PublishLeavesFound(s: State, t: State, p: Pid, tmp: Name, i: Ino, q: Pid)
    requires NamesOk(s) && LocksOk(s) && ClaimsOk(s) && Publishes(s, t, p, tmp, i) && Ready(s, p, tmp, i)
    requires Live(s.procs[p]) && NamesOk(t) && Grows(s, t)
    requires q in s.procs && q != p && ProcOk(s, q)
    ensures LeavesFound(s, t, q)
  {
    assert Claims(s.procs[p], s.procs[p].job.name);
  }

  lemma PublishLeaves(s: State, t: State, p: Pid, tmp: Name, i: Ino, q: Pid)
    requires NamesOk(s) && LocksOk(s) && ClaimsOk(s) && Publishes(s, t, p, tmp, i) && Ready(s, p, tmp, i)
    requires Live(s.procs[p]) && NamesOk(t) && Grows(s, t)
    requires q in s.procs && q != p && ProcOk(s, q)
    ensures Leaves(s, t, q)
  {
    PublishLeavesOwn(s, t, p, tmp, i, q);
    PublishLeavesFound(s, t, p, tmp, i, q);
  }

  lemma RenameKeeps(s: State, p: Pid)
    requires Inv(s) && Enabled(s, p, Rename)
    ensures Steps(s, Do(s, p, Rename), p)
  {
    var t, tmp, i := Do(s, p, Rename), s.procs[p].phase.tmp, s.procs[p].phase.ino;
    RenamePublishes(s, p);
    PublishGrows(s, t, p, tmp, i);
    PublishedWhole(s, t, p, tmp, i);
    forall q | q in s.procs && q != p
      ensures Leaves(s, t, q)
    {
      PublishLeaves(s, t, p, tmp, i, q);
    }
    Assemble(s, t, p);
  }

  // ----- the steps of Adopt -----

  /** Adopt touches the sentinel's two files alone, with whatever was under the
      name of the second, and only ever names the agent over the listing it read. */
  ghost predicate Adopts(s: State, t: State, p: Pid, i: Ino, listed: seq<string>) {
    && Rewrites(s, t, p, i)
    && (t.dirs[i].files == s.dirs[i].files || t.dirs[i].files == s.dirs[i].files - {Names.SPARE})
    && (t.dirs[i].spare == NoMarker || Names.SPARE !in t.dirs[i].files)
    && (t.dirs[i].marker == s.dirs[i].marker
        || (t.dirs[i].marker == Whole(listed, AGENT)
            && (s.dirs[i].marker.Whole? ==> s.dirs[i].marker.listed == listed)))
  }

  lemma SpareAdopts(s: State, p: Pid, i: Ino, listed: seq<string>, m: Marker, ph: Phase)
    requires NamesOk(s) && p in s.procs && Live(s.procs[p]) && AdopterAt(s, p, i, listed)
    requires Held(s.procs[p].phase).None?
    requires ph == Copying(i, listed) || (ph == Copied(i, listed) && m == Whole(listed, AGENT)) || ph == Finished
    ensures var t, n := AdoptStep(s, p, m, ph), Resource(s.procs[p].job.name);
      if n in s.names then Adopts(s, t, p, i, listed) && (NamesOk(t) ==> ProcOk(t, p)) else MoveOk(s, t, p)
  {
  }

  lemma RenameSpareAdopts(s: State, p: Pid, i: Ino, listed: seq<string>)
    requires NamesOk(s) && p in s.procs && Live(s.procs[p]) && s.procs[p].phase == Copied(i, listed) && ProcOk(s, p)
    ensures var t, n := DoRenameSpare(s, p), Resource(s.procs[p].job.name);
      if n in s.names && s.dirs[i].spare != NoMarker then Adopts(s, t, p, i, listed) && (NamesOk(t) ==> ProcOk(t, p))
      else MoveOk(s, t, p)
  {
  }

  /** What an Adopt step does: it rewrites the directory it read, or moves on. */
  lemma AdoptDoes(s: State, p: Pid, a: Action)
    requires NamesOk(s) && OfAdopt(a) && Enabled(s, p, a) && ProcOk(s, p)
    ensures var t, ph := Do(s, p, a), s.procs[p].phase;
      && AdopterAt(s, p, ph.ino, ph.listed)
      && ((Adopts(s, t, p, ph.ino, ph.listed) && Resource(s.procs[p].job.name) in s.names && (NamesOk(t) ==> ProcOk(t, p)))
          || MoveOk(s, t, p))
  {
    var ph := s.procs[p].phase;
    if a.BeginSpare? {
      SpareAdopts(s, p, ph.ino, ph.listed, Torn, Copying(ph.ino, ph.listed));
    } else if a.EndSpare? {
      SpareAdopts(s, p, ph.ino, ph.listed, Whole(ph.listed, AGENT), Copied(ph.ino, ph.listed));
    } else if a.RemoveSpare? {
      SpareAdopts(s, p, ph.ino, ph.listed, NoMarker, Finished);
    } else {
      RenameSpareAdopts(s, p, ph.ino, ph.listed);
    }
  }

  /** The listing Adopt read is the one of the extraction that wrote the files. */
  lemma AdoptPublished(s: State, t: State, p: Pid, i: Ino, listed: seq<string>)
    requires NamesOk(s) && NamesOk(t) && PublishedOk(s) && Adopts(s, t, p, i, listed) && Lists(s, i, listed)
    ensures PublishedOk(t)
  {
  }

  lemma AdoptLeavesOwn(s: State, t: State, p: Pid, i: Ino, listed: seq<string>, q: Pid)
    requires NamesOk(s) && ClaimsOk(s) && NamesOk(t) && Grows(s, t) && Adopts(s, t, p, i, listed)
    requires Live(s.procs[p]) && AdopterAt(s, p, i, listed) && Resource(s.procs[p].job.name) in s.names
    requires q in s.procs && q != p && ProcOk(s, q)
    ensures LeavesOwn(s, t, q)
  {
    var ph := s.procs[q].phase;
    assert Claims(s.procs[p], s.procs[p].job.name);
  }

  lemma AdoptLeavesFound(s: State, t: State, p: Pid, i: Ino, listed: seq<string>, q: Pid)
    requires NamesOk(s) && ClaimsOk(s) && NamesOk(t) && Grows(s, t) && Adopts(s, t, p, i, listed)
    requires Live(s.procs[p]) && AdopterAt(s, p, i, listed) && Resource(s.procs[p].job.name) in s.names
    requires q in s.procs && q != p && ProcOk(s, q)
    ensures LeavesFound(s, t, q)
  {
    var ph := s.procs[q].phase;
    assert Claims(s.procs[p], s.procs[p].job.name);
  }

  lemma AdoptLeaves(s: State, t: State, p: Pid, i: Ino, listed: seq<string>, q: Pid)
    requires NamesOk(s) && ClaimsOk(s) && NamesOk(t) && Grows(s, t) && Adopts(s, t, p, i, listed)
    requires Live(s.procs[p]) && AdopterAt(s, p, i, listed) && Resource(s.procs[p].job.name) in s.names
    requires q in s.procs && q != p && ProcOk(s, q)
    ensures Leaves(s, t, q)
  {
    AdoptLeavesOwn(s, t, p, i, listed, q);
    AdoptLeavesFound(s, t, p, i, listed, q);
  }

  lemma AdoptRewriteKeeps(s: State, t: State, p: Pid, i: Ino, listed: seq<string>)
    requires Inv(s) && Adopts(s, t, p, i, listed) && Live(s.procs[p]) && AdopterAt(s, p, i, listed)
    requires Resource(s.procs[p].job.name) in s.names && (NamesOk(t) ==> ProcOk(t, p))
    ensures Steps(s, t, p)
  {
    RewriteGrows(s, t, p, i);
    AdoptPublished(s, t, p, i, listed);
    forall q | q in s.procs && q != p
      ensures Leaves(s, t, q)
    {
      AdoptLeaves(s, t, p, i, listed, q);
    }
    Assemble(s, t, p);
  }

  lemma AdoptKeeps(s: State, p: Pid, a: Action)
    requires Inv(s) && OfAdopt(a) && Enabled(s, p, a)
    ensures Steps(s, Do(s, p, a), p)
  {
    var t, ph := Do(s, p, a), s.procs[p].phase;
    AdoptDoes(s, p, a);
    if MoveOk(s, t, p) {
      MoveKeeps(s, p, t);
    } else {
      AdoptRewriteKeeps(s, t, p, ph.ino, ph.listed);
    }
  }
}
