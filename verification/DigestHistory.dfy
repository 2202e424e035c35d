/** The digest memory against the clock. The memory is checked and filled by
    steps that interleave with everything else that happens to the files: a
    check reads the clock, opens a file by its path and reads it piece by piece,
    while others write, replace, rename and reuse inodes. */
module DigestHistory {
  import opened Basics

  type Path = string

  /** A file's device and its number there. */
  datatype Ino = Ino(dev: nat, number: nat)

  datatype Inode = Inode(bytes: Bytes, mtime: int, ctime: nat)

  datatype Key = Key(ino: Ino, size: nat, mtime: int, ctime: nat)

  datatype Entry = Entry(key: Key, digest: string, at: nat, written: bool)

  /** One call of digest: not running, past reading the clock, or reading. */
  datatype Check =
    | NoCheck
    | Timed(path: Path, key: Key, at: nat)
    | Reading(path: Path, key: Key, at: nat, ino: Ino, read: Bytes)

  /** `now` is what time.Now answers and `coarse` what the filesystem stamps.
      `stats` is what the checks saw. `strays` are the files a check went by, as
      they were when it looked at them: it opened another one at their path. */
  datatype World = World(
    now: nat,
    coarse: nat,
    inodes: map<Ino, Inode>,
    bound: map<Path, Ino>,
    strays: set<(Path, Ino)>,
    stats: set<(Path, Key)>,
    memory: map<Path, Entry>,
    check: Check)

  /** The tick of the filesystem's clock, and the racy window: the age a file's
      last change must have for the digest of the file to be kept. */
  datatype Clock = Clock(tick: nat, racy: nat)

  datatype Event =
    | Advance(now: nat, coarse: nat)
    | Write(ino: Ino, bytes: Bytes, mtime: int) // a write, a truncation, a touch, the reuse of an inode
    | Bind(path: Path, ino: Ino)                // a link or a rename of the file itself
    | Swap(path: Path, ino: Ino)                // a rename of a directory above it
    | Unbind(path: Path)
    | Stat(path: Path)
    | Begin(path: Path, key: Key)
    | OpenFile
    | ReadSome(n: nat)
    | Finish
    | Abandon
    | Remember(path: Path, digest: string)
    | Forget(paths: set<Path>)

  function KeyOf(w: World, i: Ino): Key
    requires i in w.inodes
  {
    Key(i, |w.inodes[i].bytes|, w.inodes[i].mtime, w.inodes[i].ctime)
  }

  /** sums.trusted. */
  predicate Trusted(racy: nat, e: Entry, k: Key) {
    e.key == k && (e.written || k.ctime + racy < e.at)
  }

  predicate Enabled(c: Clock, w: World, e: Event) {
    match e
    case Advance(t, s) => w.now <= t && w.coarse <= s <= t && t < s + c.tick
    case Write(_, _, _) => true
    case Bind(_, i) => i in w.inodes
    case Swap(_, i) => i in w.inodes
    case Unbind(p) => p in w.bound
    case Stat(p) => p in w.bound
    case Begin(p, k) => w.check.NoCheck? && (p, k) in w.stats
      && !(p in w.memory && Trusted(c.racy, w.memory[p], k))
    case OpenFile => w.check.Timed? && w.check.path in w.bound
    case ReadSome(n) => w.check.Reading? && w.check.ino in w.inodes
      && |w.check.read| + n <= |w.inodes[w.check.ino].bytes|
    case Finish => w.check.Reading? && w.check.ino in w.inodes && |w.check.read| >= |w.inodes[w.check.ino].bytes|
    case Abandon => true
    // What an extraction wrote and hashed on the way is there when it is looked at.
    case Remember(p, d) => p in w.bound && w.bound[p] in w.inodes && d == Sum(w.inodes[w.bound[p]].bytes)
    case Forget(_) => true
  }

  /** ctime moves, or stays within one tick. */
  function Restamp(w: World, i: Ino, n: Inode): World {
    w.(inodes := w.inodes[i := n],
       strays := if i in w.inodes && w.inodes[i].ctime == n.ctime then w.strays
                 else set d | d in w.strays && d.1 != i)
  }

  /** The check opens what is at the path by now. */
  function Open(c: Clock, w: World): World
    requires w.check.Timed? && w.check.path in w.bound
  {
    var p, k, i := w.check.path, w.check.key, w.bound[w.check.path];
    w.(check := Reading(p, k, w.check.at, i, []),
       strays := if i != k.ino && k.ctime + c.racy < w.check.at && k.ino in w.inodes && w.inodes[k.ino].ctime == k.ctime
                 then w.strays + {(p, k.ino)} else w.strays)
  }

  function Apply(c: Clock, w: World, e: Event): World
    requires Enabled(c, w, e)
  {
    match e
    case Advance(t, s) => w.(now := t, coarse := s)
    case Write(i, b, m) => Restamp(w, i, Inode(b, m, w.coarse))
    case Bind(p, i) => Restamp(w, i, w.inodes[i].(ctime := w.coarse)).(bound := w.bound[p := i])
    case Swap(p, i) => w.(bound := w.bound[p := i])
    case Unbind(p) => w.(bound := w.bound - {p})
    case Stat(p) => if w.bound[p] in w.inodes then w.(stats := w.stats + {(p, KeyOf(w, w.bound[p]))}) else w
    case Begin(p, k) => w.(check := Timed(p, k, w.now))
    case OpenFile => Open(c, w)
    case ReadSome(n) =>
      var r, b := w.check.read, w.inodes[w.check.ino].bytes;
      w.(check := w.check.(read := r + b[|r|..|r| + n]))
    case Finish =>
      w.(memory := w.memory[w.check.path := Entry(w.check.key, Sum(w.check.read), w.check.at, false)],
         check := NoCheck)
    case Abandon => w.(check := NoCheck)
    case Remember(p, d) => w.(memory := w.memory[p := Entry(KeyOf(w, w.bound[p]), d, 0, true)])
    case Forget(ps) => w.(memory := w.memory - ps)
  }

  ghost predicate Run(c: Clock, w: World, events: seq<Event>, v: World)
    decreases |events|
  {
    if events == [] then w == v
    else Enabled(c, w, events[0]) && Run(c, Apply(c, w, events[0]), events[1..], v)
  }

  /** A directory is moved back with a file in it that a check went by: it was
      moved away between the check's stat and its open. */
  predicate Returns(w: World, e: Event) {
    e.Swap? && (e.path, e.ino) in w.strays
  }

  /** A run in which that does not happen. */
  ghost predicate SteadyRun(c: Clock, w: World, events: seq<Event>, v: World)
    decreases |events|
  {
    if events == [] then w == v
    else Enabled(c, w, events[0]) && !Returns(w, events[0])
         && SteadyRun(c, Apply(c, w, events[0]), events[1..], v)
  }

  /** Any files, and a memory that has seen none of them. */
  predicate Init(c: Clock, w: World) {
    && w.coarse <= w.now < w.coarse + c.tick
    && (forall i :: i in w.inodes ==> w.inodes[i].ctime <= w.coarse)
    && (forall p :: p in w.bound ==> w.bound[p] in w.inodes)
    && w.strays == {} && w.stats == {} && w.memory == map[] && w.check == NoCheck
  }

  // ----- the invariant -----

  /** The path may still lead to the file a key was read from. */
  predicate Same(w: World, p: Path, k: Key) {
    k.ino in w.inodes && KeyOf(w, k.ino) == k && (p, k.ino) !in w.strays
  }

  ghost predicate FilesOk(c: Clock, w: World) {
    && w.coarse <= w.now < w.coarse + c.tick
    && (forall i :: i in w.inodes ==> w.inodes[i].ctime <= w.coarse)
    && (forall p :: p in w.bound ==> w.bound[p] in w.inodes && (p, w.bound[p]) !in w.strays)
  }

  /** Whatever happens to a stray but a return moves its ctime. */
  ghost predicate StraysOk(c: Clock, w: World) {
    forall d :: d in w.strays ==> d.1 in w.inodes && w.inodes[d.1].ctime + c.racy < w.now
  }

  predicate StatOk(w: World, k: Key) {
    k.ino in w.inodes && k.ctime <= w.inodes[k.ino].ctime
  }

  ghost predicate StatsOk(w: World) {
    forall s :: s in w.stats ==> StatOk(w, s.1)
  }

  predicate CheckOk(c: Clock, w: World) {
    match w.check
    case NoCheck => true
    case Timed(p, k, at) => (p, k) in w.stats && at <= w.now
    case Reading(p, k, at, i, r) =>
      && (p, k) in w.stats && at <= w.now && i in w.inodes
      && (k.ctime + c.racy < at && Same(w, p, k) ==> i == k.ino && r <= w.inodes[i].bytes)
  }

  /** An entry gives the digest of the file it was taken from, as long as that
      file keeps its key. */
  predicate EntryOk(c: Clock, w: World, p: Path, e: Entry) {
    && e.key.ino in w.inodes && e.key.ctime <= w.inodes[e.key.ino].ctime
    && e.at <= w.now
    && (!e.written && e.key.ctime + c.racy < e.at && Same(w, p, e.key) ==> e.digest == Sum(w.inodes[e.key.ino].bytes))
  }

  ghost predicate MemoryOk(c: Clock, w: World) {
    forall p :: p in w.memory ==> EntryOk(c, w, p, w.memory[p])
  }

  ghost predicate Inv(c: Clock, w: World) {
    FilesOk(c, w) && StraysOk(c, w) && StatsOk(w) && CheckOk(c, w) && MemoryOk(c, w)
  }

  lemma StepKeepsStats(c: Clock, w: World, e: Event)
    requires Inv(c, w) && Enabled(c, w, e) && !Returns(w, e)
    ensures StatsOk(Apply(c, w, e))
  {
    var v := Apply(c, w, e);
    forall s | s in v.stats
      ensures StatOk(v, s.1)
    {
      if s in w.stats { assert StatOk(w, s.1); }
    }
  }

  /** What was read up to the end of the file is the file. */
  lemma ReadWhole(read: Bytes, bytes: Bytes)
    requires read <= bytes && |read| >= |bytes|
    ensures read == bytes
  {
  }

  lemma StepKeepsMemory(c: Clock, w: World, e: Event)
    requires c.tick <= c.racy + 1
    requires Inv(c, w) && Enabled(c, w, e) && !Returns(w, e)
    ensures MemoryOk(c, Apply(c, w, e))
  {
    var v := Apply(c, w, e);
    if e.Finish? {
      assert StatOk(w, w.check.key);
      if w.check.read <= w.inodes[w.check.ino].bytes {
        ReadWhole(w.check.read, w.inodes[w.check.ino].bytes);
      }
    }
    forall p | p in v.memory
      ensures EntryOk(c, v, p, v.memory[p])
    {
      if p in w.memory { assert EntryOk(c, w, p, w.memory[p]); }
    }
  }

  lemma StepKeepsFiles(c: Clock, w: World, e: Event)
    requires c.tick <= c.racy + 1
    requires Inv(c, w) && Enabled(c, w, e) && !Returns(w, e)
    ensures FilesOk(c, Apply(c, w, e)) && StraysOk(c, Apply(c, w, e))
  {
  }

  lemma StepKeepsCheck(c: Clock, w: World, e: Event)
    requires c.tick <= c.racy + 1
    requires Inv(c, w) && Enabled(c, w, e) && !Returns(w, e)
    ensures CheckOk(c, Apply(c, w, e))
  {
  }

  lemma StepKeeps(c: Clock, w: World, e: Event)
    requires c.tick <= c.racy + 1
    requires Inv(c, w) && Enabled(c, w, e) && !Returns(w, e)
    ensures Inv(c, Apply(c, w, e))
  {
    StepKeepsStats(c, w, e);
    StepKeepsMemory(c, w, e);
    StepKeepsFiles(c, w, e);
    StepKeepsCheck(c, w, e);
  }

  lemma {:induction false} RunKeeps(c: Clock, w: World, events: seq<Event>, v: World)
    requires c.tick <= c.racy + 1
    requires Inv(c, w) && SteadyRun(c, w, events, v)
    ensures Inv(c, v)
    decreases |events|
  {
    if events != [] {
      StepKeeps(c, w, events[0]);
      RunKeeps(c, Apply(c, w, events[0]), events[1..], v);
    }
  }

  // ----- what the memory is worth -----

  /** The memory would answer for the file at p from its key alone. */
  predicate Answers(c: Clock, w: World, p: Path) {
    && p in w.memory && p in w.bound && w.bound[p] in w.inodes
    && Trusted(c.racy, w.memory[p], KeyOf(w, w.bound[p]))
  }

  /** The digest of the bytes the path leads to now. */
  function Fresh(w: World, p: Path): string
    requires p in w.bound && w.bound[p] in w.inodes
  {
    Sum(w.inodes[w.bound[p]].bytes)
  }

  /** Over every history: a digest a check took, and that is trusted, is the
      digest of the file's bytes now, as long as a tick is no longer than the
      window and the instant after it. */
  lemma TrustedIsFresh(c: Clock, start: World, events: seq<Event>, w: World, p: Path)
    requires c.tick <= c.racy + 1
    requires Init(c, start) && SteadyRun(c, start, events, w)
    requires Answers(c, w, p) && !w.memory[p].written
    ensures w.memory[p].digest == Fresh(w, p)
  {
    RunKeeps(c, start, events, w);
    assert EntryOk(c, w, p, w.memory[p]);
  }

  /** A tick one instant longer already fails: a file is written at 0, hashed
      once the window has passed, and rewritten, all under one stamp. */
  function Racy(c: Clock): seq<Event> {
    var k := Key(ONE, 1, 0, 0);
    [Write(ONE, [0], 0), Bind("f", ONE), Advance(c.racy + 1, 0), Stat("f"), Begin("f", k), OpenFile, ReadSome(1),
     Finish, Write(ONE, [1], 0)]
  }

  /** Two files. */
  const ONE := Ino(0, 1)
  const TWO := Ino(0, 2)

  const EMPTY := World(0, 0, map[], map[], {}, {}, map[], NoCheck)

  /** The memory after the first `n` events of that history. */
  function RacyWorld(c: Clock, n: nat): World
    requires n <= 9
  {
    var k := Key(ONE, 1, 0, 0);
    var t := if n >= 3 then c.racy + 1 else 0;
    World(t, 0,
          if n == 0 then map[] else map[ONE := Inode(if n == 9 then [1] else [0], 0, 0)],
          if n >= 2 then map["f" := ONE] else map[],
          {},
          if n >= 4 then {("f", k)} else {},
          if n >= 8 then map["f" := Entry(k, Sum([0]), c.racy + 1, false)] else map[],
          if n == 5 then Timed("f", k, c.racy + 1)
          else if n == 6 then Reading("f", k, c.racy + 1, ONE, [])
          else if n == 7 then Reading("f", k, c.racy + 1, ONE, [0])
          else NoCheck)
  }

  lemma RacyStep(c: Clock, n: nat)
    requires n < 9 && c.tick >= c.racy + 2
    ensures Enabled(c, RacyWorld(c, n), Racy(c)[n])
    ensures Apply(c, RacyWorld(c, n), Racy(c)[n]) == RacyWorld(c, n + 1)
  {
    if n == 6 {
      var r: Bytes, b: Bytes := [], [0];
      assert r + b[0..1] == b;
    }
  }

  lemma {:induction false} RacyRun(c: Clock, n: nat)
    requires n <= 9 && c.tick >= c.racy + 2
    ensures SteadyRun(c, RacyWorld(c, n), Racy(c)[n..], RacyWorld(c, 9))
    decreases 9 - n
  {
    if n < 9 {
      RacyStep(c, n);
      RacyRun(c, n + 1);
      assert Racy(c)[n..][1..] == Racy(c)[n + 1..];
    }
  }

  lemma LongTickFails(c: Clock)
    requires c.tick >= c.racy + 2 && Sum([0]) != Sum([1])
    ensures Init(c, EMPTY) && SteadyRun(c, EMPTY, Racy(c), RacyWorld(c, 9))
    ensures Answers(c, RacyWorld(c, 9), "f") && !RacyWorld(c, 9).memory["f"].written
    ensures RacyWorld(c, 9).memory["f"].digest != Fresh(RacyWorld(c, 9), "f")
  {
    RacyRun(c, 0);
    assert Racy(c)[0..] == Racy(c);
    assert RacyWorld(c, 0) == EMPTY;
  }

  ghost predicate Sound(c: Clock) {
    forall start, events, w, p ::
      Init(c, start) && SteadyRun(c, start, events, w) && Answers(c, w, p) && !w.memory[p].written
      ==> w.memory[p].digest == Fresh(w, p)
  }

  /** The window is exactly what the tick needs. */
  lemma SoundExactly(c: Clock)
    requires Sum([0]) != Sum([1])
    ensures Sound(c) <==> c.tick <= c.racy + 1
  {
    if c.tick <= c.racy + 1 {
      forall start, events, w, p |
        Init(c, start) && SteadyRun(c, start, events, w) && Answers(c, w, p) && !w.memory[p].written
        ensures w.memory[p].digest == Fresh(w, p)
      {
        TrustedIsFresh(c, start, events, w, p);
      }
    } else {
      LongTickFails(c);
    }
  }

  // ----- a directory moved away and back around a check's open -----

  /** The file at f is looked at, the directory it is in makes room for another,
      the check opens and reads the file of that one, and the first comes back. */
  function Detour(c: Clock): seq<Event> {
    var k := Key(ONE, 1, 0, 0);
    [Write(ONE, [0], 0), Bind("f", ONE), Write(TWO, [1], 0), Advance(c.racy + 1, c.racy + 1), Stat("f"),
     Swap("f", TWO), Begin("f", k), OpenFile, ReadSome(1), Finish, Swap("f", ONE)]
  }

  function DetourWorld(c: Clock, n: nat): World
    requires n <= 11
  {
    var k := Key(ONE, 1, 0, 0);
    var t := if n >= 4 then c.racy + 1 else 0;
    World(t, t,
          if n == 0 then map[]
          else if n <= 2 then map[ONE := Inode([0], 0, 0)]
          else map[ONE := Inode([0], 0, 0), TWO := Inode([1], 0, 0)],
          if n < 2 then map[] else if n < 6 || n == 11 then map["f" := ONE] else map["f" := TWO],
          if n >= 8 then {("f", ONE)} else {},
          if n >= 5 then {("f", k)} else {},
          if n >= 10 then map["f" := Entry(k, Sum([1]), c.racy + 1, false)] else map[],
          if n == 7 then Timed("f", k, c.racy + 1)
          else if n == 8 then Reading("f", k, c.racy + 1, TWO, [])
          else if n == 9 then Reading("f", k, c.racy + 1, TWO, [1])
          else NoCheck)
  }

  lemma DetourStep(c: Clock, n: nat)
    requires n < 11 && c.tick >= 1
    ensures Enabled(c, DetourWorld(c, n), Detour(c)[n])
    ensures Apply(c, DetourWorld(c, n), Detour(c)[n]) == DetourWorld(c, n + 1)
    ensures Returns(DetourWorld(c, n), Detour(c)[n]) <==> n == 10
  {
    if n == 8 {
      var r: Bytes, b: Bytes := [], [1];
      assert r + b[0..1] == b;
    }
  }

  lemma {:induction false} DetourRun(c: Clock, n: nat)
    requires n <= 11 && c.tick >= 1
    ensures Run(c, DetourWorld(c, n), Detour(c)[n..], DetourWorld(c, 11))
    decreases 11 - n
  {
    if n < 11 {
      DetourStep(c, n);
      DetourRun(c, n + 1);
      assert Detour(c)[n..][1..] == Detour(c)[n + 1..];
    }
  }

  /** However short the tick, the memory then trusts the digest of another file. */
  lemma DetourFails(c: Clock)
    requires c.tick >= 1 && Sum([0]) != Sum([1])
    ensures Init(c, EMPTY) && Run(c, EMPTY, Detour(c), DetourWorld(c, 11))
    ensures Answers(c, DetourWorld(c, 11), "f") && !DetourWorld(c, 11).memory["f"].written
    ensures DetourWorld(c, 11).memory["f"].digest != Fresh(DetourWorld(c, 11), "f")
  {
    DetourRun(c, 0);
    assert Detour(c)[0..] == Detour(c);
    assert DetourWorld(c, 0) == EMPTY;
  }

  // ----- the digests an extraction computed -----

  /** A write falls in the tick of a file whose digest an extraction left: the
      one thing the memory does not see. */
  ghost predicate Unseen(w: World, e: Event) {
    e.Write? && exists p :: p in w.memory && w.memory[p].written
                            && w.memory[p].key.ino == e.ino && w.memory[p].key.ctime == w.coarse
  }

  /** A run in which no write goes unseen. */
  ghost predicate SeenRun(c: Clock, w: World, events: seq<Event>, v: World)
    decreases |events|
  {
    if events == [] then w == v
    else Enabled(c, w, events[0]) && !Returns(w, events[0]) && !Unseen(w, events[0])
         && SeenRun(c, Apply(c, w, events[0]), events[1..], v)
  }

  ghost predicate WrittenOk(w: World) {
    forall p :: p in w.memory && w.memory[p].written && w.memory[p].key.ino in w.inodes
      && KeyOf(w, w.memory[p].key.ino) == w.memory[p].key
      ==> w.memory[p].digest == Sum(w.inodes[w.memory[p].key.ino].bytes)
  }

  lemma StepKeepsWritten(c: Clock, w: World, e: Event)
    requires Inv(c, w) && WrittenOk(w) && Enabled(c, w, e) && !Unseen(w, e)
    ensures WrittenOk(Apply(c, w, e))
  {
    var v := Apply(c, w, e);
    forall p | p in v.memory && v.memory[p].written && v.memory[p].key.ino in v.inodes
               && KeyOf(v, v.memory[p].key.ino) == v.memory[p].key
      ensures v.memory[p].digest == Sum(v.inodes[v.memory[p].key.ino].bytes)
    {
      if p in w.memory { assert EntryOk(c, w, p, w.memory[p]); }
    }
  }

  lemma {:induction false} SeenRunKeeps(c: Clock, w: World, events: seq<Event>, v: World)
    requires c.tick <= c.racy + 1
    requires Inv(c, w) && WrittenOk(w) && SeenRun(c, w, events, v)
    ensures Inv(c, v) && WrittenOk(v)
    decreases |events|
  {
    if events != [] {
      StepKeeps(c, w, events[0]);
      StepKeepsWritten(c, w, events[0]);
      SeenRunKeeps(c, Apply(c, w, events[0]), events[1..], v);
    }
  }

  /** Whatever an extraction left in the memory and whatever a check put there:
      what the memory answers is what hashing the file afresh answers. */
  lemma MemoryIsFresh(c: Clock, start: World, events: seq<Event>, w: World, p: Path)
    requires c.tick <= c.racy + 1
    requires Init(c, start) && SeenRun(c, start, events, w) && Answers(c, w, p)
    ensures w.memory[p].digest == Fresh(w, p)
  {
    SeenRunKeeps(c, start, events, w);
    assert EntryOk(c, w, p, w.memory[p]);
  }

  /** A rewrite of the same size in the tick of an extraction is not seen,
      however short the tick. */
  lemma SameTickIsUnseen(c: Clock, m: int)
    requires c.tick >= 1 && Sum([0]) != Sum([1])
    ensures var k := Key(ONE, 1, m, 0);
      var e := map["f" := Entry(k, Sum([0]), 0, true)];
      var w := World(0, 0, map[ONE := Inode([1], m, 0)], map["f" := ONE], {}, {}, e, NoCheck);
      && SteadyRun(c, EMPTY, [Write(ONE, [0], m), Bind("f", ONE), Remember("f", Sum([0])), Write(ONE, [1], m)], w)
      && Answers(c, w, "f") && w.memory["f"].digest != Fresh(w, "f")
  {
    var k := Key(ONE, 1, m, 0);
    var i0, i1 := map[ONE := Inode([0], m, 0)], map[ONE := Inode([1], m, 0)];
    var b, e := map["f" := ONE], map["f" := Entry(k, Sum([0]), 0, true)];
    var s1 := World(0, 0, i0, map[], {}, {}, map[], NoCheck);
    var s2 := s1.(bound := b);
    var s3 := s2.(memory := e);
    var s4 := s3.(inodes := i1);
    assert SteadyRun(c, s4, [], s4);
    assert Apply(c, s3, Write(ONE, [1], m)) == s4;
    assert SteadyRun(c, s3, [Write(ONE, [1], m)], s4);
    assert Apply(c, s2, Remember("f", Sum([0]))) == s3;
    assert SteadyRun(c, s2, [Remember("f", Sum([0])), Write(ONE, [1], m)], s4);
    assert Apply(c, s1, Bind("f", ONE)) == s2;
    assert SteadyRun(c, s1, [Bind("f", ONE), Remember("f", Sum([0])), Write(ONE, [1], m)], s4);
    assert Apply(c, EMPTY, Write(ONE, [0], m)) == s1;
  }
}
