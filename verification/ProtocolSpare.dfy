/** The file an adoption writes to may be a file of the image. Exactly then a
    directory that State calls Complete may be something else than what its
    extraction wrote. */
module ProtocolSpare {
  import opened Basics
  import opened Protocol
  import opened ProtocolInvariant
  import opened ProtocolSafety
  import opened ProtocolProgress
  import Names

  /** In every run, a directory of this image that State calls Complete holds
      all the files its extraction wrote. */
  ghost predicate AlwaysWhole(image: seq<Body>) {
    forall start, steps, s, n :: Init(start) && Run(start, steps, s) && CompleteFrom(s, n, image) ==>
      s.dirs[s.names[Resource(n)]].files == AllFiles(image)
  }

  /** State calls the directory Complete, and an extraction of the image made it. */
  predicate CompleteFrom(s: State, n: string, image: seq<Body>) {
    && StateOf(s, n) == Complete
    && s.dirs[s.names[Resource(n)]].author.Some?
    && var w := s.dirs[s.names[Resource(n)]].author.value;
       w in s.procs && s.procs[w].job.Write? && s.procs[w].job.image == image
  }

  lemma ListedExactly(image: seq<Body>, f: string)
    ensures f in NamesOf(image) <==> f in AllFiles(image)
  {
    if f in AllFiles(image) {
      FilesListed(image, |image|, f);
      var k :| 0 <= k < |image| && image[k].name == f;
      assert NamesOf(image)[k] == f;
    }
    ListedIsThere(image);
  }

  /** For an image the store publishes, that is so exactly when no file of it has
      the name Adopt writes to. */
  lemma WholeExactly(image: seq<Body>)
    requires Distinct(NamesOf(image)) && image != []
    ensures AlwaysWhole(image) <==> Names.SPARE !in NamesOf(image)
  {
    ListedExactly(image, Names.SPARE);
    if Names.SPARE !in NamesOf(image) {
      forall start, steps, s, n | Init(start) && Run(start, steps, s) && CompleteFrom(s, n, image)
        ensures s.dirs[s.names[Resource(n)]].files == AllFiles(image)
      {
        CompleteMeansOneExtraction(start, steps, s, n);
      }
    } else {
      var steps, s := SpareRun(image);
      assert CompleteFrom(s, "a", image);
    }
  }

  // ----- the run that fails -----

  const NOBODY := State(map[], map[], map[], map[], map[], {}, 0, 0)

  /** Extract has created, opened and locked its temporary, in an empty cache path. */
  function Locked(image: seq<Body>): State {
    var tmp := Temporary("a", 0);
    State(map[tmp := 0], map[0 := Draft(0, tmp, map[], NoMarker)], map[0 := 0],
          map[0 := Proc(Write("a", image, COMMAND), Writing(tmp, 0, 0, None))], map[], {}, 1, 1)
  }

  function Made(image: seq<Body>): State {
    Do(Do(NOBODY, 0, Spawn(Write("a", image, COMMAND))), 0, Mkdir)
  }

  lemma MakesFirst(image: seq<Body>) returns (steps: seq<Step>)
    ensures Run(NOBODY, steps, Made(image))
  {
    var job := Write("a", image, COMMAND);
    SoloTwo(NOBODY, 0, Spawn(job), Mkdir);
    steps := [Step(0, Spawn(job)), Step(0, Mkdir)];
  }

  lemma LocksFirst(image: seq<Body>) returns (steps: seq<Step>)
    ensures Run(NOBODY, steps, Locked(image))
  {
    var tmp := Temporary("a", 0);
    var s2 := Made(image);
    var s4 := Do(Do(s2, 0, Open(tmp)), 0, Flock);
    assert Do(s4, 0, Recheck) == Locked(image);
    steps := MakesFirst(image);
    SoloTwo(s2, 0, Open(tmp), Flock);
    SoloOne(s4, 0, Recheck);
    RunThen(NOBODY, steps, s2, [Step(0, Open(tmp)), Step(0, Flock)], s4);
    steps := steps + [Step(0, Open(tmp)), Step(0, Flock)];
    RunThen(NOBODY, steps, s4, [Step(0, Recheck)], Locked(image));
    steps := steps + [Step(0, Recheck)];
  }

  /** A step changes no other process. */
  lemma OnlyItself(s: State, p: Pid, a: Action)
    requires Enabled(s, p, a)
    ensures forall q :: q != p ==> (q in Do(s, p, a).procs <==> q in s.procs)
    ensures forall q :: q != p && q in s.procs ==> Do(s, p, a).procs[q] == s.procs[q]
  {
  }

  lemma {:induction false} SoloOnlyItself(s: State, p: Pid, steps: seq<Step>, t: State)
    requires Solo(s, p, steps, t)
    ensures forall q :: q != p ==> (q in t.procs <==> q in s.procs)
    decreases |steps|
  {
    if steps != [] {
      OnlyItself(s, p, steps[0].action);
      SoloOnlyItself(Do(s, p, steps[0].action), p, steps[1..], t);
    }
  }

  /** Process 1 has read the sentinel of the resource and begun to write its own
      file beside it. */
  lemma AdoptsHalf(s: State) returns (steps: seq<Step>, t: State)
    requires 1 !in s.procs && (forall q :: q in s.procs ==> !Claims(s.procs[q], "a"))
    requires Resource("a") in s.names && s.names[Resource("a")] in s.dirs
    requires s.dirs[s.names[Resource("a")]].marker.Whole?
    ensures Run(s, steps, t) && t.names == s.names
    ensures var i := s.names[Resource("a")];
      t.dirs == s.dirs[i := s.dirs[i].(files := s.dirs[i].files - {Names.SPARE}, spare := Torn)]
    ensures forall q :: q in s.procs ==> q in t.procs && t.procs[q] == s.procs[q]
  {
    var u := Do(s, 1, Spawn(Adopt("a")));
    var v := Do(u, 1, ReadMarker);
    t := Do(v, 1, BeginSpare);
    SoloTwo(s, 1, Spawn(Adopt("a")), ReadMarker);
    SoloOne(v, 1, BeginSpare);
    RunThen(s, [Step(1, Spawn(Adopt("a"))), Step(1, ReadMarker)], v, [Step(1, BeginSpare)], t);
    steps := [Step(1, Spawn(Adopt("a"))), Step(1, ReadMarker)] + [Step(1, BeginSpare)];
  }

  /** From an empty cache path, the image is extracted. */
  lemma ExtractsFirst(image: seq<Body>) returns (steps: seq<Step>, t: State)
    requires Distinct(NamesOf(image)) && image != []
    ensures Run(NOBODY, steps, t) && Extracted(Locked(image), t, 0) && 1 !in t.procs
    ensures forall q :: q in t.procs ==> !Claims(t.procs[q], "a")
  {
    var a := LocksFirst(image);
    var u := Locked(image);
    var b: seq<Step>;
    b, t := LeftAloneItCompletes(NOBODY, a, u, 0);
    SoloOnlyItself(u, 0, b, t);
    RunThen(NOBODY, a, u, b, t);
    steps := a + b;
  }

  /** Then an adoption gets as far as creating its file. State finds every name,
      and calls Complete a directory in which one of the files is torn and not the
      image's. */
  lemma SpareRun(image: seq<Body>) returns (steps: seq<Step>, s: State)
    requires Distinct(NamesOf(image)) && Names.SPARE in NamesOf(image)
    ensures Init(NOBODY) && Run(NOBODY, steps, s) && CompleteFrom(s, "a", image)
    ensures var d := s.dirs[s.names[Resource("a")]];
      d.files != AllFiles(image) && Names.SPARE !in d.files && Finds(d, Names.SPARE) && d.spare == Torn
  {
    var a, v := ExtractsFirst(image);
    var c: seq<Step>;
    c, s := AdoptsHalf(v);
    RunThen(NOBODY, a, v, c, s);
    steps := a + c;
    ListedExactly(image, Names.SPARE);
    ListedIsThere(image);
  }
}
