/** The watch on the cache path: filesystem events become passes, through a
    buffer that holds one trigger. */
module Watching {
  import opened Names
  import opened Layout

  datatype Op = Create | Write | Remove | Rename | Chmod

  /** A change, by the directory its name is in and the operations the watcher
      folded into it. */
  datatype Event = Event(dir: string, ops: set<Op>)

  /** What the loop and its neighbours do, in the order it happens: an event or
      an error comes in, the controller takes the trigger, a pass sets the
      watched roots, the context ends, the watcher's channels close. */
  datatype Happening =
    | Saw(event: Event)
    | Error
    | Taken
    | Pointed(roots: set<string>)
    | Cancelled
    | Closed(cancelled: bool)

  /** The buffer, and the directories whose own writes do not count. */
  datatype View = View(full: bool, roots: set<string>)

  /** Every event but a write right below a root: no check looks at such a file. */
  predicate Forwarded(e: Event, roots: set<string>) {
    !(Op.Write in e.ops && e.dir in roots)
  }

  function Next(v: View, h: Happening): View {
    match h
    case Saw(e) => if Forwarded(e, v.roots) then v.(full := true) else v
    case Taken => v.(full := false)
    case Pointed(roots) => v.(roots := roots)
    case _ => v
  }

  function After(v: View, log: seq<Happening>): View {
    if log == [] then v else Next(After(v, log[..|log| - 1]), log[|log| - 1])
  }

  /** The i-th happening is an event that asks for a pass. */
  predicate Triggers(v: View, log: seq<Happening>, i: int) {
    0 <= i < |log| && log[i].Saw? && Forwarded(log[i].event, After(v, log[..i]).roots)
  }

  /** The controller took nothing from the k-th happening on. */
  predicate Untaken(log: seq<Happening>, k: int) {
    forall j :: 0 <= k <= j < |log| ==> !log[j].Taken?
  }

  /** An event asked for a pass and the controller has not come by since. */
  predicate Pending(v: View, log: seq<Happening>) {
    (v.full && Untaken(log, 0)) || exists i :: 0 <= i < |log| && Triggers(v, log, i) && Untaken(log, i + 1)
  }

  /** In every interleaving the buffer is full exactly when a trigger is pending:
      collapsing a burst loses none. */
  lemma {:induction false} FullExactly(v: View, log: seq<Happening>)
    ensures After(v, log).full <==> Pending(v, log)
    decreases |log|
  {
    if log != [] {
      var k := |log| - 1;
      var front := log[..k];
      FullExactly(v, front);
      assert forall i :: 0 <= i <= k ==> front[..i] == log[..i];
      assert forall i :: 0 <= i < k ==> (Triggers(v, front, i) <==> Triggers(v, log, i));
      if !log[k].Taken? {
        assert forall i :: 0 <= i <= k ==> (Untaken(front, i) <==> Untaken(log, i));
        assert Untaken(log, k + 1);
        assert Pending(v, log) <==> Pending(v, front) || Triggers(v, log, k);
      } else {
        assert forall i :: 0 <= i <= k ==> !Untaken(log, i);
        assert !Pending(v, log);
      }
    }
  }

  /** The first time after the i-th happening that the controller comes by. */
  lemma {:induction false} FirstTaken(log: seq<Happening>, i: int, j: int) returns (k: int)
    requires 0 <= i < j < |log| && log[j].Taken?
    ensures i < k < |log| && log[k].Taken? && Untaken(log[..k], i + 1)
    decreases j - i
  {
    if j0 :| i < j0 < j && log[j0].Taken? {
      k := FirstTaken(log, i, j0);
    } else {
      k := j;
    }
  }

  /** Once the buffer is empty, every event that asked for a pass was followed by
      the controller taking a trigger, so by a pass that starts after it. */
  lemma EveryTriggerIsTaken(v: View, log: seq<Happening>, i: int)
    requires Triggers(v, log, i) && !After(v, log).full
    ensures exists k :: i < k < |log| && log[k].Taken? && After(v, log[..k]).full
  {
    FullExactly(v, log);
    var j :| i < j < |log| && log[j].Taken?;
    var k := FirstTaken(log, i, j);
    FullExactly(v, log[..k]);
    assert log[..k][..i] == log[..i];
    assert Triggers(v, log[..k], i);
  }

  /** What fills the buffer, event by event: a write counts below a root and not
      right in it, and everything else counts everywhere. */
  lemma ForwardedExactly(roots: set<string>, dir: string, op: Op, more: set<Op>)
    ensures var full := After(View(false, roots), [Saw(Event(dir, {op}))]).full; full <==> op != Write || dir !in roots
    ensures After(View(false, roots), [Saw(Event(dir, {Op.Write} + more))]).full <==> dir !in roots
    ensures !After(View(true, roots), [Taken]).full && After(View(true, roots), [Saw(Event(dir, {op}))]).full
    ensures After(View(false, roots), [Pointed({dir}), Saw(Event(dir, {Op.Write}))]) == View(false, {dir})
  {
    assert After(View(true, roots), []) == View(true, roots) && After(View(false, roots), []) == View(false, roots);
    var log := [Pointed({dir}), Saw(Event(dir, {Op.Write}))];
    assert log[..1] == [Pointed({dir})];
    assert [Pointed({dir})][..0] == [];
  }

  // ----- the watched directories -----

  function Join(dir: string, name: string): string {
    dir + "/" + name
  }

  /** What a listing of the cache paths found; one that failed is not in it. */
  type Listing = map<string, Root>

  predicate IsWatched(listing: Listing, r: string, n: string) {
    r in listing && n in listing[r] && listing[r][n].Dir? && !IsTemporary(n)
  }

  /** The roots, and the directories directly under them that no extraction is
      writing. */
  function Wanted(roots: set<string>, listing: Listing): set<string> {
    roots + set r, n | r in roots && r in listing && n in listing[r] && IsWatched(listing, r, n) :: Join(r, n)
  }

  lemma WantedExactly(roots: set<string>, listing: Listing, d: string)
    ensures d in Wanted(roots, listing) <==>
      d in roots || exists r, n :: r in roots && r in listing && n in listing[r]
                                   && listing[r][n].Dir? && !IsTemporary(n) && d == r + "/" + n
  {
    if r, n :| r in roots && r in listing && n in listing[r] && listing[r][n].Dir? && !IsTemporary(n) && d == r + "/" + n {
      assert IsWatched(listing, r, n) && d == Join(r, n);
    }
    if d !in roots && d in Wanted(roots, listing) {
      var r, n :| r in roots && r in listing && n in listing[r] && IsWatched(listing, r, n) && d == Join(r, n);
      assert listing[r][n].Dir? && !IsTemporary(n) && d == r + "/" + n;
    }
  }

  datatype Ending = Stopped | Broken | Running

  /** Where the loop leaves a log: at its first cancellation or closing. */
  function Span(log: seq<Happening>): (k: nat)
    ensures k <= |log|
    ensures forall i :: 0 <= i < k ==> !log[i].Cancelled? && !log[i].Closed?
    ensures k < |log| ==> log[k].Cancelled? || log[k].Closed?
  {
    if log == [] || log[0].Cancelled? || log[0].Closed? then 0 else 1 + Span(log[1..])
  }

  class FSWatcher {
    var paths: set<string>
    var roots: set<string>
    var full: bool
    /** What the operating system watches. A watch dies with its directory. */
    var live: set<string>

    constructor ()
      ensures paths == {} && roots == {} && !full && live == {}
    {
      paths, roots, full, live := {}, {}, false, {};
    }

    function AsView(): View
      reads this
    {
      View(full, roots)
    }

    /** Forwards events until the context ends or the watcher closes, which is an
        error unless the context ended first. */
    method Start(log: seq<Happening>) returns (ending: Ending)
      modifies this`full, this`roots
      ensures AsView() == After(old(AsView()), log[..Span(log)])
      ensures ending.Running? <==> Span(log) == |log|
      ensures ending.Broken? <==> Span(log) < |log| && log[Span(log)] == Closed(false)
    {
      var i := 0;
      while i < |log|
        invariant 0 <= i <= |log|
        invariant forall j :: 0 <= j < i ==> !log[j].Cancelled? && !log[j].Closed?
        invariant AsView() == After(old(AsView()), log[..i])
      {
        SpanAt(log, i);
        var h := log[i];
        if h.Cancelled? { return Stopped; }
        if h.Closed? { return if h.cancelled then Stopped else Broken; }
        assert log[..i + 1][..i] == log[..i];
        if h.Taken? {
          full := false;
        } else if h.Pointed? {
          roots := h.roots;
        } else if h.Saw? && Forwarded(h.event, roots) && !full {
          full := true;
        }
        i := i + 1;
      }
      SpanAt(log, i);
      return Running;
    }

    static lemma {:induction false} SpanAt(log: seq<Happening>, i: nat)
      requires i <= |log| && forall j :: 0 <= j < i ==> !log[j].Cancelled? && !log[j].Closed?
      ensures Span(log) >= i
      ensures (i == |log| || log[i].Cancelled? || log[i].Closed?) ==> Span(log) == i
      decreases i
    {
    }

    /** Watches exactly the wanted directories. `failed` are the ones that could
        not be watched, which the next pass tries again. */
    method SetPaths(cachePaths: set<string>, listing: Listing) returns (failed: set<string>)
      modifies this`paths, this`roots, this`live
      ensures roots == cachePaths
      ensures failed <= Wanted(cachePaths, listing)
      ensures paths == (Wanted(cachePaths, listing) - failed) + (old(paths) * failed)
      ensures live == (old(live) - (old(paths) - Wanted(cachePaths, listing))) + (Wanted(cachePaths, listing) - failed)
      ensures failed == {} ==> paths == Wanted(cachePaths, listing) <= live
    {
      var want := Wanted(cachePaths, listing);
      failed := {};
      roots := cachePaths;
      var todo := paths;
      while todo != {}
        invariant todo <= old(paths) && todo <= paths && roots == cachePaths
        invariant paths == old(paths) - (old(paths) - todo - want)
        invariant live == old(live) - (old(paths) - todo - want)
      {
        var p :| p in todo;
        todo := todo - {p};
        if p !in want {
          live, paths := live - {p}, paths - {p};
        }
      }
      ghost var known, watched := paths, live;
      todo := want;
      while todo != {}
        invariant todo <= want && failed <= want - todo && roots == cachePaths
        invariant paths == known + (want - todo - failed)
        invariant live == watched + (want - todo - failed)
      {
        var p :| p in todo;
        todo := todo - {p};
        // Again, even when it is known: a sync replaces the directory, and the
        // watch dies with the old one.
        var added: bool := *;
        if added {
          live, paths := live + {p}, paths + {p};
        } else {
          failed := failed + {p};
        }
      }
    }
  }
}
