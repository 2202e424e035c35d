/** An image on its way into the cache: its layers become one stream of
    entries, which ends cleanly or breaks off, and the store takes the stream
    whole or not at all. */
module Image {
  import opened Basics
  import opened Names

  datatype Kind =
    | Regular | Contiguous | Directory | GlobalHeader
    | Symlink | HardLink | Device | Pipe | OtherKind

  datatype Entry = Entry(path: string, kind: Kind, body: Bytes)

  /** A layer: its entries, whether reading them reaches the archive's own end,
      whether the rest of the layer then verifies, and whether it closes. */
  datatype Layer =
    | Unopened
    | Layer(entries: seq<Entry>, ends: bool, verifies: bool, closes: bool)

  datatype Ending = Clean | Broken

  datatype Stream = Stream(entries: seq<Entry>, ending: Ending)

  const WHITEOUT := ".wh."

  predicate IsWhiteout(e: Entry) {
    WHITEOUT <= Base(e.path)
  }

  predicate AddsOnly(es: seq<Entry>) {
    forall i :: 0 <= i < |es| ==> !IsWhiteout(es[i])
  }

  predicate ReadsClean(l: Layer) {
    l.Layer? && l.ends && l.verifies && l.closes && AddsOnly(l.entries)
  }

  /** The entries before the first whiteout. */
  function Passed(es: seq<Entry>): (r: seq<Entry>)
    ensures r <= es && AddsOnly(r) && (AddsOnly(es) ==> r == es)
  {
    if es == [] || IsWhiteout(es[0]) then [] else [es[0]] + Passed(es[1..])
  }

  function StreamOf(layers: seq<Layer>): Stream {
    if layers == [] then Stream([], Clean)
    else if !ReadsClean(layers[0]) then
      Stream(if layers[0].Layer? then Passed(layers[0].entries) else [], Broken)
    else
      var s := StreamOf(layers[1..]);
      Stream(layers[0].entries + s.entries, s.ending)
  }

  /** All the entries of the layers that open, in layer order. */
  function Concat(layers: seq<Layer>): seq<Entry> {
    if layers == [] then [] else (if layers[0].Layer? then layers[0].entries else []) + Concat(layers[1..])
  }

  /** Layer by layer, in order. */
  lemma {:induction false} ConcatSplits(layers: seq<Layer>, more: seq<Layer>)
    ensures Concat(layers + more) == Concat(layers) + Concat(more)
  {
    if layers == [] {
      assert layers + more == more;
    } else {
      assert (layers + more)[1..] == layers[1..] + more;
      ConcatSplits(layers[1..], more);
    }
  }

  lemma ConcatOne(es: seq<Entry>, ends: bool, verifies: bool, closes: bool)
    ensures Concat([Layer(es, ends, verifies, closes)]) == es && Concat([Unopened]) == []
  {
    assert [Layer(es, ends, verifies, closes)][1..] == [] && [Unopened][1..] == [];
  }

  predicate AllClean(layers: seq<Layer>) {
    forall i :: 0 <= i < |layers| ==> ReadsClean(layers[i])
  }

  /** The stream ends cleanly exactly when every layer does, and then it is the
      layers one after the other. A broken one is their beginning, with nothing
      left out of it. */
  lemma {:induction false} StreamIsTheLayers(layers: seq<Layer>)
    ensures StreamOf(layers).ending.Clean? <==> AllClean(layers)
    ensures StreamOf(layers).entries <= Concat(layers) && AddsOnly(StreamOf(layers).entries)
    ensures AllClean(layers) ==> StreamOf(layers).entries == Concat(layers)
  {
    if layers != [] {
      StreamIsTheLayers(layers[1..]);
      var rest := layers[1..];
      assert forall i :: 0 <= i < |rest| ==> rest[i] == layers[i + 1];
      assert AllClean(layers) <==> ReadsClean(layers[0]) && AllClean(rest);
    }
  }

  lemma {:induction false} PassedStops(es: seq<Entry>, i: nat)
    requires i < |es| && AddsOnly(es[..i]) && IsWhiteout(es[i])
    ensures Passed(es) == es[..i]
  {
    if i > 0 {
      assert es[..i][0] == es[0];
      assert es[1..][..i - 1] == es[..i][1..];
      PassedStops(es[1..], i - 1);
      assert es[..i] == [es[0]] + es[1..][..i - 1];
    }
  }

  method CopyEntries(layer: Layer) returns (ok: bool, sent: seq<Entry>)
    ensures ok <==> ReadsClean(layer)
    ensures sent == if layer.Layer? then Passed(layer.entries) else []
  {
    sent := [];
    if layer.Unopened? { return false, []; }
    var i := 0;
    while i < |layer.entries|
      invariant 0 <= i <= |layer.entries|
      invariant sent == layer.entries[..i] && AddsOnly(sent)
    {
      var e := layer.entries[i];
      if IsWhiteout(e) {
        PassedStops(layer.entries, i);
        return false, sent;
      }
      sent := sent + [e];
      i := i + 1;
    }
    assert layer.entries[..i] == layer.entries;
    // The archive's end is not the layer's: its digest is checked past it.
    ok := layer.ends && layer.verifies && layer.closes;
  }

  /** The stream from the i-th layer on, after what came before. */
  lemma StreamFrom(layers: seq<Layer>, i: nat, before: seq<Entry>)
    requires i < |layers|
    ensures var l, s, t := layers[i], StreamOf(layers[i..]), StreamOf(layers[i + 1..]);
      if ReadsClean(l) then before + s.entries == (before + l.entries) + t.entries && s.ending == t.ending
      else s == Stream(if l.Layer? then Passed(l.entries) else [], Broken)
  {
    assert layers[i..][0] == layers[i] && layers[i..][1..] == layers[i + 1..];
  }

  method WriteEntries(layers: seq<Layer>) returns (s: Stream)
    ensures s == StreamOf(layers)
  {
    var entries: seq<Entry> := [];
    var i := 0;
    assert layers[0..] == layers;
    while i < |layers|
      invariant 0 <= i <= |layers|
      invariant StreamOf(layers) == Stream(entries + StreamOf(layers[i..]).entries, StreamOf(layers[i..]).ending)
    {
      StreamFrom(layers, i, entries);
      var ok, sent := CopyEntries(layers[i]);
      entries := entries + sent;
      if !ok { return Stream(entries, Broken); }
      i := i + 1;
    }
    return Stream(entries, Clean);
  }

  // ----- what the store takes -----

  /** A regular file, or one every reader takes for a regular file. */
  predicate IsFile(e: Entry) {
    e.kind.Regular? || e.kind.Contiguous?
  }

  /** The entries an extraction goes past without writing anything. */
  predicate IsSkipped(e: Entry) {
    e.kind.Directory? || e.kind.GlobalHeader?
  }

  predicate Refused(e: Entry) {
    (!IsFile(e) && !IsSkipped(e)) || (IsFile(e) && !Nameable(Base(e.path)))
  }

  predicate Taken(e: Entry) {
    IsFile(e) && Base(e.path) != SENTINEL
  }

  /** The files of a stream, under their base names, in stream order. An entry
      carrying the sentinel's name is not one. */
  function Kept(es: seq<Entry>): seq<Body> {
    if es == [] then []
    else
      var e := es[|es| - 1];
      Kept(es[..|es| - 1]) + if Taken(e) then [Body(Base(e.path), e.body)] else []
  }

  /** Every entry can be written: none refused, no file name twice. */
  predicate Writable(es: seq<Entry>) {
    (forall i :: 0 <= i < |es| ==> !Refused(es[i])) && Distinct(NamesOf(Kept(es)))
  }

  /** What makes an image one the store publishes. */
  predicate Acceptable(es: seq<Entry>) {
    Writable(es) && Kept(es) != []
  }

  lemma {:induction false} KeptGrows(es: seq<Entry>, n: nat)
    requires n <= |es|
    ensures Kept(es[..n]) <= Kept(es)
    decreases |es|
  {
    if n == |es| {
      assert es[..n] == es;
    } else {
      KeptGrows(es[..|es| - 1], n);
      assert es[..|es| - 1][..n] == es[..n];
    }
  }

  /** Where an entry that is taken lands among the files: after all that come
      before it. */
  lemma KeptAt(es: seq<Entry>, i: nat)
    requires i < |es| && Taken(es[i])
    ensures |Kept(es[..i])| < |Kept(es[..i + 1])| <= |Kept(es)|
    ensures Kept(es)[|Kept(es[..i])|] == Body(Base(es[i].path), es[i].body)
  {
    assert es[..i + 1][..i] == es[..i];
    KeptGrows(es, i + 1);
  }

  lemma {:induction false} KeptFrom(es: seq<Entry>, k: nat) returns (i: nat)
    requires k < |Kept(es)|
    ensures i < |es| && Taken(es[i]) && |Kept(es[..i])| == k
    ensures Kept(es)[k] == Body(Base(es[i].path), es[i].body)
    decreases |es|
  {
    var last := |es| - 1;
    if k < |Kept(es[..last])| {
      i := KeptFrom(es[..last], k);
      assert es[..last][..i] == es[..i];
    } else {
      i := last;
    }
  }

  lemma KeptInOrder(es: seq<Entry>, i: nat, j: nat)
    requires i < j < |es| && Taken(es[i]) && Taken(es[j])
    ensures |Kept(es[..i])| < |Kept(es[..j])|
  {
    KeptAt(es[..j], i);
    assert es[..j][..i] == es[..i];
  }

  /** No file name comes twice exactly when no two files have the same one. */
  lemma DistinctExactly(es: seq<Entry>)
    ensures Distinct(NamesOf(Kept(es))) <==>
      forall i, j :: 0 <= i < j < |es| && Taken(es[i]) && Taken(es[j]) ==> Base(es[i].path) != Base(es[j].path)
  {
    if Distinct(NamesOf(Kept(es))) {
      forall i, j | 0 <= i < j < |es| && Taken(es[i]) && Taken(es[j])
        ensures Base(es[i].path) != Base(es[j].path)
      {
        KeptAt(es, i);
        KeptAt(es, j);
        KeptInOrder(es, i, j);
        assert NamesOf(Kept(es))[|Kept(es[..i])|] != NamesOf(Kept(es))[|Kept(es[..j])|];
      }
    } else {
      var names := NamesOf(Kept(es));
      var k, l :| 0 <= k < l < |names| && names[k] == names[l];
      var i := KeptFrom(es, k);
      var j := KeptFrom(es, l);
      if j < i { KeptInOrder(es, j, i); }
      assert Taken(es[i]) && Taken(es[j]) && Base(es[i].path) == Base(es[j].path);
    }
  }

  /** Which streams the store takes, by the kinds and the names of their entries. */
  lemma AcceptableByKinds(es: seq<Entry>)
    ensures Acceptable(es) <==>
      && (forall i :: 0 <= i < |es| ==>
            var k, b := es[i].kind, Base(es[i].path);
            && (k == Regular || k == Contiguous || k == Directory || k == GlobalHeader)
            && (k == Regular || k == Contiguous ==> b != "." && b != ".." && b != "/"))
      && (forall i, j :: 0 <= i < j < |es| ==>
            (es[i].kind == Regular || es[i].kind == Contiguous) && (es[j].kind == Regular || es[j].kind == Contiguous) ==>
              Base(es[i].path) != Base(es[j].path) || Base(es[i].path) == ".image-cache-agent.json")
      && exists i :: 0 <= i < |es|
           && (es[i].kind == Regular || es[i].kind == Contiguous) && Base(es[i].path) != ".image-cache-agent.json"
  {
    DistinctExactly(es);
    forall i | 0 <= i < |es|
      ensures Refused(es[i]) <==>
        var k, b := es[i].kind, Base(es[i].path);
        !(&& (k == Regular || k == Contiguous || k == Directory || k == GlobalHeader)
          && (k == Regular || k == Contiguous ==> b != "." && b != ".." && b != "/"))
    {
    }
    if Kept(es) != [] {
      var i := KeptFrom(es, 0);
    }
    if i :| 0 <= i < |es| && (es[i].kind == Regular || es[i].kind == Contiguous)
            && Base(es[i].path) != ".image-cache-agent.json" {
      KeptAt(es, i);
    }
  }

  /** Every kept name is one the content check looks up. */
  lemma {:induction false} KeptNames(es: seq<Entry>, k: nat)
    requires (forall i :: 0 <= i < |es| ==> !Refused(es[i])) && k < |Kept(es)|
    ensures IsFileName(Kept(es)[k].name) && Kept(es)[k].name != SENTINEL
    decreases |es|
  {
    var last := es[|es| - 1];
    if k < |Kept(es[..|es| - 1])| {
      KeptNames(es[..|es| - 1], k);
    } else {
      RecordedNamesPass(last.path);
    }
  }

  /** An entry that cannot be written condemns the whole stream. */
  lemma UnwritableCondemns(es: seq<Entry>, n: nat)
    requires n <= |es| && !Writable(es[..n])
    ensures !Writable(es)
  {
    if forall i :: 0 <= i < n ==> !Refused(es[..n][i]) {
      KeptGrows(es, n);
      var a, b := NamesOf(Kept(es[..n])), NamesOf(Kept(es));
      var i, j :| 0 <= i < j < |a| && a[i] == a[j];
      assert b[i] == a[i] && b[j] == a[j];
    } else {
      var i :| 0 <= i < n && Refused(es[..n][i]);
      assert Refused(es[i]);
    }
  }
}
