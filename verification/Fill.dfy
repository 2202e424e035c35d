/** How a directory gets its content: the owner is asked for, the image read, and
    the stream of its layers extracted. */
module Filling {
  import opened Basics
  import opened Names
  import opened Layout
  import opened Image
  import opened Disks
  import opened ContentCheck
  import opened Stores

  /** What a source resolved to: the manifest's digest and the layers' diff IDs. */
  datatype Identity = Identity(digest: string, layers: seq<string>)

  /** What a pull answers: a failure, or an image whose layers can be listed or
      not, and whose stream closes or not. */
  datatype Pulled = NotPulled | Pulled(id: Identity, listed: bool, layers: seq<Layer>, closes: bool)

  /** The registry, or an archive: it answers for a source, or fails. */
  datatype Puller = Puller(pull: string -> Pulled, resolve: string -> Option<Identity>)

  function Content(p: Pulled): Stream
    requires p.Pulled?
  {
    if p.listed then StreamOf(p.layers) else Stream([], Broken)
  }

  function RecordFor(owner: string, source: string, id: Identity): Record {
    Record(id.digest, owner, source, id.layers, [])
  }

  /** The image can be published as it is. */
  predicate Publishable(p: Pulled) {
    p.Pulled? && Content(p).ending.Clean? && Acceptable(Content(p).entries)
  }

  predicate Fillable(node: Option<Node>, owner: string, p: Pulled) {
    Replaceable(node, owner) && Publishable(p)
  }

  function Filled(owner: string, source: string, p: Pulled): Node
    requires p.Pulled?
  {
    Dir(Published(RecordFor(owner, source, p.id), Kept(Content(p).entries)))
  }

  /** Whether there is a directory to cache into. */
  method CheckCachePath(disk: Disk) returns (ok: bool)
    modifies disk`faults
    ensures disk.faults >= old(disk.faults)
    ensures ok ==> disk.mounted
    ensures disk.faults == old(disk.faults) ==> (ok <==> disk.mounted)
  {
    var looked := disk.Try();
    ok := looked && disk.mounted;
  }

  /** `heard` is whether the caller hears of a stream that did not close, which
      it does only after a success; `asked` whether the source was pulled. */
  method Fill(store: Store, puller: Puller, name: string, source: string, owner: string)
    returns (ok: bool, asked: bool, heard: bool)
    requires store.Valid() && IsResourceName(name)
    modifies store.disk`root, store.disk`metas, store.disk`locked, store.disk`faults, store.sums
    ensures store.Valid() && store.disk.locked == old(store.disk.locked) && store.disk.faults >= old(store.disk.faults)
    ensures ok ==> Fillable(old(store.NodeAt(name)), owner, puller.pull(source))
    ensures ok ==> store.disk.root == old(store.disk.root)[name := Filled(owner, source, puller.pull(source))]
    ensures !ok ==> Store.Aimed(old(store.disk.root), store.disk.root, name)
    ensures !ok ==> Remains(old(store.NodeAt(name)), store.NodeAt(name))
    ensures store.NodeAt(name) != old(store.NodeAt(name)) ==> Fillable(old(store.NodeAt(name)), owner, puller.pull(source))
    ensures store.disk.faults == old(store.disk.faults) ==>
      (ok <==> Fillable(old(store.NodeAt(name)), owner, puller.pull(source)))
    ensures store.disk.faults == old(store.disk.faults) && !ok ==> store.disk.root == old(store.disk.root)
    ensures asked ==> Replaceable(old(store.NodeAt(name)), owner)
    ensures store.disk.faults == old(store.disk.faults) ==> (asked <==> Replaceable(old(store.NodeAt(name)), owner))
    ensures heard <==> ok && !puller.pull(source).closes
  {
    ok, asked, heard := false, false, false;
    var may := store.MayReplace(name, owner);
    Store.Undisturbed(store.disk.root, name);
    if !may { return; }
    asked := true;
    var pulled := puller.pull(source);
    if pulled.NotPulled? { return; }
    var stream := Stream([], Broken);
    if pulled.listed { stream := WriteEntries(pulled.layers); }
    var r := store.Extract(name, RecordFor(owner, source, pulled.id), stream);
    ok := r.Done?;
    heard := ok && !pulled.closes;
  }

  // ----- when a fill succeeds, and what it leaves -----

  /** Every layer reads to a clean end, and the entries of all of them, one
      layer after the other, delete nothing, carry neither link nor device, have
      a file name each when they are files, never the same one twice, and at
      least one to keep. */
  predicate WellFormed(layers: seq<Layer>) {
    && AllClean(layers)
    && (forall i :: 0 <= i < |Concat(layers)| ==> !Refused(Concat(layers)[i]))
    && Distinct(NamesOf(Kept(Concat(layers))))
    && Kept(Concat(layers)) != []
  }

  /** A fill succeeds exactly for a well-formed image, and its files are the
      regular files of its layers, in layer order. */
  lemma PublishableExactly(p: Pulled)
    ensures Publishable(p) <==> p.Pulled? && p.listed && WellFormed(p.layers)
    ensures Publishable(p) ==> Content(p).entries == Concat(p.layers)
  {
    if p.Pulled? && p.listed { StreamIsTheLayers(p.layers); }
  }

  /** The directory a fill leaves holds those files by base name, each with its
      bytes, and nothing else, under a sentinel that lists them in layer order. */
  lemma FilledHolds(owner: string, source: string, p: Pulled)
    requires Publishable(p)
    ensures var kept, f := Kept(Concat(p.layers)), Filled(owner, source, p).folder;
      && (forall k :: 0 <= k < |kept| ==> kept[k].name in f.items && f.items[kept[k].name] == Item.Regular(kept[k].bytes))
      && (forall b :: b in f.items ==> b in NamesOf(kept))
      && f.marker == Marker(Json(Sentinel(
           Record(p.id.digest, owner, source, p.id.layers, Listed(kept)), NamesOf(kept))))
  {
    PublishableExactly(p);
    var kept, f := Kept(Concat(p.layers)), Filled(owner, source, p).folder;
    forall k | 0 <= k < |kept|
      ensures kept[k].name in f.items && f.items[kept[k].name] == Item.Regular(kept[k].bytes)
    {
      FilesHold(kept, |kept|, k);
    }
    forall b | b in f.items
      ensures b in NamesOf(kept)
    {
      FilesListed(kept, |kept|, b);
      var k :| 0 <= k < |kept| && kept[k].name == b;
      assert NamesOf(kept)[k] == b;
    }
  }

  /** When a fill succeeds, by the kinds and the names of the entries: every layer
      reads, verifies and closes, no entry is a whiteout, a link, a device or
      anything but a file, a directory or a header of the archive, every file has
      a name, no two the same but the sentinel's, and there is one to keep. */
  lemma PublishableByKinds(p: Pulled)
    ensures Publishable(p) <==>
      && p.Pulled? && p.listed
      && (forall k :: 0 <= k < |p.layers| ==>
            var l := p.layers[k];
            l.Layer? && l.ends && l.verifies && l.closes && forall e :: e in l.entries ==> !(".wh." <= Base(e.path)))
      && var es := Concat(p.layers);
         && (forall i :: 0 <= i < |es| ==>
               var k, b := es[i].kind, Base(es[i].path);
               && (k == Kind.Regular || k == Contiguous || k == Directory || k == GlobalHeader)
               && (k == Kind.Regular || k == Contiguous ==> b != "." && b != ".." && b != "/"))
         && (forall i, j :: 0 <= i < j < |es| ==>
               (es[i].kind == Kind.Regular || es[i].kind == Contiguous)
               && (es[j].kind == Kind.Regular || es[j].kind == Contiguous) ==>
                 Base(es[i].path) != Base(es[j].path) || Base(es[i].path) == ".image-cache-agent.json")
         && exists i :: 0 <= i < |es|
              && (es[i].kind == Kind.Regular || es[i].kind == Contiguous)
              && Base(es[i].path) != ".image-cache-agent.json"
  {
    PublishableExactly(p);
    if p.Pulled? && p.listed {
      AcceptableByKinds(Concat(p.layers));
      forall k | 0 <= k < |p.layers|
        ensures var l := p.layers[k];
          ReadsClean(l) <==> l.Layer? && l.ends && l.verifies && l.closes && forall e :: e in l.entries ==> !(".wh." <= Base(e.path))
      {
      }
    }
  }

  /** What a fill leaves, by the entries: a file is there with these bytes exactly
      when an entry of that base name is a file with these bytes, and nothing else
      is there. */
  lemma FilledByEntries(owner: string, source: string, p: Pulled, b: string, bytes: Bytes)
    requires Publishable(p)
    ensures var es, f := Concat(p.layers), Filled(owner, source, p).folder;
      && (b in f.items ==> f.items[b].Regular?)
      && (b in f.items && f.items[b] == Item.Regular(bytes) <==>
            exists i :: 0 <= i < |es| && (es[i].kind == Kind.Regular || es[i].kind == Contiguous)
              && Base(es[i].path) == b && b != ".image-cache-agent.json" && es[i].body == bytes)
  {
    FilledHolds(owner, source, p);
    PublishableExactly(p);
    var es, f := Concat(p.layers), Filled(owner, source, p).folder;
    if b in f.items {
      var k :| 0 <= k < |Kept(es)| && NamesOf(Kept(es))[k] == b;
      var i := KeptFrom(es, k);
      assert Kept(es)[k].name == b;
    }
    if i :| 0 <= i < |es| && Taken(es[i]) && Base(es[i].path) == b && es[i].body == bytes {
      KeptAt(es, i);
      assert Kept(es)[|Kept(es[..i])|].name == b;
    }
  }

  /** The sentinel a fill leaves: the record it was given, and for every file its
      name, its digest and its size. */
  lemma FilledSentinel(owner: string, source: string, p: Pulled)
    requires Publishable(p)
    ensures var f := Filled(owner, source, p).folder;
      && f.marker.Marker? && f.marker.text.Json?
      && var sn := f.marker.text.sn;
         && sn.record.owner == owner && sn.record.source == source
         && sn.record.digest == p.id.digest && sn.record.layers == p.id.layers
         && |sn.files| == |sn.record.content|
         && (forall k :: 0 <= k < |sn.files| ==>
               var c := sn.record.content[k];
               && c.name == sn.files[k] && c.name in f.items && f.items[c.name].Regular?
               && c.digest == Sum(f.items[c.name].bytes) && c.size == |f.items[c.name].bytes|)
         && (forall b :: b in f.items ==> b in sn.files)
  {
    FilledHolds(owner, source, p);
  }

  /** And it lists them in the order of their entries. */
  lemma FilledInOrder(owner: string, source: string, p: Pulled, i: nat, j: nat) returns (k: nat, l: nat)
    requires Publishable(p) && i < j < |Concat(p.layers)|
    requires var e := Concat(p.layers)[i];
      (e.kind == Kind.Regular || e.kind == Contiguous) && Base(e.path) != ".image-cache-agent.json"
    requires var e := Concat(p.layers)[j];
      (e.kind == Kind.Regular || e.kind == Contiguous) && Base(e.path) != ".image-cache-agent.json"
    ensures var m := Filled(owner, source, p).folder.marker;
      && m.Marker? && m.text.Json? && k < l < |m.text.sn.files|
      && m.text.sn.files[k] == Base(Concat(p.layers)[i].path) && m.text.sn.files[l] == Base(Concat(p.layers)[j].path)
  {
    var es := Concat(p.layers);
    PublishableExactly(p);
    KeptAt(es, i);
    KeptAt(es, j);
    KeptInOrder(es, i, j);
    k, l := |Kept(es[..i])|, |Kept(es[..j])|;
  }

  /** For every store, what a fill leaves is complete and bears its record. */
  lemma FilledIsComplete(checks: bool, owner: string, source: string, p: Pulled)
    requires Publishable(p)
    ensures var node := Some(Filled(owner, source, p));
      && StateOf(checks, node) == Ok(Complete)
      && RecordOf(node).owner == owner && RecordOf(node).layers == p.id.layers
      && RecordOf(node).source == source && RecordOf(node).digest == p.id.digest
  {
    Store.AcceptableIsStorable(Content(p).entries);
    PublishedIsComplete(checks, RecordFor(owner, source, p.id), Kept(Content(p).entries));
  }
}
