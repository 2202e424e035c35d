/** What is on the disk under a cache path, what a sentinel records of it, and
    what the store reads off it. */
module Layout {
  import opened Basics
  import opened Names

  /** A file a directory has to hold, and what its content must be. */
  datatype File = File(name: string, digest: string, size: nat)

  datatype Record = Record(
    digest: string, owner: string, source: string, layers: seq<string>, content: seq<File>)

  datatype Sentinel = Sentinel(record: Record, files: seq<string>)

  /** What the sentinel file holds: a value that parses, or anything else. */
  datatype Text = Json(sn: Sentinel) | Garbage

  /** The sentinel's place in a directory: nothing, a file that can be read, one
      that can only be looked at, or one that cannot even be looked at. */
  datatype Marker = NoMarker | Marker(text: Text) | Unreadable | Denied

  /** What a stat finds at a path under a directory: a regular file, or
      something else, which may be a link to nothing. */
  datatype Item = Regular(bytes: Bytes) | Special(there: bool)

  datatype Folder = Folder(items: map<string, Item>, marker: Marker)

  datatype Target = Dangling | Loop | ToFile | ToFolder(folder: Folder)

  /** An entry of the cache path. */
  datatype Node = Flat | Odd | Link(to: Target) | Dir(folder: Folder)

  type Root = map<string, Node>

  datatype State = Absent | Incomplete | Complete

  /** An answer, or an error. */
  datatype Answer<+T> = Ok(value: T) | Failed

  function At(root: Root, name: string): Option<Node> {
    if name in root then Some(root[name]) else None
  }

  /** The directory a path under the name goes through, links followed. */
  function Through(node: Option<Node>): Option<Folder> {
    match node
    case Some(Dir(f)) => Some(f)
    case Some(Link(ToFolder(f))) => Some(f)
    case _ => None
  }

  // ----- the content check -----

  /** The file holds the bytes it was recorded with. */
  predicate Matches(f: Folder, file: File) {
    && IsFileName(file.name) && file.name in f.items
    && f.items[file.name].Regular?
    && |f.items[file.name].bytes| == file.size
    && Sum(f.items[file.name].bytes) == file.digest
  }

  predicate AllMatch(f: Folder, content: seq<File>) {
    forall i :: 0 <= i < |content| ==> Matches(f, content[i])
  }

  /** A stat of the name under the directory succeeds. */
  predicate Exists(f: Folder, name: string) {
    if name in {"", ".", ".."} then true
    else if name == SENTINEL then !f.marker.NoMarker? && !f.marker.Denied?
    else name in f.items && (f.items[name].Regular? || f.items[name].there)
  }

  predicate AllExist(f: Folder, names: seq<string>) {
    forall i :: 0 <= i < |names| ==> Exists(f, names[i])
  }

  /** Whether the directory is complete by a sentinel that parses. */
  predicate IsComplete(checks: bool, f: Folder, sn: Sentinel) {
    if checks && sn.record.content != [] then AllMatch(f, sn.record.content) else AllExist(f, sn.files)
  }

  /** State, with every listed file hashed afresh when the store checks content. */
  function StateOf(checks: bool, node: Option<Node>): Answer<State> {
    match node
    case None => Ok(Absent)
    case Some(Link(Dangling)) => Ok(Absent)
    case _ =>
      var f := Through(node);
      if f.None? then Ok(Incomplete)
      else
        match f.value.marker
        case NoMarker => Ok(Incomplete)
        case Marker(Garbage) => Ok(Incomplete)
        case Marker(Json(sn)) => if IsComplete(checks, f.value, sn) then Ok(Complete) else Ok(Incomplete)
        case _ => Failed
  }

  /** What State says of each kind of entry, spelled out. A directory counts
      through a link too. */
  lemma StateExactly(checks: bool, node: Option<Node>)
    ensures StateOf(checks, node) == Ok(Absent) <==> node.None? || node == Some(Link(Dangling))
    ensures StateOf(checks, node).Failed? <==>
      exists f: Folder :: (node == Some(Dir(f)) || node == Some(Link(ToFolder(f)))) && (f.marker.Unreadable? || f.marker.Denied?)
    ensures StateOf(checks, node) == Ok(Complete) ==>
      exists f: Folder, sn :: (node == Some(Dir(f)) || node == Some(Link(ToFolder(f)))) && f.marker == Marker(Json(sn))
  {
    if Through(node).Some? {
      var f := Through(node).value;
      assert node == Some(Dir(f)) || node == Some(Link(ToFolder(f)));
      if HasRecord(node) { assert f.marker == Marker(Json(SentinelOf(node))); }
    }
  }

  /** A store that checks content calls a directory complete exactly when every
      file its sentinel records is a regular file directly in it, of the recorded
      size and with the recorded digest. */
  lemma CheckedExactly(node: Option<Node>, f: Folder, sn: Sentinel)
    requires node == Some(Dir(f)) || node == Some(Link(ToFolder(f)))
    requires f.marker == Marker(Json(sn)) && sn.record.content != []
    ensures StateOf(true, node) == Ok(Complete) <==>
      forall i :: 0 <= i < |sn.record.content| ==>
        var c := sn.record.content[i];
        && c.name != "" && c.name != "." && c.name != ".." && '/' !in c.name
        && c.name in f.items && f.items[c.name].Regular?
        && |f.items[c.name].bytes| == c.size && Sum(f.items[c.name].bytes) == c.digest
    ensures StateOf(true, node) == Ok(Complete) || StateOf(true, node) == Ok(Incomplete)
  {
    forall i | 0 <= i < |sn.record.content|
      ensures var c := sn.record.content[i];
        Matches(f, c) <==>
          && c.name != "" && c.name != "." && c.name != ".." && '/' !in c.name
          && c.name in f.items && f.items[c.name].Regular?
          && |f.items[c.name].bytes| == c.size && Sum(f.items[c.name].bytes) == c.digest
    {
      NamesExactly(sn.record.content[i].name);
    }
  }

  /** A store that does not, or whose sentinel records no content, goes by the
      names: each has to lead to something, links followed. */
  lemma NamedExactly(checks: bool, node: Option<Node>, f: Folder, sn: Sentinel)
    requires node == Some(Dir(f)) || node == Some(Link(ToFolder(f)))
    requires f.marker == Marker(Json(sn)) && (!checks || sn.record.content == [])
    ensures StateOf(checks, node) == Ok(Complete) <==>
      forall n :: n in sn.files ==>
        || n == "" || n == "." || n == ".." || n == ".image-cache-agent.json"
        || (n in f.items && f.items[n] != Special(false))
    ensures StateOf(checks, node) == Ok(Complete) || StateOf(checks, node) == Ok(Incomplete)
  {
    forall n
      ensures Exists(f, n) <==>
        || n == "" || n == "." || n == ".." || n == ".image-cache-agent.json"
        || (n in f.items && f.items[n] != Special(false))
    {
    }
    assert AllExist(f, sn.files) <==> forall n :: n in sn.files ==> Exists(f, n);
  }

  predicate HasRecord(node: Option<Node>) {
    Through(node).Some? && Through(node).value.marker.Marker? && Through(node).value.marker.text.Json?
  }

  function SentinelOf(node: Option<Node>): Sentinel
    requires HasRecord(node)
  {
    Through(node).value.marker.text.sn
  }

  function RecordOf(node: Option<Node>): Record
    requires HasRecord(node)
  {
    SentinelOf(node).record
  }

  lemma CompleteHasRecord(checks: bool, node: Option<Node>)
    requires StateOf(checks, node) == Ok(Complete)
    ensures HasRecord(node)
  {
  }

  // ----- what may be replaced, and what a collection leaves -----

  /** A directory whose sentinel cannot even be looked at. */
  predicate IsDenied(node: Option<Node>) {
    node.Some? && node.value.Dir? && node.value.folder.marker.Denied?
  }

  /** A directory, or a link to one, with a sentinel that can be looked at. */
  predicate IsMarked(node: Option<Node>) {
    Through(node).Some? && !Through(node).value.marker.NoMarker? && !Through(node).value.marker.Denied?
  }

  /** Whether an extraction by owner may remove what is at the name: the agent,
      unless it may be seeded and cannot be told; another writer, only what some
      writer has marked. */
  predicate Replaceable(node: Option<Node>, owner: string) {
    if owner == AGENT then !IsDenied(node) else node.None? || IsMarked(node)
  }

  /** Another writer than the agent seeded the directory. Failed when its
      sentinel cannot be read. */
  function Seeded(f: Folder): Answer<bool> {
    match f.marker
    case NoMarker => Ok(false)
    case Marker(Garbage) => Ok(false)
    case Marker(Json(sn)) => Ok(sn.record.owner != AGENT)
    case _ => Failed
  }

  /** What GC leaves where it is. */
  predicate Survives(name: string, node: Node, keep: set<string>, locked: set<string>) {
    || name in keep || node.Flat? || name == LOST_FOUND
    || (node.Dir? &&
          if IsTemporary(name) then name in locked else Seeded(node.folder) != Ok(false))
  }

  /** GC need not read the entry's sentinel, or can. */
  predicate IsLegible(name: string, node: Node, keep: set<string>) {
    name in keep || name == LOST_FOUND || !node.Dir? || IsTemporary(name) || Seeded(node.folder).Ok?
  }

  predicate Legible(root: Root, keep: set<string>) {
    forall n :: n in root ==> IsLegible(n, root[n], keep)
  }

  function Collected(root: Root, keep: set<string>, locked: set<string>): Root {
    map n | n in root && Survives(n, root[n], keep, locked) :: root[n]
  }

  function Swept(root: Root, prefix: string, locked: set<string>): Root {
    map n | n in root && !(root[n].Dir? && prefix <= n && n !in locked) :: root[n]
  }

  /** Who may replace what, spelled out. */
  lemma ReplaceableExactly(node: Option<Node>, owner: string)
    ensures owner == "image-cache-agent" ==>
      (Replaceable(node, owner) <==> !(node.Some? && node.value.Dir? && node.value.folder.marker.Denied?))
    ensures owner != "image-cache-agent" ==>
      (Replaceable(node, owner) <==>
         node.None? || exists f: Folder ::
           (node == Some(Dir(f)) || node == Some(Link(ToFolder(f)))) && (f.marker.Marker? || f.marker.Unreadable?))
  {
    if Through(node).Some? {
      var f := Through(node).value;
      assert node == Some(Dir(f)) || node == Some(Link(ToFolder(f)));
    }
  }

  /** What a collection leaves, spelled out: what is kept, flat files, lost+found,
      temporaries somebody holds, and directories that another writer seeded or
      may have. */
  lemma CollectedExactly(root: Root, keep: set<string>, locked: set<string>, n: string)
    ensures n in Collected(root, keep, locked) <==>
      n in root
      && (|| n in keep || root[n].Flat? || n == "lost+found"
          || (root[n].Dir? && IsTemporary(n) && n in locked)
          || (root[n].Dir? && !IsTemporary(n)
              && (|| root[n].folder.marker.Unreadable? || root[n].folder.marker.Denied?
                  || (root[n].folder.marker.Marker? && root[n].folder.marker.text.Json?
                      && root[n].folder.marker.text.sn.record.owner != "image-cache-agent"))))
    ensures n in Collected(root, keep, locked) ==> Collected(root, keep, locked)[n] == root[n]
  {
  }

  /** When a collection has an unreadable sentinel to report, spelled out. */
  lemma LegibleExactly(root: Root, keep: set<string>)
    ensures Legible(root, keep) <==>
      !exists n :: n in root && n !in keep && n != "lost+found" && !IsTemporary(n)
                   && root[n].Dir? && (root[n].folder.marker.Unreadable? || root[n].folder.marker.Denied?)
  {
    assert forall n :: n in root ==>
      (IsLegible(n, root[n], keep) <==>
         !(n !in keep && n != "lost+found" && !IsTemporary(n)
           && root[n].Dir? && (root[n].folder.marker.Unreadable? || root[n].folder.marker.Denied?)));
  }

  // ----- what an extraction publishes -----

  function Items(kept: seq<Body>): map<string, Item> {
    var files := AllFiles(kept);
    map f | f in files :: Regular(files[f])
  }

  function Listed(kept: seq<Body>): (r: seq<File>)
    ensures |r| == |kept|
  {
    seq(|kept|, i requires 0 <= i < |kept| =>
      File(kept[i].name, Sum(kept[i].bytes), |kept[i].bytes|))
  }

  function Published(rec: Record, kept: seq<Body>): Folder {
    Folder(Items(kept), Marker(Json(Sentinel(rec.(content := Listed(kept)), NamesOf(kept)))))
  }

  /** One more file. */
  lemma Grown(kept: seq<Body>, b: Body)
    ensures Items(kept + [b]) == Items(kept)[b.name := Regular(b.bytes)]
    ensures Listed(kept + [b]) == Listed(kept) + [File(b.name, Sum(b.bytes), |b.bytes|)]
    ensures NamesOf(kept + [b]) == NamesOf(kept) + [b.name]
    ensures b.name in Items(kept) <==> b.name in NamesOf(kept)
  {
    FilesOfPrefix(kept, [b], |kept|);
    if b.name in AllFiles(kept) {
      FilesListed(kept, |kept|, b.name);
      var k :| 0 <= k < |kept| && kept[k].name == b.name;
      assert NamesOf(kept)[k] == b.name;
    }
    if b.name in NamesOf(kept) {
      var k :| 0 <= k < |kept| && NamesOf(kept)[k] == b.name;
      ListedInFiles(kept, |kept|, k);
    }
  }

  predicate Storable(kept: seq<Body>) {
    && Distinct(NamesOf(kept)) && kept != []
    && (forall i :: 0 <= i < |kept| ==> IsFileName(kept[i].name) && kept[i].name != SENTINEL)
  }

  /** What an extraction publishes is complete, for a store that hashes and for
      one that does not, and its record is the one it was given. */
  lemma PublishedIsComplete(checks: bool, rec: Record, kept: seq<Body>)
    requires Storable(kept)
    ensures var node := Some(Dir(Published(rec, kept)));
      && StateOf(checks, node) == Ok(Complete)
      && RecordOf(node) == rec.(content := Listed(kept))
  {
    var f := Published(rec, kept);
    forall i | 0 <= i < |kept|
      ensures Matches(f, Listed(kept)[i]) && Exists(f, NamesOf(kept)[i])
    {
      FilesHold(kept, |kept|, i);
    }
  }

  /** Bytes of another digest in the place of one file's, and the directory is
      complete no more, for a store that checks. */
  lemma TamperedIsIncomplete(rec: Record, kept: seq<Body>, k: nat, bytes: Bytes)
    requires Storable(kept) && k < |kept| && Sum(bytes) != Sum(kept[k].bytes)
    ensures var f := Published(rec, kept);
      StateOf(true, Some(Dir(f.(items := f.items[kept[k].name := Item.Regular(bytes)])))) == Ok(Incomplete)
  {
    var f := Published(rec, kept);
    var g := f.(items := f.items[kept[k].name := Item.Regular(bytes)]);
    assert Listed(kept)[k] == File(kept[k].name, Sum(kept[k].bytes), |kept[k].bytes|);
    assert !Matches(g, g.marker.text.sn.record.content[k]);
  }

  // ----- adoption -----

  function WithOwner(f: Folder): Folder
    requires f.marker.Marker? && f.marker.text.Json?
  {
    f.(marker := Marker(Json(f.marker.text.sn.(record := f.marker.text.sn.record.(owner := AGENT)))))
  }

  /** What Adopt makes of a directory: the agent's name in the sentinel, which
      takes the place of a file that had the spare's name. */
  function Adopted(f: Folder): Folder
    requires f.marker.Marker? && f.marker.text.Json?
  {
    WithOwner(f).(items := f.items - {SPARE})
  }

  function PutThrough(node: Node, f: Folder): Node {
    match node
    case Link(ToFolder(_)) => Link(ToFolder(f))
    case _ => Dir(f)
  }

  function AdoptedNode(node: Node): Node
    requires HasRecord(Some(node))
  {
    PutThrough(node, Adopted(Through(Some(node)).value))
  }

  /** What an adoption that failed leaves: the directory as it was, but perhaps
      for the file it was going to rename. */
  predicate OnlySpare(before: Option<Node>, after: Option<Node>) {
    after == before ||
    (Through(before).Some? && Through(after).Some? &&
       var f, g := Through(before).value, Through(after).value;
       && after == Some(PutThrough(before.value, g))
       && g.marker == f.marker && g.items - {SPARE} == f.items - {SPARE})
  }

  /** An adoption, spelled out: of the directory, through a link too, all stays
      but the owner and a file of that one name. */
  lemma AdoptedExactly(node: Node, f: Folder, sn: Sentinel)
    requires (node == Dir(f) || node == Link(ToFolder(f))) && f.marker == Marker(Json(sn))
    ensures exists g: Folder ::
      && AdoptedNode(node) == (if node.Dir? then Dir(g) else Link(ToFolder(g)))
      && g.marker == Marker(Json(sn.(record := sn.record.(owner := "image-cache-agent"))))
      && (forall b :: b in g.items <==> b in f.items && b != ".image-cache-agent.json.tmp")
      && (forall b :: b in g.items ==> g.items[b] == f.items[b])
  {
    var g := Adopted(f);
    assert AdoptedNode(node) == if node.Dir? then Dir(g) else Link(ToFolder(g));
  }

  /** What a failed adoption leaves, spelled out. */
  lemma OnlySpareLeaves(before: Option<Node>, after: Option<Node>)
    requires OnlySpare(before, after)
    ensures after == before || exists f: Folder, g: Folder ::
      && ((before == Some(Dir(f)) && after == Some(Dir(g)))
          || (before == Some(Link(ToFolder(f))) && after == Some(Link(ToFolder(g)))))
      && g.marker == f.marker
      && (forall b :: b != ".image-cache-agent.json.tmp" ==> (b in g.items <==> b in f.items))
      && (forall b :: b != ".image-cache-agent.json.tmp" && b in g.items ==> g.items[b] == f.items[b])
  {
    if after != before {
      var f, g := Through(before).value, Through(after).value;
      forall b | b != SPARE
        ensures b in g.items <==> b in f.items
        ensures b in g.items ==> g.items[b] == f.items[b]
      {
        assert b in g.items <==> b in g.items - {SPARE};
        assert b in f.items <==> b in f.items - {SPARE};
      }
      assert (before == Some(Dir(f)) && after == Some(Dir(g)))
        || (before == Some(Link(ToFolder(f))) && after == Some(Link(ToFolder(g))));
    }
  }

  lemma PutThroughThrough(node: Node, f: Folder, g: Folder)
    requires Through(Some(node)).Some?
    ensures Through(Some(PutThrough(node, f))) == Some(f)
    ensures PutThrough(PutThrough(node, f), g) == PutThrough(node, g)
  {
  }

  /** The sentinel counts on a file with the spare's name. */
  predicate ListsSpare(checks: bool, sn: Sentinel) {
    if checks && sn.record.content != [] then exists i :: 0 <= i < |sn.record.content| && sn.record.content[i].name == SPARE
    else SPARE in sn.files
  }

  /** Adopt keeps a complete directory complete exactly when the sentinel does
      not list a file with the name Adopt writes to. */
  lemma AdoptKeepsComplete(checks: bool, f: Folder)
    requires StateOf(checks, Some(Dir(f))) == Ok(Complete)
    ensures StateOf(checks, Some(Dir(Adopted(f)))) == Ok(Complete) <==> !ListsSpare(checks, f.marker.text.sn)
    ensures RecordOf(Some(Dir(Adopted(f)))) == f.marker.text.sn.record.(owner := AGENT)
    ensures SentinelOf(Some(Dir(Adopted(f)))).files == f.marker.text.sn.files
  {
  }

  /** An image may well carry a file of that name: seeded by the command, it is
      complete, and adopting it leaves it incomplete. */
  lemma AdoptCanBreak(rec: Record)
    ensures var f := Published(rec, [Body(SPARE, [])]);
      && StateOf(true, Some(Dir(f))) == Ok(Complete)
      && StateOf(true, Some(Dir(Adopted(f)))) == Ok(Incomplete)
  {
    var kept := [Body(SPARE, [])];
    var f := Published(rec, kept);
    assert kept[0].name == SPARE;
    PublishedIsComplete(true, rec, kept);
    assert f.marker.text.sn.record.content[0].name == SPARE;
    AdoptKeepsComplete(true, f);
  }

  // ----- laws of the collections -----

  /** A second collection finds nothing, whatever the first one left locked. */
  lemma CollectTwice(root: Root, keep: set<string>, locked: set<string>)
    ensures Collected(Collected(root, keep, locked), keep, locked) == Collected(root, keep, locked)
  {
  }
}
