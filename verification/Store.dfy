/** The operations of the store, over a disk whose calls may fail. */
module Stores {
  import opened Basics
  import opened Names
  import opened Layout
  import opened Image
  import opened Disks
  import opened ContentCheck

  /** How an extraction ended: the directory is in place, nothing was touched,
      or the swap was under way. The source reports the last two as errors. */
  datatype Extraction = Done | Untried(cleaned: bool) | Halfway(cleaned: bool)

  class Store {
    const disk: Disk
    /** The memory of a store that checks content. A store without one checks
        names only. */
    const sums: Sums?

    constructor (disk: Disk, sums: Sums?)
      ensures this.disk == disk && this.sums == sums
    {
      this.disk, this.sums := disk, sums;
    }

    predicate Checks() {
      sums != null
    }

    ghost predicate Valid()
      reads this, disk, sums
    {
      disk.Valid() && (sums != null ==> Agrees(disk.root, disk.metas, disk.now, sums.entries))
    }

    function NodeAt(name: string): Option<Node>
      reads disk
    {
      At(disk.root, name)
    }

    /** The memory has a trusted digest for every file the sentinel records. */
    ghost predicate Vouched(name: string)
      reads disk, sums
    {
      sums != null && HasRecord(NodeAt(name)) ==>
        Sums.Vouches(sums.entries, disk, name, RecordOf(NodeAt(name)).content)
    }

    ghost predicate SettledAt(name: string)
      reads disk
    {
      HasRecord(NodeAt(name)) ==> Sums.Settled(disk, name, RecordOf(NodeAt(name)).content)
    }

    /** The state of the named directory, the content checked through the memory. */
    method State(name: string) returns (r: Answer<Layout.State>)
      requires Valid() && IsResourceName(name)
      modifies sums, disk`faults
      ensures Valid() && disk.faults >= old(disk.faults)
      ensures r == Ok(Complete) ==> StateOf(Checks(), NodeAt(name)) == Ok(Complete)
      ensures disk.faults == old(disk.faults) ==> r == StateOf(Checks(), NodeAt(name))
      // A call that fails makes it an error, or Incomplete.
      ensures r == StateOf(Checks(), NodeAt(name)) || r.Failed? || r == Ok(Incomplete)
      // A check of files the memory vouches for reads none of them, and it
      // vouches for files that had settled when they were found complete.
      ensures sums != null && old(Vouched(name)) ==> sums.hashed == old(sums.hashed)
      ensures sums != null ==> Forgotten(sums.entries, name) == Forgotten(old(sums.entries), name)
      ensures sums != null && r == Ok(Complete) && SettledAt(name) ==> Vouched(name)
    {
      var node := NodeAt(name);
      var f := Through(node);
      var read := disk.Try();
      if !read { return Failed; }
      if f.None? {
        return Ok(if node.None? || node == Some(Link(Dangling)) then Absent else Incomplete);
      }
      match f.value.marker {
        case NoMarker => return Ok(Incomplete);
        case Unreadable => return Failed;
        case Denied => return Failed;
        case Marker(Garbage) => return Ok(Incomplete);
        case Marker(Json(sn)) =>
          if sums != null && sn.record.content != [] {
            var matching := sums.AllMatching(disk, name, sn.record.content);
            var cancelled := disk.Try();
            if !cancelled { return Failed; }
            return Ok(if matching then Complete else Incomplete);
          }
          var i := 0;
          while i < |sn.files|
            invariant 0 <= i <= |sn.files|
            invariant Valid() && disk.faults >= old(disk.faults)
            invariant sums != null ==> unchanged(sums)
            invariant forall j :: 0 <= j < i ==> Layout.Exists(f.value, sn.files[j])
          {
            var looked := disk.Try();
            if !looked || !Layout.Exists(f.value, sn.files[i]) { return Ok(Incomplete); }
            i := i + 1;
          }
          return Ok(Complete);
      }
    }

    method ReadSentinel(name: string) returns (r: Answer<Sentinel>)
      requires Valid()
      modifies disk`faults
      ensures Valid() && disk.faults >= old(disk.faults)
      ensures r.Ok? ==> HasRecord(NodeAt(name)) && r.value == SentinelOf(NodeAt(name))
      ensures disk.faults == old(disk.faults) ==> (r.Ok? <==> HasRecord(NodeAt(name)))
      // What State called complete can be read.
      ensures StateOf(Checks(), NodeAt(name)) == Ok(Complete) && r.Failed? ==> disk.faults > old(disk.faults)
    {
      var read := disk.Try();
      var f := Through(NodeAt(name));
      if !read || f.None? { return Failed; }
      match f.value.marker {
        case NoMarker => return Failed;
        case Unreadable => return Failed;
        case Denied => return Failed;
        case Marker(Garbage) => return Failed;
        case Marker(Json(sn)) => return Ok(sn);
      }
    }

    method ReadRecord(name: string) returns (r: Answer<Record>)
      requires Valid()
      modifies disk`faults
      ensures Valid() && disk.faults >= old(disk.faults)
      ensures r.Ok? ==> HasRecord(NodeAt(name)) && r.value == RecordOf(NodeAt(name))
      ensures disk.faults == old(disk.faults) ==> (r.Ok? <==> HasRecord(NodeAt(name)))
    {
      var sn := ReadSentinel(name);
      match sn {
        case Ok(s) => return Ok(s.record);
        case Failed => return Failed;
      }
    }

    /** Rewrites the sentinel with the agent as its owner, all else in it the same. */
    method Adopt(name: string) returns (ok: bool)
      requires Valid() && IsResourceName(name)
      modifies disk`root, disk`faults
      ensures Valid() && disk.faults >= old(disk.faults)
      ensures But(disk.root, name) == But(old(disk.root), name)
      ensures ok ==> HasRecord(old(NodeAt(name))) && NodeAt(name) == Some(AdoptedNode(old(NodeAt(name)).value))
      ensures !ok ==> OnlySpare(old(NodeAt(name)), NodeAt(name))
      ensures disk.faults == old(disk.faults) ==> (ok <==> HasRecord(old(NodeAt(name))))
      ensures disk.faults == old(disk.faults) && !ok ==> disk.root == old(disk.root)
    {
      var sn := ReadSentinel(name);
      if sn.Failed? { return false; }
      ghost var before := disk.root;
      var f := Through(NodeAt(name)).value;
      var spare := f.(items := f.items[SPARE := Special(true)]);
      var written := disk.Try();
      var touched: bool := *;
      if !written && !touched { return false; }
      ThroughItself(disk.root, name);
      PutFolder(name, spare, before, f);
      if !written { return false; }
      var renamed := disk.Try();
      if renamed {
        assert sn.value.(record := sn.value.record.(owner := AGENT)) == WithOwner(f).marker.text.sn;
        PutFolder(name, Adopted(f), before, spare);
        return true;
      }
      var removed := disk.Try();
      if removed {
        PutFolder(name, f.(items := f.items - {SPARE}), before, spare);
      }
      return false;
    }

    static lemma ThroughItself(root: Root, name: string)
      requires Through(At(root, name)).Some?
      ensures root == root[name := PutThrough(root[name], Through(At(root, name)).value)]
    {
    }

    /** A change to the directory that leaves its regular files, or drops some. */
    method PutFolder(name: string, f: Folder, ghost before: Root, ghost g: Folder)
      requires Valid() && Described(before, disk.metas) && Through(At(before, name)).Some?
      requires sums != null ==> Agrees(before, disk.metas, disk.now, sums.entries)
      requires disk.root == before[name := PutThrough(before[name], g)]
      requires NoNewFile(f, Through(At(before, name)).value)
      modifies disk`root
      ensures Valid() && NodeAt(name) == Some(PutThrough(before[name], f)) && Through(NodeAt(name)) == Some(f)
      ensures disk.root == before[name := PutThrough(before[name], f)] && But(disk.root, name) == But(before, name)
    {
      PutThroughThrough(before[name], f, f);
      disk.PutFolder(name, f, before, g);
      if sums != null {
        UntouchedAgrees(before, disk.metas, disk.root, disk.metas, disk.now, sums.entries);
      }
    }

    /** Whether an extraction by owner may replace what is in the directory. */
    method MayReplace(name: string, owner: string) returns (ok: bool)
      requires Valid()
      modifies disk`faults
      ensures Valid() && disk.faults >= old(disk.faults)
      ensures ok ==> Replaceable(NodeAt(name), owner)
      ensures disk.faults == old(disk.faults) ==> (ok <==> Replaceable(NodeAt(name), owner))
    {
      var found := disk.Try();
      if !found { return false; }
      var node := NodeAt(name);
      if node.None? { return true; }
      if owner == AGENT && !node.value.Dir? { return true; }
      var looked := disk.Try();
      if !looked { return false; }
      // Where there is no directory there is no sentinel.
      var f := Through(node);
      if f.None? || f.value.marker.NoMarker? { return owner == AGENT; }
      return !f.value.marker.Denied?;
    }

    // ----- extraction -----

    /** What a failed creation or a failed clean-up leaves behind: temporaries. */
    static ghost predicate Leaves(before: Root, after: Root, name: string) {
      && (forall n :: n in before ==> n in after && after[n] == before[n])
      && (forall n :: n in after && n !in before ==> TempPrefix(name) <= n)
    }

    static lemma Left(before: Root, after: Root, name: string, tmp: string)
      requires tmp !in before && TempPrefix(name) <= tmp && But(after, tmp) == But(before, tmp)
      ensures Leaves(before, after, name)
    {
      forall n | n in before
        ensures n in after && after[n] == before[n]
      {
        assert But(before, tmp)[n] == before[n];
        assert n in But(after, tmp);
      }
      forall n | n in after && n !in before
        ensures TempPrefix(name) <= n
      {
        assert n != tmp ==> n in But(after, tmp);
      }
    }

    /** The memory has no part in a temporary. */
    lemma Aside(before: Root, metas: Metas, tmp: string)
      requires disk.Valid() && (sums != null ==> Agrees(before, metas, disk.now, sums.entries))
      requires But(disk.root, tmp) == But(before, tmp) && SameMetas(metas, disk.metas, tmp)
      requires Described(before, metas) && !IsResourceName(tmp)
      ensures Valid()
    {
      if sums != null {
        forall p | p in sums.entries && IsResourceName(p.dir) && IsFileAt(disk.root, p) && p in disk.metas
          ensures IsFileAt(before, p) && BytesAt(disk.root, p) == BytesAt(before, p)
          ensures p in metas && disk.metas[p] == metas[p]
        {
          assert p.dir in But(disk.root, tmp);
          assert But(before, tmp)[p.dir] == before[p.dir];
          assert p in metas;
        }
        UntouchedAgrees(before, metas, disk.root, disk.metas, disk.now, sums.entries);
      }
    }

    /** Creates and locks the temporary of an extraction. `cleaned` is whether
        none is left that had to be removed. */
    method CreateTemporary(name: string) returns (ok: bool, tmp: string, cleaned: bool)
      requires Valid() && IsResourceName(name)
      modifies disk`root, disk`locked, disk`faults
      ensures Valid()
      ensures ok ==> tmp !in old(disk.root) && TempPrefix(name) <= tmp
      ensures ok ==> disk.root == old(disk.root)[tmp := Dir(Folder(map[], NoMarker))]
      ensures ok ==> disk.locked == old(disk.locked) + {tmp}
      ensures !ok ==> Leaves(old(disk.root), disk.root, name) && disk.locked == old(disk.locked)
      ensures disk.faults >= old(disk.faults) && (!ok ==> disk.faults > old(disk.faults))
      ensures !ok && cleaned ==> disk.root == old(disk.root)
      ensures !cleaned ==> !ok && disk.faults > old(disk.faults) + 1
      // No more than two losses come before a success.
      ensures ok ==> disk.faults < old(disk.faults) + TRIES
    {
      var tries := 0;
      ok, tmp, cleaned := false, "", true;
      ghost var before := disk.root;
      while tries < TRIES
        invariant Valid() && disk.root == before && disk.locked == old(disk.locked)
        invariant tries <= TRIES && disk.faults == old(disk.faults) + tries && !ok && cleaned
      {
        ok, tmp := disk.MkdirTemp(TempPrefix(name));
        if !ok { return; }
        NotAResource(name, tmp);
        Aside(before, disk.metas, tmp);
        var r := disk.LockTemporary(tmp);
        Aside(before, disk.metas, tmp);
        if r.Locked? { return; }
        ok := false;
        if r.Unlocked? {
          cleaned := disk.RemoveAll(tmp);
          Aside(before, disk.metas, tmp);
          Left(before, disk.root, name, tmp);
          if cleaned { assert But(before, tmp) == before; }
          return;
        }
        assert disk.root == before;
        tries := tries + 1;
      }
    }

    static lemma NotAResource(name: string, tmp: string)
      requires TempPrefix(name) <= tmp
      ensures !IsResourceName(tmp) && IsTemporary(tmp)
    {
      var digits := tmp[|TempPrefix(name)|..];
      assert tmp == TempPrefix(name) + digits;
      TemporaryNames(name, digits);
      if IsResourceName(tmp) { ResourceNames(tmp); }
    }

    /** One more file in the temporary, if its name is not taken. */
    method WriteFile(tmp: string, ghost kept: seq<Body>, b: Body) returns (r: Creation)
      requires Valid() && tmp in disk.root && !IsResourceName(tmp)
      requires disk.root[tmp] == Dir(Folder(Items(kept), NoMarker)) && Distinct(NamesOf(kept))
      modifies disk`root, disk`metas, disk`faults
      ensures Valid() && tmp in disk.root && disk.root[tmp].Dir? && But(disk.root, tmp) == But(old(disk.root), tmp)
      ensures r.Created? ==> disk.root[tmp] == Dir(Folder(Items(kept + [b]), NoMarker))
      ensures r.Created? <==> disk.faults == old(disk.faults) && Distinct(NamesOf(kept + [b]))
      ensures r.Duplicate? ==> !Distinct(NamesOf(kept + [b]))
      ensures r.Created? ==> Listed(kept + [b]) == Listed(kept) + [File(b.name, Sum(b.bytes), |b.bytes|)]
      ensures r.Uncreated? <==> disk.faults != old(disk.faults)
      ensures disk.faults >= old(disk.faults)
    {
      ghost var root, metas := disk.root, disk.metas;
      Grown(kept, b);
      r := disk.WriteNew(tmp, b.name, b.bytes);
      Aside(root, metas, tmp);
      if b.name in NamesOf(kept) { Repeated(kept, b.name); } else { Unrepeated(kept, b); }
    }

    static lemma Unrepeated(kept: seq<Body>, b: Body)
      requires b.name !in NamesOf(kept) && Distinct(NamesOf(kept))
      ensures Distinct(NamesOf(kept + [b]))
    {
      assert NamesOf(kept + [b]) == NamesOf(kept) + [b.name];
    }

    /** The temporary holds these files, and no sentinel yet. */
    ghost predicate Drafted(tmp: string, kept: seq<Body>)
      reads disk
    {
      tmp in disk.root && disk.root[tmp] == Dir(Folder(Items(kept), NoMarker))
    }

    /** What the loop over the stream does with one entry. */
    method TakeEntry(tmp: string, ghost es: seq<Image.Entry>, e: Image.Entry, files: seq<File>)
      returns (ok: bool, more: seq<File>)
      requires Valid() && !IsResourceName(tmp)
      requires Drafted(tmp, Kept(es)) && Writable(es) && files == Listed(Kept(es))
      modifies disk`root, disk`metas, disk`faults
      ensures Valid() && tmp in disk.root && disk.root[tmp].Dir? && But(disk.root, tmp) == But(old(disk.root), tmp)
      ensures ok ==> Drafted(tmp, Kept(es + [e])) && Writable(es + [e]) && more == Listed(Kept(es + [e]))
      ensures disk.faults >= old(disk.faults)
      ensures disk.faults == old(disk.faults) ==> (ok <==> Writable(es + [e]))
    {
      ok, more := false, files;
      assert (es + [e])[..|es|] == es;
      if Refused(e) {
        assert Refused((es + [e])[|es|]);
        return;
      }
      if !Taken(e) {
        assert Kept(es + [e]) == Kept(es) + [] == Kept(es);
        return true, files;
      }
      var b := Body(Base(e.path), e.body);
      var r := WriteFile(tmp, Kept(es), b);
      assert Kept(es + [e]) == Kept(es) + [b];
      if r.Created? {
        return true, files + [File(Base(e.path), Sum(e.body), |e.body|)];
      }
    }

    /** Writes the files of the stream into the temporary, flat, and lists them. */
    method WriteFiles(tmp: string, stream: Stream) returns (ok: bool, files: seq<File>)
      requires Valid() && Drafted(tmp, []) && !IsResourceName(tmp)
      modifies disk`root, disk`metas, disk`faults
      ensures Valid() && tmp in disk.root && disk.root[tmp].Dir? && But(disk.root, tmp) == But(old(disk.root), tmp)
      ensures ok ==> stream.ending.Clean? && Acceptable(stream.entries)
      ensures ok ==> files == Listed(Kept(stream.entries)) && Drafted(tmp, Kept(stream.entries))
      ensures disk.faults >= old(disk.faults)
      ensures disk.faults == old(disk.faults) ==> (ok <==> stream.ending.Clean? && Acceptable(stream.entries))
    {
      var es := stream.entries;
      var i := 0;
      files := [];
      while i < |es|
        invariant 0 <= i <= |es|
        invariant Valid() && But(disk.root, tmp) == But(old(disk.root), tmp)
        invariant disk.faults >= old(disk.faults)
        invariant Writable(es[..i]) && files == Listed(Kept(es[..i])) && Drafted(tmp, Kept(es[..i]))
      {
        var going := disk.Try();
        if !going { return false, files; }
        assert es[..i] + [es[i]] == es[..i + 1];
        ok, files := TakeEntry(tmp, es[..i], es[i], files);
        if !ok {
          if !Writable(es[..i + 1]) { UnwritableCondemns(es, i + 1); }
          return;
        }
        i := i + 1;
      }
      assert es[..i] == es;
      ok := stream.ending.Clean? && files != [];
    }

    static lemma Repeated(kept: seq<Body>, base: string)
      requires base in NamesOf(kept)
      ensures forall b: Body :: b.name == base ==> !Distinct(NamesOf(kept + [b]))
    {
      var k :| 0 <= k < |kept| && NamesOf(kept)[k] == base;
      forall b: Body | b.name == base
        ensures !Distinct(NamesOf(kept + [b]))
      {
        var names := NamesOf(kept + [b]);
        assert names[k] == names[|kept|];
      }
    }

    /** The calls that must have failed for an extraction to fail: one, when
        nothing else stood against it. */
    static ghost function Spoilt(fine: bool): nat {
      if fine then 1 else 0
    }

    /** Closes the lock, then removes the temporary, as a failed extraction does. */
    method Discard(tmp: string) returns (removed: bool)
      requires Valid() && !IsResourceName(tmp)
      modifies disk`root, disk`locked, disk`faults
      ensures Valid() && disk.locked == old(disk.locked) - {tmp} && disk.faults >= old(disk.faults)
      ensures But(disk.root, tmp) == But(old(disk.root), tmp)
      ensures if removed then tmp !in disk.root else disk.faults > old(disk.faults)
      ensures disk.faults == old(disk.faults) ==> removed
    {
      ghost var root := disk.root;
      disk.Unlock(tmp);
      removed := disk.RemoveAll(tmp);
      Aside(root, disk.metas, tmp);
    }

    /** Only a temporary of name's changed, and perhaps name itself. */
    static ghost predicate Aimed(before: Root, after: Root, name: string) {
      Leaves(But(before, name), But(after, name), name)
    }

    static lemma Undisturbed(root: Root, name: string)
      ensures Aimed(root, root, name)
    {
    }

    static lemma Undone(before: Root, after: Root, name: string, tmp: string)
      requires IsResourceName(name) && tmp !in before && TempPrefix(name) <= tmp
      requires But(after, tmp) == But(before, tmp)
      ensures Aimed(before, after, name) && At(after, name) == At(before, name)
      ensures tmp !in after ==> after == before
    {
      NotAResource(name, tmp);
      Left(before, after, name, tmp);
      assert name in after <==> name in But(after, tmp);
      assert name in before <==> name in But(before, tmp);
      if tmp !in after { assert But(after, tmp) == after && But(before, tmp) == before; }
    }

    static lemma HalfDone(before: Root, after: Root, name: string, tmp: string)
      requires tmp !in before && TempPrefix(name) <= tmp
      requires But(But(after, name), tmp) == But(But(before, name), tmp)
      ensures Aimed(before, after, name)
      ensures tmp !in after ==> But(after, name) == But(before, name)
    {
      Left(But(before, name), But(after, name), name, tmp);
      if tmp !in after {
        assert But(But(after, name), tmp) == But(after, name) && But(But(before, name), tmp) == But(before, name);
      }
    }

    /** Writes the whole replacement, sentinel last, in a temporary of its own. */
    method Prepare(name: string, rec: Record, stream: Stream)
      returns (ok: bool, tmp: string, files: seq<File>, cleaned: bool)
      requires Valid() && IsResourceName(name)
      modifies disk`root, disk`metas, disk`locked, disk`faults
      ensures Valid() && disk.faults >= old(disk.faults)
      ensures ok ==> stream.ending.Clean? && Acceptable(stream.entries) && files == Listed(Kept(stream.entries))
      ensures ok ==> tmp !in old(disk.root) && TempPrefix(name) <= tmp && disk.locked == old(disk.locked) + {tmp}
      ensures ok ==> tmp in disk.root && disk.root[tmp] == Dir(Published(rec, Kept(stream.entries)))
      ensures ok ==> But(disk.root, tmp) == But(old(disk.root), tmp)
      ensures !ok ==> disk.locked == old(disk.locked) && Aimed(old(disk.root), disk.root, name)
      ensures !ok ==> NodeAt(name) == old(NodeAt(name))
      ensures disk.faults == old(disk.faults) ==> (ok <==> stream.ending.Clean? && Acceptable(stream.entries))
      ensures !ok && cleaned ==> disk.root == old(disk.root)
      ensures !cleaned ==> !ok && disk.faults > old(disk.faults) + Spoilt(stream.ending.Clean? && Acceptable(stream.entries))
    {
      ghost var before := disk.root;
      files := [];
      ok, tmp, cleaned := CreateTemporary(name);
      if !ok {
        assert Leaves(But(before, name), But(disk.root, name), name);
        NotAPrefix(name);
        return;
      }
      NotAResource(name, tmp);
      ok, files := WriteFiles(tmp, stream);
      if ok {
        ghost var kept, root := Kept(stream.entries), disk.root;
        var names := seq(|files|, i requires 0 <= i < |files| => files[i].name);
        assert names == NamesOf(kept);
        ok := disk.WriteSentinel(tmp, Json(Sentinel(rec.(content := files), names)));
        Aside(root, disk.metas, tmp);
      }
      if !ok {
        cleaned := Discard(tmp);
        Undone(before, disk.root, name, tmp);
      }
    }

    static lemma NotAPrefix(name: string)
      requires IsResourceName(name)
      ensures !(TempPrefix(name) <= name)
    {
    }

    /** Removes what the name holds, and what the memory knows of it. */
    method Clear(name: string) returns (ok: bool)
      requires Valid() && name !in disk.locked
      modifies disk`root, disk`faults, sums
      ensures Valid() && disk.faults == if ok then old(disk.faults) else old(disk.faults) + 1
      ensures But(disk.root, name) == But(old(disk.root), name) && Remains(old(NodeAt(name)), NodeAt(name))
      ensures ok ==> disk.root == But(old(disk.root), name)
      ensures sums != null ==> sums.entries == if ok then Forgotten(old(sums.entries), name) else old(sums.entries)
    {
      ghost var before := disk.root;
      ok := disk.RemoveAll(name);
      Cleared(before, name);
      if ok && sums != null {
        LessAgrees(disk.root, disk.metas, disk.now, sums.entries, Forgotten(sums.entries, name));
        sums.Forget(name);
      }
    }

    /** Renames the temporary to the name, and remembers the digests of its files. */
    method Install(name: string, tmp: string, files: seq<File>, ghost rec: Record, ghost kept: seq<Body>)
      returns (ok: bool)
      requires Valid() && IsResourceName(name) && !IsResourceName(tmp) && Storable(kept) && files == Listed(kept)
      requires tmp in disk.root && disk.root[tmp] == Dir(Published(rec, kept)) && name !in disk.root
      requires sums != null ==> forall p :: p in sums.entries ==> p.dir != name
      modifies disk`root, disk`metas, disk`locked, disk`faults, sums
      ensures Valid() && disk.locked == (if ok then old(disk.locked) - {tmp} else old(disk.locked))
      ensures disk.faults >= old(disk.faults) && (!ok ==> disk.faults > old(disk.faults) && disk.root == old(disk.root))
      ensures ok ==> disk.root == But(old(disk.root), tmp)[name := Dir(Published(rec, kept))]
      ensures disk.faults == old(disk.faults) && sums != null ==> Sums.Vouches(sums.entries, disk, name, Listed(kept))
      ensures sums != null ==> Forgotten(sums.entries, name) == Forgotten(old(sums.entries), name)
    {
      ghost var root, metas := disk.root, disk.metas;
      ok := disk.Rename(tmp, name);
      if ok {
        Moved(root, metas, name, tmp);
        if sums != null {
          sums.Remember(disk, name, files, kept);
        }
      }
    }

    /** Puts the temporary in the place of what the name held. */
    method Swap(name: string, tmp: string, files: seq<File>, ghost rec: Record, ghost kept: seq<Body>)
      returns (ok: bool, cleaned: bool)
      requires Valid() && IsResourceName(name) && TempPrefix(name) <= tmp && Storable(kept) && files == Listed(kept)
      requires tmp in disk.root && disk.root[tmp] == Dir(Published(rec, kept)) && tmp in disk.locked && name !in disk.locked
      modifies disk`root, disk`metas, disk`locked, disk`faults, sums
      ensures Valid() && disk.locked == old(disk.locked) - {tmp} && disk.faults >= old(disk.faults)
      ensures ok ==> disk.root == But(old(disk.root), tmp)[name := Dir(Published(rec, kept))]
      ensures !ok ==> disk.faults > old(disk.faults) && But(But(disk.root, name), tmp) == But(But(old(disk.root), name), tmp)
      ensures !ok ==> Remains(old(NodeAt(name)), NodeAt(name))
      ensures !ok && cleaned ==> tmp !in disk.root
      ensures !cleaned ==> !ok && disk.faults > old(disk.faults) + 1
      ensures sums != null ==> Forgotten(sums.entries, name) == Forgotten(old(sums.entries), name)
      ensures disk.faults == old(disk.faults) && ok && sums != null ==>
        Sums.Vouches(sums.entries, disk, name, Listed(kept))
    {
      NotAResource(name, tmp);
      ghost var before := disk.root;
      cleaned := true;
      ok := Clear(name);
      OtherEntries(before, disk.root, name);
      if ok {
        assert At(disk.root, tmp) == At(before, tmp);
        assert disk.root == But(before, name);
        ButBut(before, name, tmp);
        ok := Install(name, tmp, files, rec, kept);
        if ok { return; }
      }
      ghost var mid := disk.root;
      cleaned := Discard(tmp);
      OtherEntries(mid, disk.root, tmp);
      ButBut(disk.root, name, tmp);
      ButBut(mid, name, tmp);
    }

    /** What is left of a removal is as it was. */
    lemma Cleared(before: Root, name: string)
      requires disk.Valid() && (sums != null ==> Agrees(before, disk.metas, disk.now, sums.entries))
      requires But(disk.root, name) == But(before, name)
      requires name in disk.root ==> name in before && PartOf(disk.root[name], before[name])
      ensures Valid()
    {
      if sums != null {
        forall p | p in sums.entries && IsFileAt(disk.root, p)
          ensures IsFileAt(before, p) && BytesAt(disk.root, p) == BytesAt(before, p)
        {
          if p.dir != name {
            assert p.dir in But(disk.root, name);
            assert But(before, name)[p.dir] == before[p.dir];
          }
        }
        UntouchedAgrees(before, disk.metas, disk.root, disk.metas, disk.now, sums.entries);
      }
    }

    /** The memory has forgotten name when another directory takes its place. */
    lemma Moved(before: Root, metas: Metas, name: string, tmp: string)
      requires disk.Valid() && (sums != null ==> Agrees(before, metas, disk.now, sums.entries)) && !IsResourceName(tmp)
      requires tmp in before && disk.root == But(before, tmp)[name := before[tmp]]
      requires Described(before, metas) && SameMetas(metas, disk.metas, name)
      requires sums != null ==> forall p :: p in sums.entries ==> p.dir != name
      ensures Valid()
    {
    }

    /** Puts what the stream carries in the place of the resource's directory. */
    method Extract(name: string, rec: Record, stream: Stream) returns (r: Extraction)
      requires Valid() && IsResourceName(name)
      modifies disk`root, disk`metas, disk`locked, disk`faults, sums
      ensures Valid() && disk.locked == old(disk.locked) && disk.faults >= old(disk.faults)
      ensures !r.Untried? ==>
        stream.ending.Clean? && Acceptable(stream.entries) && Replaceable(old(NodeAt(name)), rec.owner)
      ensures r.Done? ==> disk.root == old(disk.root)[name := Dir(Published(rec, Kept(stream.entries)))]
      ensures !r.Done? ==> Aimed(old(disk.root), disk.root, name)
      ensures !r.Done? ==> Remains(old(NodeAt(name)), NodeAt(name))
      ensures r.Untried? ==> NodeAt(name) == old(NodeAt(name)) && (sums != null ==> sums.entries == old(sums.entries))
      ensures r.Halfway? ==> disk.faults > old(disk.faults)
      // Whenever the clean-up works, whatever failed before it.
      ensures r.Untried? && r.cleaned ==> disk.root == old(disk.root)
      ensures r.Halfway? && r.cleaned ==> But(disk.root, name) == But(old(disk.root), name)
      ensures !r.Done? && !r.cleaned ==>
        disk.faults > old(disk.faults)
          + Spoilt(stream.ending.Clean? && Acceptable(stream.entries) && Replaceable(old(NodeAt(name)), rec.owner))
      ensures sums != null ==> Forgotten(sums.entries, name) == Forgotten(old(sums.entries), name)
      ensures disk.faults == old(disk.faults) ==>
        (r.Done? <==> stream.ending.Clean? && Acceptable(stream.entries) && Replaceable(old(NodeAt(name)), rec.owner))
      ensures disk.faults == old(disk.faults) && !r.Done? ==> disk.root == old(disk.root)
      ensures disk.faults == old(disk.faults) && r.Done? && sums != null ==>
        Sums.Vouches(sums.entries, disk, name, Listed(Kept(stream.entries)))
    {
      ghost var before := disk.root;
      var prepared, tmp, files, cleaned := Prepare(name, rec, stream);
      if !prepared { return Untried(cleaned); }
      NotAResource(name, tmp);
      assert At(disk.root, name) == At(before, name) by {
        assert name in disk.root <==> name in But(disk.root, tmp);
        assert name in before <==> name in But(before, tmp);
      }
      var may := MayReplace(name, rec.owner);
      if !may {
        cleaned := Discard(tmp);
        Undone(before, disk.root, name, tmp);
        return Untried(cleaned);
      }
      ghost var kept, ready := Kept(stream.entries), disk.root;
      AcceptableIsStorable(stream.entries);
      ResourceNames(name);
      var swapped: bool;
      swapped, cleaned := Swap(name, tmp, files, rec, kept);
      if !swapped {
        ButBut(ready, name, tmp);
        ButBut(before, name, tmp);
        HalfDone(before, disk.root, name, tmp);
        return Halfway(cleaned);
      }
      assert But(ready, tmp) == before by {
        assert But(before, tmp) == before;
      }
      return Done;
    }

    static lemma AcceptableIsStorable(es: seq<Image.Entry>)
      requires Acceptable(es)
      ensures Storable(Kept(es))
    {
      forall k | 0 <= k < |Kept(es)|
        ensures IsFileName(Kept(es)[k].name) && Kept(es)[k].name != SENTINEL
      {
        KeptNames(es, k);
      }
    }

    /** What another process may do to a file between two calls of the store: it
        writes it, at a later time, under the stamp of a clock no more than the
        window behind. The memory then still agrees with the disk, unless an
        extraction hashed the file in the very tick of that stamp. */
    method OtherWrites(p: Path, bytes: Bytes, meta: Meta, later: nat)
      requires Valid() && Through(NodeAt(p.dir)).Some? && disk.now <= later <= meta.ctime + RACY
      requires sums != null && p in sums.entries && sums.entries[p].written ==> sums.entries[p].key.ctime != meta.ctime
      modifies disk`root, disk`metas, disk`now
      ensures Valid() && IsFileAt(disk.root, p) && BytesAt(disk.root, p) == bytes
      ensures But(disk.root, p.dir) == But(old(disk.root), p.dir)
    {
      ghost var root, metas, now := disk.root, disk.metas, disk.now;
      disk.Rewrite(p, bytes, meta, later);
      if sums != null {
        RewriteAgrees(root, metas, now, sums.entries, p, disk.root, meta, later);
      }
    }

    // ----- collections -----

    /** Removes the temporary, unless a writer holds its lock. */
    method RemoveTemporary(name: string) returns (gone: bool, ok: bool)
      requires Valid() && !IsResourceName(name)
      modifies disk`root, disk`faults
      ensures Valid() && disk.faults >= old(disk.faults) && But(disk.root, name) == But(old(disk.root), name)
      ensures gone ==> ok && name !in disk.locked && disk.root == But(old(disk.root), name)
      ensures !gone ==> (name in disk.root <==> name in old(disk.root))
      ensures name in disk.locked ==> disk.root == old(disk.root)
      ensures name in disk.root && name in old(disk.root) ==> PartOf(disk.root[name], old(disk.root)[name])
      ensures name in disk.root ==> name in old(disk.root)
      ensures ok <==> disk.faults == old(disk.faults)
      ensures disk.faults == old(disk.faults) ==> (gone <==> name !in disk.locked)
    {
      var found := disk.Try();
      if !found { return false, false; }
      if name in disk.locked { return false, true; }
      ghost var before := disk.root;
      ok := disk.RemoveAll(name);
      Aside(before, disk.metas, name);
      gone := ok;
    }

    /** What a collection leaves of an entry it could not remove. */
    static ghost predicate Leftover(before: Node, root: Root, name: string) {
      name in root ==> PartOf(root[name], before)
    }

    /** What GC does with one entry: whether it removed it, and whether nothing
        failed. */
    method CollectEntry(name: string, keep: set<string>, ghost removed: set<string>) returns (gone: bool, ok: bool)
      requires Valid() && name in disk.root && Forgets(removed)
      modifies disk`root, disk`faults, sums
      ensures Valid() && disk.faults >= old(disk.faults) && But(disk.root, name) == But(old(disk.root), name)
      ensures gone <==> name !in disk.root
      ensures Fate(old(disk.root)[name], disk.root, name,
                   !Survives(name, old(disk.root)[name], keep, disk.locked), disk.faults > old(disk.faults))
      ensures ok <==> disk.faults == old(disk.faults) && IsLegible(name, old(disk.root)[name], keep)
      ensures Forgets(if gone then removed + {name} else removed)
      ensures sums != null ==> RecallsBut(old(sums.entries), sums.entries,
        if Survives(name, old(disk.root)[name], keep, disk.locked) then {} else {name})
    {
      var node := disk.root[name];
      if name in keep || node.Flat? || name == LOST_FOUND { return false, true; }
      if node.Dir? && IsTemporary(name) {
        if IsResourceName(name) { ResourceNames(name); }
        gone, ok := RemoveTemporary(name);
        return;
      }
      if node.Dir? {
        var read := disk.Try();
        if !read || Seeded(node.folder).Failed? { return false, false; }
        if Seeded(node.folder).value { return false, true; }
      }
      if sums != null {
        LessAgrees(disk.root, disk.metas, disk.now, sums.entries, Forgotten(sums.entries, name));
        sums.Forget(name);
      }
      ghost var before := disk.root;
      ok := disk.RemoveAll(name);
      Cleared(before, name);
      gone := ok;
    }

    /** The entries that had to go and are still there. */
    static ghost function Stuck(before: Root, after: Root, keep: set<string>, locked: set<string>): set<string> {
      set n | n in before && n in after && !Survives(n, before[n], keep, locked)
    }

    /** The memory knows all it knew, but perhaps of these entries. */
    static predicate RecallsBut(before: Memory, after: Memory, names: set<string>) {
      forall p :: p in before && p.dir !in names ==> p in after && after[p] == before[p]
    }

    /** The memory knows nothing of these entries. */
    ghost predicate Forgets(names: set<string>)
      reads sums
    {
      sums != null ==> forall p :: p in sums.entries ==> p.dir !in names
    }

    /** Removes the entries nobody keeps, and names them. `ok` is whether every
        entry could be looked at and, if it had to go, removed. One that stays
        behind accounts for a failure of its own: no other's fate hangs on it. */
    method GC(keep: set<string>) returns (removed: set<string>, ok: bool)
      requires Valid()
      modifies disk`root, disk`faults, sums
      ensures Valid() && disk.faults >= old(disk.faults)
      ensures removed == old(disk.root).Keys - disk.root.Keys && disk.root.Keys <= old(disk.root).Keys
      ensures forall n :: n in old(disk.root) && Survives(n, old(disk.root)[n], keep, disk.locked) ==>
        n in disk.root && disk.root[n] == old(disk.root)[n]
      ensures forall n :: n in old(disk.root) ==> Leftover(old(disk.root)[n], disk.root, n)
      ensures (disk.root == old(disk.root) && !ok)
        || |Stuck(old(disk.root), disk.root, keep, disk.locked)| <= disk.faults - old(disk.faults)
      ensures disk.faults == old(disk.faults) ==> disk.root == Collected(old(disk.root), keep, disk.locked)
      ensures ok <==> disk.faults == old(disk.faults) && Legible(old(disk.root), keep)
      ensures sums != null ==> forall p :: p in sums.entries ==> p.dir !in removed
      ensures sums != null ==> forall p :: p in old(sums.entries) ==>
        p.dir in Collected(old(disk.root), keep, disk.locked) || p.dir !in old(disk.root) ==>
          p in sums.entries && sums.entries[p] == old(sums.entries)[p]
    {
      removed, ok := {}, true;
      if !disk.mounted { return; }
      var listed := disk.Try();
      if !listed { ok := false; return; }
      ghost var stuck: set<string>;
      ghost var before, faults := disk.root, disk.faults;
      removed, ok, stuck := CollectAll(keep);
      WalkEnds(before, disk.root, removed, stuck, keep, disk.locked);
      assert |stuck| <= disk.faults - faults;
    }

    /** The loop of GC over the entries it listed. */
    method CollectAll(keep: set<string>) returns (removed: set<string>, ok: bool, ghost stuck: set<string>)
      requires Valid()
      modifies disk`root, disk`faults, sums
      ensures Valid() && |stuck| <= disk.faults - old(disk.faults)
      ensures Walked(old(disk.root), disk.root, {}, removed, stuck,
                     set n | n in old(disk.root) && !Survives(n, old(disk.root)[n], keep, disk.locked))
      ensures ok <==> disk.faults == old(disk.faults) && Legible(old(disk.root), keep)
      ensures Forgets(removed)
      ensures sums != null ==> RecallsBut(old(sums.entries), sums.entries,
        set n | n in old(disk.root) && !Survives(n, old(disk.root)[n], keep, disk.locked))
    {
      removed, ok, stuck := {}, true, {};
      var todo := disk.root.Keys;
      ghost var before := disk.root;
      ghost var goes := set n | n in before && !Survives(n, before[n], keep, disk.locked);
      while todo != {}
        invariant Valid() && |stuck| <= disk.faults - old(disk.faults)
        invariant Walked(before, disk.root, todo, removed, stuck, goes) && Forgets(removed)
        invariant sums != null ==> RecallsBut(old(sums.entries), sums.entries, goes)
        invariant ok <==>
          disk.faults == old(disk.faults) && forall n :: n in before && n !in todo ==> IsLegible(n, before[n], keep)
      {
        var e :| e in todo;
        ghost var root, faults := disk.root, disk.faults;
        var gone, fine := CollectEntry(e, keep, removed);
        WalkedOn(before, root, disk.root, todo, removed, stuck, goes, e, disk.faults > faults);
        todo := todo - {e};
        if gone { removed := removed + {e}; }
        if disk.faults > faults { stuck := stuck + {e}; }
        ok := ok && fine;
      }
    }

    static lemma WalkEnds(
      before: Root, root: Root, removed: set<string>, stuck: set<string>, keep: set<string>, locked: set<string>)
      requires Walked(before, root, {}, removed, stuck, set n | n in before && !Survives(n, before[n], keep, locked))
      ensures |Stuck(before, root, keep, locked)| <= |stuck|
      ensures |stuck| == 0 ==> root == Collected(before, keep, locked)
      ensures removed == before.Keys - root.Keys && root.Keys <= before.Keys
      ensures forall n :: n in before && Survives(n, before[n], keep, locked) ==> n in root && root[n] == before[n]
      ensures forall n :: n in before ==> Leftover(before[n], root, n)
    {
      SubsetIsSmaller(Stuck(before, root, keep, locked), stuck);
    }

    static lemma SubsetIsSmaller(a: set<string>, b: set<string>)
      requires a <= b
      ensures |a| <= |b|
    {
      assert b == a + (b - a);
    }

    /** What became of an entry a collection came by. */
    static ghost predicate Fate(before: Node, root: Root, name: string, goes: bool, stuck: bool) {
      && (!goes ==> At(root, name) == Some(before))
      && Leftover(before, root, name)
      && (goes && !stuck ==> name !in root)
    }

    /** How far a collection of the entries in `goes` is. */
    static ghost predicate Walked(
      before: Root, root: Root, todo: set<string>, removed: set<string>, stuck: set<string>, goes: set<string>)
    {
      && todo <= before.Keys && todo !! stuck
      && (forall n :: n in root ==> n in before)
      && (forall n :: n in removed <==> n in before && n !in root)
      && (forall n :: n in todo ==> At(root, n) == At(before, n))
      && (forall n :: n in before && n !in todo ==> Fate(before[n], root, n, n in goes, n in stuck))
    }

    static lemma WalkedOn(
      before: Root, root: Root, after: Root, todo: set<string>, removed: set<string>, stuck: set<string>,
      goes: set<string>, e: string, failed: bool)
      requires Walked(before, root, todo, removed, stuck, goes) && e in todo && But(after, e) == But(root, e)
      requires Fate(before[e], after, e, e in goes, failed)
      ensures Walked(before, after, todo - {e}, if e !in after then removed + {e} else removed,
                     if failed then stuck + {e} else stuck, goes)
    {
      OtherEntries(root, after, e);
      assert forall n :: n in root && n != e ==> At(after, n) == Some(root[n]);
      assert forall n :: n in after && n != e ==> At(root, n) == Some(after[n]);
    }

    /** What a sweep for the prefix is after. */
    static predicate Sweepable(name: string, node: Node, prefix: string, locked: set<string>) {
      node.Dir? && prefix <= name && name !in locked
    }

    /** What a sweep does with one entry. */
    method SweepEntry(name: string, owner: string) returns (gone: bool, ok: bool)
      requires Valid() && name in disk.root
      modifies disk`root, disk`faults
      ensures Valid() && disk.faults >= old(disk.faults) && But(disk.root, name) == But(old(disk.root), name)
      ensures gone <==> name !in disk.root
      ensures !ok ==> disk.faults > old(disk.faults)
      ensures Fate(old(disk.root)[name], disk.root, name,
                   Sweepable(name, old(disk.root)[name], TempPrefix(owner), disk.locked), disk.faults > old(disk.faults))
    {
      if !disk.root[name].Dir? || !(TempPrefix(owner) <= name) { return false, true; }
      NotAResource(owner, name);
      gone, ok := RemoveTemporary(name);
    }

    /** Removes what earlier extractions of this resource left behind. */
    method SweepTemporaries(name: string) returns (removed: set<string>, ok: bool)
      requires Valid()
      modifies disk`root, disk`faults
      ensures Valid() && disk.faults >= old(disk.faults)
      ensures forall n :: n in old(disk.root) && !Sweepable(n, old(disk.root)[n], TempPrefix(name), disk.locked) ==>
        At(disk.root, n) == Some(old(disk.root)[n])
      ensures forall n :: n in disk.root ==> n in old(disk.root)
      ensures forall n :: n in removed <==> n in old(disk.root) && n !in disk.root
      ensures disk.faults == old(disk.faults) ==> (ok <==> disk.mounted)
      ensures disk.faults == old(disk.faults) ==> disk.root == Swept(old(disk.root), TempPrefix(name), disk.locked)
    {
      removed, ok := {}, false;
      var listed := disk.Try();
      if !listed || !disk.mounted { return; }
      ghost var stuck: set<string>;
      ghost var before := disk.root;
      removed, ok, stuck := SweepAll(name);
      SweepEnds(before, disk.root, removed, stuck, TempPrefix(name), disk.locked);
    }

    /** The loop of the sweep over the entries it listed. */
    method SweepAll(name: string) returns (removed: set<string>, ok: bool, ghost stuck: set<string>)
      requires Valid()
      modifies disk`root, disk`faults
      ensures Valid() && |stuck| <= disk.faults - old(disk.faults)
      ensures ok || disk.faults > old(disk.faults)
      ensures Walked(old(disk.root), disk.root, {}, removed, stuck,
                     set n | n in old(disk.root) && Sweepable(n, old(disk.root)[n], TempPrefix(name), disk.locked))
    {
      removed, ok, stuck := {}, true, {};
      var todo := disk.root.Keys;
      ghost var before := disk.root;
      ghost var goes := set n | n in before && Sweepable(n, before[n], TempPrefix(name), disk.locked);
      while todo != {}
        invariant Valid() && |stuck| <= disk.faults - old(disk.faults)
        invariant ok || disk.faults > old(disk.faults)
        invariant Walked(before, disk.root, todo, removed, stuck, goes)
      {
        var e :| e in todo;
        ghost var root, faults := disk.root, disk.faults;
        var gone, fine := SweepEntry(e, name);
        WalkedOn(before, root, disk.root, todo, removed, stuck, goes, e, disk.faults > faults);
        todo := todo - {e};
        if gone { removed := removed + {e}; }
        if disk.faults > faults { stuck := stuck + {e}; }
        ok := ok && fine;
      }
    }

    static lemma SweepEnds(
      before: Root, root: Root, removed: set<string>, stuck: set<string>, prefix: string, locked: set<string>)
      requires Walked(before, root, {}, removed, stuck, set n | n in before && Sweepable(n, before[n], prefix, locked))
      ensures |stuck| == 0 ==> root == Swept(before, prefix, locked)
      ensures forall n :: n in before && !Sweepable(n, before[n], prefix, locked) ==> At(root, n) == Some(before[n])
      ensures forall n :: n in root ==> n in before
      ensures forall n :: n in removed <==> n in before && n !in root
    {
    }
  }
}
