/** The filesystem under the store, call by call. A call that the source checks
    for an error may fail here at any time: it then counts as a fault, so that a
    contract can say what holds when nothing failed and what holds regardless. */
module Disks {
  import opened Basics
  import opened Names
  import opened Layout
  import DigestHistory

  type Key = DigestHistory.Key

  /** A file of a resource's directory, by the entry it is under. */
  datatype Path = Path(dir: string, file: string)

  /** What a stat says of a file beside its size. */
  datatype Meta = Meta(ino: DigestHistory.Ino, mtime: int, ctime: nat)

  type Metas = map<Path, Meta>

  predicate IsFileAt(root: Root, p: Path) {
    var f := Through(At(root, p.dir));
    f.Some? && p.file in f.value.items && f.value.items[p.file].Regular?
  }

  function BytesAt(root: Root, p: Path): Bytes
    requires IsFileAt(root, p)
  {
    Through(At(root, p.dir)).value.items[p.file].bytes
  }

  ghost predicate Described(root: Root, metas: Metas) {
    forall p :: IsFileAt(root, p) ==> p in metas
  }

  /** The files under other entries than d are as they were. */
  ghost predicate SameMetas(before: Metas, after: Metas, d: string) {
    forall p: Path :: p.dir != d && p in before ==> p in after && after[p] == before[p]
  }

  function KeyAt(root: Root, metas: Metas, p: Path): Key
    requires IsFileAt(root, p) && p in metas
  {
    DigestHistory.Key(metas[p].ino, |BytesAt(root, p)|, metas[p].mtime, metas[p].ctime)
  }

  /** The entries but one. */
  function But(root: Root, name: string): Root {
    root - {name}
  }

  lemma ButBut(root: Root, n: string, m: string)
    ensures But(But(root, n), m) == But(But(root, m), n)
  {
  }

  /** What a removal that failed half way may leave of an entry. */
  ghost predicate PartOf(after: Node, before: Node) {
    after == before ||
    (after.Dir? && before.Dir?
     && (forall f :: f in after.folder.items ==> f in before.folder.items && after.folder.items[f] == before.folder.items[f])
     && (after.folder.marker == before.folder.marker || after.folder.marker.NoMarker?))
  }

  /** What is left where something was being removed: nothing, or a part of it. */
  ghost predicate Remains(before: Option<Node>, after: Option<Node>) {
    after.Some? ==> before.Some? && PartOf(after.value, before.value)
  }

  ghost predicate NoNewFile(after: Folder, before: Folder) {
    forall b :: b in after.items && after.items[b].Regular? ==> b in before.items && after.items[b] == before.items[b]
  }

  /** Every other entry is as it was. */
  lemma OtherEntries(before: Root, after: Root, name: string)
    requires But(after, name) == But(before, name)
    ensures forall n :: n != name ==> At(after, n) == At(before, n)
  {
    forall n | n != name
      ensures At(after, n) == At(before, n)
    {
      assert n in after <==> n in But(after, name);
      assert n in before <==> n in But(before, name);
      if n in before { assert But(before, name)[n] == But(after, name)[n]; }
    }
  }

  datatype Creation = Created | Duplicate | Uncreated

  datatype Locking = Locked | Lost | Unlocked

  class Disk {
    var mounted: bool
    var root: Root
    var metas: Metas
    /** The temporaries some writer holds the lock of. */
    var locked: set<string>
    var now: nat
    var faults: nat

    ghost predicate Valid()
      reads this
    {
      && Described(root, metas) && (!mounted ==> root == map[])
      && locked <= root.Keys && (forall t :: t in locked ==> IsTemporary(t) && root[t].Dir?)
    }

    constructor (root: Root, metas: Metas, locked: set<string>, now: nat)
      requires Described(root, metas) && locked <= root.Keys && (forall t :: t in locked ==> IsTemporary(t) && root[t].Dir?)
      ensures Valid() && this.root == root && this.metas == metas && this.locked == locked && this.now == now
      ensures mounted && faults == 0
    {
      this.mounted, this.root, this.metas, this.locked, this.now, this.faults := true, root, metas, locked, now, 0;
    }

    /** A call that may fail for a reason of its own. */
    method Try() returns (ok: bool)
      modifies this`faults
      ensures faults == if ok then old(faults) else old(faults) + 1
    {
      ok := *;
      if !ok { faults := faults + 1; }
    }

    method MkdirTemp(prefix: string) returns (ok: bool, tmp: string)
      requires Valid()
      modifies this`root, this`faults
      ensures Valid()
      ensures ok ==> tmp !in old(root) && prefix <= tmp && root == old(root)[tmp := Dir(Folder(map[], NoMarker))]
      ensures !ok ==> root == old(root)
      ensures faults == if ok then old(faults) else old(faults) + 1
    {
      var digits: string := *;
      tmp := prefix + digits;
      ok := Try();
      if ok {
        if tmp in root || !mounted {
          ok, faults := false, faults + 1;
        } else {
          root := root[tmp := Dir(Folder(map[], NoMarker))];
          assert forall p :: IsFileAt(root, p) ==> IsFileAt(old(root), p);
        }
      }
    }

    /** The lock of a temporary just made. A GC may have come first. */
    method LockTemporary(tmp: string) returns (r: Locking)
      requires Valid() && tmp in root && tmp !in locked && IsTemporary(tmp) && root[tmp].Dir?
      modifies this`root, this`locked, this`faults
      ensures Valid()
      ensures r.Locked? ==> root == old(root) && locked == old(locked) + {tmp} && faults == old(faults)
      ensures r.Lost? ==> root == But(old(root), tmp) && locked == old(locked) && faults == old(faults) + 1
      ensures r.Unlocked? ==> root == old(root) && locked == old(locked) && faults == old(faults) + 1
    {
      var ok := Try();
      if ok {
        locked := locked + {tmp};
        return Locked;
      }
      var gone: bool := *;
      if gone {
        root := But(root, tmp);
        assert forall p :: IsFileAt(root, p) ==> IsFileAt(old(root), p);
        return Lost;
      }
      return Unlocked;
    }

    method Unlock(tmp: string)
      requires Valid()
      modifies this`locked
      ensures Valid() && locked == old(locked) - {tmp}
    {
      locked := locked - {tmp};
    }

    /** Creates, writes and closes a file that must not be there. */
    method WriteNew(tmp: string, base: string, bytes: Bytes) returns (r: Creation)
      requires Valid() && tmp in root && root[tmp].Dir?
      modifies this`root, this`metas, this`faults
      ensures Valid() && tmp in root && root[tmp].Dir? && But(root, tmp) == But(old(root), tmp)
      ensures SameMetas(old(metas), metas, tmp)
      ensures r.Created? ==> base !in old(root)[tmp].folder.items && faults == old(faults)
      ensures r.Created? ==>
        root[tmp] == Dir(Folder(old(root)[tmp].folder.items[base := Regular(bytes)], old(root)[tmp].folder.marker))
      ensures r.Duplicate? ==> base in old(root)[tmp].folder.items && root == old(root) && faults == old(faults)
      ensures r.Uncreated? ==> faults == old(faults) + 1
    {
      var f := root[tmp].folder;
      var ok := Try();
      var ino: DigestHistory.Ino, mtime: int, ctime: nat := *, *, *;
      if !ok {
        // The file may be there, with some of its bytes.
        var part: Bytes := *;
        if base !in f.items {
          Put(tmp, f, base, Regular(part), Meta(ino, mtime, ctime));
        }
        return Uncreated;
      }
      if base in f.items { return Duplicate; }
      Put(tmp, f, base, Regular(bytes), Meta(ino, mtime, ctime));
      return Created;
    }

    method Put(tmp: string, f: Folder, base: string, item: Item, meta: Meta)
      requires Valid() && tmp in root && root[tmp] == Dir(f)
      modifies this`root, this`metas
      ensures Valid() && root == old(root)[tmp := Dir(f.(items := f.items[base := item]))]
      ensures metas == old(metas)[Path(tmp, base) := meta]
    {
      root := root[tmp := Dir(f.(items := f.items[base := item]))];
      metas := metas[Path(tmp, base) := meta];
      assert forall p :: IsFileAt(root, p) ==> p == Path(tmp, base) || IsFileAt(old(root), p);
    }

    method WriteSentinel(tmp: string, text: Text) returns (ok: bool)
      requires Valid() && tmp in root && root[tmp].Dir?
      modifies this`root, this`faults
      ensures Valid() && tmp in root && root[tmp].Dir? && But(root, tmp) == But(old(root), tmp)
      ensures ok ==> root[tmp] == Dir(old(root)[tmp].folder.(marker := Marker(text)))
      ensures faults == if ok then old(faults) else old(faults) + 1
    {
      var f := root[tmp].folder;
      ok := Try();
      root := root[tmp := Dir(f.(marker := Marker(if ok then text else Garbage)))];
      assert forall p :: IsFileAt(root, p) ==> IsFileAt(old(root), p);
    }

    /** RemoveAll: all of the entry, or what it got to. */
    method RemoveAll(name: string) returns (ok: bool)
      requires Valid() && name !in locked
      modifies this`root, this`faults
      ensures Valid() && But(root, name) == But(old(root), name)
      ensures ok ==> root == But(old(root), name) && faults == old(faults)
      ensures !ok ==> faults == old(faults) + 1 && (name in root <==> name in old(root))
      ensures !ok && name in root ==> PartOf(root[name], old(root)[name])
    {
      ok := Try();
      if ok {
        root := But(root, name);
      } else if name in root && root[name].Dir? {
        var gone: set<string>, unmarked: bool := *, *;
        var f := root[name].folder;
        root := root[name := Dir(Folder(f.items - gone, if unmarked then NoMarker else f.marker))];
      }
      assert forall p :: IsFileAt(root, p) ==> IsFileAt(old(root), p);
    }

    /** The swap's rename, over a name that is free. The lock stays on the
        directory: no temporary's name is locked by it any more. */
    method Rename(tmp: string, name: string) returns (ok: bool)
      requires Valid() && tmp in root && root[tmp].Dir? && name !in root
      modifies this`root, this`metas, this`locked, this`faults
      ensures Valid() && locked == if ok then old(locked) - {tmp} else old(locked)
      ensures ok ==> root == But(old(root), tmp)[name := old(root)[tmp]]
      ensures SameMetas(old(metas), metas, name)
      ensures !ok ==> root == old(root) && metas == old(metas)
      ensures faults == if ok then old(faults) else old(faults) + 1
    {
      ok := Try();
      if ok {
        var f := root[tmp].folder;
        root := But(root, tmp)[name := root[tmp]];
        locked := locked - {tmp};
        metas := metas + map b | b in f.items && Path(tmp, b) in metas :: Path(name, b) := metas[Path(tmp, b)];
        forall p | IsFileAt(root, p)
          ensures p in metas
        {
          if p.dir == name {
            assert IsFileAt(old(root), Path(tmp, p.file));
          } else {
            assert IsFileAt(old(root), p);
          }
        }
      }
    }

    // ----- what other processes do -----

    /** Another process writes a file, or puts one there. */
    method Rewrite(p: Path, bytes: Bytes, meta: Meta, later: nat)
      requires Valid() && Through(At(root, p.dir)).Some? && now <= later
      modifies this`root, this`metas, this`now
      ensures Valid() && metas == old(metas)[p := meta] && now == later
      ensures var f := Through(At(old(root), p.dir)).value;
        root == old(root)[p.dir := PutThrough(old(root)[p.dir], f.(items := f.items[p.file := Regular(bytes)]))]
    {
      var f := Through(At(root, p.dir)).value;
      var g := f.(items := f.items[p.file := Regular(bytes)]);
      PutThroughThrough(root[p.dir], g, g);
      root, metas, now := root[p.dir := PutThrough(root[p.dir], g)], metas[p := meta], later;
      assert forall q :: IsFileAt(root, q) ==> q == p || IsFileAt(old(root), q);
    }

    // ----- the files of Adopt -----

    /** Replaces the directory the name goes through, with no new regular file. */
    method PutFolder(name: string, f: Folder, ghost before: Root, ghost g: Folder)
      requires Valid() && Described(before, metas) && Through(At(before, name)).Some?
      requires root == before[name := PutThrough(before[name], g)]
      requires NoNewFile(f, Through(At(before, name)).value)
      modifies this`root
      ensures Valid() && root == before[name := PutThrough(before[name], f)]
      ensures But(root, name) == But(before, name)
    {
      PutThroughThrough(before[name], g, f);
      root := root[name := PutThrough(root[name], f)];
      assert forall p :: IsFileAt(root, p) ==> IsFileAt(before, p);
    }
  }
}
