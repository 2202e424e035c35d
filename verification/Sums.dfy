/** The content check and its memory of digests. */
module ContentCheck {
  import opened Basics
  import opened Names
  import opened Layout
  import opened Disks
  import DigestHistory

  type Entry = DigestHistory.Entry

  type Memory = map<Path, Entry>

  /** The racy window, two seconds in nanoseconds: a file that had changed less
      than this before it was hashed is hashed again the next time. */
  const RACY: nat := 2_000_000_000

  /** The window covers exactly the ticks of up to two seconds and one nanosecond. */
  lemma RacyCovers(tick: nat)
    requires Sum([0]) != Sum([1])
    ensures DigestHistory.Sound(DigestHistory.Clock(tick, RACY)) <==> tick <= 2_000_000_001
  {
    DigestHistory.SoundExactly(DigestHistory.Clock(tick, RACY));
  }

  predicate Trusts(memory: Memory, p: Path, k: Key) {
    p in memory && DigestHistory.Trusted(RACY, memory[p], k)
  }

  /** Every digest the memory would answer with is the one of the file's bytes,
      and none was taken later than now. */
  ghost predicate Agrees(root: Root, metas: Metas, now: nat, memory: Memory) {
    && (forall p :: p in memory ==> IsResourceName(p.dir) && memory[p].at <= now)
    && (forall p :: p in memory && IsFileAt(root, p) && p in metas && Trusts(memory, p, KeyAt(root, metas, p))
          ==> memory[p].digest == Sum(BytesAt(root, p)))
  }

  predicate Under(p: Path, dir: string) {
    p.dir == dir
  }

  function Forgotten(memory: Memory, dir: string): Memory {
    map p | p in memory && !Under(p, dir) :: memory[p]
  }

  /** The files the memory knows are, where they still are, as they were. */
  ghost predicate Untouched(root: Root, metas: Metas, root': Root, metas': Metas, memory: Memory) {
    forall p :: p in memory && IsResourceName(p.dir) && IsFileAt(root', p) && p in metas' ==>
      && IsFileAt(root, p) && BytesAt(root', p) == BytesAt(root, p)
      && p in metas && metas'[p] == metas[p]
  }

  lemma UntouchedAgrees(root: Root, metas: Metas, root': Root, metas': Metas, now: nat, memory: Memory)
    requires Agrees(root, metas, now, memory) && Untouched(root, metas, root', metas', memory)
    ensures Agrees(root', metas', now, memory)
  {
  }

  lemma LessAgrees(root: Root, metas: Metas, now: nat, memory: Memory, less: Memory)
    requires Agrees(root, metas, now, memory)
    requires forall p :: p in less ==> p in memory && less[p] == memory[p]
    ensures Agrees(root, metas, now, less)
  {
  }

  /** One more digest leaves what is remembered of other directories. */
  lemma OneMoreDigest(memory: Memory, p: Path, e: Entry)
    ensures Forgotten(memory[p := e], p.dir) == Forgotten(memory, p.dir)
  {
  }

  /** A digest that is the one of the file's bytes may be remembered. */
  lemma RightAgrees(root: Root, metas: Metas, now: nat, memory: Memory, p: Path, e: Entry)
    requires Agrees(root, metas, now, memory) && IsResourceName(p.dir) && IsFileAt(root, p)
    requires e.digest == Sum(BytesAt(root, p)) && e.at <= now
    ensures Agrees(root, metas, now, memory[p := e])
  {
  }

  /** Another process writes the file at p, or puts one there: it gets the stamp
      of the filesystem's clock, which is behind by the window at the most. The
      memory still agrees, unless an extraction hashed the file it wrote in this
      very tick. */
  lemma RewriteAgrees(
    root: Root, metas: Metas, now: nat, memory: Memory, p: Path, root': Root, meta: Meta, later: nat)
    requires Agrees(root, metas, now, memory) && now <= later <= meta.ctime + RACY
    requires forall q :: q != p && IsFileAt(root', q) ==> IsFileAt(root, q) && BytesAt(root', q) == BytesAt(root, q)
    requires p in memory && memory[p].written ==> memory[p].key.ctime != meta.ctime
    ensures Agrees(root', metas[p := meta], later, memory)
  {
  }

  /** The digest of the file at p would be answered from the memory. */
  ghost predicate Known(root: Root, metas: Metas, memory: Memory, p: Path) {
    p in memory && IsFileAt(root, p) && p in metas && Trusts(memory, p, KeyAt(root, metas, p))
  }

  /** A digest an extraction computed is trusted at once, and no other one is
      trusted less for it. */
  lemma WrittenIsKnown(root: Root, metas: Metas, now: nat, memory: Memory, p: Path, digest: string)
    requires Agrees(root, metas, now, memory) && IsResourceName(p.dir) && IsFileAt(root, p) && p in metas
    requires digest == Sum(BytesAt(root, p))
    ensures var after := memory[p := DigestHistory.Entry(KeyAt(root, metas, p), digest, 0, true)];
      && Agrees(root, metas, now, after) && Forgotten(after, p.dir) == Forgotten(memory, p.dir)
      && Known(root, metas, after, p) && forall q :: Known(root, metas, memory, q) ==> Known(root, metas, after, q)
  {
    var e := DigestHistory.Entry(KeyAt(root, metas, p), digest, 0, true);
    RightAgrees(root, metas, now, memory, p, e);
    OneMoreDigest(memory, p, e);
  }

  /** When the memory answers for a file, spelled out. */
  lemma TrustsExactly(memory: Memory, p: Path, k: Key)
    ensures Trusts(memory, p, k) <==>
      p in memory && memory[p].key == k && (memory[p].written || k.ctime + 2_000_000_000 < memory[p].at)
  {
  }

  class Sums {
    var entries: Memory
    /** The files actually read. */
    var hashed: nat

    constructor ()
      ensures entries == map[] && hashed == 0
    {
      entries, hashed := map[], 0;
    }

    /** The digest of the file at p, which had key k when it was looked at. */
    method Digest(disk: Disk, p: Path, k: Key) returns (ok: bool, digest: string)
      requires disk.Valid() && IsResourceName(p.dir) && IsFileAt(disk.root, p) && k == KeyAt(disk.root, disk.metas, p)
      requires Agrees(disk.root, disk.metas, disk.now, entries)
      modifies this, disk`faults
      ensures Agrees(disk.root, disk.metas, disk.now, entries)
      ensures ok ==> digest == Sum(BytesAt(disk.root, p)) && disk.faults == old(disk.faults)
      ensures !ok ==> disk.faults > old(disk.faults) && entries == old(entries)
      ensures old(Trusts(entries, p, k)) ==> ok && hashed == old(hashed) && entries == old(entries)
      ensures !old(Trusts(entries, p, k)) && ok ==>
        hashed == old(hashed) + 1
        && entries == old(entries)[p := DigestHistory.Entry(k, digest, disk.now, false)]
      ensures hashed >= old(hashed) && Forgotten(entries, p.dir) == Forgotten(old(entries), p.dir)
    {
      if p in entries && DigestHistory.Trusted(RACY, entries[p], k) {
        return true, entries[p].digest;
      }
      var at := disk.now;
      ok := disk.Try();
      if !ok { return false, ""; }
      digest := Sum(BytesAt(disk.root, p));
      hashed := hashed + 1;
      OneMoreDigest(entries, p, DigestHistory.Entry(k, digest, at, false));
      entries := entries[p := DigestHistory.Entry(k, digest, at, false)];
    }

    /** One file of an extraction: left out when it cannot be looked at. */
    method RememberOne(disk: Disk, p: Path, digest: string)
      requires disk.Valid() && IsResourceName(p.dir) && IsFileAt(disk.root, p) && digest == Sum(BytesAt(disk.root, p))
      requires Agrees(disk.root, disk.metas, disk.now, entries)
      modifies this`entries, disk`faults
      ensures Agrees(disk.root, disk.metas, disk.now, entries) && disk.faults >= old(disk.faults)
      ensures Forgotten(entries, p.dir) == Forgotten(old(entries), p.dir)
      ensures disk.faults == old(disk.faults) ==> Known(disk.root, disk.metas, entries, p)
      ensures forall q :: Known(disk.root, disk.metas, old(entries), q) ==> Known(disk.root, disk.metas, entries, q)
    {
      var ok := disk.Try();
      if ok {
        WrittenIsKnown(disk.root, disk.metas, disk.now, entries, p, digest);
        entries := entries[p := DigestHistory.Entry(KeyAt(disk.root, disk.metas, p), digest, 0, true)];
      }
    }

    /** Takes over, for each file just swapped in, the digest computed while it
        was written, so that none is read again. */
    method Remember(disk: Disk, dir: string, files: seq<File>, ghost kept: seq<Body>)
      requires disk.Valid() && IsResourceName(dir) && Distinct(NamesOf(kept)) && files == Listed(kept)
      requires dir in disk.root && disk.root[dir].Dir? && disk.root[dir].folder.items == Items(kept)
      requires Agrees(disk.root, disk.metas, disk.now, entries)
      modifies this`entries, disk`faults
      ensures Agrees(disk.root, disk.metas, disk.now, entries) && disk.faults >= old(disk.faults)
      ensures Forgotten(entries, dir) == Forgotten(old(entries), dir)
      ensures disk.faults == old(disk.faults) ==> forall i :: 0 <= i < |kept| ==>
        Known(disk.root, disk.metas, entries, Path(dir, kept[i].name))
    {
      var i := 0;
      while i < |files|
        invariant 0 <= i <= |files|
        invariant disk.faults >= old(disk.faults) && Forgotten(entries, dir) == Forgotten(old(entries), dir)
        invariant Agrees(disk.root, disk.metas, disk.now, entries)
        invariant disk.faults == old(disk.faults) ==> forall j :: 0 <= j < i ==>
          Known(disk.root, disk.metas, entries, Path(dir, kept[j].name))
      {
        var p := Path(dir, files[i].name);
        FilesHold(kept, |kept|, i);
        assert IsFileAt(disk.root, p) && BytesAt(disk.root, p) == kept[i].bytes;
        RememberOne(disk, p, files[i].digest);
        i := i + 1;
      }
    }

    /** Drops what is remembered under the directory, and nothing else. Whatever
        takes its place is then read before it is trusted. */
    method Forget(dir: string)
      modifies this`entries
      ensures entries == Forgotten(old(entries), dir)
      ensures forall p :: p in entries <==> p in old(entries) && p.dir != dir
      ensures forall p: Path, k: Key :: p.dir == dir ==> !Trusts(entries, p, k)
    {
      var todo := entries.Keys;
      while todo != {}
        invariant todo <= entries.Keys <= old(entries).Keys
        invariant forall p :: p in entries ==> entries[p] == old(entries)[p]
        invariant forall p :: p in old(entries) && p !in todo ==> (p in entries <==> !Under(p, dir))
      {
        var p :| p in todo;
        todo := todo - {p};
        if Under(p, dir) {
          entries := entries - {p};
        }
      }
    }

    /** Every file listed has a name the store writes, is there, and has its size. */
    static ghost predicate AllThere(f: Folder, content: seq<File>) {
      forall i :: 0 <= i < |content| ==>
        && IsFileName(content[i].name) && content[i].name in f.items && f.items[content[i].name].Regular?
        && |f.items[content[i].name].bytes| == content[i].size
    }

    /** Looks at every file listed, and reads none. */
    method LookAtAll(disk: Disk, dir: string, content: seq<File>) returns (ok: bool, infos: seq<Key>)
      requires disk.Valid() && Through(At(disk.root, dir)).Some?
      modifies disk`faults
      ensures disk.faults >= old(disk.faults)
      ensures ok ==> AllThere(Through(At(disk.root, dir)).value, content)
      ensures disk.faults == old(disk.faults) ==> (ok <==> AllThere(Through(At(disk.root, dir)).value, content))
      ensures ok ==> |infos| == |content|
      ensures ok ==> forall j :: 0 <= j < |content| ==> Looked(disk, dir, content[j], infos[j])
    {
      infos := [];
      var i := 0;
      while i < |content|
        invariant 0 <= i <= |content| && |infos| == i
        invariant disk.faults >= old(disk.faults)
        invariant forall j :: 0 <= j < i ==> Looked(disk, dir, content[j], infos[j])
      {
        var file := content[i];
        if !IsFileName(file.name) { return false, infos; }
        var p := Path(dir, file.name);
        var looked := disk.Try();
        if !looked || !IsFileAt(disk.root, p) { return false, infos; }
        if |BytesAt(disk.root, p)| != file.size { return false, infos; }
        infos := infos + [KeyAt(disk.root, disk.metas, p)];
        i := i + 1;
      }
      assert forall j :: 0 <= j < |content| ==> Looked(disk, dir, content[j], infos[j]);
      return true, infos;
    }

    /** Whether every file listed is there with the content listed. Every file is
        looked at before any is read. */
    method AllMatching(disk: Disk, dir: string, content: seq<File>) returns (ok: bool)
      requires disk.Valid() && IsResourceName(dir) && Through(At(disk.root, dir)).Some?
      requires Agrees(disk.root, disk.metas, disk.now, entries)
      modifies this, disk`faults
      ensures Agrees(disk.root, disk.metas, disk.now, entries) && disk.faults >= old(disk.faults)
      ensures ok ==> AllMatch(Through(At(disk.root, dir)).value, content)
      ensures disk.faults == old(disk.faults) ==> (ok <==> AllMatch(Through(At(disk.root, dir)).value, content))
      ensures hashed >= old(hashed) && Forgotten(entries, dir) == Forgotten(old(entries), dir)
      // No file is read when one is missing or has another size.
      ensures !AllThere(Through(At(disk.root, dir)).value, content) ==> hashed == old(hashed)
      // Files the memory vouches for are not read.
      ensures old(Vouches(entries, disk, dir, content)) ==> hashed == old(hashed) && entries == old(entries)
      // After a check of files that had settled, it vouches for them.
      ensures ok && Settled(disk, dir, content) ==> Vouches(entries, disk, dir, content)
    {
      var infos: seq<Key>;
      ok, infos := LookAtAll(disk, dir, content);
      if ok {
        ok := HashAll(disk, dir, content, infos);
      }
    }

    /** Whether the digests are the ones listed, for files that were looked at. */
    method HashAll(disk: Disk, dir: string, content: seq<File>, infos: seq<Key>) returns (ok: bool)
      requires disk.Valid() && IsResourceName(dir) && Through(At(disk.root, dir)).Some?
      requires Agrees(disk.root, disk.metas, disk.now, entries) && |infos| == |content|
      requires forall j :: 0 <= j < |content| ==> Looked(disk, dir, content[j], infos[j])
      modifies this, disk`faults
      ensures Agrees(disk.root, disk.metas, disk.now, entries) && disk.faults >= old(disk.faults)
      ensures ok ==> AllMatch(Through(At(disk.root, dir)).value, content)
      ensures disk.faults == old(disk.faults) ==> (ok <==> AllMatch(Through(At(disk.root, dir)).value, content))
      ensures hashed >= old(hashed) && Forgotten(entries, dir) == Forgotten(old(entries), dir)
      ensures old(Vouches(entries, disk, dir, content)) ==> hashed == old(hashed) && entries == old(entries)
      ensures ok && Settled(disk, dir, content) ==> Vouches(entries, disk, dir, content)
    {
      ghost var f := Through(At(disk.root, dir)).value;
      var i := 0;
      while i < |content|
        invariant 0 <= i <= |content|
        invariant disk.faults >= old(disk.faults) && hashed >= old(hashed)
        invariant Forgotten(entries, dir) == Forgotten(old(entries), dir)
        invariant Agrees(disk.root, disk.metas, disk.now, entries)
        invariant forall j :: 0 <= j < |content| ==> Looked(disk, dir, content[j], infos[j])
        invariant forall j :: 0 <= j < i ==> Matches(f, content[j])
        invariant old(Vouches(entries, disk, dir, content)) ==> hashed == old(hashed) && entries == old(entries)
        invariant forall j :: 0 <= j < i ==> VouchedSince(entries, disk.now, Path(dir, content[j].name), infos[j])
      {
        assert Looked(disk, dir, content[i], infos[i]);
        var p := Path(dir, content[i].name);
        ghost var before := entries;
        var read, digest := Digest(disk, p, infos[i]);
        if !read || digest != content[i].digest { return false; }
        assert Matches(f, content[i]);
        StillVouches(before, entries, disk, dir, content, infos, i, digest);
        i := i + 1;
      }
      return true;
    }

    /** The memory has a trusted digest for every file listed that is there. */
    static ghost predicate Vouches(memory: Memory, disk: Disk, dir: string, content: seq<File>)
      reads disk
    {
      forall i :: 0 <= i < |content| ==>
        var p := Path(dir, content[i].name);
        IsFileAt(disk.root, p) && p in disk.metas ==> Trusts(memory, p, KeyAt(disk.root, disk.metas, p))
    }

    /** No file listed has changed for as long as the window. */
    static ghost predicate Settled(disk: Disk, dir: string, content: seq<File>)
      reads disk
    {
      forall i :: 0 <= i < |content| ==>
        var p := Path(dir, content[i].name);
        IsFileAt(disk.root, p) && p in disk.metas ==> disk.metas[p].ctime + RACY < disk.now
    }

    /** Both, spelled out, for files that are there. */
    static lemma VouchesExactly(memory: Memory, disk: Disk, dir: string, content: seq<File>)
      requires forall i :: 0 <= i < |content| ==>
        IsFileAt(disk.root, Path(dir, content[i].name)) && Path(dir, content[i].name) in disk.metas
      ensures Vouches(memory, disk, dir, content) <==>
        forall i :: 0 <= i < |content| ==>
          var p := Path(dir, content[i].name);
          var m := disk.metas[p];
          && p in memory
          && memory[p].key == DigestHistory.Key(m.ino, |BytesAt(disk.root, p)|, m.mtime, m.ctime)
          && (memory[p].written || m.ctime + 2_000_000_000 < memory[p].at)
      ensures Settled(disk, dir, content) <==>
        forall i :: 0 <= i < |content| ==> disk.metas[Path(dir, content[i].name)].ctime + 2_000_000_000 < disk.now
    {
    }

    /** The memory trusts the file's digest, if it had settled. */
    static predicate VouchedSince(memory: Memory, now: nat, p: Path, k: Key) {
      k.ctime + RACY < now ==> Trusts(memory, p, k)
    }

    /** Hashing the next file leaves the memory vouching for those before it. */
    static lemma StillVouches(
      before: Memory, after: Memory, disk: Disk, dir: string, content: seq<File>, infos: seq<Key>, i: nat,
      digest: string)
      requires i < |content| == |infos|
      requires forall j :: 0 <= j < |content| ==> Looked(disk, dir, content[j], infos[j])
      requires forall j :: 0 <= j < i ==> VouchedSince(before, disk.now, Path(dir, content[j].name), infos[j])
      requires var p := Path(dir, content[i].name);
        || (Trusts(before, p, infos[i]) && after == before)
        || after == before[p := DigestHistory.Entry(infos[i], digest, disk.now, false)]
      ensures forall j :: 0 <= j <= i ==> VouchedSince(after, disk.now, Path(dir, content[j].name), infos[j])
    {
      forall j | 0 <= j <= i
        ensures VouchedSince(after, disk.now, Path(dir, content[j].name), infos[j])
      {
        assert Looked(disk, dir, content[j], infos[j]) && Looked(disk, dir, content[i], infos[i]);
        if j < i { assert VouchedSince(before, disk.now, Path(dir, content[j].name), infos[j]); }
      }
    }

    /** A file with the name and the size listed, and the key it had. */
    static ghost predicate Looked(disk: Disk, dir: string, file: File, k: Key)
      reads disk
    {
      var p := Path(dir, file.name);
      && IsFileName(file.name) && IsFileAt(disk.root, p) && p in disk.metas
      && |BytesAt(disk.root, p)| == file.size && k == KeyAt(disk.root, disk.metas, p)
    }
  }
}
