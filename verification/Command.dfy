/** The one-shot command: what it does to the cache path, once. */
module Commands {
  import opened Basics
  import opened Names
  import opened Layout
  import opened Disks
  import opened Stores
  import opened Filling

  /** What an import comes to when no call fails: the cache path after it,
      whether it succeeded, and whether it asked the source for the image. */
  datatype Import = Import(root: Root, ok: bool, asked: bool)

  function ImportOf(
    mounted: bool, root: Root, locked: set<string>, name: string, source: string, puller: Puller): Import
  {
    if !mounted || StateOf(false, At(root, name)).Failed? then Import(root, false, false)
    else if StateOf(false, At(root, name)) == Ok(Complete) then Import(root, true, false)
    else
      var swept := Swept(root, TempPrefix(name), locked);
      if !Replaceable(At(root, name), COMMAND) then Import(swept, false, false)
      else if !Publishable(puller.pull(source)) then Import(swept, false, true)
      else Import(swept[name := Filled(COMMAND, source, puller.pull(source))], true, true)
  }

  /** Neither the resource's own entry nor a temporary of its name. */
  predicate IsOther(n: string, name: string) {
    n != name && !(TempPrefix(name) <= n)
  }

  /** Fills the directory of one resource, unless it already is. The command's
      store checks the names of the files only. */
  method Do(store: Store, puller: Puller, name: string, source: string) returns (ok: bool, asked: bool)
    requires store.Valid() && store.sums == null && IsResourceName(name)
    modifies store.disk`root, store.disk`metas, store.disk`locked, store.disk`faults
    ensures store.Valid() && store.disk.locked == old(store.disk.locked) && store.disk.faults >= old(store.disk.faults)
    ensures ok ==> StateOf(false, store.NodeAt(name)) == Ok(Complete)
    ensures forall n :: IsOther(n, name) ==> store.NodeAt(n) == old(store.NodeAt(n))
    ensures store.NodeAt(name) != old(store.NodeAt(name)) ==>
      Fillable(old(store.NodeAt(name)), COMMAND, puller.pull(source))
    ensures store.disk.faults == old(store.disk.faults) ==>
      Import(store.disk.root, ok, asked)
        == ImportOf(store.disk.mounted, old(store.disk.root), store.disk.locked, name, source, puller)
  {
    ok, asked := false, false;
    ghost var before := store.disk.root;
    var usable := CheckCachePath(store.disk);
    if !usable { return; }
    var state := store.State(name);
    if state.Failed? { return; }
    if state.value.Complete? { return true, false; }
    var removed, swept := store.SweepTemporaries(name);
    SweepLeaves(before, store.disk.root, name, store.disk.locked);
    if !swept { return; }
    ghost var root := store.disk.root;
    var heard: bool;
    ok, asked, heard := Fill(store, puller, name, source, COMMAND);
    if ok {
      FilledIsComplete(false, COMMAND, source, puller.pull(source));
    } else {
      FillLeaves(root, store.disk.root, name);
    }
  }

  lemma SweepLeaves(before: Root, after: Root, name: string, locked: set<string>)
    requires IsResourceName(name) && (forall n :: n in after ==> n in before)
    requires forall n :: n in before && !Store.Sweepable(n, before[n], TempPrefix(name), locked) ==>
      At(after, n) == Some(before[n])
    ensures At(after, name) == At(before, name)
    ensures forall n :: IsOther(n, name) ==> At(after, n) == At(before, n)
  {
  }

  lemma FillLeaves(before: Root, after: Root, name: string)
    requires Store.Aimed(before, after, name)
    ensures forall n :: IsOther(n, name) ==> At(after, n) == At(before, n)
  {
    forall n | IsOther(n, name)
      ensures At(after, n) == At(before, n)
    {
      assert n in before <==> n in But(before, name);
      assert n in after <==> n in But(after, name);
      if n in before { assert But(after, name)[n] == But(before, name)[n]; }
    }
  }

  /** What an import comes to, case by case. */
  lemma ImportExactly(mounted: bool, root: Root, locked: set<string>, name: string, source: string, puller: Puller)
    requires IsResourceName(name)
    ensures var done, at := ImportOf(mounted, root, locked, name, source, puller), StateOf(false, At(root, name));
      && (!mounted || at.Failed? ==> done == Import(root, false, false))
      && (mounted && at == Ok(Complete) ==> done == Import(root, true, false))
      && (mounted && at.Ok? && at != Ok(Complete) ==>
            && (done.asked <==> Replaceable(At(root, name), "imagecachectl"))
            && (done.ok <==> done.asked && Publishable(puller.pull(source)))
            && At(done.root, name)
               == (if done.ok then Some(Filled("imagecachectl", source, puller.pull(source))) else At(root, name))
            && forall n :: n != name ==>
                 At(done.root, n) == if n in root && root[n].Dir? && "." + name + ".tmp-" <= n && n !in locked then None
                                     else At(root, n))
  {
    if TempPrefix(name) <= name { Store.NotAResource(name, name); }
  }

  /** An import of a filled resource reaches no source and changes nothing. */
  lemma ImportTwice(root: Root, locked: set<string>, name: string, source: string, puller: Puller, again: Puller)
    requires ImportOf(true, root, locked, name, source, puller).ok
    ensures var once := ImportOf(true, root, locked, name, source, puller).root;
      ImportOf(true, once, locked, name, source, again) == Import(once, true, false)
  {
    if Publishable(puller.pull(source)) {
      FilledIsComplete(false, COMMAND, source, puller.pull(source));
    }
  }

  /** What the agent may replace and the command may not, exactly: what is there
      and bears no sentinel. What State calls complete, both may, and what the
      command may, the agent may. */
  lemma ReplacesExactly(checks: bool, node: Option<Node>)
    ensures Replaceable(node, AGENT) && !Replaceable(node, COMMAND) <==>
      node.Some? && !IsMarked(node) && !IsDenied(node)
    ensures Replaceable(node, COMMAND) ==> Replaceable(node, AGENT)
    ensures StateOf(checks, node) == Ok(Complete) ==> Replaceable(node, COMMAND)
    ensures IsDenied(node) ==> StateOf(checks, node).Failed? && !Replaceable(node, COMMAND)
  {
  }

  /** The import leaves every temporary of its resource that nobody holds gone,
      and with them a failed attempt's leftovers. */
  lemma NoLeftovers(root: Root, locked: set<string>, name: string, source: string, puller: Puller, n: string)
    requires IsResourceName(name) && ImportOf(true, root, locked, name, source, puller).asked
    requires TempPrefix(name) <= n && n !in locked
    ensures var after := ImportOf(true, root, locked, name, source, puller).root; n in after ==> !after[n].Dir?
  {
  }
}
