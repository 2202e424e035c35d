/** One convergence pass over the node: the cache directories and the sync-status
    labels follow the resources that select it. */
module Reconciling {
  import opened Basics
  import opened Names
  import opened Layout
  import opened Disks
  import opened ContentCheck
  import opened Stores
  import opened Filling
  import opened Passes
  import opened PassLoops
  import opened Watching
  import NodeLabels

  /** The API server, as far as the node's labels go. Others write them too, but
      not the statuses. */
  class Cluster {
    var labels: Labels
    /** The patches sent, by what was in the cache path at the time. */
    ghost var sent: seq<Root>
    var faults: nat

    constructor (labels: Labels)
      ensures this.labels == labels && sent == [] && faults == 0
    {
      this.labels, faults := labels, 0;
      sent := [];
    }

    /** Reads the node, or the list of resources: either may fail. */
    method Get() returns (ok: bool, node: Labels)
      modifies this`faults
      ensures node == labels && faults == if ok then old(faults) else old(faults) + 1
    {
      ok, node := *, labels;
      if !ok { faults := faults + 1; }
    }

    /** Sends a merge patch and reads back the object. `at` is what the labels
        had become when it arrived. A patch that failed may have been applied. */
    method Patch(p: NodeLabels.Patch, ghost cache: Root) returns (ok: bool, node: Labels, ghost at: Labels)
      modifies this
      ensures NodeLabels.SameStatuses(old(labels), at) && node == labels
      ensures labels == at || labels == NodeLabels.Merge(at, p)
      ensures ok ==> labels == NodeLabels.Merge(at, p)
      ensures sent == old(sent) + [cache] && faults == if ok then old(faults) else old(faults) + 1
    {
      var others: Labels, lost: bool := *, *;
      labels := NodeLabels.Overlaid(others, labels);
      at := labels;
      sent := sent + [cache];
      ok := *;
      if ok || lost { labels := NodeLabels.Merge(labels, p); }
      if !ok { faults := faults + 1; }
      node := labels;
    }
  }

  /** The node as a pass read it, updated in place. */
  class NodeObject {
    var labels: Labels

    constructor (labels: Labels)
      ensures this.labels == labels
    {
      this.labels := labels;
    }
  }

  /** How a pass ended. `first` are the statuses it showed while at work. */
  datatype Report = Unable | Report(
    ok: bool, seen: map<string, Answer<State>>, first: Statuses, want: Statuses, removed: set<string>,
    resolved: set<string>, pulled: set<string>)

  class NodeReconciler {
    const cluster: Cluster
    const store: Store
    const watcher: FSWatcher?
    const cachePath: string

    constructor (cluster: Cluster, store: Store, watcher: FSWatcher?, cachePath: string)
      ensures this.cluster == cluster && this.store == store && this.watcher == watcher && this.cachePath == cachePath
    {
      this.cluster, this.store, this.watcher, this.cachePath := cluster, store, watcher, cachePath;
    }

    function Cache(): Root
      reads store.disk
    {
      store.disk.root
    }

    /** Brings the statuses of the node to the wanted ones, sending nothing when
        they already are. */
    method PatchLabels(node: NodeObject, want: Labels) returns (ok: bool, ghost at: Labels)
      requires NodeLabels.NoneEmpty(want)
      modifies node, cluster
      ensures cluster.faults == if ok then old(cluster.faults) else old(cluster.faults) + 1
      ensures var out := NodeLabels.WithStatuses(old(node.labels), want);
        if out == old(node.labels) then ok && unchanged(node) && unchanged(cluster)
        else cluster.sent == old(cluster.sent) + [Cache()]
      ensures ok && NodeLabels.SameStatuses(old(cluster.labels), old(node.labels)) ==>
        NodeLabels.StatusesAre(cluster.labels, want) && NodeLabels.SameStatuses(cluster.labels, node.labels)
        && NodeLabels.StatusesAre(node.labels, want)
      // What others wrote meanwhile stays, unless this leaves the node no label.
      ensures NodeLabels.SameStatuses(old(cluster.labels), at)
      ensures ok && (want != map[] || !NodeLabels.OnlyStatuses(old(node.labels))) ==>
        NodeLabels.KeepsOthers(at, cluster.labels)
    {
      var labels, changed := NodeLabels.ApplyStatusLabels(node.labels, want);
      at := cluster.labels;
      NodeLabels.ApplyTwice(node.labels, want);
      if !changed {
        return true, at;
      }
      var base := node.labels;
      var p := NodeLabels.Diff(base, labels);
      node.labels := labels;
      var now: Labels;
      ok, now, at := cluster.Patch(p, Cache());
      NodeLabels.PatchedStatuses(base, at, want);
      NodeLabels.PatchedOthers(base, at, want);
      if ok { node.labels := now; }
    }

    /** The first look at one resource. */
    method LookAt(name: string) returns (seen: Answer<State>, f: Finding, ok: bool)
      requires store.Valid() && IsResourceName(name)
      modifies store.sums, store.disk`faults
      ensures store.Valid() && store.disk.faults >= old(store.disk.faults)
      ensures Found(store.Checks(), store.NodeAt(name), seen, f)
      ensures ok ==> seen.Ok? && !f.Unread?
      ensures store.disk.faults == old(store.disk.faults) ==>
        seen == StateOf(store.Checks(), store.NodeAt(name)) && !f.Unread? && (ok <==> seen.Ok?)
    {
      seen := store.State(name);
      if seen.Failed? { return seen, Unfilled, false; }
      if seen.value != Complete { return seen, Unfilled, true; }
      CompleteHasRecord(store.Checks(), store.NodeAt(name));
      var rec := store.ReadRecord(name);
      match rec {
        case Failed => return seen, Unread, false;
        case Ok(r) => return seen, if r.owner != AGENT then Seeded(r) else Ours, true;
      }
    }

    /** Asks the registry for the resource's layers, and when the record rec has
        the very same ones puts the agent's name on the directory. */
    method Adopt(ic: ImageCache, rec: Record, puller: Puller) returns (adopted: bool, ok: bool)
      requires store.Valid() && IsResourceName(ic.name)
      requires HasRecord(store.NodeAt(ic.name)) && RecordOf(store.NodeAt(ic.name)) == rec
      modifies store.disk`root, store.disk`faults
      ensures store.Valid() && store.disk.faults >= old(store.disk.faults)
      ensures But(Cache(), ic.name) == But(old(Cache()), ic.name) && (adopted ==> ok)
      ensures puller.resolve(ic.source).None? ==> !ok && Cache() == old(Cache())
      ensures puller.resolve(ic.source).Some? && !SameImage(rec, puller.resolve(ic.source).value) ==>
        ok && !adopted && Cache() == old(Cache())
      ensures puller.resolve(ic.source).Some? && SameImage(rec, puller.resolve(ic.source).value) ==>
        if adopted then store.NodeAt(ic.name) == Some(AdoptedNode(old(store.NodeAt(ic.name)).value))
        else !ok && OnlySpare(old(store.NodeAt(ic.name)), store.NodeAt(ic.name))
      ensures store.disk.faults == old(store.disk.faults) ==>
        (adopted <==> puller.resolve(ic.source).Some? && SameImage(rec, puller.resolve(ic.source).value))
    {
      var id := puller.resolve(ic.source);
      if id.None? { return false, false; }
      if rec.layers == [] || rec.layers != id.value.layers { return false, true; }
      adopted := store.Adopt(ic.name);
      ok := adopted;
    }

    /** Fills the resource's directory, whatever is there. */
    method Sync(ic: ImageCache, puller: Puller) returns (ok: bool, pulled: bool)
      requires store.Valid() && IsResourceName(ic.name)
      modifies store.disk`root, store.disk`metas, store.disk`locked, store.disk`faults, store.sums
      ensures store.Valid() && store.disk.locked == old(store.disk.locked) && store.disk.faults >= old(store.disk.faults)
      ensures Store.Aimed(old(Cache()), Cache(), ic.name)
      ensures (!ok && store.NodeAt(ic.name) == old(store.NodeAt(ic.name)))
        || (Publishable(puller.pull(ic.source)) && Replaceable(old(store.NodeAt(ic.name)), AGENT)
            && if ok then store.NodeAt(ic.name) == Some(Filled(AGENT, ic.source, puller.pull(ic.source)))
               else Remains(old(store.NodeAt(ic.name)), store.NodeAt(ic.name)))
      ensures store.disk.faults == old(store.disk.faults) ==>
        Turn(store.NodeAt(ic.name), ok, false, pulled)
          == FillTurn(store.disk.mounted, old(store.NodeAt(ic.name)), ic.source, puller, false)
        && But(Cache(), ic.name) == But(old(Cache()), ic.name)
    {
      Store.Undisturbed(Cache(), ic.name);
      var usable := CheckCachePath(store.disk);
      if !usable { return false, false; }
      var heard: bool;
      ghost var before := Cache();
      ok, pulled, heard := Fill(store, puller, ic.name, ic.source, AGENT);
      if ok { FilledIsAimed(before, ic.name, Filled(AGENT, ic.source, puller.pull(ic.source))); }
    }

    static lemma FilledIsAimed(before: Root, name: string, node: Node)
      ensures Store.Aimed(before, before[name := node], name)
      ensures But(before[name := node], name) == But(before, name)
    {
      assert But(before[name := node], name) == But(before, name);
      Store.Undisturbed(before, name);
    }

    static lemma OneEntryIsAimed(before: Root, after: Root, name: string)
      requires But(after, name) == But(before, name)
      ensures Store.Aimed(before, after, name)
    {
    }

    /** What the loop of the pass does with a resource that was not found in
        order: adopts it, or replaces it. */
    method Serve(ic: ImageCache, puller: Puller, ghost seen: Answer<State>, f: Finding)
      returns (synced: bool, resolved: bool, pulled: bool)
      requires store.Valid() && IsResourceName(ic.name) && (f.Seeded? || f.Unfilled?)
      requires Found(store.Checks(), store.NodeAt(ic.name), seen, f)
      modifies store.disk`root, store.disk`metas, store.disk`locked, store.disk`faults, store.sums
      ensures store.Valid() && store.disk.locked == old(store.disk.locked) && store.disk.faults >= old(store.disk.faults)
      ensures Store.Aimed(old(Cache()), Cache(), ic.name)
      ensures Turned(store.Checks(), old(store.NodeAt(ic.name)), store.NodeAt(ic.name), seen, synced, ic.source, puller)
      ensures store.disk.faults == old(store.disk.faults) ==>
        Turn(store.NodeAt(ic.name), synced, resolved, pulled)
          == TurnSeen(seen, store.disk.mounted, old(store.NodeAt(ic.name)), ic.source, puller)
        && But(Cache(), ic.name) == But(old(Cache()), ic.name)
    {
      resolved, pulled := false, false;
      ghost var before := Cache();
      if f.Seeded? {
        var adopted, ok := Adopt(ic, f.rec, puller);
        resolved := true;
        OneEntryIsAimed(before, Cache(), ic.name);
        if !ok { return false, resolved, pulled; }
        if adopted { return true, resolved, pulled; }
      }
      synced, pulled := Sync(ic, puller);
    }

    // ----- the loops of the pass -----

    /** The first loop: what is complete, and whose, before anything is pulled. */
    method Look(desired: seq<ImageCache>) returns (s: Survey)
      requires store.Valid() && ValidList(desired)
      modifies store.sums, store.disk`faults
      ensures store.Valid() && store.disk.faults >= old(store.disk.faults)
      ensures Looked(store.Checks(), Cache(), Sources(desired).Keys, s)
      ensures store.disk.faults == old(store.disk.faults) ==> LookedClean(store.Checks(), Cache(), s)
    {
      s := Survey(map[], map[], {}, map[], true);
      ghost var fronts := Fronts(desired);
      ghost var root, done := Cache(), {};
      var i := 0;
      while i < |desired|
        invariant 0 <= i <= |desired| && done == fronts[i]
        invariant store.Valid() && store.disk.faults >= old(store.disk.faults)
        invariant Looked(store.Checks(), root, done, s)
        invariant store.disk.faults == old(store.disk.faults) ==> LookedClean(store.Checks(), root, s)
      {
        var n := desired[i].name;
        NotYet(fronts, desired, i);
        var answer, f, fine := LookAt(n);
        LookedOn(store.Checks(), root, done, s, n, answer, f, fine);
        if store.disk.faults == old(store.disk.faults) { CleanOn(store.Checks(), root, s, n, answer, f, fine); }
        s, done := Noted(s, n, answer, f, fine), done + {n};
        i := i + 1;
      }
      AllThrough(fronts, desired);
    }

    /** The body of the second loop. */
    method ServeNext(
      ic: ImageCache, f: Finding, registry: Registry, ghost seen: Answer<State>, ghost p: Pass, ghost clean: bool)
      returns (synced: bool, ok: bool, resolved: bool, pulled: bool)
      requires store.Valid() && IsResourceName(ic.name)
      requires Found(store.Checks(), store.NodeAt(ic.name), seen, f)
      requires p.checks == store.Checks() && p.mounted == store.disk.mounted && p.registry == registry
      requires clean ==> !f.Unread? && seen == StateOf(store.Checks(), store.NodeAt(ic.name))
      modifies store.disk`root, store.disk`metas, store.disk`locked, store.disk`faults, store.sums
      ensures store.Valid() && store.disk.locked == old(store.disk.locked) && store.disk.faults >= old(store.disk.faults)
      ensures StepDid(p, old(Cache()), Step(Cache(), synced, ok, resolved, pulled), ic, seen,
                      clean && store.disk.faults == old(store.disk.faults))
      ensures ok && !f.Unread? ==> synced
    {
      Store.Undisturbed(Cache(), ic.name);
      if f.Ours? || f.Unread? {
        return f.Ours?, true, false, false;
      }
      synced, resolved, pulled := Serve(ic, registry(ic.name), seen, f);
      ok := synced;
    }

    ghost function PassOf(desired: seq<ImageCache>, registry: Registry): Pass
      requires ValidList(desired)
      reads store.disk
    {
      Pass(store.Checks(), store.disk.mounted, Sources(desired), registry, store.disk.locked)
    }

    /** The loop has served the first resources, in these steps. */
    ghost predicate Serving(
      p: Pass, before: Root, steps: seq<Step>, desired: seq<ImageCache>, s: Survey, t: Tally, clean: bool)
      reads store.disk
    {
      && StepsDid(p, before, steps, desired, s.seen, clean)
      && Cache() == RootAt(before, steps) && t == TallyOf(s, desired, steps)
      && (s.ok && t.ok ==> AllFine(steps))
    }

    /** The next turn of the loop. */
    method ServeTurn(
      desired: seq<ImageCache>, i: nat, registry: Registry, s: Survey, t: Tally, ghost p: Pass, ghost before: Root,
      ghost steps: seq<Step>, ghost clean: bool)
      returns (u: Tally, ghost st: Step)
      requires store.Valid() && ValidList(desired) && i < |desired| && |steps| == i
      requires p.checks == store.Checks() && p.mounted == store.disk.mounted && p.registry == registry
      requires Looked(p.checks, before, Sources(desired).Keys, s) && (clean ==> LookedClean(p.checks, before, s))
      requires Serving(p, before, steps, desired, s, t, clean)
      modifies store.disk`root, store.disk`metas, store.disk`locked, store.disk`faults, store.sums
      ensures store.Valid() && store.disk.locked == old(store.disk.locked) && store.disk.faults >= old(store.disk.faults)
      ensures Serving(p, before, steps + [st], desired, s, u, clean && store.disk.faults == old(store.disk.faults))
    {
      var ic := desired[i];
      SourceAt(desired, i);
      ResourceNames(ic.name);
      StaysUntil(p, before, steps, desired, s.seen, clean, ic.name);
      FoundAt(p.checks, before, Sources(desired).Keys, s, ic.name);
      assert store.NodeAt(ic.name) == At(before, ic.name);
      var now, ok, r, q := ServeNext(ic, FindingOf(s, ic.name), registry, s.seen[ic.name], p, clean);
      st := Step(Cache(), now, ok, r, q);
      Weaker(p, before, steps, desired, s.seen, clean, clean && store.disk.faults == old(store.disk.faults));
      OneMoreStep(p, before, steps, desired, s.seen, clean && store.disk.faults == old(store.disk.faults), st);
      TallyOn(s, desired, steps, st);
      OneMoreFine(steps, st);
      u := Counted(t, ic.name, now, ok, r, q);
    }

    /** The second loop: every resource that is not in order, one after the other,
        whatever becomes of the others. */
    method ServeAll(desired: seq<ImageCache>, registry: Registry, s: Survey, ghost p: Pass)
      returns (t: Tally, ghost steps: seq<Step>)
      requires store.Valid() && ValidList(desired) && p == PassOf(desired, registry)
      requires Looked(p.checks, Cache(), p.sources.Keys, s)
      modifies store.disk`root, store.disk`metas, store.disk`locked, store.disk`faults, store.sums
      ensures store.Valid() && store.disk.locked == old(store.disk.locked) && store.disk.faults >= old(store.disk.faults)
      ensures |steps| == |desired|
      ensures Serving(p, old(Cache()), steps, desired, s, t,
                      LookedClean(p.checks, old(Cache()), s) && store.disk.faults == old(store.disk.faults))
    {
      t, steps := Tally(s.want, {}, {}, true), [];
      ghost var before, clean := Cache(), LookedClean(p.checks, Cache(), s);
      var i := 0;
      while i < |desired|
        invariant 0 <= i <= |desired| && |steps| == i
        invariant store.Valid() && store.disk.locked == old(store.disk.locked) && store.disk.faults >= old(store.disk.faults)
        invariant Serving(p, before, steps, desired, s, t, clean && store.disk.faults == old(store.disk.faults))
      {
        ghost var st: Step;
        t, st := ServeTurn(
          desired, i, registry, s, t, p, before, steps, clean && store.disk.faults == old(store.disk.faults));
        steps := steps + [st];
        i := i + 1;
      }
    }

    /** Collects what no resource is behind. */
    method Collect(keep: set<string>, ghost p: Pass) returns (removed: set<string>, ok: bool)
      requires store.Valid() && keep == p.sources.Keys && store.disk.locked == p.locked
      modifies store.disk`root, store.disk`faults, store.sums
      ensures store.Valid() && store.disk.faults >= old(store.disk.faults)
      ensures Collecting(old(Cache()), Cache(), p.sources.Keys, p.locked)
      ensures store.disk.faults == old(store.disk.faults) ==> CollectedClean(old(Cache()), Cache(), removed, ok, p)
      ensures ok ==> CollectedClean(old(Cache()), Cache(), removed, ok, p)
    {
      removed, ok := store.GC(keep);
    }

    /** Serves every resource, then collects what none of them is behind. */
    method Converge(desired: seq<ImageCache>, registry: Registry, s: Survey, ghost p: Pass)
      returns (t: Tally, removed: set<string>, ok: bool)
      requires store.Valid() && ValidList(desired) && p == PassOf(desired, registry)
      requires Looked(p.checks, Cache(), p.sources.Keys, s)
      modifies store.disk`root, store.disk`metas, store.disk`locked, store.disk`faults, store.sums
      ensures store.Valid() && store.disk.locked == old(store.disk.locked) && store.disk.faults >= old(store.disk.faults)
      ensures PassDid(p, old(Cache()), Cache(), s.seen, SyncedIn(t.want))
      ensures store.disk.faults == old(store.disk.faults) && LookedClean(p.checks, old(Cache()), s) ==>
        ConvergedClean(p, old(Cache()), Cache(), t, removed, ok)
      ensures ok ==> InOrder(p, Cache(), s.seen, t.want)
    {
      ghost var before := Cache();
      ghost var steps: seq<Step>;
      t, steps := ServeAll(desired, registry, s, p);
      ghost var root, served := Cache(), store.disk.faults;
      ghost var clean := LookedClean(p.checks, before, s) && served == old(store.disk.faults);
      LoopServes(p, before, steps, desired, s, clean);
      removed, ok := Collect(Sources(desired).Keys, p);
      PassEnds(p, before, root, Cache(), s.seen, t);
      if clean && store.disk.faults == served {
        CleanEnds(p, before, steps, desired, s, t, root, Cache(), removed, ok);
      }
      if s.ok && ok && t.ok {
        AllFineIn(p, s, desired, steps);
        NothingIsLeft(root, p);
      }
      ok := s.ok && ok && t.ok;
    }

    /** The resources that select the node. */
    static method Select(list: seq<ImageCache>, labels: Labels) returns (desired: seq<ImageCache>)
      requires ValidList(list)
      ensures desired == Desired(list, labels) && ValidList(desired)
    {
      desired := [];
      var i := 0;
      while i < |list|
        invariant 0 <= i <= |list| && desired == Desired(list[..i], labels)
      {
        assert list[..i + 1][..i] == list[..i];
        var selected := NodeLabels.Selects(list[i].selector, labels);
        if selected { desired := desired + [list[i]]; }
        i := i + 1;
      }
      assert list[..i] == list;
      DesiredIsValid(list, labels);
    }

    /** The node's statuses are these. */
    static ghost predicate Settled(labels: Labels, want: Statuses) {
      NodeLabels.WithStatuses(labels, NodeLabels.AsLabels(want)) == labels
    }

    static ghost function First(labels: Labels, first: Statuses, before: Root): seq<Root> {
      if Settled(labels, first) then [] else [before]
    }

    static ghost function Again(first: Statuses, want: Statuses, root: Root): seq<Root> {
      if want == first then [] else [root]
    }

    /** The patches of a pass: one when the node does not show the first statuses,
        sent while the cache path is as the pass found it, and one when the last
        are not the first, sent when it is as the pass leaves it. */
    static ghost function Sent(labels: Labels, first: Statuses, want: Statuses, before: Root, root: Root): seq<Root> {
      First(labels, first, before) + Again(first, want, root)
    }

    static lemma SentTwice(
      sent: seq<Root>, labels: Labels, first: Statuses, want: Statuses, before: Root, root: Root)
      ensures sent + First(labels, first, before) + Again(first, want, root)
        == sent + Sent(labels, first, want, before, root)
    {
    }

    /** What a report says of a pass during which no call on the disk failed. */
    static ghost predicate ReportsClean(p: Pass, before: Root, root: Root, r: Report)
      requires r.Report?
    {
      && ConvergedClean(p, before, root, Tally(r.want, r.resolved, r.pulled, r.ok), r.removed, Flawless(p, before))
      && r.first == StatusesBefore(p, before)
    }

    static lemma ReportIsClean(p: Pass, before: Root, root: Root, s: Survey, t: Tally, ok: bool, r: Report)
      requires Looked(p.checks, before, p.sources.Keys, s)
      requires r.Report? && r.want == t.want && r.resolved == t.resolved && r.pulled == t.pulled && r.first == s.want
      ensures LookedClean(p.checks, before, s) && ConvergedClean(p, before, root, t, r.removed, ok) ==>
        ReportsClean(p, before, root, r) && (ok <==> Flawless(p, before))
    {
      if LookedClean(p.checks, before, s) { FirstStatuses(p, before, s); }
    }

    /** The node as the pass has it shows these statuses, and the server's too. */
    ghost predicate ShowBoth(node: NodeObject, want: Statuses)
      reads node, cluster
    {
      && NodeLabels.StatusesAre(node.labels, NodeLabels.AsLabels(want))
      && NodeLabels.StatusesAre(cluster.labels, NodeLabels.AsLabels(want))
    }

    /** Shows the last statuses on a node that shows the first. */
    method PatchAgain(node: NodeObject, first: Statuses, want: Statuses) returns (ok: bool)
      modifies node, cluster
      ensures cluster.faults == if ok then old(cluster.faults) else old(cluster.faults) + 1
      ensures old(ShowBoth(node, first)) && ok ==>
        && NodeLabels.StatusesAre(cluster.labels, NodeLabels.AsLabels(want))
        && cluster.sent == old(cluster.sent) + Again(first, want, Cache())
      ensures old(ShowBoth(node, first)) && want == first ==> cluster.labels == old(cluster.labels)
    {
      NodeLabels.ResentExactly(node.labels, first, want);
      ghost var at: Labels;
      ok, at := PatchLabels(node, NodeLabels.AsLabels(want));
    }

    /** The pass but for the last patch: looks, shows what it found, then works. */
    method Work(node: NodeObject, desired: seq<ImageCache>, registry: Registry, ghost p: Pass) returns (r: Report)
      requires store.Valid() && ValidList(desired) && p == PassOf(desired, registry) && node.labels == cluster.labels
      modifies store.disk`root, store.disk`metas, store.disk`locked, store.disk`faults, store.sums, node, cluster
      ensures store.Valid() && store.disk.locked == old(store.disk.locked) && store.disk.faults >= old(store.disk.faults)
      ensures r.Report? && cluster.faults >= old(cluster.faults)
      ensures PassDid(p, old(Cache()), Cache(), r.seen, SyncedIn(r.want))
      ensures store.disk.faults == old(store.disk.faults) ==> ReportsClean(p, old(Cache()), Cache(), r)
      ensures store.disk.faults == old(store.disk.faults) ==>
        (r.ok <==> Flawless(p, old(Cache())) && cluster.faults == old(cluster.faults))
      ensures r.ok ==> InOrder(p, Cache(), r.seen, r.want) && cluster.faults == old(cluster.faults)
      ensures cluster.faults == old(cluster.faults) ==>
        ShowBoth(node, r.first)
        && cluster.sent == old(cluster.sent) + First(old(cluster.labels), r.first, old(Cache()))
      ensures Settled(old(cluster.labels), r.first) ==> ShowBoth(node, r.first) && unchanged(cluster)
    {
      ghost var before := Cache();
      var s := Look(desired);
      ghost var at: Labels;
      var shown: bool;
      shown, at := PatchLabels(node, NodeLabels.AsLabels(s.want));
      NodeLabels.SentExactly(old(node.labels), NodeLabels.AsLabels(s.want));
      assert p == PassOf(desired, registry) && Cache() == before;
      var t, removed, ok := Converge(desired, registry, s, p);
      r := Report(ok && shown, s.seen, s.want, t.want, removed, t.resolved, t.pulled);
      ReportIsClean(p, before, Cache(), s, t, ok, r);
    }

    /** The pass, once the node and its resources are known. */
    method Run(node: NodeObject, desired: seq<ImageCache>, registry: Registry, ghost p: Pass) returns (r: Report)
      requires store.Valid() && ValidList(desired) && p == PassOf(desired, registry) && node.labels == cluster.labels
      modifies store.disk`root, store.disk`metas, store.disk`locked, store.disk`faults, store.sums, node, cluster
      ensures store.Valid() && store.disk.locked == old(store.disk.locked) && store.disk.faults >= old(store.disk.faults)
      ensures r.Report? && cluster.faults >= old(cluster.faults)
      ensures PassDid(p, old(Cache()), Cache(), r.seen, SyncedIn(r.want))
      ensures cluster.faults == old(cluster.faults) ==>
        NodeLabels.StatusesAre(cluster.labels, NodeLabels.AsLabels(r.want))
      ensures store.disk.faults == old(store.disk.faults) ==> ReportsClean(p, old(Cache()), Cache(), r)
      ensures store.disk.faults == old(store.disk.faults) ==>
        (r.ok <==> Flawless(p, old(Cache())) && cluster.faults == old(cluster.faults))
      ensures r.ok ==> InOrder(p, Cache(), r.seen, r.want) && cluster.faults == old(cluster.faults)
      ensures cluster.faults == old(cluster.faults) ==>
        cluster.sent == old(cluster.sent) + Sent(old(cluster.labels), r.first, r.want, old(Cache()), Cache())
      ensures Settled(old(cluster.labels), r.first) && r.want == r.first ==> cluster.labels == old(cluster.labels)
    {
      r := Work(node, desired, registry, p);
      var shown := PatchAgain(node, r.first, r.want);
      SentTwice(old(cluster.sent), old(cluster.labels), r.first, r.want, old(Cache()), Cache());
      r := r.(ok := r.ok && shown);
    }

    /** Reads the node and lists the resources: either may fail. */
    method Read(list: seq<ImageCache>) returns (ok: bool, node: NodeObject, desired: seq<ImageCache>)
      requires ValidList(list)
      modifies cluster`faults
      ensures fresh(node) && node.labels == cluster.labels
      ensures ok ==> desired == Desired(list, cluster.labels) && ValidList(desired)
      ensures if ok then cluster.faults == old(cluster.faults) else cluster.faults > old(cluster.faults)
    {
      var labels: Labels;
      ok, labels := cluster.Get();
      node := new NodeObject(labels);
      desired := [];
      if ok {
        ok, labels := cluster.Get();
        desired := Select(list, node.labels);
      }
    }

    /** Watches the cache path, and what is directly under it now. */
    method Watch()
      modifies watcher
      ensures watcher != null ==> watcher.roots == {cachePath}
    {
      if watcher != null {
        var failed := watcher.SetPaths({cachePath}, if store.disk.mounted then map[cachePath := Cache()] else map[]);
      }
    }

    /** One full pass, for the resources of `list`. */
    method Reconcile(list: seq<ImageCache>, registry: Registry) returns (r: Report, ghost p: Pass)
      requires store.Valid() && ValidList(list)
      modifies store.disk`root, store.disk`metas, store.disk`locked, store.disk`faults, store.sums
      modifies cluster, watcher
      ensures store.Valid() && store.disk.locked == old(store.disk.locked) && store.disk.faults >= old(store.disk.faults)
      ensures p == old(PassFor(list, registry))
      ensures cluster.faults >= old(cluster.faults)
      ensures r.Unable? ==> Cache() == old(Cache()) && cluster.faults > old(cluster.faults)
      // Whatever fails.
      ensures r.Report? ==> PassDid(p, old(Cache()), Cache(), r.seen, SyncedIn(r.want))
      ensures cluster.faults == old(cluster.faults) ==>
        r.Report? && NodeLabels.StatusesAre(cluster.labels, NodeLabels.AsLabels(r.want))
      // When no call on the disk fails.
      ensures r.Report? && store.disk.faults == old(store.disk.faults) ==>
        ReportsClean(p, old(Cache()), Cache(), r)
      ensures r.Report? && store.disk.faults == old(store.disk.faults) ==>
        (r.ok <==> Flawless(p, old(Cache())) && cluster.faults == old(cluster.faults))
      // Whatever failed, no error means that all is well.
      ensures r.Report? && r.ok ==> InOrder(p, Cache(), r.seen, r.want) && cluster.faults == old(cluster.faults)
      // The statuses are shown before and after the work, and sent when they are
      // not there already.
      ensures cluster.faults == old(cluster.faults) ==>
        cluster.sent == old(cluster.sent) + Sent(old(cluster.labels), r.first, r.want, old(Cache()), Cache())
      ensures r.Report? && Settled(old(cluster.labels), r.first) && r.want == r.first ==>
        cluster.labels == old(cluster.labels)
      ensures r.Report? && watcher != null ==> watcher.roots == {cachePath}
    {
      p := PassFor(list, registry);
      var read, node, desired := Read(list);
      if !read { return Unable, p; }
      r := Run(node, desired, registry, p);
      Watch();
    }

    /** The pass that the resources of the list and the labels of the node ask for. */
    ghost function PassFor(list: seq<ImageCache>, registry: Registry): Pass
      requires ValidList(list)
      reads store.disk, cluster
    {
      DesiredIsValid(list, cluster.labels);
      PassOf(Desired(list, cluster.labels), registry)
    }

    /** A later call is about the same resources, when none selects by a status and
        nobody changed the other labels or the locks. */
    twostate lemma NextPass(list: seq<ImageCache>, registry: Registry, again: Registry)
      requires ValidList(list) && SelectsByOthers(list)
      requires NodeLabels.KeepsOthers(old(cluster.labels), cluster.labels)
      requires store.disk.mounted == old(store.disk.mounted) && store.disk.locked == old(store.disk.locked)
      ensures PassFor(list, again) == old(PassFor(list, registry)).(registry := again)
    {
      SameDesired(list, old(cluster.labels), cluster.labels);
    }
  }

  lemma EverySynced(p: Pass, root: Root, want: Statuses)
    requires AllSynced(p, root) && want == StatusesAfter(p, root)
    ensures SyncedIn(want) == p.sources.Keys
  {
  }

  /** What two passes report, one right after the other, when no call fails and
      every source yields a well-formed image: the second pulls, resolves, removes
      and sends nothing, whatever the registry would now answer, and only a
      sentinel nobody keeps and nobody can read is left to report. */
  lemma SecondReportIsIdle(
    p: Pass, again: Registry, before: Root, root: Root, r: Report, root': Root, r': Report, labels: Labels)
    requires p.mounted && AllServed(p) && Unobstructed(p, before)
    requires r.Report? && NodeReconciler.ReportsClean(p, before, root, r)
    requires r'.Report? && NodeReconciler.ReportsClean(p.(registry := again), root, root', r')
    requires NodeLabels.StatusesAre(labels, NodeLabels.AsLabels(r.want))
    ensures root' == root && r'.pulled == {} && r'.resolved == {} && r'.removed == {}
    ensures r'.want == r.want && SyncedIn(r.want) == p.sources.Keys
    ensures NodeReconciler.Sent(labels, r'.first, r'.want, root, root') == []
    ensures Flawless(p.(registry := again), root) <==> Legible(root, p.sources.Keys)
  {
    var q := p.(registry := again);
    PassAfterPass(p, again, before);
    IdleAnswers(q, root);
    IdlePassSendsNothing(q, root, labels);
    EverySynced(p, before, r.want);
  }
}
