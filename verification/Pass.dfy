/** What one convergence pass of the agent makes of the cache, resource by
    resource: exactly, when no call fails, and in any case. */
module Passes {
  import opened Basics
  import opened Names
  import opened Layout
  import opened Disks
  import opened Filling
  import NodeLabels

  type Labels = NodeLabels.Labels

  datatype ImageCache = ImageCache(name: string, source: string, selector: Labels)

  /** What the registry answers a pass when it asks for a resource. */
  type Registry = string -> Puller

  /** Resource names are DNS-1123 names, and unique. */
  predicate ValidList(list: seq<ImageCache>) {
    && (forall i :: 0 <= i < |list| ==> IsResourceName(list[i].name))
    && (forall i, j :: 0 <= i < j < |list| ==> list[i].name != list[j].name)
  }

  /** The resources that select the node, in list order. */
  function Desired(list: seq<ImageCache>, labels: Labels): seq<ImageCache> {
    if list == [] then []
    else
      var last := list[|list| - 1];
      Desired(list[..|list| - 1], labels) + if NodeLabels.Selected(last.selector, labels) then [last] else []
  }

  lemma {:induction false} DesiredAre(list: seq<ImageCache>, labels: Labels)
    ensures forall ic :: ic in Desired(list, labels) <==>
      ic in list && forall k :: k in ic.selector ==> k in labels && labels[k] == ic.selector[k]
  {
    if list != [] {
      DesiredAre(list[..|list| - 1], labels);
      assert list == list[..|list| - 1] + [list[|list| - 1]];
    }
  }

  /** No resource selects the node by a status. */
  predicate SelectsByOthers(list: seq<ImageCache>) {
    forall ic, k :: ic in list && k in ic.selector ==> !NodeLabels.IsStatus(k)
  }

  lemma {:induction false} SameDesired(list: seq<ImageCache>, a: Labels, b: Labels)
    requires SelectsByOthers(list) && NodeLabels.KeepsOthers(a, b)
    ensures Desired(list, a) == Desired(list, b)
  {
    if list != [] {
      var last := list[|list| - 1];
      SameDesired(list[..|list| - 1], a, b);
      assert last in list;
      assert NodeLabels.Selected(last.selector, a) <==> NodeLabels.Selected(last.selector, b);
    }
  }

  /** A pass that leaves the other labels alone leaves the resources the same,
      whatever the statuses were and become, exactly when none selects by one. */
  lemma DesiredStaysExactly(list: seq<ImageCache>)
    ensures SelectsByOthers(list) <==>
      forall a, b :: NodeLabels.KeepsOthers(a, b) ==> Desired(list, a) == Desired(list, b)
  {
    if SelectsByOthers(list) {
      forall a, b | NodeLabels.KeepsOthers(a, b)
        ensures Desired(list, a) == Desired(list, b)
      {
        SameDesired(list, a, b);
      }
    } else {
      var ic, k :| ic in list && k in ic.selector && NodeLabels.IsStatus(k);
      var a, b := ic.selector, ic.selector - {k};
      DesiredAre(list, a);
      DesiredAre(list, b);
      assert NodeLabels.KeepsOthers(a, b) && ic in Desired(list, a) && ic !in Desired(list, b);
    }
  }

  lemma {:induction false} DesiredIsValid(list: seq<ImageCache>, labels: Labels)
    requires ValidList(list)
    ensures ValidList(Desired(list, labels))
  {
    if list != [] {
      var front := list[..|list| - 1];
      DesiredIsValid(front, labels);
      DesiredAre(front, labels);
      var d := Desired(front, labels);
      forall i | 0 <= i < |d|
        ensures d[i].name != list[|list| - 1].name
      {
        assert d[i] in front;
      }
    }
  }

  /** What each resource asks for. */
  function Sources(desired: seq<ImageCache>): map<string, string>
    requires ValidList(desired)
  {
    if desired == [] then map[]
    else
      var k := |desired| - 1;
      Sources(desired[..k])[desired[k].name := desired[k].source]
  }

  lemma {:induction false} SourceAt(desired: seq<ImageCache>, i: nat)
    requires ValidList(desired) && i < |desired|
    ensures desired[i].name in Sources(desired) && Sources(desired)[desired[i].name] == desired[i].source
    decreases |desired|
  {
    var k := |desired| - 1;
    if i < k {
      SourceAt(desired[..k], i);
      assert desired[..k][i] == desired[i] && desired[i].name != desired[k].name;
    }
  }

  /** The index of a resource that is asked for. */
  lemma {:induction false} Place(desired: seq<ImageCache>, n: string) returns (i: nat)
    requires ValidList(desired) && n in Sources(desired)
    ensures i < |desired| && desired[i].name == n && Sources(desired)[n] == desired[i].source && IsResourceName(n)
    decreases |desired|
  {
    var k := |desired| - 1;
    if desired[k].name == n {
      i := k;
    } else {
      i := Place(desired[..k], n);
    }
  }

  // ----- one resource, when no call fails -----

  /** What a pass made of a resource: its entry, whether it is labelled synced,
      and whether its source was resolved, and pulled. */
  datatype Turn = Turn(node: Option<Node>, synced: bool, resolved: bool, pulled: bool)

  /** The layers that were recorded are known, and are the ones asked for. */
  predicate SameImage(rec: Record, id: Identity) {
    rec.layers != [] && rec.layers == id.layers
  }

  function FillTurn(mounted: bool, node: Option<Node>, source: string, puller: Puller, resolved: bool): Turn {
    if !mounted || !Replaceable(node, AGENT) then Turn(node, false, resolved, false)
    else if Publishable(puller.pull(source)) then
      Turn(Some(Filled(AGENT, source, puller.pull(source))), true, resolved, true)
    else Turn(node, false, resolved, true)
  }

  /** A seeded directory: resolved first, and adopted when it is the image. */
  function AdoptTurn(mounted: bool, node: Option<Node>, source: string, puller: Puller): Turn
    requires HasRecord(node)
  {
    match puller.resolve(source)
    case None => Turn(node, false, true, false)
    case Some(id) =>
      if SameImage(RecordOf(node), id) then Turn(Some(AdoptedNode(node.value)), true, true, false)
      else FillTurn(mounted, node, source, puller, true)
  }

  /** The turn hangs on what State answered, which a failed read may have made
      Incomplete. */
  function TurnSeen(seen: Answer<State>, mounted: bool, node: Option<Node>, source: string, puller: Puller): Turn
    requires seen == Ok(Complete) ==> HasRecord(node)
  {
    if seen != Ok(Complete) then FillTurn(mounted, node, source, puller, false)
    else if RecordOf(node).owner == AGENT then Turn(node, true, false, false)
    else AdoptTurn(mounted, node, source, puller)
  }

  function TurnOf(checks: bool, mounted: bool, node: Option<Node>, source: string, puller: Puller): Turn {
    TurnSeen(StateOf(checks, node), mounted, node, source, puller)
  }

  /** What becomes of another writer's complete directory whose source resolves
      and can be pulled, spelled out: the same layers, recorded and not none, and
      it is adopted without a pull; any others, and it is replaced. */
  lemma SeededExactly(checks: bool, node: Option<Node>, source: string, puller: Puller, id: Identity)
    requires StateOf(checks, node) == Ok(Complete) && RecordOf(node).owner != "image-cache-agent"
    requires puller.resolve(source) == Some(id) && Publishable(puller.pull(source))
    ensures TurnOf(checks, true, node, source, puller)
      == if RecordOf(node).layers != [] && RecordOf(node).layers == id.layers
         then Turn(Some(AdoptedNode(node.value)), true, true, false)
         else Turn(Some(Filled("image-cache-agent", source, puller.pull(source))), true, true, true)
  {
  }

  /** And of everything else: the agent's own complete directory stays, with no
      question asked; what is not complete is replaced, if the cache path is
      there, the sentinel can be looked at, and the image can be published. */
  lemma TurnExactly(checks: bool, mounted: bool, node: Option<Node>, source: string, puller: Puller)
    ensures StateOf(checks, node) == Ok(Complete) && RecordOf(node).owner == "image-cache-agent" ==>
      TurnOf(checks, mounted, node, source, puller) == Turn(node, true, false, false)
    ensures StateOf(checks, node) != Ok(Complete) ==>
      TurnOf(checks, mounted, node, source, puller)
        == if !mounted || (node.Some? && node.value.Dir? && node.value.folder.marker.Denied?) then
             Turn(node, false, false, false)
           else if !Publishable(puller.pull(source)) then Turn(node, false, false, true)
           else Turn(Some(Filled("image-cache-agent", source, puller.pull(source))), true, false, true)
  {
  }

  /** Files changed behind the agent's back, in a directory it had filled: the
      next turn fills it again. */
  lemma TamperedIsRefilled(rec: Record, kept: seq<Body>, k: nat, bytes: Bytes, source: string, puller: Puller)
    requires Storable(kept) && k < |kept| && Sum(bytes) != Sum(kept[k].bytes) && Publishable(puller.pull(source))
    ensures var f := Published(rec, kept);
      TurnOf(true, true, Some(Dir(f.(items := f.items[kept[k].name := Item.Regular(bytes)]))), source, puller)
        == Turn(Some(Filled("image-cache-agent", source, puller.pull(source))), true, false, true)
  {
    TamperedIsIncomplete(rec, kept, k, bytes);
  }

  // ----- the whole cache path, when no call fails -----

  /** What the pass is about: the resources, the registry, and what others hold. */
  datatype Pass = Pass(checks: bool, mounted: bool, sources: map<string, string>, registry: Registry, locked: set<string>)

  function TurnAt(p: Pass, root: Root, n: string): Turn
    requires n in p.sources
  {
    TurnOf(p.checks, p.mounted, At(root, n), p.sources[n], p.registry(n))
  }

  /** What a collection takes away when no call fails. */
  function Uncollected(root: Root, keep: set<string>, locked: set<string>): set<string> {
    set n | n in root && !Survives(n, root[n], keep, locked)
  }

  function EntryAfter(p: Pass, root: Root, n: string): Option<Node> {
    if n in p.sources then TurnAt(p, root, n).node
    else if n in root && Survives(n, root[n], p.sources.Keys, p.locked) then Some(root[n])
    else None
  }

  function RootAfter(p: Pass, root: Root): Root {
    map n | n in root.Keys + p.sources.Keys && EntryAfter(p, root, n).Some? :: EntryAfter(p, root, n).value
  }

  function StatusesAfter(p: Pass, root: Root): map<string, NodeLabels.Status> {
    map n | n in p.sources :: if TurnAt(p, root, n).synced then NodeLabels.Synced else NodeLabels.Pending
  }

  /** The statuses shown while the pass is at work. */
  function StatusesBefore(p: Pass, root: Root): map<string, NodeLabels.Status> {
    map n | n in p.sources :: if Present(p.checks, At(root, n)) then NodeLabels.Synced else NodeLabels.Pending
  }

  function StatusAt(p: Pass, root: Root, n: string): Option<NodeLabels.Status> {
    if n in StatusesAfter(p, root) then Some(StatusesAfter(p, root)[n]) else None
  }

  /** The pass has nothing to report. */
  predicate Flawless(p: Pass, root: Root) {
    && (forall n :: n in p.sources ==> StateOf(p.checks, At(root, n)).Ok? && TurnAt(p, root, n).synced)
    && Legible(root, p.sources.Keys)
  }

  /** What a pass leaves, entry by entry: a resource's is its turn's, and of the
      rest what a collection leaves. What it removes is the difference. */
  lemma RootExactly(p: Pass, root: Root, n: string)
    ensures n in p.sources ==> At(RootAfter(p, root), n) == TurnAt(p, root, n).node
    ensures n !in p.sources ==> At(RootAfter(p, root), n) == At(Collected(root, p.sources.Keys, p.locked), n)
    ensures n in Uncollected(root, p.sources.Keys, p.locked) <==>
      n in root && n !in Collected(root, p.sources.Keys, p.locked)
  {
  }

  /** So a directory of the agent's that no resource asks for is gone after a pass. */
  lemma OrphanGoes(p: Pass, root: Root, n: string, source: string, pulled: Pulled)
    requires n !in p.sources && IsResourceName(n) && Publishable(pulled)
    requires At(root, n) == Some(Filled("image-cache-agent", source, pulled))
    ensures n !in RootAfter(p, root) && n in Uncollected(root, p.sources.Keys, p.locked)
  {
    ResourceNames(n);
    CollectedExactly(root, p.sources.Keys, p.locked, n);
    RootExactly(p, root, n);
  }

  /** What the labels show of a resource, before the pass and after it. */
  lemma StatusesExactly(p: Pass, root: Root, n: string)
    requires n in p.sources
    ensures StatusesBefore(p, root).Keys == StatusesAfter(p, root).Keys == p.sources.Keys
    ensures StatusesBefore(p, root)[n].Synced? <==>
      StateOf(p.checks, At(root, n)) == Ok(Complete) && RecordOf(At(root, n)).owner == "image-cache-agent"
    ensures StatusesAfter(p, root)[n].Synced? <==> TurnAt(p, root, n).synced
  {
  }

  // ----- convergence -----

  /** Another writer's directory of the image asked for, which holds a file
      under the name Adopt writes to. */
  predicate LosesSpare(checks: bool, node: Option<Node>, source: string, puller: Puller) {
    && StateOf(checks, node) == Ok(Complete) && RecordOf(node).owner != AGENT
    && puller.resolve(source).Some? && SameImage(RecordOf(node), puller.resolve(source).value)
    && ListsSpare(checks, SentinelOf(node))
  }

  lemma StateThrough(checks: bool, node: Option<Node>)
    requires Through(node).Some?
    ensures StateOf(checks, node) == StateOf(checks, Some(Dir(Through(node).value)))
  {
  }

  lemma AdoptedIsComplete(checks: bool, node: Node)
    requires StateOf(checks, Some(node)) == Ok(Complete)
    ensures var after := Some(AdoptedNode(node));
      && HasRecord(after) && RecordOf(after) == RecordOf(Some(node)).(owner := AGENT)
      && (StateOf(checks, after) == Ok(Complete) <==> !ListsSpare(checks, SentinelOf(Some(node))))
  {
    var f := Through(Some(node)).value;
    StateThrough(checks, Some(node));
    StateThrough(checks, Some(AdoptedNode(node)));
    AdoptKeepsComplete(checks, f);
  }

  /** A source that can be resolved and pulled converges: the entry is labelled
      synced and the agent's, unless its sentinel cannot even be looked at, and
      it is complete, unless the adoption took a file's place. */
  lemma TurnConverges(checks: bool, node: Option<Node>, source: string, puller: Puller)
    requires Publishable(puller.pull(source)) && puller.resolve(source).Some?
    ensures var t := TurnOf(checks, true, node, source, puller);
      && (t.synced <==> !IsDenied(node))
      && (t.synced ==> HasRecord(t.node) && RecordOf(t.node).owner == AGENT)
      && (t.synced ==> (StateOf(checks, t.node) == Ok(Complete) <==> !LosesSpare(checks, node, source, puller)))
  {
    FilledIsComplete(checks, AGENT, source, puller.pull(source));
    if StateOf(checks, node) == Ok(Complete) && RecordOf(node).owner != AGENT {
      AdoptedIsComplete(checks, node.value);
    }
  }

  ghost predicate AllServed(p: Pass) {
    forall n :: n in p.sources ==>
      Publishable(p.registry(n).pull(p.sources[n])) && p.registry(n).resolve(p.sources[n]).Some?
  }

  /** Every resource is there, complete and the agent's. */
  predicate Converged(p: Pass, root: Root) {
    forall n :: n in p.sources ==>
      StateOf(p.checks, At(root, n)) == Ok(Complete) && RecordOf(At(root, n)).owner == AGENT
  }

  /** Every resource ends up labelled synced. */
  predicate AllSynced(p: Pass, root: Root) {
    forall n :: n in p.sources ==> StatusesAfter(p, root)[n].Synced?
  }

  lemma EntryIs(p: Pass, root: Root, n: string)
    ensures At(RootAfter(p, root), n) == EntryAfter(p, root, n)
  {
  }

  /** From any cache path, one pass in which every source yields a well-formed
      image converges the node, exactly when nothing is in the way: a sentinel
      that cannot be looked at, or a file under the name Adopt writes to. */
  lemma OnePassConverges(p: Pass, root: Root)
    requires p.mounted && AllServed(p)
    ensures Converged(p, RootAfter(p, root)) && AllSynced(p, root) <==>
      forall n :: n in p.sources ==>
        !IsDenied(At(root, n)) && !LosesSpare(p.checks, At(root, n), p.sources[n], p.registry(n))
  {
    forall n | n in p.sources
      ensures StateOf(p.checks, At(RootAfter(p, root), n)) == Ok(Complete)
              && RecordOf(At(RootAfter(p, root), n)).owner == AGENT
              && StatusesAfter(p, root)[n] == NodeLabels.Synced
          <==> !IsDenied(At(root, n)) && !LosesSpare(p.checks, At(root, n), p.sources[n], p.registry(n))
    {
      EntryIs(p, root, n);
      TurnConverges(p.checks, At(root, n), p.sources[n], p.registry(n));
    }
  }

  /** On a converged node a pass resolves and pulls nothing, whatever the
      registry would answer, and leaves every resource labelled synced. */
  lemma ConvergedTurn(p: Pass, root: Root, n: string)
    requires Converged(p, root) && n in p.sources
    ensures TurnAt(p, root, n) == Turn(At(root, n), true, false, false)
  {
  }

  /** The pass after one that converged: the same resources, any registry. It
      asks nobody, and changes and removes nothing. */
  lemma SecondPassIsIdle(p: Pass, root: Root, again: Registry)
    requires Converged(p, RootAfter(p, root))
    ensures var q, once := p.(registry := again), RootAfter(p, root);
      && RootAfter(q, once) == once
      && (forall n :: n in p.sources ==> TurnAt(q, once, n) == Turn(At(once, n), true, false, false))
  {
    var q, once := p.(registry := again), RootAfter(p, root);
    forall n
      ensures At(RootAfter(q, once), n) == At(once, n)
      ensures n in p.sources ==> TurnAt(q, once, n) == Turn(At(once, n), true, false, false)
    {
      EntryIs(p, root, n);
      EntryIs(q, once, n);
      if n in p.sources { ConvergedTurn(q, once, n); }
    }
    SameRoots(RootAfter(q, once), once);
  }

  /** Nor does it want other labels than the pass before. */
  lemma SecondPassLabels(p: Pass, root: Root, again: Registry)
    requires Converged(p, RootAfter(p, root)) && forall n :: n in p.sources ==> TurnAt(p, root, n).synced
    ensures StatusesAfter(p.(registry := again), RootAfter(p, root)) == StatusesAfter(p, root)
  {
  }

  lemma NothingToCollect(p: Pass, root: Root)
    requires RootAfter(p, root) == root
    ensures Uncollected(root, p.sources.Keys, p.locked) == {}
  {
  }

  /** It shows no status in between, and sends no label. */
  lemma IdlePassSendsNothing(p: Pass, root: Root, labels: Labels)
    requires Converged(p, root) && NodeLabels.StatusesAre(labels, NodeLabels.AsLabels(StatusesAfter(p, root)))
    ensures StatusesBefore(p, root) == StatusesAfter(p, root)
    ensures NodeLabels.WithStatuses(labels, NodeLabels.AsLabels(StatusesAfter(p, root))) == labels
  {
    forall n | n in p.sources
      ensures TurnAt(p, root, n).synced && Present(p.checks, At(root, n))
    {
      ConvergedTurn(p, root, n);
    }
    NodeLabels.SentExactly(labels, NodeLabels.AsLabels(StatusesAfter(p, root)));
  }

  /** Nothing keeps the resources from converging. */
  ghost predicate Unobstructed(p: Pass, root: Root) {
    forall n :: n in p.sources ==>
      !IsDenied(At(root, n)) && !LosesSpare(p.checks, At(root, n), p.sources[n], p.registry(n))
  }

  /** What a pass finds right after one that served everything. */
  lemma PassAfterPass(p: Pass, again: Registry, root: Root)
    requires p.mounted && AllServed(p) && Unobstructed(p, root)
    ensures var q, once := p.(registry := again), RootAfter(p, root);
      && Converged(q, once) && AllSynced(p, root) && RootAfter(q, once) == once
      && Uncollected(once, q.sources.Keys, q.locked) == {} && StatusesAfter(q, once) == StatusesAfter(p, root)
  {
    OnePassConverges(p, root);
    SecondPassIsIdle(p, root, again);
    NothingToCollect(p.(registry := again), RootAfter(p, root));
    forall n | n in p.sources
      ensures TurnAt(p, root, n).synced
    {
      assert StatusesAfter(p, root)[n].Synced?;
    }
    SecondPassLabels(p, root, again);
  }

  lemma SameRoots(a: Root, b: Root)
    requires forall n :: At(a, n) == At(b, n)
    ensures a == b
  {
    assert forall n :: n in a <==> At(a, n).Some?;
    assert forall n :: n in b <==> At(b, n).Some?;
    assert forall n :: n in a ==> Some(a[n]) == At(a, n) && Some(b[n]) == At(b, n);
  }

  // ----- one resource and the others -----

  /** What becomes of an entry hangs on what the registry answers for it alone. */
  lemma OwnAnswerOnly(p: Pass, q: Pass, root: Root, n: string)
    requires q == p.(registry := q.registry) && p.registry(n) == q.registry(n)
    ensures At(RootAfter(p, root), n) == At(RootAfter(q, root), n)
    ensures StatusAt(p, root, n) == StatusAt(q, root, n)
  {
    EntryIs(p, root, n);
    EntryIs(q, root, n);
  }

  /** Neither the order of the resources nor what the registry answers for one
      of them changes what becomes of another, its entry or its label. */
  lemma OthersDoNotMatter(
    a: seq<ImageCache>, b: seq<ImageCache>, p: Pass, q: Pass, root: Root, odd: string, n: string)
    requires ValidList(a) && ValidList(b) && (forall ic :: ic in a <==> ic in b)
    requires p.sources == Sources(a) && q == p.(sources := Sources(b), registry := q.registry)
    requires (forall m :: m != odd ==> p.registry(m) == q.registry(m)) && n != odd
    ensures At(RootAfter(p, root), n) == At(RootAfter(q, root), n)
    ensures StatusAt(p, root, n) == StatusAt(q, root, n)
  {
    SameSources(a, b);
    OwnAnswerOnly(p, q, root, n);
  }

  lemma SameSources(a: seq<ImageCache>, b: seq<ImageCache>)
    requires ValidList(a) && ValidList(b) && (forall ic :: ic in a <==> ic in b)
    ensures Sources(a) == Sources(b)
  {
    forall n
      ensures n in Sources(a) ==> n in Sources(b) && Sources(a)[n] == Sources(b)[n]
      ensures n in Sources(b) ==> n in Sources(a)
    {
      if n in Sources(a) { SourceIn(a, b, n); }
      if n in Sources(b) { SourceIn(b, a, n); }
    }
  }

  lemma SourceIn(a: seq<ImageCache>, b: seq<ImageCache>, n: string)
    requires ValidList(a) && ValidList(b) && n in Sources(a) && (forall ic :: ic in a ==> ic in b)
    ensures n in Sources(b) && Sources(a)[n] == Sources(b)[n]
  {
    var i := Place(a, n);
    assert a[i] in b;
    var j :| 0 <= j < |b| && b[j] == a[i];
    SourceAt(b, j);
  }

  // ----- one resource, whatever fails -----

  /** State found the directory complete, and another writer's. */
  predicate FoundSeeded(checks: bool, before: Option<Node>, seen: Answer<State>) {
    seen == Ok(Complete) && StateOf(checks, before) == Ok(Complete) && RecordOf(before).owner != AGENT
  }

  predicate Present(checks: bool, before: Option<Node>) {
    StateOf(checks, before) == Ok(Complete) && RecordOf(before).owner == AGENT
  }

  /** The source resolved to the image that was seeded: only the owner changes,
      or, when the adoption failed, not even that. */
  predicate TookOver(checks: bool, before: Option<Node>, after: Option<Node>, seen: Answer<State>, synced: bool,
                     source: string, puller: Puller) {
    && FoundSeeded(checks, before, seen) && puller.resolve(source).Some?
    && SameImage(RecordOf(before), puller.resolve(source).value)
    && if synced then after == Some(AdoptedNode(before.value)) else OnlySpare(before, after)
  }

  /** A whole replacement was at hand, and if the directory was found complete
      and seeded, its source had resolved to another image. */
  ghost predicate Replaced(checks: bool, before: Option<Node>, after: Option<Node>, seen: Answer<State>, synced: bool,
                           source: string, puller: Puller) {
    && Publishable(puller.pull(source)) && Replaceable(before, AGENT)
    && (seen == Ok(Complete) ==>
          FoundSeeded(checks, before, seen) && puller.resolve(source).Some?
          && !SameImage(RecordOf(before), puller.resolve(source).value))
    && if synced then after == Some(Filled(AGENT, source, puller.pull(source))) else Remains(before, after)
  }

  /** What may become of a resource in a pass. */
  ghost predicate Turned(checks: bool, before: Option<Node>, after: Option<Node>, seen: Answer<State>, synced: bool,
                         source: string, puller: Puller) {
    || (after == before && (synced ==> Present(checks, before)))
    || TookOver(checks, before, after, seen, synced, source, puller)
    || Replaced(checks, before, after, seen, synced, source, puller)
  }

  /** The label tells the truth at the end of any pass: a resource marked synced
      is the agent's, and complete, unless adopting it took a listed file's place. */
  lemma SyncedIsTrue(checks: bool, before: Option<Node>, after: Option<Node>, seen: Answer<State>,
                     source: string, puller: Puller)
    requires Turned(checks, before, after, seen, true, source, puller)
    ensures HasRecord(after) && RecordOf(after).owner == AGENT
    ensures StateOf(checks, after) == Ok(Complete) <==>
      !(seen == Ok(Complete) && LosesSpare(checks, before, source, puller))
  {
    if TookOver(checks, before, after, seen, true, source, puller) {
      AdoptedIsComplete(checks, before.value);
    } else if Replaced(checks, before, after, seen, true, source, puller) {
      FilledIsComplete(checks, AGENT, source, puller.pull(source));
    }
  }

  // ----- a directory another writer owns -----

  /** What a pass did to one entry of the cache path, whatever failed. */
  ghost predicate EntryDid(
    p: Pass, before: Root, after: Root, seen: map<string, Answer<State>>, synced: set<string>, n: string)
  {
    if n in p.sources then
      n in seen && Turned(p.checks, At(before, n), At(after, n), seen[n], n in synced, p.sources[n], p.registry(n))
    else if n in before then
      Remains(Some(before[n]), At(after, n))
      && (Survives(n, before[n], p.sources.Keys, p.locked) ==> At(after, n) == Some(before[n]))
    else
      n in after ==> IsTemporary(n)
  }

  ghost predicate PassDid(p: Pass, before: Root, after: Root, seen: map<string, Answer<State>>, synced: set<string>) {
    forall n :: EntryDid(p, before, after, seen, synced, n)
  }

  /** So at the end of every pass, with other resources failing or not: later
      turns and the collection of the same pass undo nothing. */
  lemma SyncedAtTheEnd(
    p: Pass, before: Root, after: Root, seen: map<string, Answer<State>>, synced: set<string>, n: string)
    requires PassDid(p, before, after, seen, synced) && n in p.sources && n in synced
    ensures HasRecord(At(after, n)) && RecordOf(At(after, n)).owner == AGENT && n in seen
    ensures StateOf(p.checks, At(after, n)) == Ok(Complete) <==>
      !(seen[n] == Ok(Complete) && LosesSpare(p.checks, At(before, n), p.sources[n], p.registry(n)))
  {
    assert EntryDid(p, before, after, seen, synced, n);
    SyncedIsTrue(p.checks, At(before, n), At(after, n), seen[n], p.sources[n], p.registry(n));
  }

  /** Whatever fails, a resource's entry changes in two ways only: a whole
      replacement was at hand, and is there or what its removal left, and what
      State had found complete was another writer's, of other layers than the
      source's; or the source resolved to the layers another writer had recorded,
      and it is adopted or has lost no more than one file to the attempt. */
  lemma ChangesExactly(
    p: Pass, before: Root, after: Root, seen: map<string, Answer<State>>, synced: set<string>, n: string)
    requires PassDid(p, before, after, seen, synced) && n in p.sources && At(after, n) != At(before, n)
    ensures var pulled, id := p.registry(n).pull(p.sources[n]), p.registry(n).resolve(p.sources[n]);
      || (Publishable(pulled)
          && (n in seen && seen[n] == Ok(Complete) ==>
                && StateOf(p.checks, At(before, n)) == Ok(Complete)
                && RecordOf(At(before, n)).owner != "image-cache-agent" && id.Some?
                && (RecordOf(At(before, n)).layers == [] || RecordOf(At(before, n)).layers != id.value.layers))
          && if n in synced then At(after, n) == Some(Filled("image-cache-agent", p.sources[n], pulled))
             else Remains(At(before, n), At(after, n)))
      || (StateOf(p.checks, At(before, n)) == Ok(Complete) && RecordOf(At(before, n)).owner != "image-cache-agent"
          && id.Some? && RecordOf(At(before, n)).layers != [] && RecordOf(At(before, n)).layers == id.value.layers
          && if n in synced then At(after, n) == Some(AdoptedNode(At(before, n).value))
             else OnlySpare(At(before, n), At(after, n)))
  {
    assert EntryDid(p, before, after, seen, synced, n);
  }

  /** And an entry no resource asks for only goes or is half gone, and what a
      collection leaves stays; nothing new but temporaries comes. */
  lemma OthersExactly(
    p: Pass, before: Root, after: Root, seen: map<string, Answer<State>>, synced: set<string>, n: string)
    requires PassDid(p, before, after, seen, synced) && n !in p.sources
    ensures n !in before && n in after ==> IsTemporary(n)
    ensures n in before && n in Collected(before, p.sources.Keys, p.locked) ==> n in after && after[n] == before[n]
    ensures n in before && n in after && after[n] != before[n] ==>
      before[n].Dir? && after[n].Dir?
      && (forall b :: b in after[n].folder.items ==>
            b in before[n].folder.items && after[n].folder.items[b] == before[n].folder.items[b])
      && (after[n].folder.marker == before[n].folder.marker || after[n].folder.marker.NoMarker?)
  {
    assert EntryDid(p, before, after, seen, synced, n);
  }

  /** A complete directory another writer owns. */
  predicate Foreign(checks: bool, node: Option<Node>) {
    node.Some? && node.value.Dir? && StateOf(checks, node) == Ok(Complete) && RecordOf(node).owner != AGENT
  }


  /** A pass changes another writer's complete directory only when it asks for
      the resource, and, if State answered Complete, only once its source resolved.
      When that is to the recorded layers, the sentinel's owner is all that
      changes, but for a file under the name Adopt writes to. Otherwise a whole
      replacement was at hand, and the directory is that replacement, or what its
      removal has left. */
  lemma ForeignTurns(
    p: Pass, before: Root, after: Root, seen: map<string, Answer<State>>, synced: set<string>, n: string)
    requires PassDid(p, before, after, seen, synced) && Foreign(p.checks, At(before, n)) && !IsTemporary(n)
    requires At(after, n) != At(before, n)
    ensures n in p.sources && n in seen
    ensures seen[n] == Ok(Complete) ==> p.registry(n).resolve(p.sources[n]).Some?
    ensures var pulled, id := p.registry(n).pull(p.sources[n]), p.registry(n).resolve(p.sources[n]);
      var layers := RecordOf(At(before, n)).layers;
      if seen[n] == Ok(Complete) && layers != [] && id.Some? && layers == id.value.layers then
        if n in synced then At(after, n) == Some(AdoptedNode(At(before, n).value))
        else OnlySpare(At(before, n), At(after, n))
      else
        && Publishable(pulled)
        && if n in synced then At(after, n) == Some(Filled(AGENT, p.sources[n], pulled))
           else Remains(At(before, n), At(after, n))
  {
    assert EntryDid(p, before, after, seen, synced, n);
  }

  datatype Stage = Stage(pass: Pass, before: Root, after: Root, seen: map<string, Answer<State>>, synced: set<string>)

  /** Passes with changing resources, one after the other. Between two of them
      anything may happen to the other entries. */
  ghost predicate History(stages: seq<Stage>, checks: bool, n: string) {
    && (forall i :: 0 <= i < |stages| ==> stages[i].pass.checks == checks)
    && (forall i :: 0 <= i < |stages| ==>
          PassDid(stages[i].pass, stages[i].before, stages[i].after, stages[i].seen, stages[i].synced))
    && (forall i :: 0 <= i < |stages| - 1 ==> At(stages[i + 1].before, n) == At(stages[i].after, n))
  }

  /** The pass does not ask for the resource, or cannot tell what its source is
      and found the directory complete. */
  predicate Spares(s: Stage, n: string) {
    n in s.pass.sources ==>
      n in s.seen && s.seen[n] == Ok(Complete) && s.pass.registry(n).resolve(s.pass.sources[n]).None?
  }

  /** Over any run of passes, another writer's complete directory stays as it is
      until one of them asks for its resource, and resolves its source or does not
      find the directory complete. */
  lemma {:induction false} ForeignStays(stages: seq<Stage>, checks: bool, n: string)
    requires History(stages, checks, n) && stages != [] && Foreign(checks, At(stages[0].before, n)) && !IsTemporary(n)
    requires forall i :: 0 <= i < |stages| ==> Spares(stages[i], n)
    ensures At(stages[|stages| - 1].after, n) == At(stages[0].before, n)
    decreases |stages|
  {
    var last := stages[|stages| - 1];
    if |stages| > 1 {
      var front := stages[..|stages| - 1];
      assert forall i :: 0 <= i < |front| ==> front[i] == stages[i];
      ForeignStays(front, checks, n);
      assert At(stages[|stages| - 2 + 1].before, n) == At(stages[|stages| - 2].after, n);
    }
    if At(last.after, n) != At(last.before, n) {
      ForeignTurns(last.pass, last.before, last.after, last.seen, last.synced, n);
    }
  }

  /** That State answers Complete is needed, exactly: when a file of the directory
      cannot be read, State says Incomplete, and the directory is replaced by an
      image that was pulled and not resolved. */
  lemma SeenExactly(checks: bool, node: Option<Node>, seen: Answer<State>, source: string, puller: Puller)
    requires Foreign(checks, node) && puller.resolve(source).None? && Publishable(puller.pull(source))
    ensures TurnSeen(seen, true, node, source, puller)
      == if seen == Ok(Complete) then Turn(node, false, true, false)
         else Turn(Some(Filled(AGENT, source, puller.pull(source))), true, false, true)
    ensures TurnSeen(seen, true, node, source, puller).node == node <==> seen == Ok(Complete)
  {
    FilledIsComplete(checks, AGENT, source, puller.pull(source));
  }

  /** The same from what is there, when no call fails: a source that cannot be resolved, but can be
      pulled, leaves the directory as it is exactly when State answers Complete,
      or when the swap cannot look at the sentinel either. */
  lemma UnresolvedExactly(checks: bool, f: Folder, source: string, puller: Puller)
    requires puller.resolve(source).None? && Publishable(puller.pull(source))
    ensures var node := Some(Dir(f));
      TurnOf(checks, true, node, source, puller).node == node <==> StateOf(checks, node) == Ok(Complete) || IsDenied(node)
  {
    FilledIsComplete(checks, AGENT, source, puller.pull(source));
  }

  /** A sentinel that can be looked at and not read: a collection keeps the
      directory, for it may be seeded, and a pass that asks for it replaces it
      with no check of its source. */
  lemma UnreadableIsReplaced(checks: bool, f: Folder, n: string, source: string, puller: Puller, locked: set<string>)
    requires f.marker.Unreadable? && !IsTemporary(n)
    requires puller.resolve(source).None? && Publishable(puller.pull(source))
    ensures Survives(n, Dir(f), {}, locked)
    ensures TurnOf(checks, true, Some(Dir(f)), source, puller)
      == Turn(Some(Filled(AGENT, source, puller.pull(source))), true, false, true)
  {
  }

  // ----- a node seeded before the agent came -----

  /** The one-shot command fills a directory; the agent then resolves its source,
      finds the layers it recorded, and takes it over without a pull: the files
      stay, and all the sentinel says but the owner. */
  lemma SeedIsAdopted(checks: bool, mounted: bool, seed: string, p: Pulled, source: string, puller: Puller)
    requires Publishable(p) && p.id.layers != []
    requires puller.resolve(source).Some? && puller.resolve(source).value.layers == p.id.layers
    ensures var seeded := Filled(COMMAND, seed, p);
      TurnOf(checks, mounted, Some(seeded), source, puller) == Turn(Some(AdoptedNode(seeded)), true, true, false)
    ensures var f, g := Filled(COMMAND, seed, p).folder, AdoptedNode(Filled(COMMAND, seed, p)).folder;
      && (forall b :: b in f.items && b != SPARE ==> b in g.items && g.items[b] == f.items[b])
      && g.marker.text.sn == f.marker.text.sn.(record := f.marker.text.sn.record.(owner := AGENT))
  {
    FilledIsComplete(checks, COMMAND, seed, p);
  }
}
