/** The two loops of a pass, over what they find and do turn by turn. */
module PassLoops {
  import opened Basics
  import opened Names
  import opened Layout
  import opened Disks
  import opened Stores
  import opened Filling
  import opened Passes
  import NodeLabels

  type Statuses = map<string, NodeLabels.Status>

  /** What the first look at a resource found. */
  datatype Finding = Unfilled | Seeded(rec: Record) | Unread | Ours

  /** What the first loop collects: the statuses to show, the records of seeded
      directories, those whose sentinel failed to be read a second time,
      what State answered, and whether all went well. */
  datatype Survey = Survey(
    want: Statuses, seeded: map<string, Record>, unread: set<string>, seen: map<string, Answer<State>>, ok: bool)

  function Noted(s: Survey, n: string, answer: Answer<State>, f: Finding, fine: bool): Survey {
    Survey(s.want[n := if f.Ours? then NodeLabels.Synced else NodeLabels.Pending],
           if f.Seeded? then s.seeded[n := f.rec] else s.seeded,
           if f.Unread? then s.unread + {n} else s.unread,
           s.seen[n := answer], s.ok && fine)
  }

  /** What was found of a resource. */
  function FindingOf(s: Survey, n: string): Finding
    requires n in s.want
  {
    if s.want[n].Synced? then Ours
    else if n in s.unread then Unread
    else if n in s.seeded then Seeded(s.seeded[n])
    else Unfilled
  }

  /** What the second loop collects. */
  datatype Tally = Tally(want: Statuses, resolved: set<string>, pulled: set<string>, ok: bool)

  function Counted(t: Tally, n: string, synced: bool, fine: bool, resolved: bool, pulled: bool): Tally {
    Tally(t.want[n := if synced then NodeLabels.Synced else NodeLabels.Pending],
          if resolved then t.resolved + {n} else t.resolved,
          if pulled then t.pulled + {n} else t.pulled, t.ok && fine)
  }

  function SyncedIn(want: Statuses): set<string> {
    set n | n in want && want[n].Synced?
  }

  /** What the finding says of the entry, and what State had answered. */
  ghost predicate Found(checks: bool, node: Option<Node>, seen: Answer<State>, f: Finding) {
    && (seen == Ok(Complete) ==> StateOf(checks, node) == Ok(Complete))
    && match f
       case Unfilled => seen != Ok(Complete)
       case Seeded(rec) => FoundSeeded(checks, node, seen) && rec == RecordOf(node)
       case Unread => seen == Ok(Complete)
       case Ours => seen == Ok(Complete) && Present(checks, node)
  }

  /** The entries that no resource of the pass is behind are as they were, but
      for temporaries. */
  ghost predicate Around(before: Root, root: Root, names: set<string>) {
    && (forall n :: n in before && n !in names ==> At(root, n) == Some(before[n]))
    && (forall n :: n in root && n !in before && n !in names ==> IsTemporary(n))
  }

  lemma AimedLeaves(before: Root, after: Root, name: string, n: string)
    requires Store.Aimed(before, after, name) && n != name && (n in before || !IsTemporary(n))
    ensures At(after, n) == At(before, n)
  {
    assert n in before <==> n in But(before, name);
    assert n in after <==> n in But(after, name);
    if n in before {
      assert But(after, name)[n] == But(before, name)[n];
    } else if n in after {
      Store.NotAResource(name, n);
    }
  }

  lemma StaysAround(before: Root, root: Root, after: Root, names: set<string>, name: string)
    requires Around(before, root, names) && name in names && Store.Aimed(root, after, name)
    ensures Around(before, after, names)
  {
    forall n | n in before && n !in names
      ensures At(after, n) == Some(before[n])
    {
      AimedLeaves(root, after, name, n);
    }
    forall n | n in after && n !in before && n !in names
      ensures IsTemporary(n)
    {
      if !IsTemporary(n) {
        AimedLeaves(root, after, name, n);
      }
    }
  }

  // ----- the names a loop over the resources goes through -----

  /** The names before each turn, and after the last. */
  ghost predicate AreFronts(fronts: seq<set<string>>, desired: seq<ImageCache>) {
    && |fronts| == |desired| + 1 && fronts[0] == {}
    && (forall i :: 0 <= i < |desired| ==> fronts[i + 1] == fronts[i] + {desired[i].name})
  }

  lemma {:induction false} Fronts(desired: seq<ImageCache>) returns (fronts: seq<set<string>>)
    ensures AreFronts(fronts, desired)
  {
    if desired == [] {
      fronts := [{}];
    } else {
      var k := |desired| - 1;
      var f := Fronts(desired[..k]);
      fronts := f + [f[k] + {desired[k].name}];
    }
  }

  lemma {:induction false} FrontHas(fronts: seq<set<string>>, desired: seq<ImageCache>, k: nat, n: string)
    requires AreFronts(fronts, desired) && k <= |desired|
    ensures n in fronts[k] <==> exists j :: 0 <= j < k && desired[j].name == n
  {
    if k > 0 { FrontHas(fronts, desired, k - 1, n); }
  }

  lemma NotYet(fronts: seq<set<string>>, desired: seq<ImageCache>, i: nat)
    requires AreFronts(fronts, desired) && i < |desired| && ValidList(desired)
    ensures desired[i].name !in fronts[i]
  {
    FrontHas(fronts, desired, i, desired[i].name);
  }

  lemma AllThrough(fronts: seq<set<string>>, desired: seq<ImageCache>)
    requires AreFronts(fronts, desired) && ValidList(desired)
    ensures fronts[|desired|] == Sources(desired).Keys
  {
    forall n
      ensures n in fronts[|desired|] <==> n in Sources(desired)
    {
      FrontHas(fronts, desired, |desired|, n);
      if n in Sources(desired) {
        var i := Place(desired, n);
      } else if i :| 0 <= i < |desired| && desired[i].name == n {
        SourceAt(desired, i);
      }
    }
  }

  // ----- the first loop -----

  ghost predicate Looked(checks: bool, root: Root, names: set<string>, s: Survey) {
    && s.want.Keys == s.seen.Keys == names && s.seeded.Keys + s.unread <= names
    && (forall n :: n in names ==> Found(checks, At(root, n), s.seen[n], FindingOf(s, n)))
    && (s.ok ==> s.unread == {} && forall n :: n in s.seen ==> s.seen[n].Ok?)
  }

  ghost predicate LookedClean(checks: bool, root: Root, s: Survey) {
    && s.unread == {}
    && (forall n :: n in s.seen ==> s.seen[n] == StateOf(checks, At(root, n)))
    && (s.ok <==> forall n :: n in s.seen ==> s.seen[n].Ok?)
  }

  lemma OneMoreKey<V>(m: map<string, V>, k: string, v: V)
    ensures m[k := v].Keys == m.Keys + {k}
  {
  }

  lemma FindingsOn(s: Survey, n: string, answer: Answer<State>, f: Finding, fine: bool)
    requires n !in s.want && s.seeded.Keys + s.unread <= s.want.Keys
    ensures var t := Noted(s, n, answer, f, fine);
      && t.want.Keys == s.want.Keys + {n} && t.seeded.Keys + t.unread <= t.want.Keys
      && FindingOf(t, n) == f
      && (forall m :: m in s.want ==> FindingOf(t, m) == FindingOf(s, m))
  {
  }

  lemma LookedOn(
    checks: bool, root: Root, names: set<string>, s: Survey, n: string, answer: Answer<State>, f: Finding, fine: bool)
    requires Looked(checks, root, names, s) && n !in names && Found(checks, At(root, n), answer, f)
    requires fine ==> answer.Ok? && !f.Unread?
    ensures Looked(checks, root, names + {n}, Noted(s, n, answer, f, fine))
  {
    var t := Noted(s, n, answer, f, fine);
    FindingsOn(s, n, answer, f, fine);
    OneMoreKey(s.seen, n, answer);
    forall m | m in names + {n}
      ensures Found(checks, At(root, m), t.seen[m], FindingOf(t, m))
    {
      if m != n {
        assert Found(checks, At(root, m), s.seen[m], FindingOf(s, m));
        assert FindingOf(s, m) == FindingOf(t, m);
      }
    }
  }

  lemma CleanOn(checks: bool, root: Root, s: Survey, n: string, answer: Answer<State>, f: Finding, fine: bool)
    requires LookedClean(checks, root, s) && n !in s.seen && answer == StateOf(checks, At(root, n))
    requires !f.Unread? && (fine <==> answer.Ok?)
    ensures LookedClean(checks, root, Noted(s, n, answer, f, fine))
  {
  }

  /** What the first loop leaves the second to rely on. */
  lemma FoundAt(checks: bool, root: Root, names: set<string>, s: Survey, n: string)
    requires Looked(checks, root, names, s) && n in names
    ensures n in s.want && n in s.seen && Found(checks, At(root, n), s.seen[n], FindingOf(s, n))
    ensures LookedClean(checks, root, s) ==> !FindingOf(s, n).Unread? && s.seen[n] == StateOf(checks, At(root, n))
  {
  }

  // ----- the second loop -----

  /** One turn: the cache path after it, and how it went. */
  datatype Step = Step(after: Root, synced: bool, fine: bool, resolved: bool, pulled: bool)

  function RootAt(before: Root, steps: seq<Step>): Root {
    if steps == [] then before else steps[|steps| - 1].after
  }

  function TallyOf(s: Survey, desired: seq<ImageCache>, steps: seq<Step>): Tally
    requires |steps| <= |desired|
  {
    if steps == [] then Tally(s.want, {}, {}, true)
    else
      var k := |steps| - 1;
      Counted(TallyOf(s, desired, steps[..k]), desired[k].name, steps[k].synced, steps[k].fine, steps[k].resolved,
              steps[k].pulled)
  }

  /** What one turn did. */
  ghost predicate StepDid(p: Pass, root: Root, st: Step, ic: ImageCache, seen: Answer<State>, clean: bool) {
    && Store.Aimed(root, st.after, ic.name)
    && Turned(p.checks, At(root, ic.name), At(st.after, ic.name), seen, st.synced, ic.source, p.registry(ic.name))
    && (clean ==>
          Turn(At(st.after, ic.name), st.synced, st.resolved, st.pulled)
            == TurnOf(p.checks, p.mounted, At(root, ic.name), ic.source, p.registry(ic.name))
          && But(st.after, ic.name) == But(root, ic.name) && (st.fine <==> st.synced))
  }

  ghost predicate StepsDid(
    p: Pass, before: Root, steps: seq<Step>, desired: seq<ImageCache>, seen: map<string, Answer<State>>, clean: bool)
  {
    && |steps| <= |desired|
    && (forall j :: 0 <= j < |steps| ==> desired[j].name in seen)
    && (forall j :: 0 <= j < |steps| ==>
          StepDid(p, RootAt(before, steps[..j]), steps[j], desired[j], seen[desired[j].name], clean))
  }

  lemma StepsBefore(
    p: Pass, before: Root, steps: seq<Step>, desired: seq<ImageCache>, seen: map<string, Answer<State>>, clean: bool,
    k: nat)
    requires StepsDid(p, before, steps, desired, seen, clean) && k < |steps|
    ensures StepsDid(p, before, steps[..k], desired, seen, clean)
    ensures StepDid(p, RootAt(before, steps[..k]), steps[k], desired[k], seen[desired[k].name], clean)
  {
    forall j | 0 <= j < k
      ensures StepDid(p, RootAt(before, steps[..k][..j]), steps[..k][j], desired[j], seen[desired[j].name], clean)
    {
      assert steps[..k][..j] == steps[..j];
    }
  }

  lemma Weaker(
    p: Pass, before: Root, steps: seq<Step>, desired: seq<ImageCache>, seen: map<string, Answer<State>>, clean: bool,
    less: bool)
    requires StepsDid(p, before, steps, desired, seen, clean) && (less ==> clean)
    ensures StepsDid(p, before, steps, desired, seen, less)
  {
  }

  lemma OneMoreStep(
    p: Pass, before: Root, steps: seq<Step>, desired: seq<ImageCache>, seen: map<string, Answer<State>>, clean: bool,
    st: Step)
    requires StepsDid(p, before, steps, desired, seen, clean) && |steps| < |desired| && desired[|steps|].name in seen
    requires StepDid(p, RootAt(before, steps), st, desired[|steps|], seen[desired[|steps|].name], clean)
    ensures StepsDid(p, before, steps + [st], desired, seen, clean) && RootAt(before, steps + [st]) == st.after
  {
    var more := steps + [st];
    forall j | 0 <= j < |more|
      ensures StepDid(p, RootAt(before, more[..j]), more[j], desired[j], seen[desired[j].name], clean)
    {
      assert more[..j] == steps[..j];
      if j == |steps| { assert steps[..j] == steps; }
    }
  }

  /** The last turn leaves the entries of other resources alone. */
  lemma LastLeaves(
    p: Pass, before: Root, steps: seq<Step>, desired: seq<ImageCache>, seen: map<string, Answer<State>>, clean: bool,
    n: string)
    requires StepsDid(p, before, steps, desired, seen, clean) && steps != []
    requires desired[|steps| - 1].name != n && !IsTemporary(n)
    ensures At(RootAt(before, steps), n) == At(RootAt(before, steps[..|steps| - 1]), n)
    ensures StepsDid(p, before, steps[..|steps| - 1], desired, seen, clean)
  {
    var k := |steps| - 1;
    StepsBefore(p, before, steps, desired, seen, clean, k);
    AimedLeaves(RootAt(before, steps[..k]), steps[k].after, desired[k].name, n);
  }

  /** A resource whose turn has not come is as it was. */
  lemma {:induction false} StaysUntil(
    p: Pass, before: Root, steps: seq<Step>, desired: seq<ImageCache>, seen: map<string, Answer<State>>, clean: bool,
    n: string)
    requires StepsDid(p, before, steps, desired, seen, clean) && !IsTemporary(n)
    requires forall j :: 0 <= j < |steps| ==> desired[j].name != n
    ensures At(RootAt(before, steps), n) == At(before, n)
    decreases |steps|
  {
    if steps != [] {
      LastLeaves(p, before, steps, desired, seen, clean, n);
      StaysUntil(p, before, steps[..|steps| - 1], desired, seen, clean, n);
    }
  }

  /** Once its turn has gone by, a resource stays as it was left. */
  lemma {:induction false} StaysAfter(
    p: Pass, before: Root, steps: seq<Step>, desired: seq<ImageCache>, seen: map<string, Answer<State>>, clean: bool,
    i: nat, n: string, m: nat)
    requires StepsDid(p, before, steps, desired, seen, clean) && i < m <= |steps| && !IsTemporary(n)
    requires forall j :: i < j < |steps| ==> desired[j].name != n
    ensures At(RootAt(before, steps[..m]), n) == At(steps[i].after, n)
    decreases m
  {
    var k := m - 1;
    assert RootAt(before, steps[..m]) == steps[k].after;
    if i < k {
      StaysAfter(p, before, steps, desired, seen, clean, i, n, k);
      assert StepDid(p, RootAt(before, steps[..k]), steps[k], desired[k], seen[desired[k].name], clean);
      AimedLeaves(RootAt(before, steps[..k]), steps[k].after, desired[k].name, n);
    }
  }

  lemma {:induction false} StepsAround(
    p: Pass, before: Root, steps: seq<Step>, desired: seq<ImageCache>, seen: map<string, Answer<State>>, clean: bool,
    names: set<string>)
    requires StepsDid(p, before, steps, desired, seen, clean)
    requires forall j :: 0 <= j < |steps| ==> desired[j].name in names
    ensures Around(before, RootAt(before, steps), names)
    ensures clean ==> forall n :: n !in names ==> At(RootAt(before, steps), n) == At(before, n)
    decreases |steps|
  {
    if steps != [] {
      var k := |steps| - 1;
      StepsBefore(p, before, steps, desired, seen, clean, k);
      StepsAround(p, before, steps[..k], desired, seen, clean, names);
      StaysAround(before, RootAt(before, steps[..k]), steps[k].after, names, desired[k].name);
      if clean { OtherEntries(RootAt(before, steps[..k]), steps[k].after, desired[k].name); }
    }
  }

  // ----- what the second loop collects -----

  lemma TallyOn(s: Survey, desired: seq<ImageCache>, steps: seq<Step>, st: Step)
    requires |steps| < |desired|
    ensures TallyOf(s, desired, steps + [st])
      == Counted(TallyOf(s, desired, steps), desired[|steps|].name, st.synced, st.fine, st.resolved, st.pulled)
  {
  }

  lemma {:induction false} TallyNames(s: Survey, desired: seq<ImageCache>, steps: seq<Step>, n: string)
    requires |steps| <= |desired|
    requires forall j :: 0 <= j < |steps| ==> desired[j].name != n
    ensures var t := TallyOf(s, desired, steps);
      && n !in t.resolved && n !in t.pulled && (n in t.want <==> n in s.want)
    decreases |steps|
  {
    if steps != [] { TallyNames(s, desired, steps[..|steps| - 1], n); }
  }

  lemma {:induction false} TallyHolds(s: Survey, desired: seq<ImageCache>, steps: seq<Step>, i: nat)
    requires ValidList(desired) && i < |steps| <= |desired|
    ensures var t, n := TallyOf(s, desired, steps), desired[i].name;
      && n in t.want && (t.want[n].Synced? <==> steps[i].synced)
      && (n in t.resolved <==> steps[i].resolved) && (n in t.pulled <==> steps[i].pulled)
    decreases |steps|
  {
    var k := |steps| - 1;
    if i < k {
      TallyHolds(s, desired, steps[..k], i);
    } else {
      TallyNames(s, desired, steps[..k], desired[k].name);
    }
  }

  lemma {:induction false} TallyIsFine(s: Survey, desired: seq<ImageCache>, steps: seq<Step>)
    requires |steps| <= |desired|
    ensures TallyOf(s, desired, steps).ok <==> forall j :: 0 <= j < |steps| ==> steps[j].fine
    decreases |steps|
  {
    if steps != [] {
      var k := |steps| - 1;
      TallyIsFine(s, desired, steps[..k]);
      assert steps == steps[..k] + [steps[k]];
    }
  }

  /** Whether every turn so far ended with its resource in order. */
  predicate AllFine(steps: seq<Step>) {
    steps == [] || (steps[|steps| - 1].synced && AllFine(steps[..|steps| - 1]))
  }

  lemma OneMoreFine(steps: seq<Step>, st: Step)
    ensures AllFine(steps) && st.synced ==> AllFine(steps + [st])
  {
    assert (steps + [st])[..|steps|] == steps;
  }

  lemma {:induction false} FineAt(steps: seq<Step>, i: nat)
    requires AllFine(steps) && i < |steps|
    ensures steps[i].synced
    decreases |steps|
  {
    if i < |steps| - 1 { FineAt(steps[..|steps| - 1], i); }
  }

  lemma AllFineIn(p: Pass, s: Survey, desired: seq<ImageCache>, steps: seq<Step>)
    requires ValidList(desired) && p.sources == Sources(desired) && |steps| == |desired| && AllFine(steps)
    requires s.want.Keys == p.sources.Keys
    ensures SyncedIn(TallyOf(s, desired, steps).want) == p.sources.Keys
  {
    forall n
      ensures n in SyncedIn(TallyOf(s, desired, steps).want) <==> n in p.sources
    {
      if n in p.sources {
        var i := Place(desired, n);
        TallyHolds(s, desired, steps, i);
        FineAt(steps, i);
      } else {
        AllAsked(desired);
        TallyNames(s, desired, steps, n);
      }
    }
  }

  // ----- what the second loop did -----

  ghost predicate TurnedAt(p: Pass, before: Root, n: string, node: Option<Node>, seen: Answer<State>, synced: bool)
    requires n in p.sources
  {
    Turned(p.checks, At(before, n), node, seen, synced, p.sources[n], p.registry(n))
  }

  /** Every resource was served, and nothing else touched. */
  ghost predicate Served(p: Pass, before: Root, root: Root, seen: map<string, Answer<State>>, t: Tally) {
    && (forall n :: n in t.want <==> n in p.sources) && p.sources.Keys <= seen.Keys
    && Around(before, root, p.sources.Keys)
    && (forall n :: n in p.sources ==> TurnedAt(p, before, n, At(root, n), seen[n], t.want[n].Synced?))
  }

  /** What was made of a resource is what is made of it when no call fails. */
  ghost predicate AsPlanned(p: Pass, before: Root, n: string, node: Option<Node>, synced: bool, r: bool, q: bool)
    requires n in p.sources
  {
    Turn(node, synced, r, q) == TurnAt(p, before, n)
  }

  ghost predicate ServedClean(p: Pass, before: Root, root: Root, t: Tally) {
    && (forall n :: n in t.want <==> n in p.sources)
    && (forall n :: n in p.sources ==>
          AsPlanned(p, before, n, At(root, n), t.want[n].Synced?, n in t.resolved, n in t.pulled))
    && (forall n :: n !in p.sources ==> At(root, n) == At(before, n) && n !in t.resolved && n !in t.pulled)
    && (t.ok <==> forall n :: n in p.sources ==> t.want[n].Synced?)
  }

  lemma AllAsked(desired: seq<ImageCache>)
    requires ValidList(desired)
    ensures forall j :: 0 <= j < |desired| ==> desired[j].name in Sources(desired)
  {
    forall j | 0 <= j < |desired|
      ensures desired[j].name in Sources(desired)
    {
      SourceAt(desired, j);
    }
  }

  lemma OneServed(
    p: Pass, before: Root, steps: seq<Step>, desired: seq<ImageCache>, s: Survey, clean: bool, n: string)
    requires ValidList(desired) && p.sources == Sources(desired) && n in p.sources
    requires StepsDid(p, before, steps, desired, s.seen, clean) && |steps| == |desired|
    ensures n in s.seen
    ensures var t := TallyOf(s, desired, steps);
      && n in t.want
      && TurnedAt(p, before, n, At(RootAt(before, steps), n), s.seen[n], t.want[n].Synced?)
      && (clean ==> AsPlanned(p, before, n, At(RootAt(before, steps), n), t.want[n].Synced?, n in t.resolved, n in t.pulled))
  {
    var i := Place(desired, n);
    ResourceNames(n);
    StepsBefore(p, before, steps, desired, s.seen, clean, i);
    StaysUntil(p, before, steps[..i], desired, s.seen, clean, n);
    StaysAfter(p, before, steps, desired, s.seen, clean, i, n, |steps|);
    assert steps[..|steps|] == steps;
    TallyHolds(s, desired, steps, i);
  }

  lemma LoopServes(p: Pass, before: Root, steps: seq<Step>, desired: seq<ImageCache>, s: Survey, clean: bool)
    requires ValidList(desired) && p.sources == Sources(desired)
    requires s.want.Keys == s.seen.Keys == p.sources.Keys
    requires StepsDid(p, before, steps, desired, s.seen, clean) && |steps| == |desired|
    ensures Served(p, before, RootAt(before, steps), s.seen, TallyOf(s, desired, steps))
  {
    var t := TallyOf(s, desired, steps);
    AllAsked(desired);
    StepsAround(p, before, steps, desired, s.seen, clean, p.sources.Keys);
    forall n
      ensures n in t.want <==> n in p.sources
      ensures n in p.sources ==> TurnedAt(p, before, n, At(RootAt(before, steps), n), s.seen[n], t.want[n].Synced?)
    {
      if n in p.sources {
        OneServed(p, before, steps, desired, s, clean, n);
      } else {
        TallyNames(s, desired, steps, n);
      }
    }
  }

  lemma LoopServesClean(p: Pass, before: Root, steps: seq<Step>, desired: seq<ImageCache>, s: Survey)
    requires ValidList(desired) && p.sources == Sources(desired)
    requires s.want.Keys == s.seen.Keys == p.sources.Keys
    requires StepsDid(p, before, steps, desired, s.seen, true) && |steps| == |desired|
    ensures ServedClean(p, before, RootAt(before, steps), TallyOf(s, desired, steps))
  {
    var t := TallyOf(s, desired, steps);
    AllAsked(desired);
    StepsAround(p, before, steps, desired, s.seen, true, p.sources.Keys);
    TallyIsFine(s, desired, steps);
    forall n
      ensures n in t.want <==> n in p.sources
      ensures n in p.sources ==>
        AsPlanned(p, before, n, At(RootAt(before, steps), n), t.want[n].Synced?, n in t.resolved, n in t.pulled)
      ensures n !in p.sources ==> n !in t.resolved && n !in t.pulled
    {
      if n in p.sources {
        OneServed(p, before, steps, desired, s, true, n);
      } else {
        TallyNames(s, desired, steps, n);
      }
    }
    forall j | 0 <= j < |steps|
      ensures desired[j].name in p.sources && (steps[j].fine <==> t.want[desired[j].name].Synced?)
    {
      TallyHolds(s, desired, steps, j);
      StepsBefore(p, before, steps, desired, s.seen, true, j);
    }
    forall n | n in p.sources
      ensures exists j :: 0 <= j < |steps| && desired[j].name == n
    {
      var j := Place(desired, n);
    }
  }

  // ----- the collection that ends the pass -----

  /** What GC did. */
  ghost predicate Collecting(root: Root, after: Root, keep: set<string>, locked: set<string>) {
    && after.Keys <= root.Keys
    && (forall n :: n in root && Survives(n, root[n], keep, locked) ==> n in after && after[n] == root[n])
    && (forall n :: n in root ==> Store.Leftover(root[n], after, n))
  }

  /** What a pass has nothing to report of: State could answer for every resource,
      every one ended up synced, and of the rest only what a collection leaves is
      there, with sentinels that can be read. */
  ghost predicate InOrder(p: Pass, root: Root, seen: map<string, Answer<State>>, want: Statuses) {
    && SyncedIn(want) == p.sources.Keys && (forall n :: n in seen ==> seen[n].Ok?)
    && Uncollected(root, p.sources.Keys, p.locked) == {} && Legible(root, p.sources.Keys)
  }

  /** That order, spelled out. */
  lemma OrderExactly(p: Pass, root: Root, seen: map<string, Answer<State>>, want: Statuses)
    ensures InOrder(p, root, seen, want) <==>
      && (forall n :: n in p.sources <==> n in want && want[n] == NodeLabels.Synced)
      && (forall n :: n in seen ==> seen[n].Ok?)
      && (forall n :: n in root ==> n in Collected(root, p.sources.Keys, p.locked)) && Legible(root, p.sources.Keys)
  {
    assert forall n :: n in SyncedIn(want) <==> n in want && want[n] == NodeLabels.Synced;
    assert forall n :: n in Uncollected(root, p.sources.Keys, p.locked) <==>
      n in root && n !in Collected(root, p.sources.Keys, p.locked);
  }

  lemma NothingIsLeft(root: Root, p: Pass)
    requires Legible(root, p.sources.Keys)
    ensures var after := Collected(root, p.sources.Keys, p.locked);
      Uncollected(after, p.sources.Keys, p.locked) == {} && Legible(after, p.sources.Keys)
  {
  }

  /** What GC did and answered when no call failed. */
  ghost predicate CollectedClean(root: Root, after: Root, removed: set<string>, ok: bool, p: Pass) {
    && after == Collected(root, p.sources.Keys, p.locked) && removed == root.Keys - after.Keys
    && (ok <==> Legible(root, p.sources.Keys))
  }

  lemma PassEnds(
    p: Pass, before: Root, root: Root, after: Root, seen: map<string, Answer<State>>, t: Tally)
    requires Served(p, before, root, seen, t) && Collecting(root, after, p.sources.Keys, p.locked)
    ensures PassDid(p, before, after, seen, SyncedIn(t.want))
  {
    forall n
      ensures EntryDid(p, before, after, seen, SyncedIn(t.want), n)
    {
      if n in p.sources {
        assert TurnedAt(p, before, n, At(root, n), seen[n], t.want[n].Synced?);
        if n in root { assert Survives(n, root[n], p.sources.Keys, p.locked); }
        assert At(after, n) == At(root, n);
      } else if n in before {
        assert At(root, n) == Some(before[n]);
        assert Store.Leftover(root[n], after, n);
      }
    }
  }

  lemma RootEnds(p: Pass, before: Root, root: Root, t: Tally)
    requires ServedClean(p, before, root, t)
    ensures Collected(root, p.sources.Keys, p.locked) == RootAfter(p, before)
  {
    var after := Collected(root, p.sources.Keys, p.locked);
    forall n
      ensures At(after, n) == At(RootAfter(p, before), n)
    {
      EntryIs(p, before, n);
      if n in p.sources {
        assert AsPlanned(p, before, n, At(root, n), t.want[n].Synced?, n in t.resolved, n in t.pulled);
        assert At(after, n) == At(root, n);
      } else {
        assert At(root, n) == At(before, n);
      }
    }
    SameRoots(after, RootAfter(p, before));
  }

  lemma StatusesEnd(p: Pass, before: Root, root: Root, t: Tally)
    requires ServedClean(p, before, root, t)
    ensures t.want == StatusesAfter(p, before)
  {
    forall n | n in p.sources
      ensures n in t.want && t.want[n] == StatusesAfter(p, before)[n]
    {
      assert AsPlanned(p, before, n, At(root, n), t.want[n].Synced?, n in t.resolved, n in t.pulled);
    }
  }

  lemma RemovedEnds(p: Pass, before: Root, root: Root, t: Tally)
    requires ServedClean(p, before, root, t)
    ensures root.Keys - Collected(root, p.sources.Keys, p.locked).Keys == Uncollected(before, p.sources.Keys, p.locked)
  {
  }

  lemma FlawlessEnds(p: Pass, before: Root, root: Root, s: Survey, t: Tally)
    requires ServedClean(p, before, root, t) && LookedClean(p.checks, before, s) && s.seen.Keys == p.sources.Keys
    ensures s.ok && t.ok && Legible(root, p.sources.Keys) <==> Flawless(p, before)
  {
    forall n | n !in p.sources
      ensures At(root, n) == At(before, n)
    {
    }
    assert Legible(root, p.sources.Keys) <==> Legible(before, p.sources.Keys) by {
      LegibleAlike(root, before, p.sources.Keys);
    }
    forall n | n in p.sources
      ensures t.want[n].Synced? <==> TurnAt(p, before, n).synced
      ensures s.seen[n] == StateOf(p.checks, At(before, n))
    {
      assert AsPlanned(p, before, n, At(root, n), t.want[n].Synced?, n in t.resolved, n in t.pulled);
    }
  }

  lemma LegibleAlike(a: Root, b: Root, keep: set<string>)
    requires forall n :: n !in keep ==> At(a, n) == At(b, n)
    ensures Legible(a, keep) <==> Legible(b, keep)
  {
  }

  /** What the first loop shows, when it could look at everything. */
  lemma FirstStatuses(p: Pass, root: Root, s: Survey)
    requires Looked(p.checks, root, p.sources.Keys, s) && LookedClean(p.checks, root, s)
    ensures s.want == StatusesBefore(p, root)
  {
  }

  function ResolvedIn(p: Pass, root: Root): set<string> {
    set n | n in p.sources && TurnAt(p, root, n).resolved
  }

  function PulledIn(p: Pass, root: Root): set<string> {
    set n | n in p.sources && TurnAt(p, root, n).pulled
  }

  /** A pass over a converged node asks for nothing, and has only sentinels
      nobody keeps to report. */
  lemma IdleAnswers(p: Pass, root: Root)
    requires Converged(p, root)
    ensures ResolvedIn(p, root) == {} && PulledIn(p, root) == {}
    ensures Flawless(p, root) <==> Legible(root, p.sources.Keys)
  {
    forall n | n in p.sources
      ensures TurnAt(p, root, n) == Turn(At(root, n), true, false, false)
    {
      ConvergedTurn(p, root, n);
    }
  }

  /** What a pass comes to when no call on the disk fails. */
  ghost predicate ConvergedClean(p: Pass, before: Root, root: Root, t: Tally, removed: set<string>, ok: bool) {
    && root == RootAfter(p, before) && t.want == StatusesAfter(p, before)
    && removed == Uncollected(before, p.sources.Keys, p.locked)
    && t.resolved == ResolvedIn(p, before) && t.pulled == PulledIn(p, before)
    && (ok <==> Flawless(p, before))
  }

  lemma AnswersEnd(p: Pass, before: Root, root: Root, t: Tally)
    requires ServedClean(p, before, root, t)
    ensures t.resolved == ResolvedIn(p, before) && t.pulled == PulledIn(p, before)
  {
  }

  lemma CleanEnds(
    p: Pass, before: Root, steps: seq<Step>, desired: seq<ImageCache>, s: Survey, t: Tally, root: Root, after: Root,
    removed: set<string>, ok: bool)
    requires ValidList(desired) && p.sources == Sources(desired)
    requires Looked(p.checks, before, p.sources.Keys, s) && LookedClean(p.checks, before, s)
    requires StepsDid(p, before, steps, desired, s.seen, true) && |steps| == |desired|
    requires root == RootAt(before, steps) && t == TallyOf(s, desired, steps)
    requires CollectedClean(root, after, removed, ok, p)
    ensures ConvergedClean(p, before, after, t, removed, s.ok && ok && t.ok)
  {
    LoopServesClean(p, before, steps, desired, s);
    RootEnds(p, before, root, t);
    StatusesEnd(p, before, root, t);
    RemovedEnds(p, before, root, t);
    AnswersEnd(p, before, root, t);
    FlawlessEnds(p, before, root, s, t);
  }
}
