/** The node's sync-status labels: what they should be, and the merge patch that
    brings them there on an object others write to. */
module NodeLabels {
  import opened Basics

  type Labels = map<string, string>

  const PREFIX := "image-cache.scality.com/"
  /** What a status label says of a resource. */
  datatype Status = Synced | Pending

  function ValueOf(s: Status): string {
    match s
    case Synced => "synced"
    case Pending => "pending"
  }

  /** A node with the status of the resource a and no other label. */
  const ONE_STATUS: Labels := map[PREFIX + "a" := ValueOf(Synced)]

  /** The statuses as label values, by resource name. */
  function AsLabels(want: map<string, Status>): (r: Labels)
    ensures NoneEmpty(r)
  {
    map n | n in want :: ValueOf(want[n])
  }

  predicate Selected(selector: Labels, labels: Labels) {
    forall k :: k in selector ==> k in labels && labels[k] == selector[k]
  }

  /** Whether every entry of the selector is a label of the node. */
  method Selects(selector: Labels, labels: Labels) returns (r: bool)
    ensures r <==> Selected(selector, labels)
    ensures r <==> forall k :: k in selector ==> k in labels && labels[k] == selector[k]
  {
    var todo := selector.Keys;
    while todo != {}
      invariant todo <= selector.Keys
      invariant forall k :: k in selector && k !in todo ==> k in labels && labels[k] == selector[k]
    {
      var k :| k in todo;
      if k !in labels || labels[k] != selector[k] { return false; }
      todo := todo - {k};
    }
    return true;
  }

  function Lookup(labels: Labels, k: string): Option<string> {
    if k in labels then Some(labels[k]) else None
  }

  predicate IsStatus(key: string) {
    PREFIX <= key
  }

  function Trim(key: string): string
    requires IsStatus(key)
  {
    key[|PREFIX|..]
  }

  lemma TrimBack(key: string)
    requires IsStatus(key)
    ensures PREFIX + Trim(key) == key
  {
  }

  lemma TrimFront(name: string)
    ensures IsStatus(PREFIX + name) && Trim(PREFIX + name) == name
  {
  }

  /** The labels with the statuses exactly these. */
  function WithStatuses(labels: Labels, want: Labels): Labels {
    map k | k in labels.Keys + (set n | n in want :: PREFIX + n)
            && (if IsStatus(k) then Trim(k) in want else k in labels)
      :: if IsStatus(k) then want[Trim(k)] else labels[k]
  }

  /** A status with an empty value is only ever written over an existing label. */
  function Effective(labels: Labels, want: Labels): Labels {
    map n | n in want && (want[n] != "" || PREFIX + n in labels) :: want[n]
  }

  predicate NoneEmpty(want: Labels) {
    forall n :: n in want ==> want[n] != ""
  }

  lemma StatusIn(labels: Labels, want: Labels, k: string)
    ensures k in WithStatuses(labels, want) <==> if IsStatus(k) then Trim(k) in want else k in labels
    ensures k in WithStatuses(labels, want) ==>
      WithStatuses(labels, want)[k] == if IsStatus(k) then want[Trim(k)] else labels[k]
  {
    if IsStatus(k) && Trim(k) in want {
      TrimBack(k);
      assert k in (set n | n in want :: PREFIX + n);
    }
  }

  /** How far the second loop is: the wanted statuses outside `todo` are shown,
      those inside are as they were, and there are no others. */
  ghost predicate Showing(labels: Labels, want: Labels, todo: set<string>, out: Labels) {
    && todo <= want.Keys
    && (forall k :: !IsStatus(k) ==> (k in out <==> k in labels) && (k in labels ==> out[k] == labels[k]))
    && (forall n :: n in todo ==> Lookup(out, PREFIX + n) == Lookup(labels, PREFIX + n))
    && (forall k :: k in out && IsStatus(k) ==> Trim(k) in want)
    && (forall n :: n in want && n !in todo ==> (PREFIX + n in out <==> n in Effective(labels, want)))
    && (forall n :: n in want && n !in todo && PREFIX + n in out ==> out[PREFIX + n] == want[n])
  }

  lemma ShowingOn(labels: Labels, want: Labels, todo: set<string>, out: Labels, n: string)
    requires Showing(labels, want, todo, out) && n in todo
    ensures var shown := if PREFIX + n in out then out[PREFIX + n] else "";
      Showing(labels, want, todo - {n}, if shown != want[n] then out[PREFIX + n := want[n]] else out)
  {
    TrimFront(n);
    forall m | m != n
      ensures PREFIX + m != PREFIX + n
    {
      TrimFront(m);
    }
  }

  /** A copy of the labels with the wanted statuses, and whether it differs. */
  method ApplyStatusLabels(labels: Labels, want: Labels) returns (out: Labels, changed: bool)
    ensures out == WithStatuses(labels, Effective(labels, want))
    ensures changed <==> out != labels
    ensures NoneEmpty(want) ==> out == WithStatuses(labels, want)
  {
    out, changed := labels, false;
    var todo := labels.Keys;
    while todo != {}
      invariant todo <= labels.Keys && todo <= out.Keys <= labels.Keys
      invariant forall k :: k in out ==> out[k] == labels[k]
      invariant forall k :: k in labels && k !in todo ==> (k in out <==> !IsStatus(k) || Trim(k) in want)
      invariant changed <==> out != labels
    {
      var k :| k in todo;
      todo := todo - {k};
      if IsStatus(k) && Trim(k) !in want {
        out := out - {k};
        changed := true;
      }
    }
    todo := want.Keys;
    while todo != {}
      invariant Showing(labels, want, todo, out)
      invariant changed <==> out != labels
    {
      var n :| n in todo;
      ShowingOn(labels, want, todo, out, n);
      todo := todo - {n};
      if (if PREFIX + n in out then out[PREFIX + n] else "") != want[n] {
        out := out[PREFIX + n := want[n]];
        changed := true;
      }
    }
    Same(labels, want, out);
  }

  lemma Same(labels: Labels, want: Labels, out: Labels)
    requires forall k :: !IsStatus(k) ==> (k in out <==> k in labels) && (k in labels ==> out[k] == labels[k])
    requires forall k :: k in out && IsStatus(k) ==> Trim(k) in want
    requires forall n :: n in want ==> (PREFIX + n in out <==> n in Effective(labels, want))
    requires forall n :: n in want && PREFIX + n in out ==> out[PREFIX + n] == want[n]
    ensures out == WithStatuses(labels, Effective(labels, want))
    ensures NoneEmpty(want) ==> Effective(labels, want) == want
  {
    var e := Effective(labels, want);
    forall k
      ensures k in out <==> k in WithStatuses(labels, e)
      ensures k in out ==> out[k] == WithStatuses(labels, e)[k]
    {
      StatusIn(labels, e, k);
      if IsStatus(k) { TrimBack(k); }
    }
  }

  /** The labels, spelled out: a status under the store's prefix for every wanted
      resource and no other, and every other label as it was. */
  lemma ShownExactly(labels: Labels, want: map<string, Status>, n: string, k: string)
    ensures var out, key := WithStatuses(labels, AsLabels(want)), "image-cache.scality.com/" + n;
      && (key in out <==> n in want)
      && (n in want ==> out[key] == if want[n].Synced? then "synced" else "pending")
      && (!("image-cache.scality.com/" <= k) ==> (k in out <==> k in labels) && (k in labels ==> out[k] == labels[k]))
  {
    TrimFront(n);
    StatusIn(labels, AsLabels(want), PREFIX + n);
    StatusIn(labels, AsLabels(want), k);
  }

  // ----- the merge patch, section 2 of RFC 7396 -----

  /** The labels member of a patch: absent, null, or members to set or remove. */
  datatype Patch = Absent | Null | Members(members: map<string, Option<string>>)

  /** The difference of two objects. An empty label map is left out of the
      object, so emptying it removes the member as a whole. */
  function Diff(base: Labels, modified: Labels): Patch {
    if base == modified then Absent
    else if modified == map[] then Null
    else Members(map k | k in base.Keys + modified.Keys && (k in base && k in modified ==> base[k] != modified[k])
                   :: if k in modified then Some(modified[k]) else None)
  }

  function Merge(target: Labels, patch: Patch): Labels {
    match patch
    case Absent => target
    case Null => map[]
    case Members(m) =>
      map k | k in target.Keys + m.Keys && (k in m ==> m[k].Some?) :: if k in m then m[k].value else target[k]
  }

  /** What a patch says, and what it does, label by label. */
  lemma PatchExactly(base: Labels, modified: Labels, target: Labels, k: string)
    ensures var p := Diff(base, modified);
      && (p.Absent? <==> base == modified) && (p.Null? <==> base != modified && modified == map[])
      && (p.Members? ==> (k in p.members <==> Lookup(base, k) != Lookup(modified, k)))
      && (p.Members? && k in p.members ==> p.members[k] == Lookup(modified, k))
      && (p.Members? ==>
            Lookup(Merge(target, p), k) == if k in p.members then p.members[k] else Lookup(target, k))
      && (p.Absent? ==> Merge(target, p) == target) && (p.Null? ==> Merge(target, p) == map[])
  {
  }

  /** On the object it was computed from, a patch makes the other. */
  lemma MergeDiff(base: Labels, modified: Labels)
    ensures Merge(base, Diff(base, modified)) == modified
  {
  }

  /** The statuses of an object are exactly the wanted ones. */
  ghost predicate StatusesAre(labels: Labels, want: Labels) {
    forall k :: IsStatus(k) ==> (k in labels <==> Trim(k) in want) && (k in labels ==> labels[k] == want[Trim(k)])
  }

  /** Everything but the statuses is as it was. */
  ghost predicate KeepsOthers(before: Labels, after: Labels) {
    forall k :: !IsStatus(k) ==> (k in after <==> k in before) && (k in before ==> after[k] == before[k])
  }

  ghost predicate SameStatuses(a: Labels, b: Labels) {
    forall k :: IsStatus(k) ==> Lookup(a, k) == Lookup(b, k)
  }

  /** Another writer's labels, under these statuses. */
  function Overlaid(others: Labels, mine: Labels): (r: Labels)
    ensures SameStatuses(mine, r) && KeepsOthers(others, r)
  {
    map k | k in others.Keys + mine.Keys && (if IsStatus(k) then k in mine else k in others)
      :: if IsStatus(k) then mine[k] else others[k]
  }

  ghost predicate OnlyStatuses(labels: Labels) {
    forall k :: k in labels ==> IsStatus(k)
  }

  /** The server's object may have changed since base was read. After the patch
      its statuses are the wanted ones exactly when nobody else touched one that
      the patch leaves out. */
  lemma PatchedStatuses(base: Labels, server: Labels, want: Labels)
    ensures var out := WithStatuses(base, want);
      var p := Diff(base, out);
      StatusesAre(Merge(server, p), want) <==>
        p.Null? || forall k :: IsStatus(k) && Lookup(base, k) == Lookup(out, k) ==> Lookup(server, k) == Lookup(base, k)
  {
    var out := WithStatuses(base, want);
    var p := Diff(base, out);
    var after := Merge(server, p);
    forall k
      ensures Lookup(out, k) == if IsStatus(k) then Lookup(want, Trim(k)) else Lookup(base, k)
    {
      StatusIn(base, want, k);
    }
    if !p.Null? {
      forall k
        ensures Lookup(after, k) == if Lookup(base, k) == Lookup(out, k) then Lookup(server, k) else Lookup(out, k)
      {
      }
      assert StatusesAre(after, want) <==> forall k :: IsStatus(k) ==> Lookup(after, k) == Lookup(want, Trim(k));
    } else {
      assert forall k :: Lookup(out, k) == None;
    }
  }

  /** When nothing is left: only statuses were there, and none is wanted. */
  lemma EmptiedExactly(base: Labels, want: Labels)
    ensures WithStatuses(base, want) == map[] <==> OnlyStatuses(base) && want == map[]
  {
    var out := WithStatuses(base, want);
    forall k
      ensures k in out <==> if IsStatus(k) then Trim(k) in want else k in base
    {
      StatusIn(base, want, k);
    }
    forall n | n in want
      ensures PREFIX + n in out
    {
      TrimFront(n);
    }
    if OnlyStatuses(base) && want == map[] {
      assert forall k :: k !in out;
    } else if want == map[] {
      var k :| k in base && !IsStatus(k);
      assert k in out;
    } else {
      var n :| n in want;
      assert PREFIX + n in out;
    }
  }

  /** The patch keeps every other label, even one changed since base was read,
      except when it empties the node's labels: it then removes them all. */
  lemma PatchedOthers(base: Labels, server: Labels, want: Labels)
    ensures var p := Diff(base, WithStatuses(base, want));
      && (p.Null? <==> base != map[] && OnlyStatuses(base) && want == map[])
      && (KeepsOthers(server, Merge(server, p)) <==> !p.Null? || OnlyStatuses(server))
  {
    EmptiedExactly(base, want);
    var out := WithStatuses(base, want);
    forall k | !IsStatus(k)
      ensures Lookup(out, k) == Lookup(base, k)
    {
      StatusIn(base, want, k);
    }
  }

  /** It does happen: the node had one status and nothing else, another writer
      adds the label x, the resource goes, and the patch takes x away with it. */
  lemma PatchCanLose()
    ensures var base := ONE_STATUS; var server := base["x" := "y"];
      var p := Diff(base, WithStatuses(base, map[]));
      "x" in server && Merge(server, p) == map[] && !KeepsOthers(server, Merge(server, p))
  {
    TrimFront("a");
    assert PREFIX + "a" in ONE_STATUS && OnlyStatuses(ONE_STATUS);
    EmptiedExactly(ONE_STATUS, map[]);
    assert !IsStatus("x");
  }

  /** Applied again, the wanted statuses change nothing, so nothing is sent. */
  lemma ApplyTwice(labels: Labels, want: Labels)
    ensures WithStatuses(WithStatuses(labels, want), want) == WithStatuses(labels, want)
    ensures StatusesAre(WithStatuses(labels, want), want) && KeepsOthers(labels, WithStatuses(labels, want))
  {
    var once := WithStatuses(labels, want);
    forall k
      ensures Lookup(WithStatuses(once, want), k) == Lookup(once, k)
      ensures Lookup(once, k) == if IsStatus(k) then Lookup(want, Trim(k)) else Lookup(labels, k)
    {
      StatusIn(labels, want, k);
      StatusIn(once, want, k);
    }
    SameMaps(WithStatuses(once, want), once);
  }

  /** Nothing is sent exactly when the statuses are already the wanted ones. */
  lemma SentExactly(labels: Labels, want: Labels)
    ensures WithStatuses(labels, want) == labels <==> StatusesAre(labels, want)
  {
    ApplyTwice(labels, want);
    if StatusesAre(labels, want) {
      forall k
        ensures Lookup(WithStatuses(labels, want), k) == Lookup(labels, k)
      {
        StatusIn(labels, want, k);
      }
      SameMaps(WithStatuses(labels, want), labels);
    }
  }

  /** On a node that shows some statuses, others are sent exactly when they differ. */
  lemma ResentExactly(labels: Labels, first: map<string, Status>, want: map<string, Status>)
    ensures StatusesAre(labels, AsLabels(first)) ==>
      (WithStatuses(labels, AsLabels(want)) == labels <==> want == first)
  {
    SentExactly(labels, AsLabels(want));
    if StatusesAre(labels, AsLabels(first)) && StatusesAre(labels, AsLabels(want)) {
      forall n
        ensures n in first <==> n in want
        ensures n in first ==> first[n] == want[n]
      {
        TrimFront(n);
        assert IsStatus(PREFIX + n);
        if n in first && n in want { ValuesDiffer(first[n], want[n]); }
      }
    }
  }

  lemma ValuesDiffer(a: Status, b: Status)
    ensures ValueOf(a) == ValueOf(b) <==> a == b
  {
  }

  lemma EmptiedBefore(read: Labels, first: Labels, want: Labels)
    ensures var base := WithStatuses(read, first);
      Diff(base, WithStatuses(base, want)).Null? <==> want == map[] && first != map[] && OnlyStatuses(read)
  {
    var base := WithStatuses(read, first);
    EmptiedExactly(read, first);
    EmptiedExactly(base, want);
    forall k
      ensures k in base <==> if IsStatus(k) then Trim(k) in first else k in read
    {
      StatusIn(read, first, k);
    }
  }

  lemma ByKeyOrByName(base: Labels, out: Labels, server: Labels, first: Labels, want: Labels)
    requires forall k :: IsStatus(k) ==>
      Lookup(base, k) == Lookup(first, Trim(k)) && Lookup(out, k) == Lookup(want, Trim(k))
    ensures (forall k :: IsStatus(k) && Lookup(base, k) == Lookup(out, k) ==> Lookup(server, k) == Lookup(base, k))
      <==> forall n :: Lookup(first, n) == Lookup(want, n) ==> Lookup(server, PREFIX + n) == Lookup(want, n)
  {
    if forall n :: Lookup(first, n) == Lookup(want, n) ==> Lookup(server, PREFIX + n) == Lookup(want, n) {
      forall k | IsStatus(k) && Lookup(base, k) == Lookup(out, k)
        ensures Lookup(server, k) == Lookup(base, k)
      {
        TrimBack(k);
        assert Lookup(first, Trim(k)) == Lookup(want, Trim(k));
      }
    }
    if forall k :: IsStatus(k) && Lookup(base, k) == Lookup(out, k) ==> Lookup(server, k) == Lookup(base, k) {
      forall n | Lookup(first, n) == Lookup(want, n)
        ensures Lookup(server, PREFIX + n) == Lookup(want, n)
      {
        TrimFront(n);
        assert IsStatus(PREFIX + n);
      }
    }
  }

  /** The first patch of a pass failed: `base` is the node with the statuses it
      wanted first, which the server does not have. The second patch leaves out
      the ones that did not change since, so the server ends with the wanted
      statuses exactly when it had those already, or when the patch removes every
      label. In a pass with no resource left, it has to be without any status. */
  lemma AfterAFailedPatch(read: Labels, first: Labels, server: Labels, want: Labels)
    ensures var base := WithStatuses(read, first);
      var p := Diff(base, WithStatuses(base, want));
      && (StatusesAre(Merge(server, p), want) <==>
            || (want == map[] && first != map[] && OnlyStatuses(read))
            || forall n :: Lookup(first, n) == Lookup(want, n) ==> Lookup(server, PREFIX + n) == Lookup(want, n))
      && (want == first == map[] ==> p.Absent?)
  {
    var base := WithStatuses(read, first);
    var out := WithStatuses(base, want);
    var p := Diff(base, out);
    PatchedStatuses(base, server, want);
    EmptiedBefore(read, first, want);
    ApplyTwice(read, first);
    forall k | IsStatus(k)
      ensures Lookup(base, k) == Lookup(first, Trim(k)) && Lookup(out, k) == Lookup(want, Trim(k))
    {
      StatusIn(read, first, k);
      StatusIn(base, want, k);
    }
    ByKeyOrByName(base, out, server, first, want);
  }

  /** It does happen: the node shows a as synced, the patch that should make it
      pending fails, and at the end of the pass a is still pending. Nothing is
      sent then, and the node goes on saying synced. Or a is gone, the patch that
      should remove its status fails, and nothing is sent at the end either. */
  lemma FailedPatchCanLie()
    ensures var want := map["a" := ValueOf(Pending)];
      var base := WithStatuses(ONE_STATUS, want);
      var p := Diff(base, WithStatuses(base, want));
      p.Absent? && Merge(ONE_STATUS, p) == ONE_STATUS && !StatusesAre(ONE_STATUS, want)
    ensures var base := WithStatuses(ONE_STATUS, map[]);
      var p := Diff(base, WithStatuses(base, map[]));
      p.Absent? && Merge(ONE_STATUS, p) == ONE_STATUS && !StatusesAre(ONE_STATUS, map[])
  {
    ApplyTwice(ONE_STATUS, map["a" := ValueOf(Pending)]);
    ApplyTwice(ONE_STATUS, map[]);
    TrimFront("a");
    assert IsStatus(PREFIX + "a");
  }

  lemma SameMaps(a: Labels, b: Labels)
    requires forall k :: Lookup(a, k) == Lookup(b, k)
    ensures a == b
  {
    assert forall k :: k in a <==> Lookup(a, k).Some?;
    assert forall k :: k in b <==> Lookup(b, k).Some?;
    assert forall k :: k in a ==> a[k] == Lookup(a, k).value && b[k] == Lookup(b, k).value;
  }
}
