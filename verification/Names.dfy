/** The names the store gives and the names it trusts. */
module Names {

  const SENTINEL := ".image-cache-agent.json"
  const SPARE := ".image-cache-agent.json.tmp"
  const LOST_FOUND := "lost+found"
  const MARK := ".tmp-"
  const NAME_MAX := 63

  predicate OccursAt(s: string, t: string, i: int) {
    0 <= i <= |s| - |t| && s[i..i + |t|] == t
  }

  predicate Contains(s: string, t: string) {
    exists i :: 0 <= i <= |s| - |t| && OccursAt(s, t, i)
  }

  predicate IsTemporary(name: string) {
    "." <= name && Contains(name, MARK)
  }

  /** What MkdirTemp puts in front of the digits it draws. */
  function TempPrefix(name: string): string {
    "." + name + MARK
  }

  predicate Digits(s: string) {
    forall i :: 0 <= i < |s| ==> '0' <= s[i] <= '9'
  }

  predicate Alnum(c: char) {
    'a' <= c <= 'z' || '0' <= c <= '9'
  }

  /** A DNS-1123 subdomain no longer than a label's name: alphanumeric labels,
      dashes inside, one dot between. */
  predicate IsResourceName(n: string) {
    && 0 < |n| <= NAME_MAX && Alnum(n[0]) && Alnum(n[|n| - 1])
    && (forall i :: 0 <= i < |n| ==> Alnum(n[i]) || n[i] == '-' || n[i] == '.')
    && (forall i :: 0 < i < |n| - 1 && n[i] == '.' ==> Alnum(n[i - 1]) && Alnum(n[i + 1]))
  }

  // ----- base names -----

  predicate IsFlat(s: string) {
    forall i :: 0 <= i < |s| ==> s[i] != '/'
  }

  function TrimSlashes(p: string): string
    decreases |p|
  {
    if p != "" && p[|p| - 1] == '/' then TrimSlashes(p[..|p| - 1]) else p
  }

  function AfterLastSlash(p: string): string
    decreases |p|
  {
    if p == "" || p[|p| - 1] == '/' then "" else AfterLastSlash(p[..|p| - 1]) + [p[|p| - 1]]
  }

  /** filepath.Base, and path.Base, where the separator is a slash. */
  function Base(p: string): string {
    if p == "" then "."
    else
      var b := AfterLastSlash(TrimSlashes(p));
      if b == "" then "/" else b
  }

  /** A base name that names a file: neither this directory, nor its parent,
      nor the root. */
  predicate Nameable(b: string) {
    b != "." && b != ".." && b != "/"
  }

  /** The name rule of the content check. */
  predicate IsFileName(f: string) {
    f != "" && f != "." && f != ".." && IsFlat(f)
  }

  lemma {:induction false} AfterLastSlashIsFlat(p: string)
    ensures IsFlat(AfterLastSlash(p))
    decreases |p|
  {
    if p != "" && p[|p| - 1] != '/' {
      AfterLastSlashIsFlat(p[..|p| - 1]);
    }
  }

  /** Every name Extract records passes the rule the content check applies. */
  lemma RecordedNamesPass(path: string)
    ensures Nameable(Base(path)) ==> IsFileName(Base(path))
    ensures Base(path) != ""
  {
    AfterLastSlashIsFlat(TrimSlashes(path));
  }

  /** A path without a slash is its own base name. */
  lemma {:induction false} FlatIsItsBase(f: string)
    requires IsFlat(f)
    ensures AfterLastSlash(f) == f
    decreases |f|
  {
    if f != "" {
      FlatIsItsBase(f[..|f| - 1]);
    }
  }

  lemma {:induction false} AfterLastOf(dir: string, f: string)
    requires IsFlat(f)
    ensures AfterLastSlash(dir + "/" + f) == f
    decreases |f|
  {
    var p := dir + "/" + f;
    if f != "" {
      assert p[..|p| - 1] == dir + "/" + f[..|f| - 1];
      AfterLastOf(dir, f[..|f| - 1]);
    }
  }

  /** Whatever directory an entry is in, or in none, it lands under its own
      file name. */
  lemma BaseOf(dir: string, f: string)
    requires f != "" && IsFlat(f)
    ensures Base(f) == f && Base(dir + "/" + f) == f
  {
    FlatIsItsBase(f);
    AfterLastOf(dir, f);
    var p := dir + "/" + f;
    assert p[|p| - 1] == f[|f| - 1];
  }

  /** A path loses its trailing slashes, and what is empty or only slashes names
      no file. */
  lemma BaseTrims(p: string)
    ensures Base("") == "." && Base("/") == "/"
    ensures p != "" ==> Base(p + "/") == Base(p)
  {
    assert (p + "/")[..|p|] == p;
  }

  /** The names, spelled out. */
  lemma NamesExactly(n: string)
    ensures IsFileName(n) <==> n != "" && n != "." && n != ".." && '/' !in n
    ensures IsTemporary(n) <==> n != "" && n[0] == '.' && exists a: string, b: string :: n == a + ".tmp-" + b
    ensures TempPrefix(n) == "." + n + ".tmp-"
    ensures SENTINEL == ".image-cache-agent.json" && SPARE == SENTINEL + ".tmp"
  {
    if i :| 0 <= i <= |n| - |MARK| && OccursAt(n, MARK, i) {
      assert n == n[..i] + ".tmp-" + n[i + |MARK|..];
    }
    if a: string, b: string :| n == a + ".tmp-" + b {
      assert OccursAt(n, MARK, |a|);
    }
  }

  // ----- temporaries, resources and what a sweep reaches -----

  lemma TemporaryNames(name: string, digits: string)
    ensures IsTemporary(TempPrefix(name) + digits)
  {
    var t, k := TempPrefix(name) + digits, 1 + |name|;
    assert OccursAt(t, MARK, k);
    assert t[..1] == ".";
  }

  /** The two kinds of entries never share a name, and no glob that skips
      hidden names reaches a temporary. */
  lemma ResourceNames(n: string)
    requires IsResourceName(n)
    ensures !IsTemporary(n) && n[0] != '.' && n != LOST_FOUND && n != SENTINEL && IsFileName(n)
  {
    assert LOST_FOUND[4] == '+';
  }

  /** After the dot of its mark, a temporary's name has no dot. */
  lemma LastDot(n: string, d: string, k: int)
    requires Digits(d) && 1 + |n| <= k < |TempPrefix(n) + d|
    ensures (TempPrefix(n) + d)[k] == '.' <==> k == 1 + |n|
  {
  }

  /** Two temporaries made for different resources have different names. */
  lemma TemporariesApart(n: string, d: string, m: string, e: string)
    requires Digits(d) && Digits(e) && TempPrefix(n) + d == TempPrefix(m) + e
    ensures n == m && d == e
  {
    if |n| <= |m| { SameTemporary(n, d, m, e); } else { SameTemporary(m, e, n, d); }
  }

  lemma SameTemporary(n: string, d: string, m: string, e: string)
    requires Digits(d) && Digits(e) && TempPrefix(n) + d == TempPrefix(m) + e && |n| <= |m|
    ensures n == m && d == e
  {
    var t := TempPrefix(n) + d;
    LastDot(n, d, 1 + |m|);
    LastDot(m, e, 1 + |m|);
    assert t[1..1 + |n|] == n && t[1..1 + |m|] == m;
    assert t[|TempPrefix(n)|..] == d && t[|TempPrefix(m)|..] == e;
  }

  /** A sweep for n reaches a temporary of m exactly when m is n, or when m's
      own name goes on with the mark after n. */
  lemma SweepReaches(n: string, m: string, d: string)
    requires Digits(d)
    ensures TempPrefix(n) <= TempPrefix(m) + d <==> m == n || n + MARK <= m
  {
    var p, t := TempPrefix(n), TempPrefix(m) + d;
    if n + MARK <= m {
      assert t[1..1 + |m|] == m;
      assert t[..|p|] == p;
    } else if p <= t {
      SweepReachesOnly(n, m, d);
    }
  }

  lemma SweepReachesOnly(n: string, m: string, d: string)
    requires Digits(d) && TempPrefix(n) <= TempPrefix(m) + d
    ensures m == n || n + MARK <= m
  {
    var p, t := TempPrefix(n), TempPrefix(m) + d;
    assert forall i :: 0 <= i < |p| ==> t[i] == p[i];
    assert t[1 + |n|] == '.';
    if |n| >= |m| {
      LastDot(m, d, 1 + |n|);
      assert n == p[1..1 + |n|];
      assert m == t[1..1 + |m|];
    } else if |n| + |MARK| > |m| {
      // m's dot would be in n's mark.
      LastDot(m, d, 1 + |m|);
      LastDot(n, "", 1 + |m|);
      assert false;
    } else {
      forall i | 0 <= i < |n + MARK|
        ensures m[i] == (n + MARK)[i]
      {
        assert t[1 + i] == p[1 + i];
      }
      assert m[..|n + MARK|] == n + MARK;
    }
  }

  /** So a sweep for one resource can reach another's temporary: a resource name
      may well contain the mark. */
  lemma SweepReachesAnother(d: string)
    requires Digits(d)
    ensures IsResourceName("a") && IsResourceName("a" + MARK + "b") && TempPrefix("a") <= TempPrefix("a" + MARK + "b") + d
  {
  }
}
