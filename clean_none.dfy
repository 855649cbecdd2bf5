/** `JellyfinClientManager.clean_none_dict_values`: drop every dict entry whose
    value is None, in every dict reachable from the argument, by a depth-first
    worklist that edits the dicts in place.

    A decoded JSON payload is a tree (no dict or list is shared), so editing a
    dict in place is the same as replacing the subtree at its path. The
    worklist therefore holds paths from the root, and the method rewrites the
    value at the popped path. */
module CleanNone {
  import opened PyValues

  /** One step down a value: a dict key or a list index. */
  datatype Step = Key(k: string) | Pos(i: nat)
  type Path = seq<Step>

  /** The intended result: None entries removed from every reachable dict;
      lists keep their None elements; scalars and strings are left alone. */
  function Clean(v: Json): (r: Json)
    ensures !v.IsContainer() ==> r == v
    ensures r.Object? <==> v.Object?
    ensures v.Array? ==> r.Array? && |r.items| == |v.items|
  {
    match v
    case Array(items) => Array(seq(|items|, i requires 0 <= i < |items| => Clean(items[i])))
    case Object(m) => Object(map k | k in m && m[k] != Null :: Clean(m[k]))
    case _ => v
  }

  /** No dict reachable from v has a None value. */
  predicate NoneFree(v: Json) {
    match v
    case Array(items) => forall i :: 0 <= i < |items| ==> NoneFree(items[i])
    case Object(m) => forall k :: k in m ==> m[k] != Null && NoneFree(m[k])
    case _ => true
  }

  /** A dict that still holds a None value. */
  predicate Dirty(v: Json) {
    v.Object? && Null in v.fields.Values
  }

  predicate IsPrefix(a: Path, b: Path) {
    |a| <= |b| && b[..|a|] == a
  }

  predicate HasPath(v: Json, p: Path)
    decreases p
  {
    if p == [] then true
    else match p[0]
      case Key(k) => v.Object? && k in v.fields && HasPath(v.fields[k], p[1..])
      case Pos(i) => v.Array? && i < |v.items| && HasPath(v.items[i], p[1..])
  }

  /** The value found by following p. */
  function At(v: Json, p: Path): Json
    requires HasPath(v, p)
    decreases p
  {
    if p == [] then v
    else match p[0]
      case Key(k) => At(v.fields[k], p[1..])
      case Pos(i) => At(v.items[i], p[1..])
  }

  /** v with the value at p replaced by x. */
  function Replace(v: Json, p: Path, x: Json): Json
    requires HasPath(v, p)
    decreases p
  {
    if p == [] then x
    else match p[0]
      case Key(k) => Object(v.fields[k := Replace(v.fields[k], p[1..], x)])
      case Pos(i) => Array(v.items[i := Replace(v.items[i], p[1..], x)])
  }

  /** Every path of v (finite). */
  ghost function PathsOf(v: Json): set<Path>
  {
    match v
    case Array(items) =>
      {[]} + (set i, q | 0 <= i < |items| && q in PathsOf(items[i]) :: [Pos(i)] + q)
    case Object(m) =>
      {[]} + (set k, q | k in m && q in PathsOf(m[k]) :: [Key(k)] + q)
    case _ => {[]}
  }

  // ----- path lemmas -----

  lemma {:induction false} PathsOfComplete(v: Json, q: Path)
    requires HasPath(v, q)
    ensures q in PathsOf(v)
    decreases q
  {
    if q != [] {
      var t := q[1..];
      assert q == [q[0]] + t;
      match q[0]
      case Key(k) => PathsOfComplete(v.fields[k], t);
      case Pos(i) => PathsOfComplete(v.items[i], t);
    }
  }

  lemma {:induction false} AppendPath(v: Json, p: Path, q: Path)
    requires HasPath(v, p)
    ensures HasPath(v, p + q) <==> HasPath(At(v, p), q)
    ensures HasPath(v, p + q) ==> At(v, p + q) == At(At(v, p), q)
    decreases p
  {
    if p != [] {
      assert (p + q)[0] == p[0];
      assert (p + q)[1..] == p[1..] + q;
      match p[0]
      case Key(k) => AppendPath(v.fields[k], p[1..], q);
      case Pos(i) => AppendPath(v.items[i], p[1..], q);
    } else {
      assert p + q == q;
    }
  }

  lemma {:induction false} PrefixPath(v: Json, q: Path, n: nat)
    requires HasPath(v, q) && n <= |q|
    ensures HasPath(v, q[..n])
    decreases q
  {
    if n > 0 {
      assert q[..n][0] == q[0] && q[..n][1..] == q[1..][..n - 1];
      match q[0]
      case Key(k) => PrefixPath(v.fields[k], q[1..], n - 1);
      case Pos(i) => PrefixPath(v.items[i], q[1..], n - 1);
    }
  }

  /** A path that continues past c passes through a container at c. */
  lemma ThroughContainer(v: Json, q: Path, n: nat)
    requires HasPath(v, q) && n < |q|
    ensures HasPath(v, q[..n]) && At(v, q[..n]).IsContainer()
  {
    PrefixPath(v, q, n);
    assert q == q[..n] + q[n..];
    AppendPath(v, q[..n], q[n..]);
  }

  /** How the paths of Replace(v, p, x) relate to those of v and x. */
  lemma {:induction false} ReplaceSpec(v: Json, p: Path, x: Json, q: Path)
    requires HasPath(v, p)
    ensures IsPrefix(p, q) ==>
      (HasPath(Replace(v, p, x), q) <==> HasPath(x, q[|p|..])) &&
      (HasPath(Replace(v, p, x), q) ==> At(Replace(v, p, x), q) == At(x, q[|p|..]))
    ensures !IsPrefix(p, q) && !IsPrefix(q, p) ==>
      (HasPath(Replace(v, p, x), q) <==> HasPath(v, q)) &&
      (HasPath(v, q) ==> At(Replace(v, p, x), q) == At(v, q))
    ensures IsPrefix(q, p) && q != p ==>
      HasPath(Replace(v, p, x), q) && HasPath(v, q) && HasPath(At(v, q), p[|q|..]) &&
      At(Replace(v, p, x), q) == Replace(At(v, q), p[|q|..], x)
    decreases p
  {
    if p == [] {
      assert q[|p|..] == q;
    } else if q == [] {
      assert p[|q|..] == p;
    } else {
      assert IsPrefix(p, q) <==> p[0] == q[0] && IsPrefix(p[1..], q[1..]);
      assert IsPrefix(q, p) <==> p[0] == q[0] && IsPrefix(q[1..], p[1..]);
      if |p| <= |q| {
        assert q[|p|..] == q[1..][|p[1..]|..];
      }
      if |q| <= |p| {
        assert p[|q|..] == p[1..][|q[1..]|..];
      }
      if p[0] == q[0] {
        match p[0]
        case Key(k) => ReplaceSpec(v.fields[k], p[1..], x, q[1..]);
        case Pos(i) => ReplaceSpec(v.items[i], p[1..], x, q[1..]);
      }
    }
  }

  /** Replacing a value deeper than the top keeps the top's kind and, when the
      new value is not None, whether the top is a dict holding None. */
  lemma ReplaceKeepsTop(w: Json, p: Path, x: Json)
    requires HasPath(w, p) && p != [] && x != Null
    requires HasPath(w, p[..1]) && At(w, p[..1]) != Null
    ensures Replace(w, p, x).Object? == w.Object? && Replace(w, p, x).Array? == w.Array?
    ensures Dirty(Replace(w, p, x)) <==> Dirty(w)
  {
    var t := p[1..];
    assert p[..1] == [p[0]];
    if t != [] {
      match p[0]
      case Key(k) => ReplaceSpec(w.fields[k], t, x, []);
      case Pos(i) => ReplaceSpec(w.items[i], t, x, []);
    }
    match p[0]
    case Key(k) =>
      var c := Replace(w.fields[k], t, x);
      assert c != Null by {
        if t != [] {
          assert HasPath(w.fields[k], t);
          ThroughContainer(w.fields[k], t, 0);
          assert t[..0] == [];
          ReplaceKeepsTopKind(w.fields[k], t, x);
        }
      }
      assert w.fields[k] != Null;
      var m := w.fields;
      var m' := m[k := c];
      assert Null in m'.Values <==> Null in m.Values by {
        if Null in m'.Values {
          var j :| j in m' && m'[j] == Null;
          assert j != k && m[j] == Null;
        }
        if Null in m.Values {
          var j :| j in m && m[j] == Null;
          assert j != k && m'[j] == Null;
        }
      }
    case Pos(i) =>
  }

  lemma ReplaceKeepsTopKind(w: Json, t: Path, x: Json)
    requires HasPath(w, t) && t != [] && w.IsContainer()
    ensures Replace(w, t, x).IsContainer()
  {
  }

  // ----- the worklist invariant -----

  /** Every dict that still holds None lies below some queued path. */
  ghost predicate Pending(r: Json, queue: seq<Path>) {
    forall q :: HasPath(r, q) && Dirty(At(r, q)) ==>
      exists j :: 0 <= j < |queue| && IsPrefix(queue[j], q)
  }

  /** Every queued path leads to a dict or a list. */
  predicate Queued(r: Json, queue: seq<Path>) {
    forall j :: 0 <= j < |queue| ==> HasPath(r, queue[j]) && At(r, queue[j]).IsContainer()
  }

  /** c is p extended by one step. */
  predicate ChildOf(p: Path, c: Path) {
    |c| == |p| + 1 && c[..|p|] == p
  }

  /** c leads from the dict m at p to one of its dict or list values. */
  predicate DictChild(p: Path, m: map<string, Json>, c: Path) {
    ChildOf(p, c) && c[|p|].Key? && c[|p|].k in m && m[c[|p|].k].IsContainer()
  }

  /** c leads from the list s at p to one of its dict or list elements. */
  predicate ListChild(p: Path, s: seq<Json>, c: Path) {
    ChildOf(p, c) && c[|p|].Pos? && c[|p|].i < |s| && s[c[|p|].i].IsContainer()
  }

  lemma ChildShape(p: Path, c: Path)
    requires ChildOf(p, c)
    ensures c == p + [c[|p|]]
  {
    assert c == c[..|p|] + [c[|p|]];
  }

  /** The keys of m whose value is None. */
  function NoneKeys(m: map<string, Json>): set<string> {
    set k | k in m && m[k] == Null
  }

  /** Dropping None entries at p changes neither Clean nor the set of None-free parts. */
  lemma {:induction false} DropAtPreservesClean(v: Json, p: Path, x: Json)
    requires HasPath(v, p) && At(v, p).Object?
    requires x == Object(At(v, p).fields - NoneKeys(At(v, p).fields))
    ensures Clean(Replace(v, p, x)) == Clean(v)
    decreases p
  {
    if p == [] {
      DropNoneKeys(v.fields);
    } else {
      var t := p[1..];
      ReplaceSpec(v, p, x, []);
      match p[0]
      case Key(k) =>
        var m := v.fields;
        var c := Replace(m[k], t, x);
        DropAtPreservesClean(m[k], t, x);
        assert c != Null && m[k] != Null by {
          if t == [] {
          } else {
            ThroughContainer(m[k], t, 0);
            assert t[..0] == [];
            ReplaceKeepsTopKind(m[k], t, x);
          }
        }
        CleanFieldUpdate(m, k, c);
      case Pos(i) =>
        var s := v.items;
        DropAtPreservesClean(s[i], t, x);
        CleanItemUpdate(s, i, Replace(s[i], t, x));
    }
  }

  /** Clean already drops the None entries of a dict, so dropping them first changes nothing. */
  lemma DropNoneKeys(m: map<string, Json>)
    ensures Clean(Object(m - NoneKeys(m))) == Clean(Object(m))
  {
    assert Clean(Object(m - NoneKeys(m))).fields == Clean(Object(m)).fields;
  }

  /** Replacing a non-None entry by one with the same cleaned form keeps the cleaned dict. */
  lemma CleanFieldUpdate(m: map<string, Json>, k: string, c: Json)
    requires k in m && m[k] != Null && c != Null && Clean(c) == Clean(m[k])
    ensures Clean(Object(m[k := c])) == Clean(Object(m))
  {
    assert Clean(Object(m[k := c])).fields == Clean(Object(m)).fields;
  }

  /** Replacing an element by one with the same cleaned form keeps the cleaned list. */
  lemma CleanItemUpdate(s: seq<Json>, i: nat, c: Json)
    requires i < |s| && Clean(c) == Clean(s[i])
    ensures Clean(Array(s[i := c])) == Clean(Array(s))
  {
    assert Clean(Array(s[i := c])).items == Clean(Array(s)).items;
  }

  /** The facts about one processed dict that the step lemmas share: x is the
      dict at p without its None entries, no other queued path lies at or
      below p, and every dict or list value of the dict has been queued. */
  ghost predicate DictStep(r: Json, p: Path, x: Json, rest: seq<Path>, pushed: seq<Path>) {
    && HasPath(r, p) && At(r, p).Object?
    && x == Object(At(r, p).fields - NoneKeys(At(r, p).fields))
    && (forall j :: 0 <= j < |rest| ==> !IsPrefix(p, rest[j]))
    && (forall k :: k in At(r, p).fields && At(r, p).fields[k].IsContainer() ==>
          p + [Key(k)] in pushed)
    && (forall j :: 0 <= j < |pushed| ==> DictChild(p, At(r, p).fields, pushed[j]))
  }

  /** A dict still holding None below the processed dict lies under one of its queued children. */
  lemma DictStepBelow(r: Json, p: Path, x: Json, rest: seq<Path>, pushed: seq<Path>, q: Path)
    requires DictStep(r, p, x, rest, pushed)
    requires IsPrefix(p, q) && HasPath(Replace(r, p, x), q)
    ensures HasPath(r, q)
    ensures Dirty(At(Replace(r, p, x), q)) ==>
      exists j :: 0 <= j < |rest + pushed| && IsPrefix((rest + pushed)[j], q)
  {
    var m := At(r, p).fields;
    var r' := Replace(r, p, x);
    ReplaceSpec(r, p, x, q);
    var t := q[|p|..];
    assert q == p + t;
    AppendPath(r, p, t);
    if t == [] {
      assert !Dirty(At(r', q));
    } else {
      var k := t[0].k;
      assert k in m && HasPath(m[k], t[1..]);
      if Dirty(At(r', q)) {
        assert At(r', q) == At(m[k], t[1..]);
        assert m[k].IsContainer() by {
          if t[1..] != [] {
            ThroughContainer(m[k], t[1..], 0);
            assert t[1..][..0] == [];
          }
        }
        var j :| 0 <= j < |pushed| && pushed[j] == p + [Key(k)];
        assert (rest + pushed)[|rest| + j] == pushed[j];
        assert IsPrefix((rest + pushed)[|rest| + j], q);
      }
    }
  }

  /** Above the processed dict nothing new holds None. */
  lemma DictStepAbove(r: Json, p: Path, x: Json, rest: seq<Path>, pushed: seq<Path>, q: Path)
    requires DictStep(r, p, x, rest, pushed) && Pending(r, rest + [p])
    requires IsPrefix(q, p) && q != p
    ensures HasPath(r, q) && HasPath(Replace(r, p, x), q)
    ensures Dirty(At(Replace(r, p, x), q)) ==>
      exists j :: 0 <= j < |rest + pushed| && IsPrefix((rest + pushed)[j], q)
  {
    var r' := Replace(r, p, x);
    ReplaceSpec(r, p, x, q);
    var s := p[|q|..];
    assert p == q + s;
    AppendPath(r, q, s);
    if Dirty(At(r', q)) {
      assert s[..1] == [s[0]];
      PrefixPath(r, p, |q| + 1);
      assert p[..|q| + 1] == q + s[..1];
      AppendPath(r, q, s[..1]);
      if s[1..] == [] {
        assert s == s[..1];
      } else {
        ThroughContainer(r, p, |q| + 1);
      }
      ReplaceKeepsTop(At(r, q), s, x);
      assert (rest + [p])[|rest|] == p;
      var j :| 0 <= j < |rest + [p]| && IsPrefix((rest + [p])[j], q);
      assert j < |rest|;
      assert (rest + pushed)[j] == rest[j];
    }
  }

  /** Beside the processed dict nothing changed. */
  lemma DictStepAside(r: Json, p: Path, x: Json, rest: seq<Path>, pushed: seq<Path>, q: Path)
    requires DictStep(r, p, x, rest, pushed) && Pending(r, rest + [p])
    requires !IsPrefix(q, p) && !IsPrefix(p, q) && HasPath(Replace(r, p, x), q)
    ensures HasPath(r, q)
    ensures Dirty(At(Replace(r, p, x), q)) ==>
      exists j :: 0 <= j < |rest + pushed| && IsPrefix((rest + pushed)[j], q)
  {
    ReplaceSpec(r, p, x, q);
    if Dirty(At(Replace(r, p, x), q)) {
      var j :| 0 <= j < |rest + [p]| && IsPrefix((rest + [p])[j], q);
      assert j < |rest|;
      assert (rest + pushed)[j] == rest[j];
    }
  }

  lemma DictStepPending(r: Json, p: Path, x: Json, rest: seq<Path>, pushed: seq<Path>)
    requires DictStep(r, p, x, rest, pushed) && Pending(r, rest + [p])
    ensures Pending(Replace(r, p, x), rest + pushed)
    ensures forall q :: HasPath(Replace(r, p, x), q) ==> HasPath(r, q)
  {
    forall q | HasPath(Replace(r, p, x), q)
      ensures HasPath(r, q)
      ensures Dirty(At(Replace(r, p, x), q)) ==>
        exists j :: 0 <= j < |rest + pushed| && IsPrefix((rest + pushed)[j], q)
    {
      if IsPrefix(p, q) {
        DictStepBelow(r, p, x, rest, pushed, q);
      } else if IsPrefix(q, p) {
        DictStepAbove(r, p, x, rest, pushed, q);
      } else {
        DictStepAside(r, p, x, rest, pushed, q);
      }
    }
  }

  lemma DictStepQueued(r: Json, p: Path, x: Json, rest: seq<Path>, pushed: seq<Path>)
    requires DictStep(r, p, x, rest, pushed) && Queued(r, rest)
    ensures Queued(Replace(r, p, x), rest + pushed)
  {
    var m := At(r, p).fields;
    var queue := rest + pushed;
    forall j | 0 <= j < |queue|
      ensures HasPath(Replace(r, p, x), queue[j]) && At(Replace(r, p, x), queue[j]).IsContainer()
    {
      if j < |rest| {
        var q := rest[j];
        assert queue[j] == q;
        ReplaceSpec(r, p, x, q);
        if IsPrefix(q, p) {
          var s := p[|q|..];
          assert p == q + s;
          AppendPath(r, q, s);
          ReplaceKeepsTopKind(At(r, q), s, x);
        }
      } else {
        var k := pushed[j - |rest|][|p|].k;
        ChildShape(p, pushed[j - |rest|]);
        assert queue[j] == p + [Key(k)];
        ReplaceSpec(r, p, x, p + [Key(k)]);
        assert (p + [Key(k)])[|p|..] == [Key(k)];
      }
    }
  }

  /** Processing a list queues its dict and list elements and changes nothing. */
  lemma ArrayStep(r: Json, p: Path, rest: seq<Path>, pushed: seq<Path>)
    requires HasPath(r, p) && At(r, p).Array?
    requires Pending(r, rest + [p]) && Queued(r, rest)
    requires forall i :: 0 <= i < |At(r, p).items| && At(r, p).items[i].IsContainer() ==>
      p + [Pos(i)] in pushed
    requires forall j :: 0 <= j < |pushed| ==> ListChild(p, At(r, p).items, pushed[j])
    ensures Pending(r, rest + pushed) && Queued(r, rest + pushed)
  {
    var s := At(r, p).items;
    var queue := rest + pushed;
    forall q | HasPath(r, q) && Dirty(At(r, q))
      ensures exists j :: 0 <= j < |queue| && IsPrefix(queue[j], q)
    {
      var j :| 0 <= j < |rest + [p]| && IsPrefix((rest + [p])[j], q);
      if j < |rest| {
        assert queue[j] == rest[j];
      } else {
        assert (rest + [p])[j] == p;
        var t := q[|p|..];
        assert q == p + t;
        AppendPath(r, p, t);
        assert t != [];
        var i := t[0].i;
        assert At(r, q) == At(s[i], t[1..]);
        assert s[i].IsContainer() by {
          if t[1..] != [] {
            ThroughContainer(s[i], t[1..], 0);
            assert t[1..][..0] == [];
          }
        }
        assert p + [Pos(i)] in pushed;
        var j' :| 0 <= j' < |pushed| && pushed[j'] == p + [Pos(i)];
        assert queue[|rest| + j'] == pushed[j'];
        assert IsPrefix(queue[|rest| + j'], q);
      }
    }
    forall j | 0 <= j < |queue|
      ensures HasPath(r, queue[j]) && At(r, queue[j]).IsContainer()
    {
      if j >= |rest| {
        var i := pushed[j - |rest|][|p|].i;
        ChildShape(p, pushed[j - |rest|]);
        assert queue[j] == p + [Pos(i)];
        AppendPath(r, p, [Pos(i)]);
      } else {
        assert queue[j] == rest[j];
      }
    }
  }

  /** With nothing pending, no dict anywhere holds None. */
  lemma {:induction false} NothingPending(v: Json)
    requires Pending(v, [])
    ensures NoneFree(v)
    decreases v
  {
    assert HasPath(v, []) && At(v, []) == v;
    match v
    case Array(s) =>
      forall i | 0 <= i < |s| ensures NoneFree(s[i]) {
        forall q | HasPath(s[i], q) && Dirty(At(s[i], q)) ensures false {
          AppendPath(v, [Pos(i)], q);
        }
        NothingPending(s[i]);
      }
    case Object(m) =>
      forall k | k in m ensures m[k] != Null && NoneFree(m[k]) {
        forall q | HasPath(m[k], q) && Dirty(At(m[k], q)) ensures false {
          AppendPath(v, [Key(k)], q);
        }
        NothingPending(m[k]);
      }
    case _ =>
  }

  // ----- what the source promises about the result -----

  /** After cleaning, no reachable dict holds None. */
  lemma {:induction false} CleanIsNoneFree(v: Json)
    ensures NoneFree(Clean(v))
    decreases v
  {
    match v
    case Array(s) =>
      forall i | 0 <= i < |s| ensures NoneFree(Clean(v).items[i]) {
        CleanIsNoneFree(s[i]);
      }
    case Object(m) =>
      forall k | k in Clean(v).fields ensures NoneFree(Clean(v).fields[k]) {
        CleanIsNoneFree(m[k]);
      }
    case _ =>
  }

  /** Cleaning changes a value exactly when some reachable dict holds None. */
  lemma {:induction false} CleanFixesExactlyNoneFree(v: Json)
    ensures Clean(v) == v <==> NoneFree(v)
    decreases v
  {
    match v
    case Array(s) =>
      forall i | 0 <= i < |s| ensures Clean(s[i]) == s[i] <==> NoneFree(s[i]) {
        CleanFixesExactlyNoneFree(s[i]);
      }
      if NoneFree(v) {
        assert Clean(v).items == s;
      }
      if Clean(v) == v {
        forall i | 0 <= i < |s| ensures NoneFree(s[i]) {
          assert Clean(v).items[i] == Clean(s[i]);
        }
      }
    case Object(m) =>
      forall k | k in m ensures Clean(m[k]) == m[k] <==> NoneFree(m[k]) {
        CleanFixesExactlyNoneFree(m[k]);
      }
      if NoneFree(v) {
        assert Clean(v).fields == m;
      }
      if Clean(v) == v {
        forall k | k in m ensures m[k] != Null && NoneFree(m[k]) {
          assert k in Clean(v).fields;
          assert Clean(v).fields[k] == Clean(m[k]);
        }
      }
    case _ =>
  }

  /** Cleaning twice is cleaning once. */
  lemma CleanIdempotent(v: Json)
    ensures Clean(Clean(v)) == Clean(v)
  {
    CleanIsNoneFree(v);
    CleanFixesExactlyNoneFree(Clean(v));
  }

  /** Every entry that is not a None dict value stays at the same place, cleaned;
      so every non-None scalar is kept unchanged where it was. Nothing new appears. */
  lemma {:induction false} CleanKeepsEntries(v: Json, q: Path)
    ensures HasPath(Clean(v), q) ==> HasPath(v, q)
    ensures HasPath(v, q) && (q == [] || q[|q| - 1].Pos? || At(v, q) != Null) ==>
      HasPath(Clean(v), q) && At(Clean(v), q) == Clean(At(v, q))
    decreases q
  {
    if q != [] {
      var t := q[1..];
      if t != [] {
        assert t[|t| - 1] == q[|q| - 1];
      }
      match q[0]
      case Key(k) =>
        if v.Object? && k in v.fields {
          CleanKeepsEntries(v.fields[k], t);
          if HasPath(v, q) && (q[|q| - 1].Pos? || At(v, q) != Null) && t != [] {
            ThroughContainer(v.fields[k], t, 0);
            assert t[..0] == [];
          }
        }
      case Pos(i) =>
        if v.Array? && i < |v.items| {
          CleanKeepsEntries(v.items[i], t);
        }
    }
  }

  // ----- the worklist traversal of the source -----

  /** The bookkeeping of the traversal: no queued path is queued twice or was
      visited, and all proper prefixes of queued and visited paths were visited. */
  ghost predicate Frontier(queue: seq<Path>, visited: set<Path>) {
    && (forall j :: 0 <= j < |queue| ==> queue[j] !in visited)
    && (forall i, j :: 0 <= i < j < |queue| ==> queue[i] != queue[j])
    && (forall j, n :: 0 <= j < |queue| && 0 <= n < |queue[j]| ==> queue[j][..n] in visited)
    && (forall q, n :: q in visited && 0 <= n <= |q| ==> q[..n] in visited)
  }

  /** Popping p and queueing children of p keeps the bookkeeping; in
      particular no other queued path lies at or below p. */
  lemma FrontierStep(rest: seq<Path>, p: Path, pushed: seq<Path>, visited: set<Path>)
    requires Frontier(rest + [p], visited)
    requires forall j :: 0 <= j < |pushed| ==> ChildOf(p, pushed[j])
    requires forall i, j :: 0 <= i < j < |pushed| ==> pushed[i] != pushed[j]
    ensures p !in visited
    ensures forall j :: 0 <= j < |rest| ==> !IsPrefix(p, rest[j])
    ensures Frontier(rest + pushed, visited + {p})
  {
    var queue := rest + [p];
    assert queue[|rest|] == p;
    forall j | 0 <= j < |rest| ensures !IsPrefix(p, rest[j]) {
      assert rest[j] == queue[j];
    }
    forall j | 0 <= j < |pushed| ensures pushed[j] !in visited && pushed[j] !in rest {
    }
    var queue' := rest + pushed;
    var visited' := visited + {p};
    forall j, n | 0 <= j < |queue'| && 0 <= n < |queue'[j]| ensures queue'[j][..n] in visited' {
      if j >= |rest| {
        var c := pushed[j - |rest|];
        assert queue'[j] == c;
        assert c[..n] == p[..n];
        if n < |p| {
          assert queue[|rest|][..n] in visited;
        }
      } else {
        assert queue'[j] == queue[j];
      }
    }
    forall i, j | 0 <= i < j < |queue'| ensures queue'[i] != queue'[j] {
      if i < |rest| && j < |rest| {
        assert queue'[i] == queue[i] && queue'[j] == queue[j];
      } else if i < |rest| {
        assert queue'[j] == pushed[j - |rest|];
      }
    }
    forall q, n | q in visited' && 0 <= n <= |q| ensures q[..n] in visited' {
      if q == p {
        if n < |p| {
          assert queue[|rest|][..n] in visited;
        } else {
          assert q[..n] == q;
        }
      }
    }
    forall j | 0 <= j < |queue'| ensures queue'[j] !in visited' {
      if j < |rest| {
        assert queue'[j] == queue[j];
        assert queue[j] != queue[|rest|];
      } else {
        assert queue'[j] == pushed[j - |rest|];
      }
    }
  }

  /** The pass over one dict's items (the source's `for key, value in
      item.items()`): collects the keys whose value is None and queues the
      dict and list values; strings and scalars are skipped. */
  method ScanDict(p: Path, m: map<string, Json>) returns (remove: set<string>, pushed: seq<Path>)
    ensures remove == NoneKeys(m)
    ensures forall k :: k in m && m[k].IsContainer() ==> p + [Key(k)] in pushed
    ensures forall j :: 0 <= j < |pushed| ==> DictChild(p, m, pushed[j])
    ensures forall i, j :: 0 <= i < j < |pushed| ==> pushed[i] != pushed[j]
  {
    remove, pushed := {}, [];
    var keys := m.Keys;
    while keys != {}
      invariant keys <= m.Keys
      invariant remove == NoneKeys(m) - keys
      invariant forall k :: k in m.Keys - keys && m[k].IsContainer() ==> p + [Key(k)] in pushed
      invariant forall j :: 0 <= j < |pushed| ==> DictChild(p, m, pushed[j]) && pushed[j][|p|].k !in keys
      invariant forall i, j :: 0 <= i < j < |pushed| ==> pushed[i] != pushed[j]
      decreases keys
    {
      var k :| k in keys;
      var value := m[k];
      if value == Null {
        remove := remove + {k};
      } else if value.Str? {
      } else if value.IsContainer() {
        forall j | 0 <= j < |pushed| ensures pushed[j] != p + [Key(k)] {
          assert (p + [Key(k)])[|p|] == Key(k);
        }
        assert (p + [Key(k)])[..|p|] == p;
        pushed := pushed + [p + [Key(k)]];
      }
      keys := keys - {k};
    }
  }

  /** The pass over one list (the source's `for value in item`): queues the
      dict and list elements; None, strings and scalars are skipped. */
  method ScanList(p: Path, items: seq<Json>) returns (pushed: seq<Path>)
    ensures forall i :: 0 <= i < |items| && items[i].IsContainer() ==> p + [Pos(i)] in pushed
    ensures forall j :: 0 <= j < |pushed| ==> ListChild(p, items, pushed[j])
    ensures forall i, j :: 0 <= i < j < |pushed| ==> pushed[i] != pushed[j]
  {
    pushed := [];
    var i := 0;
    while i < |items|
      invariant 0 <= i <= |items|
      invariant forall i' :: 0 <= i' < i && items[i'].IsContainer() ==> p + [Pos(i')] in pushed
      invariant forall j :: 0 <= j < |pushed| ==> ListChild(p, items, pushed[j]) && pushed[j][|p|].i < i
      invariant forall a, b :: 0 <= a < b < |pushed| ==> pushed[a] != pushed[b]
    {
      var value := items[i];
      if value == Null || value.Str? {
      } else if value.IsContainer() {
        forall j | 0 <= j < |pushed| ensures pushed[j] != p + [Pos(i)] {
          assert (p + [Pos(i)])[|p|] == Pos(i);
        }
        assert (p + [Pos(i)])[..|p|] == p;
        pushed := pushed + [p + [Pos(i)]];
      }
      i := i + 1;
    }
  }

  /** The loop invariant of the traversal: the cleaned value never changes,
      paths only disappear, and every dict still holding None is queued. */
  ghost predicate Inv(obj: Json, r: Json, queue: seq<Path>, visited: set<Path>) {
    && Clean(r) == Clean(obj)
    && (forall q :: HasPath(r, q) ==> HasPath(obj, q))
    && Queued(r, queue)
    && Pending(r, queue)
    && Frontier(queue, visited)
  }

  /** Each step visits a new path of obj, so the traversal ends. */
  lemma VisitsNewPath(obj: Json, r: Json, p: Path, visited: set<Path>)
    requires HasPath(r, p) && p !in visited
    requires forall q :: HasPath(r, q) ==> HasPath(obj, q)
    ensures |PathsOf(obj) - (visited + {p})| < |PathsOf(obj) - visited|
  {
    PathsOfComplete(obj, p);
    RemoveOne(PathsOf(obj), visited, p);
  }

  lemma RemoveOne<T>(s: set<T>, v: set<T>, x: T)
    requires x in s && x !in v
    ensures |s - (v + {x})| < |s - v|
  {
    assert s - (v + {x}) == (s - v) - {x};
  }

  lemma QueuedRest(r: Json, rest: seq<Path>, p: Path)
    requires Queued(r, rest + [p])
    ensures Queued(r, rest)
  {
    forall j | 0 <= j < |rest| ensures HasPath(r, rest[j]) && At(r, rest[j]).IsContainer() {
      assert rest[j] == (rest + [p])[j];
    }
  }

  lemma DictBody(obj: Json, r: Json, rest: seq<Path>, p: Path, visited: set<Path>, pushed: seq<Path>)
    requires Inv(obj, r, rest + [p], visited)
    requires HasPath(r, p) && At(r, p).Object?
    requires forall k :: k in At(r, p).fields && At(r, p).fields[k].IsContainer() ==> p + [Key(k)] in pushed
    requires forall j :: 0 <= j < |pushed| ==> DictChild(p, At(r, p).fields, pushed[j])
    requires forall i, j :: 0 <= i < j < |pushed| ==> pushed[i] != pushed[j]
    ensures var m := At(r, p).fields;
      Inv(obj, Replace(r, p, Object(m - NoneKeys(m))), rest + pushed, visited + {p})
    ensures |PathsOf(obj) - (visited + {p})| < |PathsOf(obj) - visited|
  {
    var m := At(r, p).fields;
    var x := Object(m - NoneKeys(m));
    var r' := Replace(r, p, x);
    FrontierStep(rest, p, pushed, visited);
    QueuedRest(r, rest, p);
    assert DictStep(r, p, x, rest, pushed);
    DictStepPending(r, p, x, rest, pushed);
    DictStepQueued(r, p, x, rest, pushed);
    DropAtPreservesClean(r, p, x);
    assert forall q :: HasPath(r', q) ==> HasPath(obj, q);
    VisitsNewPath(obj, r, p, visited);
  }

  lemma ListBody(obj: Json, r: Json, rest: seq<Path>, p: Path, visited: set<Path>, pushed: seq<Path>)
    requires Inv(obj, r, rest + [p], visited)
    requires HasPath(r, p) && At(r, p).Array?
    requires forall i :: 0 <= i < |At(r, p).items| && At(r, p).items[i].IsContainer() ==> p + [Pos(i)] in pushed
    requires forall j :: 0 <= j < |pushed| ==> ListChild(p, At(r, p).items, pushed[j])
    requires forall i, j :: 0 <= i < j < |pushed| ==> pushed[i] != pushed[j]
    ensures Inv(obj, r, rest + pushed, visited + {p})
    ensures |PathsOf(obj) - (visited + {p})| < |PathsOf(obj) - visited|
  {
    FrontierStep(rest, p, pushed, visited);
    QueuedRest(r, rest, p);
    ArrayStep(r, p, rest, pushed);
    VisitsNewPath(obj, r, p, visited);
  }

  /** The traversal starts with the root queued and nothing visited. */
  lemma InvStart(obj: Json)
    requires obj.IsContainer()
    ensures Inv(obj, obj, [[]], {})
  {
    forall q | HasPath(obj, q) && Dirty(At(obj, q))
      ensures exists j :: 0 <= j < 1 && IsPrefix([[]][j], q)
    {
      assert IsPrefix([[]][0], q);
    }
  }

  /** clean_none_dict_values(obj): the dicts reachable from obj lose their None
      entries; the result is the cleaned value. */
  method CleanNoneDictValues(obj: Json) returns (r: Json)
    ensures r == Clean(obj)
  {
    if !obj.IsContainer() {
      return obj;
    }
    r := obj;
    var queue: seq<Path> := [[]];
    ghost var visited: set<Path> := {};
    InvStart(obj);
    while queue != []
      invariant Inv(obj, r, queue, visited)
      decreases |PathsOf(obj) - visited|
    {
      var p := queue[|queue| - 1];
      var rest := queue[..|queue| - 1];
      assert queue == rest + [p];
      assert HasPath(r, p);
      var item := At(r, p);
      var pushed: seq<Path>;
      if item.Object? {
        var remove;
        remove, pushed := ScanDict(p, item.fields);
        DictBody(obj, r, rest, p, visited, pushed);
        r := Replace(r, p, Object(item.fields - remove));
      } else {
        pushed := ScanList(p, item.items);
        ListBody(obj, r, rest, p, visited, pushed);
      }
      queue := rest + pushed;
      visited := visited + {p};
    }
    NothingPending(r);
    CleanFixesExactlyNoneFree(r);
  }
}
