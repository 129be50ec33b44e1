/** The registry of trained global models, web/app/services/model_registry.py:
    the canonical form of a hyperparameter dictionary, the identity
    (name, working directory, artifact path) derived from it, the table of
    model runs, and the choice of which saved weights to load. */
module ModelRegistry {
  import opened Common
  import opened Text

  // ---------------------------------------------------------------------
  // Strings in Python's order

  /** `a < b` on `str`: code-point lexicographic order. */
  predicate StrLess(a: string, b: string)
  {
    if a == [] then b != []
    else if b == [] then false
    else if a[0] != b[0] then a[0] < b[0]
    else StrLess(a[1..], b[1..])
  }

  lemma {:induction false} StrLessIrreflexive(a: string)
    ensures !StrLess(a, a)
  {
    if a != [] {
      StrLessIrreflexive(a[1..]);
    }
  }

  lemma {:induction false} StrLessAsymmetric(a: string, b: string)
    ensures !(StrLess(a, b) && StrLess(b, a))
  {
    if a != [] && b != [] && a[0] == b[0] {
      StrLessAsymmetric(a[1..], b[1..]);
    }
  }

  lemma {:induction false} StrLessTransitive(a: string, b: string, c: string)
    requires StrLess(a, b) && StrLess(b, c)
    ensures StrLess(a, c)
  {
    if a != [] && a[0] == b[0] && b[0] == c[0] {
      StrLessTransitive(a[1..], b[1..], c[1..]);
    }
  }

  lemma {:induction false} StrLessTotal(a: string, b: string)
    ensures a == b || StrLess(a, b) || StrLess(b, a)
  {
    if a != [] && b != [] && a[0] == b[0] {
      StrLessTotal(a[1..], b[1..]);
      assert a == [a[0]] + a[1..] && b == [b[0]] + b[1..];
    }
  }

  /** `a <= b <= c` gives `a <= c`. */
  lemma NotLessTransitive(a: string, b: string, c: string)
    requires !StrLess(b, a) && !StrLess(c, b)
    ensures !StrLess(c, a)
  {
    StrLessTotal(a, b);
    StrLessTotal(b, c);
    if a != b && b != c {
      StrLessTransitive(a, b, c);
      StrLessAsymmetric(a, c);
    }
  }

  // ---------------------------------------------------------------------
  // JSON-like configuration values

  /** A value of a hyperparameter dictionary: scalars, lists (and tuples),
      and dictionaries with string keys in insertion order. */
  datatype Value =
    | Null
    | Bool(b: bool)
    | Int(i: int)
    | Num(x: real)
    | Str(s: string)
    | List(items: seq<Value>)
    | Object(entries: seq<Entry>)

  datatype Entry = Entry(key: string, val: Value)

  /** Keys ascend (ties allowed). */
  ghost predicate KeysSorted(es: seq<Entry>)
  {
    forall i, j :: 0 <= i < j < |es| ==> !StrLess(es[j].key, es[i].key)
  }

  ghost predicate KeysStrictlySorted(es: seq<Entry>)
  {
    forall i, j :: 0 <= i < j < |es| ==> StrLess(es[i].key, es[j].key)
  }

  /** What every Python dictionary satisfies: no key twice. */
  ghost predicate KeysDistinct(es: seq<Entry>)
  {
    forall i, j :: 0 <= i < j < |es| ==> es[i].key != es[j].key
  }

  /** Every dictionary inside `v` has distinct keys. */
  ghost predicate WellFormed(v: Value)
    decreases v
  {
    match v
    case List(items) => forall i :: 0 <= i < |items| ==> WellFormed(items[i])
    case Object(es) => KeysDistinct(es) && forall i :: 0 <= i < |es| ==> WellFormed(es[i].val)
    case _ => true
  }

  /** Inserts `e` before the first entry whose key is not smaller. */
  function InsertEntry(e: Entry, es: seq<Entry>): (r: seq<Entry>)
    requires KeysSorted(es)
    ensures KeysSorted(r)
    ensures multiset(r) == multiset(es) + multiset{e}
    ensures |r| == |es| + 1
  {
    if es == [] || !StrLess(es[0].key, e.key) then
      NoneBelowFirst(e, es);
      ConsSorted(e, es);
      [e] + es
    else
      var rest := InsertEntry(e, es[1..]);
      assert es == [es[0]] + es[1..];
      InsertedNotBelowHead(e, es, rest);
      ConsSorted(es[0], rest);
      [es[0]] + rest
  }

  /** When `e`'s key is not above the first of a sorted `es`, no key of
      `es` is below `e`'s. */
  lemma NoneBelowFirst(e: Entry, es: seq<Entry>)
    requires KeysSorted(es) && (es == [] || !StrLess(es[0].key, e.key))
    ensures forall j :: 0 <= j < |es| ==> !StrLess(es[j].key, e.key)
  {
    forall j | 0 <= j < |es| ensures !StrLess(es[j].key, e.key) {
      if j > 0 { NotLessTransitive(e.key, es[0].key, es[j].key); }
    }
  }

  /** An entry whose key is not above any key of a sorted sequence can go
      in front of it. */
  lemma ConsSorted(x: Entry, t: seq<Entry>)
    requires KeysSorted(t) && forall j :: 0 <= j < |t| ==> !StrLess(t[j].key, x.key)
    ensures KeysSorted([x] + t)
  {
  }

  /** Inserting an entry with a larger key than `es[0]` into the rest of
      `es` gives nothing with a key below `es[0]`'s. */
  lemma InsertedNotBelowHead(e: Entry, es: seq<Entry>, rest: seq<Entry>)
    requires KeysSorted(es) && es != [] && StrLess(es[0].key, e.key)
    requires multiset(rest) == multiset(es[1..]) + multiset{e}
    ensures forall j :: 0 <= j < |rest| ==> !StrLess(rest[j].key, es[0].key)
  {
    forall j | 0 <= j < |rest| ensures !StrLess(rest[j].key, es[0].key) {
      assert rest[j] in multiset(rest);
      if rest[j] == e {
        StrLessAsymmetric(es[0].key, e.key);
      } else {
        assert rest[j] in multiset(es[1..]);
        var k :| 0 <= k < |es[1..]| && es[1..][k] == rest[j];
        assert es[k + 1] == rest[j];
      }
    }
  }

  /** `sorted(d)` applied to a dictionary's entries. */
  function SortEntries(es: seq<Entry>): (r: seq<Entry>)
    ensures KeysSorted(r)
    ensures multiset(r) == multiset(es)
    ensures |r| == |es|
  {
    if es == [] then []
    else
      assert es == [es[0]] + es[1..];
      InsertEntry(es[0], SortEntries(es[1..]))
  }

  /** Sorting entries that are already in key order changes nothing. */
  lemma {:induction false} SortSortedIsIdentity(es: seq<Entry>)
    requires KeysSorted(es)
    ensures SortEntries(es) == es
  {
    if es != [] {
      SortSortedIsIdentity(es[1..]);
      assert es == [es[0]] + es[1..];
    }
  }

  /** Ascending and distinct keys are strictly ascending keys. */
  lemma SortedDistinctIsStrict(es: seq<Entry>)
    requires KeysSorted(es) && KeysDistinct(es)
    ensures KeysStrictlySorted(es)
  {
    forall i, j | 0 <= i < j < |es| ensures StrLess(es[i].key, es[j].key) {
      StrLessTotal(es[i].key, es[j].key);
    }
  }

  /** Reordering entries keeps their keys distinct. */
  lemma PermutationKeepsDistinct(s: seq<Entry>, t: seq<Entry>)
    requires multiset(s) == multiset(t) && KeysDistinct(s)
    ensures KeysDistinct(t)
  {
    forall i, j | 0 <= i < j < |t| ensures t[i].key != t[j].key {
      var p, q := PositionsOf(s, t, i, j);
      if p < q { assert s[p].key != s[q].key; } else { assert s[q].key != s[p].key; }
    }
  }

  /** Two strictly key-ordered arrangements of the same entries start with
      the same entry: each first entry has the smallest key of both. */
  lemma SortedPermutationsSameHead(s: seq<Entry>, t: seq<Entry>)
    requires KeysStrictlySorted(s) && KeysStrictlySorted(t) && multiset(s) == multiset(t)
    requires s != [] && t != []
    ensures s[0] == t[0]
  {
    assert s[0] in multiset(t);
    var j :| 0 <= j < |t| && t[j] == s[0];
    assert t[0] in multiset(s);
    var i :| 0 <= i < |s| && s[i] == t[0];
    assert j > 0 ==> StrLess(t[0].key, s[0].key);
    assert i > 0 ==> StrLess(s[0].key, t[0].key);
    StrLessAsymmetric(s[0].key, t[0].key);
  }

  /** Removing the same first entry from two arrangements of the same
      entries leaves two arrangements of the same entries. */
  lemma PermutationTails<T>(s: seq<T>, t: seq<T>)
    requires multiset(s) == multiset(t) && s != [] && t != [] && s[0] == t[0]
    ensures multiset(s[1..]) == multiset(t[1..])
  {
    assert s == [s[0]] + s[1..] && t == [t[0]] + t[1..];
    assert multiset(s[1..]) == multiset(s) - multiset{s[0]};
    assert multiset(t[1..]) == multiset(t) - multiset{t[0]};
  }

  /** Two strictly key-ordered arrangements of the same entries coincide. */
  lemma {:induction false} StrictlySortedPermutationsEqual(s: seq<Entry>, t: seq<Entry>)
    requires KeysStrictlySorted(s) && KeysStrictlySorted(t) && multiset(s) == multiset(t)
    ensures s == t
  {
    assert |s| == |multiset(s)| == |multiset(t)| == |t|;
    if s != [] {
      SortedPermutationsSameHead(s, t);
      PermutationTails(s, t);
      StrictlySortedPermutationsEqual(s[1..], t[1..]);
      assert s == [s[0]] + s[1..] && t == [t[0]] + t[1..];
    }
  }

  /** `_normalize_config`: dictionaries get their keys in sorted order (each
      value normalised in turn), lists keep their order with every item
      normalised, and scalars are returned as they are. */
  function NormalizeConfig(v: Value): (r: Value)
    ensures v.List? ==> r.List? && |r.items| == |v.items|
                        && forall i :: 0 <= i < |v.items| ==> r.items[i] == NormalizeConfig(v.items[i])
    ensures v.Object? ==> r.Object? && |r.entries| == |v.entries| && KeysSorted(r.entries)
    ensures !v.List? && !v.Object? ==> r == v
    decreases v
  {
    match v
    case List(items) =>
      List(seq(|items|, i requires 0 <= i < |items| => NormalizeConfig(items[i])))
    case Object(entries) =>
      var sorted := SortEntries(entries);
      assert forall i :: 0 <= i < |sorted| ==> sorted[i] in entries by {
        forall i | 0 <= i < |sorted| ensures sorted[i] in entries {
          assert sorted[i] in multiset(sorted);
        }
      }
      Object(seq(|sorted|, i requires 0 <= i < |sorted| => Entry(sorted[i].key, NormalizeConfig(sorted[i].val))))
    case _ => v
  }

  /** An entry with its value normalised. */
  function NormalizeEntry(e: Entry): (r: Entry)
    ensures r.key == e.key && r.val == NormalizeConfig(e.val)
  {
    Entry(e.key, NormalizeConfig(e.val))
  }

  /** `f` applied to every entry, in order. */
  function MapEntries(es: seq<Entry>, f: Entry -> Entry): (r: seq<Entry>)
    ensures |r| == |es| && forall i :: 0 <= i < |es| ==> r[i] == f(es[i])
  {
    seq(|es|, i requires 0 <= i < |es| => f(es[i]))
  }

  /** A dictionary's entries with every value normalised, in the same
      order. */
  function NormalizedEntries(es: seq<Entry>): (r: seq<Entry>)
    ensures |r| == |es|
    ensures forall i :: 0 <= i < |es| ==> r[i].key == es[i].key && r[i].val == NormalizeConfig(es[i].val)
  {
    MapEntries(es, NormalizeEntry)
  }

  /** A normalised dictionary holds exactly the input's keys, each with its
      own value normalised, in key order. */
  lemma NormalizeConfigEntries(es: seq<Entry>)
    ensures NormalizeConfig(Object(es)).Object?
    ensures multiset(NormalizeConfig(Object(es)).entries) == multiset(NormalizedEntries(es))
    ensures KeysSorted(NormalizeConfig(Object(es)).entries)
  {
    var sorted := SortEntries(es);
    assert NormalizeConfig(Object(es)).entries == NormalizedEntries(sorted);
    MapEntriesPermutation(sorted, es, NormalizeEntry);
  }

  /** Mapping two arrangements of the same entries gives two arrangements
      of the same results. */
  lemma {:induction false} MapEntriesPermutation(s: seq<Entry>, t: seq<Entry>, f: Entry -> Entry)
    requires multiset(s) == multiset(t)
    ensures multiset(MapEntries(s, f)) == multiset(MapEntries(t, f))
    decreases |s|
  {
    if s != [] {
      assert s[0] in multiset(t);
      var k :| 0 <= k < |t| && t[k] == s[0];
      var rest := RemoveAt(t, k);
      assert s == [s[0]] + s[1..];
      assert multiset(s[1..]) == multiset(rest);
      MapEntriesPermutation(s[1..], rest, f);
      MapEntriesRemove(t, k, f);
      MapEntriesConcat([s[0]], s[1..], f);
    }
  }

  /** Mapping `t` gives the image of `t[k]` and the mapping of the rest. */
  lemma MapEntriesRemove(t: seq<Entry>, k: int, f: Entry -> Entry)
    requires 0 <= k < |t|
    ensures multiset(MapEntries(t, f)) == multiset(MapEntries([t[k]], f)) + multiset(MapEntries(RemoveAt(t, k), f))
  {
    var before, after := t[..k], t[k + 1..];
    assert t == before + [t[k]] + after;
    MapEntriesConcat(before + [t[k]], after, f);
    MapEntriesConcat(before, [t[k]], f);
    MapEntriesConcat(before, after, f);
  }

  /** `t` without its element at `k`. */
  function RemoveAt(t: seq<Entry>, k: int): (r: seq<Entry>)
    requires 0 <= k < |t|
    ensures t == t[..k] + [t[k]] + t[k + 1..]
    ensures multiset(r) == multiset(t) - multiset{t[k]}
    ensures r == t[..k] + t[k + 1..]
  {
    assert t == t[..k] + [t[k]] + t[k + 1..];
    t[..k] + t[k + 1..]
  }

  lemma MapEntriesConcat(a: seq<Entry>, b: seq<Entry>, f: Entry -> Entry)
    ensures MapEntries(a + b, f) == MapEntries(a, f) + MapEntries(b, f)
  {
  }

  /** A normal form: every dictionary inside has its keys in order. */
  ghost predicate IsNormal(v: Value)
    decreases v
  {
    match v
    case List(items) => forall i :: 0 <= i < |items| ==> IsNormal(items[i])
    case Object(es) => KeysSorted(es) && forall i :: 0 <= i < |es| ==> IsNormal(es[i].val)
    case _ => true
  }

  /** The result of `_normalize_config` is in normal form. */
  lemma {:induction false} NormalizeConfigIsNormal(v: Value)
    ensures IsNormal(NormalizeConfig(v))
    decreases v
  {
    match v
    case List(items) =>
      forall i | 0 <= i < |items| ensures IsNormal(NormalizeConfig(items[i])) {
        NormalizeConfigIsNormal(items[i]);
      }
    case Object(entries) =>
      var sorted := SortEntries(entries);
      forall i | 0 <= i < |sorted| ensures IsNormal(NormalizeConfig(sorted[i].val)) {
        assert sorted[i] in multiset(sorted);
        assert sorted[i] in entries;
        NormalizeConfigIsNormal(sorted[i].val);
      }
    case _ =>
  }

  /** A value already in normal form is its own normalisation. */
  lemma {:induction false} NormalizeConfigFixesNormal(v: Value)
    requires IsNormal(v)
    ensures NormalizeConfig(v) == v
    decreases v
  {
    match v
    case List(items) =>
      forall i | 0 <= i < |items| ensures NormalizeConfig(items[i]) == items[i] {
        NormalizeConfigFixesNormal(items[i]);
      }
      assert NormalizeConfig(v).items == items;
    case Object(entries) =>
      SortSortedIsIdentity(entries);
      forall i | 0 <= i < |entries| ensures NormalizeConfig(entries[i].val) == entries[i].val {
        NormalizeConfigFixesNormal(entries[i].val);
      }
      assert NormalizeConfig(v).entries == entries;
    case _ =>
  }

  /** Normalising twice is normalising once. */
  lemma NormalizeConfigIdempotent(v: Value)
    ensures NormalizeConfig(NormalizeConfig(v)) == NormalizeConfig(v)
  {
    NormalizeConfigIsNormal(v);
    NormalizeConfigFixesNormal(NormalizeConfig(v));
  }

  /** A dictionary's insertion order does not matter: two dictionaries with
      the same items normalise to the same value. */
  lemma NormalizeConfigOrderIndependent(es1: seq<Entry>, es2: seq<Entry>)
    requires multiset(es1) == multiset(es2) && KeysDistinct(es1)
    ensures NormalizeConfig(Object(es1)) == NormalizeConfig(Object(es2))
  {
    var s1 := SortEntries(es1);
    var s2 := SortEntries(es2);
    PermutationKeepsDistinct(es1, s1);
    PermutationKeepsDistinct(es1, s2);
    SortedDistinctIsStrict(s1);
    SortedDistinctIsStrict(s2);
    StrictlySortedPermutationsEqual(s1, s2);
  }

  // ---------------------------------------------------------------------
  // Model identity

  /** `os.path.join(a, b)` on POSIX. */
  function PathJoin(a: string, b: string): (p: string)
    ensures StartsWith(b, "/") ==> p == b
    ensures !StartsWith(b, "/") ==> EndsWith(p, b)
    ensures !StartsWith(b, "/") && a != [] ==> StartsWith(p, a)
    ensures !StartsWith(b, "/") ==> p == a + (if a != [] && !EndsWith(a, "/") then "/" else "") + b
  {
    if StartsWith(b, "/") then b
    else if a == [] || EndsWith(a, "/") then a + b
    else a + "/" + b
  }

  /** A single path component: non-empty, with no `/` at either end. */
  predicate SegmentName(b: string)
  {
    b != [] && !StartsWith(b, "/") && !EndsWith(b, "/")
  }

  /** Joining a directory with no trailing `/` and a single component puts
      exactly one `/` between them and leaves no trailing `/`. */
  lemma JoinSegment(a: string, b: string)
    requires a != [] && !EndsWith(a, "/") && SegmentName(b)
    ensures PathJoin(a, b) == a + "/" + b
    ensures PathJoin(a, b) != [] && !EndsWith(PathJoin(a, b), "/")
  {
    var p := PathJoin(a, b);
    assert p[|p| - 1] == b[|b| - 1];
    assert EndsWith(b, "/") <==> b[|b| - 1] == '/';
    assert EndsWith(p, "/") <==> p[|p| - 1] == '/';
  }

  /** `_default_work_dir`. */
  function DefaultWorkDir(env: map<string, string>): (w: string)
    ensures "DARTS_WORK_DIR" in env ==> w == env["DARTS_WORK_DIR"]
    ensures "DARTS_WORK_DIR" !in env ==> w == "/var/lib/app/darts"
  {
    if "DARTS_WORK_DIR" in env then env["DARTS_WORK_DIR"] else "/var/lib/app/darts"
  }

  function ScopeSlug(scope: string): (s: string)
    ensures s == "global" <==> scope == "global_shared"
    ensures s == "global" || s == "percrypto"
  {
    if scope == "global_shared" then "global" else "percrypto"
  }

  function FamilySlug(family: string): (s: string)
    ensures s == "blockrnn" <==> family == "BlockRNNModel"
    ensures s == "blockrnn" || s == "rnn"
  {
    if family == "BlockRNNModel" then "blockrnn" else "rnn"
  }

  /** `s[:8]`. */
  function First8(s: string): (r: string)
    ensures |r| == Min(8, |s|) && r == s[..|r|]
  {
    if |s| <= 8 then s else s[..8]
  }

  /** The dictionary `canonical_model_key` serialises. */
  function KeyPayload(scope: string, family: string, cellType: string, horizonDays: int,
                      transform: string, hyperparams: Value): Value
  {
    Object([Entry("scope", Str(scope)), Entry("model_family", Str(family)),
            Entry("cell_type", Str(cellType)), Entry("horizon_days", Int(horizonDays)),
            Entry("transform", Str(transform)), Entry("hyperparams", NormalizeConfig(hyperparams))])
  }

  /** What `canonical_model_key` returns. */
  datatype ModelKey = ModelKey(modelName: string, workDir: string, artifactPathPt: string)

  /** The model name: both slugs, the lowercased cell type, the horizon,
      the transform without underscores and the first eight characters of
      the digest, joined by double underscores. */
  function ModelName(scope: string, family: string, cellType: string, horizonDays: int,
                     transform: string, digest: string): (name: string)
    ensures name == NamePrefix(scope, family) + Lower(cellType) + "__h" + IntToString(horizonDays) + "__"
                    + RemoveChar(transform, '_') + "__" + First8(digest)
  {
    NamePrefix(scope, family) + Lower(cellType) + "__h" + IntToString(horizonDays) + "__"
    + RemoveChar(transform, '_') + "__" + First8(digest)
  }

  /** The fixed start of a model name: `crypto_<scope slug>__<family slug>__`. */
  function NamePrefix(scope: string, family: string): (p: string)
    ensures |p| >= 7 && p[..7] == "crypto_"
  {
    var p := "crypto_" + ScopeSlug(scope) + "__" + FamilySlug(family) + "__";
    assert p[..7] == "crypto_";
    p
  }

  /** A model name starts with both slugs and ends with the first eight
      characters of the digest. */
  lemma ModelNameAffixes(scope: string, family: string, cellType: string, horizonDays: int,
                         transform: string, digest: string)
    ensures StartsWith(ModelName(scope, family, cellType, horizonDays, transform, digest), NamePrefix(scope, family))
    ensures EndsWith(ModelName(scope, family, cellType, horizonDays, transform, digest), "__" + First8(digest))
    ensures ModelName(scope, family, cellType, horizonDays, transform, digest)[0] == 'c'
  {
    var p := NamePrefix(scope, family);
    var l, i, r, d := Lower(cellType), IntToString(horizonDays), RemoveChar(transform, '_'), First8(digest);
    StartsWithAppend(p, l, p);
    StartsWithAppend(p + l, "__h", p);
    StartsWithAppend(p + l + "__h", i, p);
    StartsWithAppend(p + l + "__h" + i, "__", p);
    StartsWithAppend(p + l + "__h" + i + "__", r, p);
    StartsWithAppend(p + l + "__h" + i + "__" + r, "__", p);
    StartsWithAppend(p + l + "__h" + i + "__" + r + "__", d, p);
    EndsWithPair(p + l + "__h" + i + "__" + r, "__", d);
    assert p[0] == p[..7][0];
  }

  lemma StartsWithAppend(x: string, y: string, p: string)
    requires StartsWith(x, p) || x == p
    ensures StartsWith(x + y, p)
  {
    assert (x + y)[..|p|] == x[..|p|];
  }

  lemma EndsWithPair(x: string, a: string, d: string)
    ensures EndsWith(x + a + d, a + d)
  {
    assert (x + a + d)[|x|..] == a + d;
  }

  /** Two models that differ only in their horizon get different names. */
  lemma ModelNameSeparatesHorizons(scope: string, family: string, cellType: string, h1: int, h2: int,
                                   transform: string, digest: string)
    requires h1 != h2
    ensures ModelName(scope, family, cellType, h1, transform, digest)
         != ModelName(scope, family, cellType, h2, transform, digest)
  {
    var pre := NamePrefix(scope, family) + Lower(cellType) + "__h";
    var t := RemoveChar(transform, '_');
    var f := First8(digest);
    var x1, x2 := IntToString(h1), IntToString(h2);
    if pre + x1 + "__" + t + "__" + f == pre + x2 + "__" + t + "__" + f {
      RightCancel(pre + x1 + "__" + t + "__", pre + x2 + "__" + t + "__", f);
      RightCancel(pre + x1 + "__" + t, pre + x2 + "__" + t, "__");
      RightCancel(pre + x1 + "__", pre + x2 + "__", t);
      RightCancel(pre + x1, pre + x2, "__");
      LeftCancel(pre, x1, x2);
      IntToStringInjective(h1, h2);
    }
  }

  lemma RightCancel(u: string, v: string, w: string)
    requires u + w == v + w
    ensures u == v
  {
    assert u == (u + w)[..|u|];
  }

  lemma LeftCancel(a: string, x: string, y: string)
    requires a + x == a + y
    ensures x == y
  {
    assert x == (a + x)[|a|..];
  }

  /** `canonical_model_key`. SHA-256 (as a hex digest) and `json.dumps`
      are the parameters `sha256Hex` and `dumps`; `env` is the process
      environment. */
  function CanonicalModelKey(scope: string, family: string, cellType: string, horizonDays: int,
                             transform: string, hyperparams: Value, env: map<string, string>,
                             sha256Hex: string -> string, dumps: Value -> string): (k: ModelKey)
    ensures k.workDir == DefaultWorkDir(env)
    ensures k.modelName == ModelName(scope, family, cellType, horizonDays, transform,
                                     sha256Hex(dumps(KeyPayload(scope, family, cellType, horizonDays,
                                                                transform, hyperparams))))
    ensures EndsWith(k.artifactPathPt, k.modelName + ".pt") && EndsWith(k.artifactPathPt, ".pt")
    ensures k.artifactPathPt == PathJoin(PathJoin(k.workDir, "artifacts"), k.modelName + ".pt")
    ensures !StartsWith(k.modelName, "/")
  {
    var digest := sha256Hex(dumps(KeyPayload(scope, family, cellType, horizonDays, transform, hyperparams)));
    var name := ModelName(scope, family, cellType, horizonDays, transform, digest);
    var workDir := DefaultWorkDir(env);
    var file := name + ".pt";
    ModelNameAffixes(scope, family, cellType, horizonDays, transform, digest);
    assert !StartsWith(file, "/") && !StartsWith(name, "/") by { assert file[0] == name[0] == 'c'; }
    var path := PathJoin(PathJoin(workDir, "artifacts"), file);
    assert EndsWith(file, ".pt") by { assert file[|file| - 3..] == ".pt"; }
    EndsWithTransitive(path, file, ".pt");
    ModelKey(name, workDir, path)
  }

  /** Under a work directory without a trailing `/` the artifact of a
      relative model name is `<work>/artifacts/<name>.pt`. */
  lemma ArtifactPath(workDir: string, modelName: string)
    requires workDir != [] && !EndsWith(workDir, "/") && !StartsWith(modelName, "/")
    ensures PathJoin(PathJoin(workDir, "artifacts"), modelName + ".pt")
         == workDir + "/" + "artifacts" + "/" + modelName + ".pt"
  {
    LiteralSegments();
    ArtifactFileIsSegment(modelName);
    JoinTwoSegments(workDir, "artifacts", modelName + ".pt");
  }

  /** `<name>.pt` is a single component when the name is relative. */
  lemma ArtifactFileIsSegment(modelName: string)
    requires !StartsWith(modelName, "/")
    ensures SegmentName(modelName + ".pt")
  {
    var file := modelName + ".pt";
    if modelName != [] {
      assert modelName[0] != '/' by { assert modelName[..1][0] == modelName[0] && "/"[0] == '/'; }
      assert file[..1][0] == modelName[0];
    } else {
      assert file[..1][0] == '.';
    }
    assert file[|file| - 1..] == ['t'];
  }

  /** The key does not depend on the insertion order of the hyperparameter
      dictionary. */
  lemma CanonicalModelKeyOrderIndependent(scope: string, family: string, cellType: string,
                                          horizonDays: int, transform: string,
                                          es1: seq<Entry>, es2: seq<Entry>, env: map<string, string>,
                                          sha256Hex: string -> string, dumps: Value -> string)
    requires multiset(es1) == multiset(es2) && KeysDistinct(es1)
    ensures CanonicalModelKey(scope, family, cellType, horizonDays, transform, Object(es1), env, sha256Hex, dumps)
         == CanonicalModelKey(scope, family, cellType, horizonDays, transform, Object(es2), env, sha256Hex, dumps)
  {
    NormalizeConfigOrderIndependent(es1, es2);
    assert KeyPayload(scope, family, cellType, horizonDays, transform, Object(es1))
        == KeyPayload(scope, family, cellType, horizonDays, transform, Object(es2));
  }

  /** The working directory is `DARTS_WORK_DIR` when that is set. */
  lemma CanonicalModelKeyUsesWorkDir(scope: string, family: string, cellType: string,
                                     horizonDays: int, transform: string, hyperparams: Value,
                                     dir: string, sha256Hex: string -> string, dumps: Value -> string)
    ensures CanonicalModelKey(scope, family, cellType, horizonDays, transform, hyperparams,
                              map["DARTS_WORK_DIR" := dir], sha256Hex, dumps).workDir == dir
  {
  }

  // ---------------------------------------------------------------------
  // Model runs

  /** A row of `forecast_model_runs`. `createdAt` is the server timestamp
      as a number. */
  datatype ModelRun = ModelRun(
    id: int,
    scope: string,
    modelFamily: string,
    cellType: string,
    horizonDays: int,
    transform: string,
    hyperparams: Value,
    trainingCryptoIds: seq<int>,
    trainStartDate: Option<Date>,
    trainEndDate: Option<Date>,
    cutoffDate: Option<Date>,
    artifactPathPt: Option<string>,
    workDir: Option<string>,
    modelName: Option<string>,
    createdAt: int)

  /** The filter of `find_latest_model_run_any`. */
  predicate SameModel(r: ModelRun, scope: string, family: string, cellType: string,
                      horizonDays: int, transform: string)
  {
    r.scope == scope && r.modelFamily == family && r.cellType == cellType
    && r.horizonDays == horizonDays && r.transform == transform
  }

  /** `find_latest_model_run_any`: a matching run with the greatest
      creation time, or `None` when no run matches. */
  function LatestModelRunAny(runs: seq<ModelRun>, scope: string, family: string, cellType: string,
                             horizonDays: int, transform: string): (r: Option<ModelRun>)
    ensures r.Some? ==> r.value in runs && SameModel(r.value, scope, family, cellType, horizonDays, transform)
    ensures r.Some? ==> forall x :: x in runs && SameModel(x, scope, family, cellType, horizonDays, transform)
                                    ==> x.createdAt <= r.value.createdAt
    ensures r.None? <==> forall x :: x in runs ==> !SameModel(x, scope, family, cellType, horizonDays, transform)
  {
    if runs == [] then None
    else
      var rest := LatestModelRunAny(runs[1..], scope, family, cellType, horizonDays, transform);
      assert forall x :: x in runs <==> x == runs[0] || x in runs[1..];
      var head := runs[0];
      if !SameModel(head, scope, family, cellType, horizonDays, transform) then rest
      else if rest.Some? && rest.value.createdAt > head.createdAt then rest
      else Some(head)
  }

  /** The `forecast_model_runs` table. */
  class RunTable {
    var runs: seq<ModelRun>
    var nextId: int

    /** Ids are distinct and below the next one handed out. */
    ghost predicate Valid()
      reads this
    {
      (forall i, j :: 0 <= i < j < |runs| ==> runs[i].id != runs[j].id)
      && (forall i :: 0 <= i < |runs| ==> runs[i].id < nextId)
    }

    constructor()
      ensures Valid() && runs == []
    {
      runs := [];
      nextId := 1;
    }

    /** `create_model_run`: appends a run under a fresh id. */
    method CreateModelRun(scope: string, family: string, cellType: string, horizonDays: int,
                          transform: string, hyperparams: Value, trainingCryptoIds: seq<int>,
                          trainStartDate: Option<Date>, trainEndDate: Option<Date>,
                          cutoffDate: Option<Date>, artifactPathPt: Option<string>,
                          workDir: string, modelName: string, createdAt: int)
      returns (run: ModelRun)
      requires Valid()
      modifies this
      ensures Valid()
      ensures runs == old(runs) + [run]
      ensures forall i :: 0 <= i < |old(runs)| ==> old(runs)[i].id != run.id
      ensures run == ModelRun(run.id, scope, family, cellType, horizonDays, transform, hyperparams,
                              trainingCryptoIds, trainStartDate, trainEndDate, cutoffDate,
                              artifactPathPt, Some(workDir), Some(modelName), createdAt)
    {
      run := ModelRun(nextId, scope, family, cellType, horizonDays, transform, hyperparams,
                      trainingCryptoIds, trainStartDate, trainEndDate, cutoffDate,
                      artifactPathPt, Some(workDir), Some(modelName), createdAt);
      runs := runs + [run];
      nextId := nextId + 1;
    }

    /** `finalize_model_run`: an unknown id raises and changes nothing;
        otherwise only the arguments that are given overwrite the run. */
    method FinalizeModelRun(id: int, artifactPathPt: Option<string>, cutoffDate: Option<Date>)
      returns (r: Result<ModelRun>)
      requires Valid()
      modifies this
      ensures Valid() && nextId == old(nextId) && |runs| == |old(runs)|
      ensures (forall i :: 0 <= i < |old(runs)| ==> old(runs)[i].id != id) ==>
                r == Err("Model run not found") && runs == old(runs)
      ensures (exists i :: 0 <= i < |old(runs)| && old(runs)[i].id == id) ==> r.Ok?
      ensures r.Ok? ==> exists i :: 0 <= i < |old(runs)| && old(runs)[i].id == id
                          && r.value == Finalized(old(runs)[i], artifactPathPt, cutoffDate)
                          && runs == old(runs)[i := r.value]
    {
      var i := 0;
      while i < |runs|
        invariant 0 <= i <= |runs|
        invariant forall k :: 0 <= k < i ==> runs[k].id != id
      {
        if runs[i].id == id {
          var run := Finalized(runs[i], artifactPathPt, cutoffDate);
          runs := runs[i := run];
          return Ok(run);
        }
        i := i + 1;
      }
      return Err("Model run not found");
    }

    /** `find_latest_model_run_any` on the current table. */
    function FindLatestModelRunAny(scope: string, family: string, cellType: string,
                                   horizonDays: int, transform: string): (r: Option<ModelRun>)
      reads this
      ensures r.Some? ==> r.value in runs && SameModel(r.value, scope, family, cellType, horizonDays, transform)
      ensures r.Some? ==> forall x :: x in runs && SameModel(x, scope, family, cellType, horizonDays, transform)
                                      ==> x.createdAt <= r.value.createdAt
      ensures r.None? <==> forall x :: x in runs ==> !SameModel(x, scope, family, cellType, horizonDays, transform)
    {
      LatestModelRunAny(runs, scope, family, cellType, horizonDays, transform)
    }
  }

  /** The fields `finalize_model_run` overwrites: only those given. */
  function Finalized(run: ModelRun, artifactPathPt: Option<string>, cutoffDate: Option<Date>): (r: ModelRun)
    ensures r.artifactPathPt == (if artifactPathPt.Some? then artifactPathPt else run.artifactPathPt)
    ensures r.cutoffDate == (if cutoffDate.Some? then cutoffDate else run.cutoffDate)
    ensures r.(artifactPathPt := run.artifactPathPt, cutoffDate := run.cutoffDate) == run
  {
    run.(artifactPathPt := if artifactPathPt.Some? then artifactPathPt else run.artifactPathPt,
         cutoffDate := if cutoffDate.Some? then cutoffDate else run.cutoffDate)
  }

  /** Finalising with nothing to overwrite leaves the run as it was, and
      finalising twice with the same arguments is finalising once. */
  lemma FinalizedIdempotent(run: ModelRun, artifactPathPt: Option<string>, cutoffDate: Option<Date>)
    ensures Finalized(run, None, None) == run
    ensures Finalized(Finalized(run, artifactPathPt, cutoffDate), artifactPathPt, cutoffDate)
            == Finalized(run, artifactPathPt, cutoffDate)
  {
  }

  // ---------------------------------------------------------------------
  // Loading a model

  datatype ModelClass = BlockRNNModel | RNNModel

  /** `_resolve_model_class`. */
  function ResolveModelClass(family: string): (c: ModelClass)
    ensures c == BlockRNNModel <==> family == "BlockRNNModel"
  {
    if family == "BlockRNNModel" then BlockRNNModel else RNNModel
  }

  /** The part of the file system `load_global_model` looks at: which paths
      are regular files, and the names listed in each existing directory. */
  datatype FileSystem = FileSystem(files: set<string>, listing: map<string, seq<string>>)

  /** How the model was loaded. */
  datatype Loaded =
    | FromCheckpoint(cls: ModelClass, modelName: string, workDir: string)
    | FromArtifact(cls: ModelClass, path: string)

  /** A Python string field read for truthiness: `None` and `""` are false. */
  function OrEmpty(s: Option<string>): string
  {
    if s.Some? then s.value else ""
  }

  /** Both the `.pt` file and its `.ckpt` sidecar exist. */
  predicate HasArtifact(run: ModelRun, fs: FileSystem)
  {
    OrEmpty(run.artifactPathPt) != "" && OrEmpty(run.artifactPathPt) in fs.files
    && OrEmpty(run.artifactPathPt) + ".ckpt" in fs.files
  }

  /** The two directories where a best checkpoint may have been written. */
  function CheckpointDirs(workDir: string, modelName: string): (dirs: seq<string>)
    ensures |dirs| == 2
  {
    [PathJoin(PathJoin(workDir, modelName), "checkpoints"),
     PathJoin(PathJoin(PathJoin(workDir, "darts_logs"), modelName), "checkpoints")]
  }

  /** Under a work directory without a trailing `/` and a model name that
      is a single component, the two checkpoint directories are
      `<work>/<name>/checkpoints` and `<work>/darts_logs/<name>/checkpoints`
      (literals are kept as separate pieces). */
  lemma CheckpointDirsPaths(workDir: string, modelName: string)
    requires workDir != [] && !EndsWith(workDir, "/") && SegmentName(modelName)
    ensures CheckpointDirs(workDir, modelName)
         == [workDir + "/" + modelName + "/" + "checkpoints",
             workDir + "/" + "darts_logs" + "/" + modelName + "/" + "checkpoints"]
  {
    LocalCheckpointDir(workDir, modelName);
    LogsCheckpointDir(workDir, modelName);
  }

  /** Two single components joined under a directory. */
  lemma JoinTwoSegments(a: string, b: string, c: string)
    requires a != [] && !EndsWith(a, "/") && SegmentName(b) && SegmentName(c)
    ensures PathJoin(PathJoin(a, b), c) == a + "/" + b + "/" + c
  {
    JoinSegment(a, b);
    JoinSegment(a + "/" + b, c);
  }

  lemma LiteralSegments()
    ensures SegmentName("checkpoints") && SegmentName("darts_logs") && SegmentName("artifacts")
  {
    assert "checkpoints"[0] == 'c' && "darts_logs"[0] == 'd' && "artifacts"[0] == 'a';
  }

  lemma LocalCheckpointDir(workDir: string, modelName: string)
    requires workDir != [] && !EndsWith(workDir, "/") && SegmentName(modelName)
    ensures PathJoin(PathJoin(workDir, modelName), "checkpoints") == workDir + "/" + modelName + "/" + "checkpoints"
  {
    LiteralSegments();
    JoinTwoSegments(workDir, modelName, "checkpoints");
  }

  lemma LogsCheckpointDir(workDir: string, modelName: string)
    requires workDir != [] && !EndsWith(workDir, "/") && SegmentName(modelName)
    ensures PathJoin(PathJoin(PathJoin(workDir, "darts_logs"), modelName), "checkpoints")
         == workDir + "/" + "darts_logs" + "/" + modelName + "/" + "checkpoints"
  {
    LiteralSegments();
    var logs := PathJoin(workDir, "darts_logs");
    JoinSegment(workDir, "darts_logs");
    JoinTwoSegments(logs, modelName, "checkpoints");
  }

  predicate ListsBest(names: seq<string>)
  {
    exists k :: 0 <= k < |names| && StartsWith(names[k], "best-")
  }

  /** The probe of `load_global_model`: the base checkpoint file exists and
      one of the checkpoint directories lists a `best-` file. */
  ghost predicate BestCheckpointAvailable(workDir: string, modelName: string, fs: FileSystem)
  {
    PathJoin(PathJoin(workDir, modelName), "_model.pth.tar") in fs.files
    && exists d :: d in CheckpointDirs(workDir, modelName) && d in fs.listing && ListsBest(fs.listing[d])
  }

  /** Whether `load_global_model` attempts `load_from_checkpoint`: only when
      the caller prefers it and, when the run names a working directory and
      a model, the probe finds a best checkpoint. */
  ghost predicate TriesCheckpoint(run: ModelRun, prefer: string, fs: FileSystem)
  {
    prefer == "best_checkpoint"
    && (OrEmpty(run.workDir) != "" && OrEmpty(run.modelName) != "" ==>
          BestCheckpointAvailable(OrEmpty(run.workDir), OrEmpty(run.modelName), fs))
  }

  /** The probe of `load_global_model`: the base file exists and one of
      the checkpoint directories lists a `best-` file. A missing directory
      is skipped. */
  method ProbeBestCheckpoint(workDir: string, modelName: string, fs: FileSystem) returns (hasBest: bool)
    ensures hasBest <==> BestCheckpointAvailable(workDir, modelName, fs)
  {
    var basePath := PathJoin(PathJoin(workDir, modelName), "_model.pth.tar");
    hasBest := false;
    if basePath in fs.files {
      hasBest := AnyListsBest(CheckpointDirs(workDir, modelName), fs);
    }
  }

  /** The loop over the checkpoint directories: stops at the first one
      that exists and lists a `best-` file. */
  method AnyListsBest(dirs: seq<string>, fs: FileSystem) returns (found: bool)
    ensures found <==> exists d :: d in dirs && d in fs.listing && ListsBest(fs.listing[d])
  {
    var i := 0;
    while i < |dirs|
      invariant 0 <= i <= |dirs|
      invariant forall k :: 0 <= k < i ==> !(dirs[k] in fs.listing && ListsBest(fs.listing[dirs[k]]))
    {
      if dirs[i] in fs.listing && ListsBest(fs.listing[dirs[i]]) {
        assert dirs[i] in dirs;
        return true;
      }
      i := i + 1;
    }
    assert forall d :: d in dirs ==> !(d in fs.listing && ListsBest(fs.listing[d])) by {
      forall d | d in dirs ensures !(d in fs.listing && ListsBest(fs.listing[d])) {
        var k :| 0 <= k < |dirs| && dirs[k] == d;
      }
    }
    return false;
  }

  /** Whether `load_global_model` finds a model once Darts is importable:
      a checkpoint it tries and loads, or else a complete artifact. */
  ghost predicate LoadSucceeds(run: ModelRun, prefer: string, fs: FileSystem, checkpointLoads: bool)
  {
    (TriesCheckpoint(run, prefer, fs) && checkpointLoads) || HasArtifact(run, fs)
  }

  /** `load_global_model`. `dartsAvailable` says whether the model classes
      could be imported and `checkpointLoads` whether
      `load_from_checkpoint` succeeds when it is tried; a failed checkpoint
      load falls back to the artifact. */
  method LoadGlobalModel(run: ModelRun, prefer: string, fs: FileSystem,
                         dartsAvailable: bool, checkpointLoads: bool) returns (r: Result<Loaded>)
    ensures !dartsAvailable ==> r == Err("Darts model classes not available.")
    ensures dartsAvailable && TriesCheckpoint(run, prefer, fs) && checkpointLoads ==>
              r == Ok(FromCheckpoint(ResolveModelClass(run.modelFamily), OrEmpty(run.modelName), OrEmpty(run.workDir)))
    ensures dartsAvailable && !(TriesCheckpoint(run, prefer, fs) && checkpointLoads) && HasArtifact(run, fs) ==>
              r == Ok(FromArtifact(ResolveModelClass(run.modelFamily), OrEmpty(run.artifactPathPt)))
    ensures dartsAvailable && !(TriesCheckpoint(run, prefer, fs) && checkpointLoads) && !HasArtifact(run, fs) ==>
              r == Err("Model artifact path missing.")
    ensures r.Ok? <==> dartsAvailable && LoadSucceeds(run, prefer, fs, checkpointLoads)
  {
    if !dartsAvailable {
      return Err("Darts model classes not available.");
    }
    var cls := ResolveModelClass(run.modelFamily);
    var artifactPath := OrEmpty(run.artifactPathPt);
    var hasArtifact := artifactPath != "" && artifactPath in fs.files && artifactPath + ".ckpt" in fs.files;
    var preferred := prefer;
    var workDir := OrEmpty(run.workDir);
    var modelName := OrEmpty(run.modelName);
    if prefer == "best_checkpoint" && workDir != "" && modelName != "" {
      var hasBest := ProbeBestCheckpoint(workDir, modelName, fs);
      if !hasBest {
        preferred := "artifact";
      }
    }
    if preferred == "best_checkpoint" && checkpointLoads {
      return Ok(FromCheckpoint(cls, modelName, workDir));
    }
    if !hasArtifact {
      return Err("Model artifact path missing.");
    }
    return Ok(FromArtifact(cls, artifactPath));
  }
}
