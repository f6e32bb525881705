/**
 * The differences between two JSON values, and when applying them to the first gives the second.
 * A plain object's `in` also finds what every JavaScript object inherits: the functions of Object.prototype, for which
 * `Native` stands, and under `__proto__` Object.prototype itself.
 */
module JsonDiff {
  import opened JsonPointer
  import opened Options

  /** `isRoot` is true of Object.prototype only, which has no enumerable key of its own. */
  datatype Json =
    | Null
    | Atom(n: int)
    | Array(items: seq<Json>)
    | Object(fields: map<string, Json>, isRoot: bool)
    | Native(name: string)

  const ObjectPrototype := Object(map[], true)

  /** The functions of Object.prototype. */
  const InheritedFunctions := {
    "constructor", "hasOwnProperty", "isPrototypeOf", "propertyIsEnumerable", "toLocaleString", "toString", "valueOf",
    "__defineGetter__", "__defineSetter__", "__lookupGetter__", "__lookupSetter__"}

  const PROTO := "__proto__"

  /** What `object[key]` finds when the object has no such key of its own; Object.prototype's own prototype is null. */
  function Inherited(key: string, isRoot: bool): Option<Json> {
    if key == PROTO then Some(if isRoot then Null else ObjectPrototype)
    else if key in InheritedFunctions then Some(Native(key)) else None
  }

  function Own(fields: map<string, Json>, key: string): Option<Json> {
    if key in fields then Some(fields[key]) else None
  }

  function Lookup(j: Json, key: string): Option<Json>
    requires j.Object?
  {
    if key in j.fields then Some(j.fields[key]) else Inherited(key, j.isRoot)
  }

  /** A value as JSON text holds it: no inherited function and no Object.prototype in it. */
  ghost predicate IsJson(j: Json) {
    match j
    case Object(fields, isRoot) => !isRoot && forall k | k in fields :: IsJson(fields[k])
    case Native(_) => false
    case _ => true
  }

  // ---- heights, for recursion over both sides -------------------------------------------------------------

  ghost function Height(j: Json): nat
    decreases j, 1
  {
    if j.Object? then 1 + Tallest(j, j.fields.Keys) else 0
  }

  ghost function Tallest(j: Json, keys: set<string>): nat
    requires j.Object? && keys <= j.fields.Keys
    decreases j, 0, |keys|
  {
    if keys == {} then 0
    else
      var k :| k in keys;
      var rest, h := Tallest(j, keys - {k}), Height(j.fields[k]);
      if h > rest then h else rest
  }

  lemma {:induction false} TallestBounds(j: Json, keys: set<string>, key: string)
    requires j.Object? && key in keys && keys <= j.fields.Keys
    ensures Height(j.fields[key]) <= Tallest(j, keys)
    decreases |keys|
  {
    var k :| k in keys && Tallest(j, keys) == (
      var rest, h := Tallest(j, keys - {k}), Height(j.fields[k]);
      if h > rest then h else rest);
    if k != key {
      TallestBounds(j, keys - {k}, key);
    }
  }

  lemma LookupIsLower(a: Json, key: string)
    requires a.Object?
    ensures key in a.fields ==> Height(a.fields[key]) < Height(a)
    ensures key !in a.fields && Inherited(key, a.isRoot).Some? ==> Height(Inherited(key, a.isRoot).value) <= Height(a)
  {
    if key in a.fields {
      TallestBounds(a, a.fields.Keys, key);
    } else if key == PROTO {
      assert Tallest(ObjectPrototype, {}) == 0;
    }
  }

  // ---- the differences ------------------------------------------------------------------------------------

  /** A change at a path; a side that is missing is None. */
  datatype Change = Change(path: seq<string>, before: Option<Json>, after: Option<Json>)

  function Under(key: string, cs: seq<Change>): seq<Change> {
    if cs == [] then []
    else
      var c := cs[|cs| - 1];
      Under(key, cs[..|cs| - 1]) + [Change([key] + c.path, c.before, c.after)]
  }

  ghost function Diff(a: Json, b: Json): seq<Change>
    decreases Height(a) + Height(b), 1
  {
    if a.Object? && b.Object? then DiffKeys(a, b, a.fields.Keys + b.fields.Keys)
    else if a == b then [] else [Change([], Some(a), Some(b))]
  }

  ghost function DiffKeys(a: Json, b: Json, keys: set<string>): seq<Change>
    requires a.Object? && b.Object? && keys <= a.fields.Keys + b.fields.Keys
    decreases Height(a) + Height(b), 0, |keys|
  {
    if keys == {} then []
    else
      var k :| k in keys;
      DiffKeys(a, b, keys - {k}) + Under(k, KeyDiff(a, b, k))
  }

  /** The changes below one key, with paths from there. */
  ghost function KeyDiff(a: Json, b: Json, key: string): seq<Change>
    requires a.Object? && b.Object? && key in a.fields.Keys + b.fields.Keys
    decreases Height(a) + Height(b), 0, 0
  {
    LookupIsLower(a, key);
    LookupIsLower(b, key);
    var x, y := Lookup(a, key), Lookup(b, key);
    if x.Some? && y.Some? then Diff(x.value, y.value) else [Change([], x, y)]
  }

  /** The key the differences of `keys` end with. */
  lemma SomeKey(a: Json, b: Json, keys: set<string>) returns (k: string)
    requires a.Object? && b.Object? && keys != {} && keys <= a.fields.Keys + b.fields.Keys
    ensures k in keys && DiffKeys(a, b, keys) == DiffKeys(a, b, keys - {k}) + Under(k, KeyDiff(a, b, k))
  {
    k :| k in keys && DiffKeys(a, b, keys) == DiffKeys(a, b, keys - {k}) + Under(k, KeyDiff(a, b, k));
  }

  lemma NoKeys(a: Json, b: Json)
    requires a.Object? && b.Object?
    ensures DiffKeys(a, b, {}) == []
  {
  }

  lemma {:induction false} UnderPaths(key: string, cs: seq<Change>)
    ensures |Under(key, cs)| == |cs| && forall i | 0 <= i < |cs| :: Under(key, cs)[i].path == [key] + cs[i].path
  {
    if cs != [] {
      UnderPaths(key, cs[..|cs| - 1]);
    }
  }

  // ---- applying changes -----------------------------------------------------------------------------------

  function Put(fields: map<string, Json>, key: string, value: Option<Json>): map<string, Json> {
    if value.Some? then fields[key := value.value] else fields - {key}
  }

  /** Sets or removes what is at the path; a path through something that is no object leads nowhere. */
  function Set(v: Option<Json>, path: seq<string>, after: Option<Json>): Option<Json>
    decreases |path|
  {
    if path == [] then after
    else if v.None? || !v.value.Object? then v
    else
      var fields := v.value.fields;
      Some(v.value.(fields := Put(fields, path[0], Set(Own(fields, path[0]), path[1..], after))))
  }

  function ApplyAll(v: Option<Json>, cs: seq<Change>): Option<Json> {
    if cs == [] then v
    else Set(ApplyAll(v, cs[..|cs| - 1]), cs[|cs| - 1].path, cs[|cs| - 1].after)
  }

  /** The changes below `key`, in order, with paths from there. */
  function Below(cs: seq<Change>, key: string): seq<Change> {
    if cs == [] then []
    else
      var c := cs[|cs| - 1];
      Below(cs[..|cs| - 1], key)
      + if c.path != [] && c.path[0] == key then [Change(c.path[1..], c.before, c.after)] else []
  }

  ghost predicate AllBelow(cs: seq<Change>) {
    forall i | 0 <= i < |cs| :: cs[i].path != []
  }

  /** Changes below different keys do not touch each other: each key gets its own, in order. */
  lemma {:induction false} ApplyByKey(a: Json, cs: seq<Change>, key: string)
    requires a.Object? && AllBelow(cs)
    ensures var v := ApplyAll(Some(a), cs);
      && v.Some? && v.value.Object? && v.value.isRoot == a.isRoot
      && Own(v.value.fields, key) == ApplyAll(Own(a.fields, key), Below(cs, key))
  {
    if cs != [] {
      var front, c := cs[..|cs| - 1], cs[|cs| - 1];
      ApplyByKey(a, front, key);
      assert cs[|cs| - 1].path != [];
      if c.path[0] == key {
        var tail := Change(c.path[1..], c.before, c.after);
        assert (Below(front, key) + [tail])[..|Below(front, key)|] == Below(front, key);
      } else {
        assert Below(cs, key) == Below(front, key);
      }
    }
  }

  lemma {:induction false} BelowConcat(a: seq<Change>, b: seq<Change>, key: string)
    ensures Below(a + b, key) == Below(a, key) + Below(b, key)
  {
    if b == [] {
      assert a + b == a;
    } else {
      BelowConcat(a, b[..|b| - 1], key);
      assert (a + b)[..|a + b| - 1] == a + b[..|b| - 1];
    }
  }

  lemma {:induction false} UnderIsBelow(k: string, cs: seq<Change>)
    ensures AllBelow(Under(k, cs))
  {
    if cs != [] {
      UnderIsBelow(k, cs[..|cs| - 1]);
    }
  }

  lemma BelowAppend(cs: seq<Change>, c: Change, key: string)
    ensures Below(cs + [c], key) ==
      Below(cs, key) + if c.path != [] && c.path[0] == key then [Change(c.path[1..], c.before, c.after)] else []
  {
    assert (cs + [c])[..|cs|] == cs;
  }

  lemma {:induction false} BelowUnder(k: string, cs: seq<Change>, key: string)
    ensures Below(Under(k, cs), key) == if k == key then cs else []
  {
    if cs != [] {
      var front, c := cs[..|cs| - 1], cs[|cs| - 1];
      BelowUnder(k, front, key);
      var up := Change([k] + c.path, c.before, c.after);
      BelowAppend(Under(k, front), up, key);
      assert Under(k, cs) == Under(k, front) + [up];
      hide Below;
      hide Under;
      assert up.path[1..] == c.path;
      assert cs == front + [c];
    }
  }

  lemma BelowNone(key: string)
    ensures Below([], key) == []
  {
  }

  lemma {:induction false} BelowDiffKeys(a: Json, b: Json, keys: set<string>, key: string)
    requires a.Object? && b.Object? && keys <= a.fields.Keys + b.fields.Keys
    ensures Below(DiffKeys(a, b, keys), key) == if key in keys then KeyDiff(a, b, key) else []
    ensures AllBelow(DiffKeys(a, b, keys))
    decreases |keys|
  {
    hide DiffKeys;
    hide KeyDiff;
    hide Below;
    hide Under;
    if keys == {} {
      NoKeys(a, b);
      BelowNone(key);
    } else {
      var k := SomeKey(a, b, keys);
      BelowDiffKeys(a, b, keys - {k}, key);
      BelowUnder(k, KeyDiff(a, b, k), key);
      UnderIsBelow(k, KeyDiff(a, b, k));
      BelowConcat(DiffKeys(a, b, keys - {k}), Under(k, KeyDiff(a, b, k)), key);
    }
  }

  // ---- any order ------------------------------------------------------------------------------------------

  predicate SameChanges(cs: seq<Change>, ds: seq<Change>) {
    multiset(cs) == multiset(ds)
  }

  /** A change is the one below `key` that `c` is exactly when it is `c` under `key`. */
  lemma BelowOne(key: string, last: Change, c: Change)
    ensures last == Change([key] + c.path, c.before, c.after) <==>
      last.path != [] && last.path[0] == key && Change(last.path[1..], last.before, last.after) == c
  {
    assert ([key] + c.path)[1..] == c.path;
    if last.path != [] && last.path[0] == key {
      assert [key] + last.path[1..] == last.path;
    }
  }

  lemma {:induction false} BelowCounts(cs: seq<Change>, key: string, c: Change)
    ensures multiset(Below(cs, key))[c] == multiset(cs)[Change([key] + c.path, c.before, c.after)]
  {
    if cs != [] {
      var front, last := cs[..|cs| - 1], cs[|cs| - 1];
      BelowCounts(front, key, c);
      BelowAppend(front, last, key);
      assert cs == front + [last];
      hide Below;
      BelowOne(key, last, c);
    }
  }

  lemma BelowSame(cs: seq<Change>, ds: seq<Change>, key: string)
    requires SameChanges(cs, ds)
    ensures SameChanges(Below(cs, key), Below(ds, key))
  {
    forall c: Change
      ensures multiset(Below(cs, key))[c] == multiset(Below(ds, key))[c]
    {
      BelowCounts(cs, key, c);
      BelowCounts(ds, key, c);
    }
  }

  lemma SameInside(cs: seq<Change>, ds: seq<Change>)
    requires SameChanges(cs, ds)
    ensures |cs| == |ds|
    ensures AllBelow(ds) ==> AllBelow(cs)
    ensures |ds| == 1 ==> cs == ds
  {
    assert |multiset(cs)| == |cs| && |multiset(ds)| == |ds|;
    forall i | 0 <= i < |cs|
      ensures cs[i] in ds
    {
      assert cs[i] in multiset(cs);
    }
  }

  // ---- when the changes give the second value -------------------------------------------------------------

  /**
   * No inherited name is in the way: no key with one was removed, and no object was added under `__proto__`, at any
   * position both values share.
   */
  ghost predicate Clean(a: Json, b: Json) {
    a.Object? && b.Object? ==>
      && (forall k | k in a.fields && k !in b.fields :: Inherited(k, false).None?)
      && (forall k | k in b.fields && k !in a.fields :: k == PROTO ==> !b.fields[k].Object?)
      && (forall k | k in a.fields && k in b.fields :: Clean(a.fields[k], b.fields[k]))
  }

  lemma BelowOfDiff(a: Json, b: Json, cs: seq<Change>, key: string)
    requires a.Object? && b.Object? && SameChanges(cs, Diff(a, b))
    ensures AllBelow(cs)
    ensures SameChanges(Below(cs, key), if key in a.fields.Keys + b.fields.Keys then KeyDiff(a, b, key) else [])
  {
    BelowDiffKeys(a, b, a.fields.Keys + b.fields.Keys, key);
    SameInside(cs, Diff(a, b));
    BelowSame(cs, Diff(a, b), key);
  }

  lemma OneChange(v: Option<Json>, c: Change)
    requires c.path == []
    ensures ApplyAll(v, [c]) == c.after
  {
    assert [c][..0] == [];
  }

  lemma AddedOrRemoved(a: Json, b: Json, cs: seq<Change>, key: string)
    requires a.Object? && b.Object? && IsJson(a) && IsJson(b) && SameChanges(cs, Diff(a, b))
    requires (key in a.fields) != (key in b.fields)
    requires key in a.fields ==> Inherited(key, false).None?
    requires key in b.fields ==> (key == PROTO ==> !b.fields[key].Object?)
    ensures ApplyAll(Own(a.fields, key), Below(cs, key)) == Own(b.fields, key)
  {
    BelowOfDiff(a, b, cs, key);
    var x, y := Lookup(a, key), Lookup(b, key);
    var d := KeyDiff(a, b, key);
    if key in b.fields {
      assert IsJson(b.fields[key]);
      if x.Some? {
        assert x.value != b.fields[key];
        assert d == Diff(x.value, b.fields[key]) == [Change([], x, y)];
      } else {
        assert d == [Change([], x, y)];
      }
    } else {
      assert y == None;
      assert d == [Change([], x, y)];
    }
    assert |d| == 1 && d[0].path == [] && d[0].after == Own(b.fields, key);
    SameInside(Below(cs, key), d);
    OneChange(Own(a.fields, key), d[0]);
    assert d == [d[0]];
  }

  lemma SameFields(a: Json, b: Json)
    requires a.Object? && b.Object? && a.isRoot == b.isRoot
    requires forall k: string :: Own(a.fields, k) == Own(b.fields, k)
    ensures a == b
  {
    assert forall k: string :: (k in a.fields <==> Own(a.fields, k).Some?) && (k in b.fields <==> Own(b.fields, k).Some?);
    assert forall k | k in a.fields :: a.fields[k] == Own(a.fields, k).value && b.fields[k] == Own(b.fields, k).value;
    assert a.fields == b.fields;
  }

  /** Applied in any order to the first value, the changes give the second. */
  lemma {:induction false} PatchGivesAfter(a: Json, b: Json, cs: seq<Change>)
    requires IsJson(a) && IsJson(b) && Clean(a, b) && SameChanges(cs, Diff(a, b))
    ensures ApplyAll(Some(a), cs) == Some(b)
    decreases a
  {
    if a.Object? && b.Object? {
      var r := ApplyAll(Some(a), cs);
      BelowOfDiff(a, b, cs, "");
      ApplyByKey(a, cs, "");
      forall k: string
        ensures r.Some? && r.value.Object? && Own(r.value.fields, k) == Own(b.fields, k)
      {
        BelowOfDiff(a, b, cs, k);
        ApplyByKey(a, cs, k);
        if k in a.fields && k in b.fields {
          PatchGivesAfter(a.fields[k], b.fields[k], Below(cs, k));
        } else if k in a.fields || k in b.fields {
          AddedOrRemoved(a, b, cs, k);
        }
      }
      SameFields(r.value, b);
    } else {
      SameInside(cs, Diff(a, b));
      if a != b {
        OneChange(Some(a), Change([], Some(a), Some(b)));
      }
    }
  }

  /** Setting below something does not remove it, and something missing stays missing. */
  lemma {:induction false} Persists(v: Option<Json>, cs: seq<Change>)
    ensures v.Some? && (forall i | 0 <= i < |cs| && cs[i].path == [] :: cs[i].after.Some?) ==> ApplyAll(v, cs).Some?
    ensures v.None? && AllBelow(cs) ==> ApplyAll(v, cs).None?
  {
    if cs != [] {
      Persists(v, cs[..|cs| - 1]);
    }
  }

  lemma DiffSetsOnly(x: Json, y: Json, cs: seq<Change>)
    requires SameChanges(cs, Diff(x, y))
    ensures forall i | 0 <= i < |cs| && cs[i].path == [] :: cs[i].after.Some?
    ensures x.Object? && y.Object? ==> AllBelow(cs)
  {
    SameInside(cs, Diff(x, y));
    if x.Object? && y.Object? {
      BelowDiffKeys(x, y, x.fields.Keys + y.fields.Keys, "");
    }
  }

  /** A removed key with an inherited name stays. */
  lemma RemovedStays(a: Json, b: Json, cs: seq<Change>, k: string)
    requires a.Object? && b.Object? && !b.isRoot && SameChanges(cs, Diff(a, b))
    requires k in a.fields && k !in b.fields && Inherited(k, false).Some?
    ensures ApplyAll(Some(a), cs) != Some(b)
  {
    BelowOfDiff(a, b, cs, k);
    ApplyByKey(a, cs, k);
    assert KeyDiff(a, b, k) == Diff(a.fields[k], Inherited(k, false).value);
    hide KeyDiff;
    hide Diff;
    hide Inherited;
    DiffSetsOnly(a.fields[k], Inherited(k, false).value, Below(cs, k));
    Persists(Some(a.fields[k]), Below(cs, k));
  }

  /** An object added under `__proto__` is compared with Object.prototype and does not arrive. */
  lemma AddedProtoIsLost(a: Json, b: Json, cs: seq<Change>)
    requires a.Object? && b.Object? && !a.isRoot && SameChanges(cs, Diff(a, b))
    requires PROTO in b.fields && PROTO !in a.fields && b.fields[PROTO].Object?
    ensures ApplyAll(Some(a), cs) != Some(b)
  {
    BelowOfDiff(a, b, cs, PROTO);
    ApplyByKey(a, cs, PROTO);
    assert KeyDiff(a, b, PROTO) == Diff(ObjectPrototype, b.fields[PROTO]);
    hide KeyDiff;
    hide Diff;
    DiffSetsOnly(ObjectPrototype, b.fields[PROTO], Below(cs, PROTO));
    Persists(None, Below(cs, PROTO));
  }

  /** Where an inherited name is in the way, the changes do not give the second value, in whatever order. */
  lemma {:induction false} PatchMisses(a: Json, b: Json, cs: seq<Change>)
    requires IsJson(a) && IsJson(b) && !Clean(a, b) && SameChanges(cs, Diff(a, b))
    ensures ApplyAll(Some(a), cs) != Some(b)
    decreases a
  {
    if k :| k in a.fields && k !in b.fields && Inherited(k, false).Some? {
      RemovedStays(a, b, cs, k);
    } else if PROTO in b.fields && PROTO !in a.fields && b.fields[PROTO].Object? {
      AddedProtoIsLost(a, b, cs);
    } else {
      var k :| k in a.fields && k in b.fields && !Clean(a.fields[k], b.fields[k]);
      BelowOfDiff(a, b, cs, k);
      ApplyByKey(a, cs, k);
      hide Below;
      PatchMisses(a.fields[k], b.fields[k], Below(cs, k));
    }
  }

  /** Applied in any order to the first value, the differences give the second exactly when no inherited name is in the way. */
  lemma PatchGivesAfterIff(a: Json, b: Json, cs: seq<Change>)
    requires IsJson(a) && IsJson(b) && SameChanges(cs, Diff(a, b))
    ensures ApplyAll(Some(a), cs) == Some(b) <==> Clean(a, b)
  {
    if Clean(a, b) {
      PatchGivesAfter(a, b, cs);
    } else {
      PatchMisses(a, b, cs);
    }
  }

  // ---- when there are no differences ----------------------------------------------------------------------

  /** An object in which nothing can be told from Object.prototype: empty, or just a null `__proto__`. */
  ghost predicate Hidden(v: Json) {
    v == Object(map[], false) || v == Object(map[PROTO := Null], false)
  }

  /** Deeply equal, but for keys `__proto__` with a hidden value that one side has and the other has not. */
  ghost predicate Alike(a: Json, b: Json) {
    if a.Object? && b.Object? then
      && (forall k | k in a.fields && k !in b.fields :: k == PROTO && Hidden(a.fields[k]))
      && (forall k | k in b.fields && k !in a.fields :: k == PROTO && Hidden(b.fields[k]))
      && (forall k | k in a.fields && k in b.fields :: Alike(a.fields[k], b.fields[k]))
    else a == b
  }

  lemma {:induction false} DiffKeysEmptyIff(a: Json, b: Json, keys: set<string>)
    requires a.Object? && b.Object? && keys <= a.fields.Keys + b.fields.Keys
    ensures DiffKeys(a, b, keys) == [] <==> forall k | k in keys :: KeyDiff(a, b, k) == []
    decreases |keys|
  {
    if keys != {} {
      var k := SomeKey(a, b, keys);
      hide KeyDiff;
      DiffKeysEmptyIff(a, b, keys - {k});
      UnderPaths(k, KeyDiff(a, b, k));
      assert forall x | x in keys :: x == k || x in keys - {k};
    }
  }

  /** Compared with Object.prototype, a JSON value shows no difference exactly when it is hidden. */
  lemma KeyHiddenIff(v: Json, k: string)
    requires v.Object? && k in v.fields && IsJson(v.fields[k])
    ensures KeyDiff(ObjectPrototype, v, k) == [] <==> k == PROTO && v.fields[k] == Null
    ensures KeyDiff(v, ObjectPrototype, k) == [] <==> k == PROTO && v.fields[k] == Null
  {
  }

  lemma HiddenIff(v: Json)
    requires IsJson(v)
    ensures Diff(ObjectPrototype, v) == [] <==> Hidden(v)
    ensures Diff(v, ObjectPrototype) == [] <==> Hidden(v)
  {
    if v.Object? {
      DiffKeysEmptyIff(ObjectPrototype, v, v.fields.Keys);
      DiffKeysEmptyIff(v, ObjectPrototype, v.fields.Keys);
      assert ObjectPrototype.fields.Keys + v.fields.Keys == v.fields.Keys == v.fields.Keys + ObjectPrototype.fields.Keys;
      forall k | k in v.fields
        ensures KeyDiff(ObjectPrototype, v, k) == [] <==> k == PROTO && v.fields[k] == Null
        ensures KeyDiff(v, ObjectPrototype, k) == [] <==> k == PROTO && v.fields[k] == Null
      {
        KeyHiddenIff(v, k);
      }
      hide KeyDiff;
      hide DiffKeys;
      if forall k | k in v.fields :: k == PROTO && v.fields[k] == Null {
        assert v.fields == if PROTO in v.fields then map[PROTO := Null] else map[];
      }
    }
  }

  lemma LoneKeyEmptyIff(a: Json, b: Json, key: string)
    requires a.Object? && b.Object? && IsJson(a) && IsJson(b) && (key in a.fields) != (key in b.fields)
    ensures KeyDiff(a, b, key) == [] <==> key == PROTO && Hidden(if key in a.fields then a.fields[key] else b.fields[key])
  {
    var v := if key in a.fields then a.fields[key] else b.fields[key];
    assert IsJson(v);
    HiddenIff(v);
  }

  /** There are no differences exactly when the values are equal but for hidden `__proto__` keys. */
  lemma {:induction false} EmptyIffAlike(a: Json, b: Json)
    requires IsJson(a) && IsJson(b)
    ensures Diff(a, b) == [] <==> Alike(a, b)
    decreases a
  {
    if a.Object? && b.Object? {
      DiffKeysEmptyIff(a, b, a.fields.Keys + b.fields.Keys);
      forall k | k in a.fields.Keys + b.fields.Keys
        ensures KeyDiff(a, b, k) == [] <==>
          if k in a.fields && k in b.fields then Alike(a.fields[k], b.fields[k])
          else k == PROTO && Hidden(if k in a.fields then a.fields[k] else b.fields[k])
      {
        if k in a.fields && k in b.fields {
          EmptyIffAlike(a.fields[k], b.fields[k]);
        } else {
          LoneKeyEmptyIff(a, b, k);
        }
      }
      hide KeyDiff;
      hide Hidden;
    }
  }

  /** No `__proto__` key with a hidden value is on one side only, at any position both values share. */
  ghost predicate NoneHidden(a: Json, b: Json) {
    a.Object? && b.Object? ==>
      && (PROTO in a.fields && PROTO !in b.fields ==> !Hidden(a.fields[PROTO]))
      && (PROTO in b.fields && PROTO !in a.fields ==> !Hidden(b.fields[PROTO]))
      && (forall k | k in a.fields && k in b.fields :: NoneHidden(a.fields[k], b.fields[k]))
  }

  lemma {:induction false} AlikeIsEqual(a: Json, b: Json)
    requires IsJson(a) && IsJson(b) && NoneHidden(a, b) && Alike(a, b)
    ensures a == b
    decreases a
  {
    if a.Object? && b.Object? {
      forall k | k in a.fields && k in b.fields
        ensures a.fields[k] == b.fields[k]
      {
        AlikeIsEqual(a.fields[k], b.fields[k]);
      }
      assert a.fields == b.fields;
    }
  }

  lemma {:induction false} AlikeItself(a: Json)
    ensures Alike(a, a) && NoneHidden(a, a)
  {
    if a.Object? {
      forall k | k in a.fields
        ensures Alike(a.fields[k], a.fields[k]) && NoneHidden(a.fields[k], a.fields[k])
      {
        AlikeItself(a.fields[k]);
      }
    }
  }

  /**
   * "No differences" means "deeply equal" exactly when the two are not alike, or no hidden `__proto__` key makes the
   * difference between alike and equal.
   */
  lemma EmptyMeansEqualIff(a: Json, b: Json)
    requires IsJson(a) && IsJson(b)
    ensures (Diff(a, b) == [] <==> a == b) <==> (Alike(a, b) ==> NoneHidden(a, b))
  {
    EmptyIffAlike(a, b);
    if a == b {
      AlikeItself(a);
    } else if Alike(a, b) && NoneHidden(a, b) {
      AlikeIsEqual(a, b);
    }
  }

  /** `{}` and `{"__proto__": {}}` differ, but no difference is reported. */
  lemma ProtoIsMissed()
    ensures var a, b := Object(map[], false), Object(map[PROTO := Object(map[], false)], false);
      IsJson(a) && IsJson(b) && a != b && Diff(a, b) == []
  {
    var a, b := Object(map[], false), Object(map[PROTO := Object(map[], false)], false);
    assert PROTO in b.fields;
    EmptyIffAlike(a, b);
  }

  // ---- paths ----------------------------------------------------------------------------------------------

  /** No change is at the path of another, or above it. */
  ghost predicate Apart(cs: seq<Change>) {
    forall i, j | 0 <= i < |cs| && 0 <= j < |cs| && i != j :: !(cs[i].path <= cs[j].path)
  }

  lemma PrefixBelow(key: string, p: seq<string>, q: seq<string>)
    ensures [key] + p <= [key] + q <==> p <= q
  {
    assert ([key] + p)[1..] == p && ([key] + q)[1..] == q;
    if [key] + p <= [key] + q {
      assert forall n | 0 <= n < |p| :: p[n] == ([key] + p)[n + 1] == ([key] + q)[n + 1] == q[n];
    }
  }

  lemma UnderApart(key: string, cs: seq<Change>)
    requires Apart(cs)
    ensures Apart(Under(key, cs))
  {
    UnderPaths(key, cs);
    hide Under;
    var u := Under(key, cs);
    forall i, j | 0 <= i < |u| && 0 <= j < |u| && i != j
      ensures !(u[i].path <= u[j].path)
    {
      PrefixBelow(key, cs[i].path, cs[j].path);
    }
  }

  ghost predicate StartIn(cs: seq<Change>, keys: set<string>) {
    forall i | 0 <= i < |cs| :: cs[i].path != [] && cs[i].path[0] in keys
  }

  lemma ApartConcat(a: seq<Change>, b: seq<Change>, keys: set<string>, k: string)
    requires Apart(a) && Apart(b) && StartIn(a, keys - {k}) && StartIn(b, {k}) && k in keys
    ensures Apart(a + b) && StartIn(a + b, keys)
  {
    var all := a + b;
    forall i, j | 0 <= i < |all| && 0 <= j < |all| && i != j
      ensures !(all[i].path <= all[j].path)
    {
      assert all[i].path != [] && all[j].path != [];
    }
  }

  lemma {:induction false} DiffApart(a: Json, b: Json)
    ensures Apart(Diff(a, b))
    decreases Height(a) + Height(b), 1
  {
    if a.Object? && b.Object? {
      DiffKeysApart(a, b, a.fields.Keys + b.fields.Keys);
    }
  }

  lemma {:induction false} DiffKeysApart(a: Json, b: Json, keys: set<string>)
    requires a.Object? && b.Object? && keys <= a.fields.Keys + b.fields.Keys
    ensures Apart(DiffKeys(a, b, keys)) && StartIn(DiffKeys(a, b, keys), keys)
    decreases Height(a) + Height(b), 0, |keys|
  {
    if keys != {} {
      var k := SomeKey(a, b, keys);
      DiffKeysApart(a, b, keys - {k});
      LookupIsLower(a, k);
      LookupIsLower(b, k);
      var x, y := Lookup(a, k), Lookup(b, k);
      if x.Some? && y.Some? {
        DiffApart(x.value, y.value);
      }
      assert Apart(KeyDiff(a, b, k));
      hide KeyDiff;
      UnderApart(k, KeyDiff(a, b, k));
      UnderPaths(k, KeyDiff(a, b, k));
      hide Under;
      hide DiffKeys;
      ApartConcat(DiffKeys(a, b, keys - {k}), Under(k, KeyDiff(a, b, k)), keys, k);
    }
  }

  /** No change's pointer is that of another, or continues it with whole tokens. */
  lemma PointersAreApart(a: Json, b: Json, i: nat, j: nat, rest: seq<string>)
    requires i < |Diff(a, b)| && j < |Diff(a, b)| && i != j
    ensures Pointer(Diff(a, b)[j].path) != Pointer(Diff(a, b)[i].path) + Pointer(rest)
  {
    DiffApart(a, b);
    hide Diff;
    var p, q := Diff(a, b)[i].path, Diff(a, b)[j].path;
    if Pointer(q) == Pointer(p) + Pointer(rest) {
      ContinuedIsPrefix(p, q, rest);
    }
  }

  // ---- the recursion that collects them -------------------------------------------------------------------

  function Prefixed(path: seq<string>, cs: seq<Change>): seq<Change> {
    if cs == [] then []
    else
      var c := cs[|cs| - 1];
      Prefixed(path, cs[..|cs| - 1]) + [Change(path + c.path, c.before, c.after)]
  }

  lemma {:induction false} PrefixedConcat(path: seq<string>, a: seq<Change>, b: seq<Change>)
    ensures Prefixed(path, a + b) == Prefixed(path, a) + Prefixed(path, b)
  {
    if b == [] {
      assert a + b == a;
    } else {
      PrefixedConcat(path, a, b[..|b| - 1]);
      assert (a + b)[..|a + b| - 1] == a + b[..|b| - 1];
    }
  }

  lemma {:induction false} PrefixedUnder(path: seq<string>, key: string, cs: seq<Change>)
    ensures Prefixed(path, Under(key, cs)) == Prefixed(path + [key], cs)
  {
    if cs != [] {
      var front, c := cs[..|cs| - 1], cs[|cs| - 1];
      PrefixedUnder(path, key, front);
      var u := Under(key, cs);
      assert u[..|u| - 1] == Under(key, front);
      assert path + ([key] + c.path) == path + [key] + c.path;
    }
  }

  /** In whichever order the keys come, the changes are the same. */
  lemma {:induction false} KeyOutOfOrder(a: Json, b: Json, keys: set<string>, key: string)
    requires a.Object? && b.Object? && keys <= a.fields.Keys + b.fields.Keys && key in keys
    ensures multiset(DiffKeys(a, b, keys)) ==
      multiset(DiffKeys(a, b, keys - {key})) + multiset(Under(key, KeyDiff(a, b, key)))
    decreases |keys|
  {
    hide DiffKeys;
    hide Under;
    hide KeyDiff;
    var k := SomeKey(a, b, keys);
    if k != key {
      KeyOutOfOrder(a, b, keys - {k}, key);
      KeyOutOfOrder(a, b, keys - {key}, k);
      assert keys - {k} - {key} == keys - {key} - {k};
      var rest := DiffKeys(a, b, keys - {k} - {key});
      var mine, other := Under(key, KeyDiff(a, b, key)), Under(k, KeyDiff(a, b, k));
      assert multiset(DiffKeys(a, b, keys)) == multiset(rest) + multiset(mine) + multiset(other);
    }
  }

  lemma {:induction false} PrefixedCounts(path: seq<string>, cs: seq<Change>, c: Change)
    ensures multiset(Prefixed(path, cs))[c] ==
      if path <= c.path then multiset(cs)[Change(c.path[|path|..], c.before, c.after)] else 0
  {
    if cs != [] {
      var front, last := cs[..|cs| - 1], cs[|cs| - 1];
      PrefixedCounts(path, front, c);
      assert cs == front + [last];
      assert (path + last.path)[|path|..] == last.path;
      if path <= c.path {
        assert path + c.path[|path|..] == c.path;
      }
    }
  }

  lemma PrefixedSame(path: seq<string>, a: seq<Change>, b: seq<Change>)
    requires multiset(a) == multiset(b)
    ensures multiset(Prefixed(path, a)) == multiset(Prefixed(path, b))
  {
    forall c: Change
      ensures multiset(Prefixed(path, a))[c] == multiset(Prefixed(path, b))[c]
    {
      PrefixedCounts(path, a, c);
      PrefixedCounts(path, b, c);
    }
  }

  /** One key more, at a path. */
  lemma OneMoreKey(a: Json, b: Json, keys: set<string>, key: string, path: seq<string>)
    requires a.Object? && b.Object? && keys <= a.fields.Keys + b.fields.Keys && key in keys
    ensures multiset(Prefixed(path, DiffKeys(a, b, keys))) ==
      multiset(Prefixed(path, DiffKeys(a, b, keys - {key}))) + multiset(Prefixed(path + [key], KeyDiff(a, b, key)))
  {
    hide DiffKeys;
    hide KeyDiff;
    var split := DiffKeys(a, b, keys - {key}) + Under(key, KeyDiff(a, b, key));
    KeyOutOfOrder(a, b, keys, key);
    assert multiset(split) == multiset(DiffKeys(a, b, keys));
    PrefixedSame(path, split, DiffKeys(a, b, keys));
    PrefixedConcat(path, DiffKeys(a, b, keys - {key}), Under(key, KeyDiff(a, b, key)));
    PrefixedUnder(path, key, KeyDiff(a, b, key));
  }

  lemma PrefixedOne(path: seq<string>, before: Option<Json>, after: Option<Json>)
    ensures Prefixed(path, [Change([], before, after)]) == [Change(path, before, after)]
  {
    assert [Change([], before, after)][..0] == [];
    assert path + [] == path;
  }

  lemma KeyDiffIs(a: Json, b: Json, key: string)
    requires a.Object? && b.Object? && key in a.fields.Keys + b.fields.Keys
    ensures var x, y := Lookup(a, key), Lookup(b, key);
      KeyDiff(a, b, key) == if x.Some? && y.Some? then Diff(x.value, y.value) else [Change([], x, y)]
  {
  }

  // ---- which differences there are --------------------------------------------------------------------------

  /** What a path leads to; through something that is no object it leads nowhere. */
  function Find(v: Option<Json>, path: seq<string>): Option<Json>
    decreases |path|
  {
    if path == [] then v
    else if v.None? || !v.value.Object? then None
    else Find(Lookup(v.value, path[0]), path[1..])
  }

  /** All along the path both sides are objects and one has the next key; there they differ and are not both objects. */
  predicate DifferAt(x: Option<Json>, y: Option<Json>, path: seq<string>)
    decreases |path|
  {
    var both := x.Some? && y.Some? && x.value.Object? && y.value.Object?;
    if path == [] then x != y && !both
    else
      && both && path[0] in x.value.fields.Keys + y.value.fields.Keys
      && DifferAt(Lookup(x.value, path[0]), Lookup(y.value, path[0]), path[1..])
  }

  predicate IsDifference(x: Option<Json>, y: Option<Json>, c: Change) {
    DifferAt(x, y, c.path) && c.before == Find(x, c.path) && c.after == Find(y, c.path)
  }

  lemma KeyDifference(a: Json, b: Json, c: Change)
    requires a.Object? && b.Object? && c.path != [] && c.path[0] in a.fields.Keys + b.fields.Keys
    ensures IsDifference(Some(a), Some(b), c) <==>
      IsDifference(Lookup(a, c.path[0]), Lookup(b, c.path[0]), Change(c.path[1..], c.before, c.after))
  {
  }

  /** The differences are each of these once, with what either side has at the path. */
  lemma {:induction false} DiffIsEveryDifference(a: Json, b: Json, c: Change)
    ensures multiset(Diff(a, b))[c] == if IsDifference(Some(a), Some(b), c) then 1 else 0
    decreases |c.path|
  {
    if a.Object? && b.Object? {
      var keys := a.fields.Keys + b.fields.Keys;
      assert Diff(a, b) == DiffKeys(a, b, keys);
      if c.path == [] {
        BelowDiffKeys(a, b, keys, "");
      } else {
        var key, tail := c.path[0], Change(c.path[1..], c.before, c.after);
        assert [key] + tail.path == c.path;
        BelowDiffKeys(a, b, keys, key);
        BelowCounts(DiffKeys(a, b, keys), key, tail);
        if key in keys {
          KeyDifference(a, b, c);
          KeyDiffIs(a, b, key);
          var x, y := Lookup(a, key), Lookup(b, key);
          if x.Some? && y.Some? {
            DiffIsEveryDifference(x.value, y.value, tail);
          } else {
            OneSided(x, y, tail);
          }
        }
        hide *;
      }
    } else {
      NotBothObjects(a, b, c);
    }
  }

  lemma NotBothObjects(a: Json, b: Json, c: Change)
    requires !(a.Object? && b.Object?)
    ensures multiset(Diff(a, b))[c] == if IsDifference(Some(a), Some(b), c) then 1 else 0
  {
  }

  lemma OneSided(x: Option<Json>, y: Option<Json>, c: Change)
    requires x.None? != y.None?
    ensures multiset([Change([], x, y)])[c] == if IsDifference(x, y, c) then 1 else 0
  {
  }

  /** Pushes the differences at and below `path` to the end of the list, key by key in any order. */
  method Walk(before: Json, after: Json, path: seq<string>, list: seq<Change>) returns (out: seq<Change>)
    ensures multiset(out) == multiset(list) + multiset(Prefixed(path, Diff(before, after)))
    decreases Height(before) + Height(after), 1
  {
    out := list;
    if before.Object? && after.Object? {
      var keys := before.fields.Keys + after.fields.Keys;
      var left := keys;
      assert Prefixed(path, DiffKeys(before, after, {})) == [];
      assert keys - left == {};
      assert Diff(before, after) == DiffKeys(before, after, keys);
      hide *;
      while left != {}
        invariant left <= keys
        invariant multiset(out) == multiset(list) + multiset(Prefixed(path, DiffKeys(before, after, keys - left)))
        decreases left
      {
        var key :| key in left;
        assert keys - left == keys - (left - {key}) - {key};
        OneMoreKey(before, after, keys - (left - {key}), key, path);
        left := left - {key};
        out := WalkKey(before, after, key, path, out);
      }
      assert keys - left == keys;
    } else if before != after {
      PrefixedOne(path, Some(before), Some(after));
      out := out + [Change(path, Some(before), Some(after))];
    }
  }

  method WalkKey(before: Json, after: Json, key: string, path: seq<string>, list: seq<Change>) returns (out: seq<Change>)
    requires before.Object? && after.Object? && key in before.fields.Keys + after.fields.Keys
    ensures multiset(out) == multiset(list) + multiset(Prefixed(path + [key], KeyDiff(before, after, key)))
    decreases Height(before) + Height(after), 0
  {
    LookupIsLower(before, key);
    LookupIsLower(after, key);
    var x, y := Lookup(before, key), Lookup(after, key);
    KeyDiffIs(before, after, key);
    PrefixedOne(path + [key], x, y);
    if x.Some? && y.Some? {
      out := Walk(x.value, y.value, path + [key], list);
    } else {
      out := list + [Change(path + [key], x, y)];
    }
  }

  lemma {:induction false} AtTheRoot(cs: seq<Change>)
    ensures Prefixed([], cs) == cs
  {
    if cs != [] {
      AtTheRoot(cs[..|cs| - 1]);
      assert [] + cs[|cs| - 1].path == cs[|cs| - 1].path;
    }
  }

  /** The differences, in some order; applied to the first value they give the second if no inherited name is in the way. */
  method Differences(before: Json, after: Json) returns (out: seq<Change>)
    requires IsJson(before) && IsJson(after)
    ensures ApplyAll(Some(before), out) == Some(after) <==> Clean(before, after)
    ensures out == [] <==> Alike(before, after)
    ensures forall c :: multiset(out)[c] == if IsDifference(Some(before), Some(after), c) then 1 else 0
  {
    out := Walk(before, after, [], []);
    forall c
      ensures multiset(Diff(before, after))[c] == if IsDifference(Some(before), Some(after), c) then 1 else 0
    {
      DiffIsEveryDifference(before, after, c);
    }
    AtTheRoot(Diff(before, after));
    PatchGivesAfterIff(before, after, out);
    SameInside(out, Diff(before, after));
    EmptyIffAlike(before, after);
  }
}
