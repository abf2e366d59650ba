/** JSON values as the graph code sees them, with `String(x)`, truthiness and `sortObject`. */
module JsonValue {
  import opened Ordering
  import opened Decimals

  /** A number is its canonical decimal text; `Null` also stands for a missing property. */
  datatype Json =
    | Null
    | Bool(b: bool)
    | Num(text: string)
    | Str(s: string)
    | Arr(items: seq<Json>)
    | Obj(props: seq<Prop>)

  datatype Prop = Prop(name: string, value: Json)

  function PropName(p: Prop): string { p.name }

  ghost predicate UniqueNames(props: seq<Prop>) {
    forall i, j | 0 <= i < j < |props| :: PropName(props[i]) != PropName(props[j])
  }

  /** No object, at any depth, has a property twice, and every number prints as something. */
  ghost predicate Wf(v: Json) {
    match v
    case Num(text) => text != ""
    case Arr(items) => forall x | x in items :: Wf(x)
    case Obj(props) => UniqueNames(props) && forall p | p in props :: Wf(p.value)
    case _ => true
  }

  predicate Truthy(v: Json) {
    match v
    case Null => false
    case Bool(b) => b
    case Num(text) => text != "0" && text != "NaN"
    case Str(s) => s != ""
    case _ => true
  }

  /** `String(v)`: arrays join their elements with commas, null elements print as nothing. */
  function ToText(v: Json): string
    decreases v
  {
    match v
    case Null => "null"
    case Bool(b) => if b then "true" else "false"
    case Num(text) => text
    case Str(s) => s
    case Arr(items) => JoinText(items)
    case Obj(_) => "[object Object]"
  }

  function JoinText(items: seq<Json>): string
    decreases items
  {
    if items == [] then ""
    else
      var head := if items[0].Null? then "" else ToText(items[0]);
      if |items| == 1 then head else head + "," + JoinText(items[1..])
  }

  /** Falsy are null, `false`, zero, NaN and the empty text. */
  lemma TruthyTells(v: Json)
    ensures !Truthy(v) <==> v == Null || v == Bool(false) || v == Num("0") || v == Num("NaN") || v == Str("")
    ensures forall fallback :: Or(v, fallback) == if v in {Null, Bool(false), Num("0"), Num("NaN"), Str("")} then fallback else v
  {
  }

  /** How values print: an array joins its elements with commas, null ones printing as nothing. */
  lemma TextTells(v: Json)
    ensures v == Null ==> ToText(v) == "null"
    ensures v == Bool(true) ==> ToText(v) == "true"
    ensures v == Bool(false) ==> ToText(v) == "false"
    ensures forall s | v == Str(s) || v == Num(s) :: ToText(v) == s
    ensures v.Obj? ==> ToText(v) == "[object Object]"
    ensures v == Arr([]) ==> ToText(v) == ""
    ensures forall x | v == Arr([x]) :: ToText(v) == if x == Null then "" else ToText(x)
    ensures v.Arr? && |v.items| > 1 ==>
      ToText(v) == (if v.items[0] == Null then "" else ToText(v.items[0])) + "," + ToText(Arr(v.items[1..]))
  {
  }

  /** `v[name]`, `Null` when `v` is not an object or lacks the property. */
  function Get(v: Json, name: string): Json {
    if v.Obj? then Lookup(v.props, name) else Null
  }

  function Lookup(props: seq<Prop>, name: string): Json {
    if props == [] then Null
    else if props[0].name == name then props[0].value
    else Lookup(props[1..], name)
  }

  /** `v || fallback`. */
  function Or(v: Json, fallback: Json): Json {
    if Truthy(v) then v else fallback
  }

  /** Property names that engines list first, in ascending numeric order. */
  predicate IsArrayIndex(s: string) { Canonical(s) && ParseDecimal(s) < 0xFFFF_FFFF }

  predicate IndexLess(a: string, b: string) {
    |a| < |b| || (|a| == |b| && CodeUnitLess(a, b))
  }

  function Select(props: seq<Prop>, indices: bool): (r: seq<Prop>)
  {
    if props == [] then []
    else (if IsArrayIndex(props[0].name) == indices then [props[0]] else []) + Select(props[1..], indices)
  }

  lemma SelectSplits(props: seq<Prop>)
    ensures multiset(Select(props, true)) + multiset(Select(props, false)) == multiset(props)
  {
    if props != [] {
      assert props == [props[0]] + props[1..];
      SelectSplits(props[1..]);
    }
  }

  /** `Object.fromEntries`: the own-property order puts array indices first. */
  function FromEntries(entries: seq<Prop>): (r: seq<Prop>)
    ensures multiset(r) == multiset(entries)
    ensures |r| == |entries|
  {
    SelectSplits(entries);
    var r := Sort(Select(entries, true), PropName, IndexLess) + Select(entries, false);
    assert |multiset(r)| == |multiset(entries)|;
    r
  }

  function SortObject(v: Json): Json {
    match v
    case Arr(items) => Arr(seq(|items|, i requires 0 <= i < |items| => SortObject(items[i])))
    case Obj(props) => Obj(FromEntries(Sort(SortValues(props), PropName, CodeUnitLess)))
    case _ => v
  }

  function SortValues(props: seq<Prop>): (r: seq<Prop>)
    ensures |r| == |props|
    ensures forall i | 0 <= i < |props| :: r[i] == Prop(props[i].name, SortObject(props[i].value))
  {
    seq(|props|, i requires 0 <= i < |props| => Prop(props[i].name, SortObject(props[i].value)))
  }

  /** Equal up to the order of object keys, at every depth. Array order counts. */
  ghost predicate SameJson(a: Json, b: Json)
    decreases a
  {
    match a
    case Arr(items) =>
      b.Arr? && |items| == |b.items| && forall i | 0 <= i < |items| :: SameJson(items[i], b.items[i])
    case Obj(props) =>
      && b.Obj?
      && |props| == |b.props|
      && forall p | p in props :: exists q | q in b.props :: q.name == p.name && SameJson(p.value, q.value)
    case _ => a == b
  }

  lemma {:induction false} UniqueDetermines(props: seq<Prop>)
    requires UniqueNames(props)
    ensures KeyDetermines(props, PropName)
  {
    forall a, b | a in props && b in props && PropName(a) == PropName(b) ensures a == b {
      var i :| 0 <= i < |props| && props[i] == a;
      var j :| 0 <= j < |props| && props[j] == b;
    }
  }

  lemma {:induction false} PermutationUnique(props: seq<Prop>, r: seq<Prop>)
    requires UniqueNames(props) && multiset(r) == multiset(props)
    ensures UniqueNames(r)
  {
    UniqueDetermines(props);
    forall i, j | 0 <= i < j < |r| ensures PropName(r[i]) != PropName(r[j]) {
      MultisetMembers(props, r, r[i]);
      MultisetMembers(props, r, r[j]);
      if PropName(r[i]) == PropName(r[j]) {
        CountTwo(r, i, j);
        CountOnce(props, r[i]);
        assert false;
      }
    }
  }

  lemma CountTwo<T>(r: seq<T>, i: nat, j: nat)
    requires i < j < |r| && r[i] == r[j]
    ensures multiset(r)[r[i]] >= 2
  {
    assert r == r[..i] + [r[i]] + r[i + 1..j] + [r[j]] + r[j + 1..];
  }

  lemma CountOnce(props: seq<Prop>, p: Prop)
    requires UniqueNames(props)
    ensures multiset(props)[p] <= 1
  {
    if props != [] {
      assert props == [props[0]] + props[1..];
      CountOnce(props[1..], p);
      assert forall k | 0 <= k < |props[1..]| :: PropName(props[1..][k]) == PropName(props[k + 1]) != PropName(props[0]);
    }
  }

  lemma {:induction false} SortValuesWf(props: seq<Prop>)
    requires UniqueNames(props)
    ensures UniqueNames(SortValues(props)) && KeyDetermines(SortValues(props), PropName)
    ensures UniqueNames(Sort(SortValues(props), PropName, CodeUnitLess))
    ensures UniqueNames(FromEntries(Sort(SortValues(props), PropName, CodeUnitLess)))
  {
    var m := SortValues(props);
    forall i, j | 0 <= i < j < |m| ensures PropName(m[i]) != PropName(m[j]) {
      assert PropName(props[i]) != PropName(props[j]);
    }
    UniqueDetermines(m);
    var s := Sort(m, PropName, CodeUnitLess);
    PermutationUnique(m, s);
    PermutationUnique(s, FromEntries(s));
  }

  // ----- the order of the keys

  /** A name that prints a number below 4294967295 comes before the names of greater numbers and before all others. */
  ghost predicate KeyBefore(a: string, b: string) {
    (exists m, n :: 0 <= m < n < 4_294_967_295 && a == Decimal(m) && b == Decimal(n))
    || (IsIndexText(a) && !IsIndexText(b))
    || (!IsIndexText(a) && !IsIndexText(b) && CodeUnitLess(a, b))
  }

  ghost predicate IsIndexText(s: string) { exists n: nat :: n < 4_294_967_295 && s == Decimal(n) }

  lemma IndexText(s: string)
    ensures IsArrayIndex(s) <==> IsIndexText(s)
  {
    hide Decimal, ParseDecimal, Canonical;
    if IsArrayIndex(s) {
      CanonicalRoundTrip(s);
    }
    if n: nat :| n < 4_294_967_295 && s == Decimal(n) {
      DecimalCanonical(n);
      DecimalRoundTrip(n);
    }
  }

  lemma IndexLessTotal()
    ensures StrictTotal(IndexLess)
  {
    CodeUnitStrictTotal();
  }

  lemma IndexBefore(a: string, b: string)
    requires IsArrayIndex(a) && IsArrayIndex(b) && IndexLess(a, b)
    ensures KeyBefore(a, b)
  {
    hide Decimal, ParseDecimal, CodeUnitLess, Canonical;
    NumericOrder(a, b);
    CanonicalRoundTrip(a);
    CanonicalRoundTrip(b);
  }

  /** Where an element of a selection stands in the whole: places grow with places. */
  function PlaceOf(props: seq<Prop>, indices: bool, i: nat): (k: nat)
    requires i < |Select(props, indices)|
    ensures k < |props| && props[k] == Select(props, indices)[i] && IsArrayIndex(props[k].name) == indices
    decreases props
  {
    hide IsArrayIndex;
    if IsArrayIndex(props[0].name) != indices then 1 + PlaceOf(props[1..], indices, i)
    else if i == 0 then 0
    else 1 + PlaceOf(props[1..], indices, i - 1)
  }

  lemma {:induction false} PlacesGrow(props: seq<Prop>, indices: bool, i: nat, j: nat)
    requires i < j < |Select(props, indices)|
    ensures PlaceOf(props, indices, i) < PlaceOf(props, indices, j)
    decreases props
  {
    hide IsArrayIndex;
    var rest := Select(props[1..], indices);
    if IsArrayIndex(props[0].name) != indices {
      assert Select(props, indices) == rest;
      PlacesGrow(props[1..], indices, i, j);
    } else {
      assert |Select(props, indices)| == |rest| + 1;
      if i > 0 { PlacesGrow(props[1..], indices, i - 1, j - 1); }
    }
  }

  lemma IndicesOrdered(entries: seq<Prop>, i: nat, j: nat)
    requires var r := Sort(Select(entries, true), PropName, IndexLess); i < j < |r| && PropName(r[i]) != PropName(r[j])
    ensures var r := Sort(Select(entries, true), PropName, IndexLess); KeyBefore(r[i].name, r[j].name)
  {
    hide IndexLess, KeyBefore, IsArrayIndex;
    var chosen, r := Select(entries, true), Sort(Select(entries, true), PropName, IndexLess);
    IndexLessTotal();
    SortSorted(chosen, PropName, IndexLess);
    IsIndexName(entries, r[i]);
    IsIndexName(entries, r[j]);
    IndexBefore(r[i].name, r[j].name);
  }

  lemma IsIndexName(entries: seq<Prop>, p: Prop)
    requires p in Sort(Select(entries, true), PropName, IndexLess)
    ensures IsArrayIndex(p.name)
  {
    hide IsArrayIndex;
    var chosen := Select(entries, true);
    assert p in multiset(chosen);
    var k :| 0 <= k < |chosen| && chosen[k] == p;
    var place := PlaceOf(entries, true, k);
  }

  lemma OthersOrdered(entries: seq<Prop>, i: nat, j: nat)
    requires Sorted(entries, PropName, CodeUnitLess) && i < j < |Select(entries, false)|
    requires PropName(Select(entries, false)[i]) != PropName(Select(entries, false)[j])
    ensures KeyBefore(Select(entries, false)[i].name, Select(entries, false)[j].name)
  {
    hide IsArrayIndex, CodeUnitLess, IsIndexText;
    CodeUnitStrictTotal();
    PlacesGrow(entries, false, i, j);
    IndexText(Select(entries, false)[i].name);
    IndexText(Select(entries, false)[j].name);
  }

  lemma EntriesOrdered(entries: seq<Prop>, i: nat, j: nat)
    requires Sorted(entries, PropName, CodeUnitLess) && UniqueNames(FromEntries(entries)) && i < j < |entries|
    ensures KeyBefore(FromEntries(entries)[i].name, FromEntries(entries)[j].name)
  {
    hide KeyBefore, IsArrayIndex, Sort, Select, CodeUnitLess, IndexLess, Sorted;
    var first, last := Sort(Select(entries, true), PropName, IndexLess), Select(entries, false);
    var keys := FromEntries(entries);
    assert keys == first + last && PropName(keys[i]) != PropName(keys[j]);
    if j < |first| {
      IndicesOrdered(entries, i, j);
    } else if i >= |first| {
      OthersOrdered(entries, i - |first|, j - |first|);
    } else {
      IsIndexName(entries, first[i]);
      assert !IsArrayIndex(entries[PlaceOf(entries, false, j - |first|)].name);
      IndexThenOther(keys[i].name, keys[j].name);
    }
  }

  /** The keys of a sorted object: numbers below 4294967295 in ascending order, then all others by code unit. */
  lemma {:induction false} SortedKeys(props: seq<Prop>, i: nat, j: nat)
    requires UniqueNames(props) && i < j < |props|
    ensures SortObject(Obj(props)).Obj? && |SortObject(Obj(props)).props| == |props|
    ensures var keys := SortObject(Obj(props)).props; KeyBefore(keys[i].name, keys[j].name)
  {
    hide KeyBefore, FromEntries, Sort, SortValues;
    var entries := Sort(SortValues(props), PropName, CodeUnitLess);
    assert SortObject(Obj(props)) == Obj(FromEntries(entries));
    SortValuesWf(props);
    CodeUnitStrictTotal();
    SortSorted(SortValues(props), PropName, CodeUnitLess);
    EntriesOrdered(entries, i, j);
  }

  lemma IndexThenOther(a: string, b: string)
    requires IsArrayIndex(a) && !IsArrayIndex(b)
    ensures KeyBefore(a, b)
  {
    hide IsArrayIndex, IsIndexText;
    IndexText(a);
    IndexText(b);
  }

  lemma {:induction false} PropsSortAlike(props: seq<Prop>, others: seq<Prop>)
    requires UniqueNames(props) && UniqueNames(others) && |props| == |others|
    requires forall i | 0 <= i < |props| :: SortValues(props)[i] in SortValues(others)
    ensures SortObject(Obj(props)) == SortObject(Obj(others))
  {
    var ma, mb := SortValues(props), SortValues(others);
    SortValuesWf(props);
    SortValuesWf(others);
    DistinctKeysSameMultiset(ma, mb, PropName);
    CodeUnitStrictTotal();
    SortOrderFree(ma, mb, PropName, CodeUnitLess);
    assert SortObject(Obj(props)) == Obj(FromEntries(Sort(ma, PropName, CodeUnitLess)));
  }

  lemma {:induction false} SortValuesHas(props: seq<Prop>, p: Prop)
    requires p in props
    ensures Prop(p.name, SortObject(p.value)) in SortValues(props)
  {
    var j :| 0 <= j < |props| && props[j] == p;
    assert SortValues(props)[j] == Prop(p.name, SortObject(p.value));
  }

  /** Reordering keys never changes the sorted value ... */
  lemma {:induction false} SameSortsAlike(a: Json, b: Json)
    requires Wf(a) && Wf(b) && SameJson(a, b)
    ensures SortObject(a) == SortObject(b)
    decreases a
  {
    match a
    case Arr(items) =>
      forall i | 0 <= i < |items| ensures SortObject(items[i]) == SortObject(b.items[i]) {
        assert items[i] in items && b.items[i] in b.items;
        SameSortsAlike(items[i], b.items[i]);
      }
      assert SortObject(a).items == SortObject(b).items;
    case Obj(props) =>
      forall i | 0 <= i < |props| ensures SortValues(props)[i] in SortValues(b.props) {
        var p := props[i];
        assert p in props;
        var q :| q in b.props && q.name == p.name && SameJson(p.value, q.value);
        SameSortsAlike(p.value, q.value);
        SortValuesHas(b.props, q);
      }
      PropsSortAlike(props, b.props);
    case _ =>
  }

  lemma ItemsSortAlike(items: seq<Json>, b: Json)
    requires SortObject(Arr(items)) == SortObject(b)
    ensures b.Arr? && |b.items| == |items|
    ensures forall i | 0 <= i < |items| :: SortObject(items[i]) == SortObject(b.items[i])
  {
    assert b.Arr?;
    var sa, sb := SortObject(Arr(items)).items, SortObject(b).items;
    assert |items| == |sa| == |sb| == |b.items|;
    forall i | 0 <= i < |items| ensures SortObject(items[i]) == SortObject(b.items[i]) {
      assert sa[i] == SortObject(items[i]) && sb[i] == SortObject(b.items[i]);
    }
  }

  lemma PropsAlike(props: seq<Prop>, b: Json)
    requires SortObject(Obj(props)) == SortObject(b)
    ensures b.Obj? && |b.props| == |props|
    ensures multiset(SortValues(props)) == multiset(SortValues(b.props))
  {
    assert b.Obj?;
    var ma, mb := SortValues(props), SortValues(b.props);
    var fa, fb := SortObject(Obj(props)).props, SortObject(b).props;
    assert multiset(ma) == multiset(fa) == multiset(fb) == multiset(mb);
    assert |ma| == |multiset(ma)| == |multiset(mb)| == |mb|;
  }

  lemma PropAlike(props: seq<Prop>, others: seq<Prop>, p: Prop) returns (q: Prop)
    requires multiset(SortValues(props)) == multiset(SortValues(others)) && p in props
    ensures q in others && q.name == p.name && SortObject(q.value) == SortObject(p.value)
  {
    var ma, mb := SortValues(props), SortValues(others);
    var i :| 0 <= i < |props| && props[i] == p;
    assert ma[i] == Prop(p.name, SortObject(p.value));
    MultisetMembers(ma, mb, ma[i]);
    var j :| 0 <= j < |mb| && mb[j] == ma[i];
    q := others[j];
    assert mb[j] == Prop(q.name, SortObject(q.value));
  }

  /** ... and values that sort alike differ only in key order. */
  lemma {:induction false} SortsAlikeSame(a: Json, b: Json)
    requires Wf(a) && Wf(b) && SortObject(a) == SortObject(b)
    ensures SameJson(a, b)
    decreases a
  {
    match a
    case Arr(items) => ItemsAlikeSame(items, b);
    case Obj(props) => PropsAlikeSame(props, b);
    case _ =>
  }

  lemma {:induction false} ItemsAlikeSame(items: seq<Json>, b: Json)
    requires Wf(Arr(items)) && Wf(b) && SortObject(Arr(items)) == SortObject(b)
    ensures SameJson(Arr(items), b)
    decreases items
  {
    hide SortObject;
    ItemsSortAlike(items, b);
    forall i | 0 <= i < |items| ensures SameJson(items[i], b.items[i]) {
      assert items[i] in items && b.items[i] in b.items;
      SortsAlikeSame(items[i], b.items[i]);
    }
  }

  lemma {:induction false} PropsAlikeSame(props: seq<Prop>, b: Json)
    requires Wf(Obj(props)) && Wf(b) && SortObject(Obj(props)) == SortObject(b)
    ensures SameJson(Obj(props), b)
    decreases props
  {
    hide SortObject, SortValues;
    PropsAlike(props, b);
    forall p | p in props ensures exists q | q in b.props :: q.name == p.name && SameJson(p.value, q.value) {
      var q := PropAlike(props, b.props, p);
      SortsAlikeSame(p.value, q.value);
    }
  }

  lemma {:induction false} SortObjectWf(v: Json)
    requires Wf(v)
    ensures Wf(SortObject(v))
  {
    match v
    case Arr(items) =>
      var s := SortObject(v).items;
      forall x | x in s ensures Wf(x) {
        var i :| 0 <= i < |s| && s[i] == x;
        assert items[i] in items;
        SortObjectWf(items[i]);
      }
    case Obj(props) =>
      SortValuesWf(props);
      var m := SortValues(props);
      forall p | p in SortObject(v).props ensures Wf(p.value) {
        MultisetMembers(m, SortObject(v).props, p);
        var i :| 0 <= i < |m| && m[i] == p;
        assert props[i] in props;
        SortObjectWf(props[i].value);
      }
    case _ =>
  }

  /** Entries whose values are already sorted only need rearranging. */
  lemma SortValuesStill(f: seq<Prop>)
    requires forall p | p in f :: SortObject(p.value) == p.value
    ensures SortValues(f) == f
  {
    forall i | 0 <= i < |f| ensures SortValues(f)[i] == f[i] {
      assert f[i] in f;
    }
  }

  lemma SortPropsAgain(f: seq<Prop>, m: seq<Prop>)
    requires UniqueNames(f) && multiset(f) == multiset(m) && SortValues(f) == f
    ensures SortObject(Obj(f)) == Obj(FromEntries(Sort(m, PropName, CodeUnitLess)))
  {
    CodeUnitStrictTotal();
    UniqueDetermines(f);
    SortOrderFree(f, m, PropName, CodeUnitLess);
  }

  lemma {:induction false} SortObjectIdempotent(v: Json)
    requires Wf(v)
    ensures SortObject(SortObject(v)) == SortObject(v)
  {
    match v
    case Arr(items) =>
      var s := SortObject(v).items;
      forall i | 0 <= i < |s| ensures SortObject(s[i]) == s[i] {
        assert items[i] in items;
        SortObjectIdempotent(items[i]);
      }
      assert SortObject(SortObject(v)).items == s;
    case Obj(props) =>
      var m := SortValues(props);
      var f := SortObject(v).props;
      assert multiset(f) == multiset(m);
      forall p | p in f ensures SortObject(p.value) == p.value {
        MultisetMembers(m, f, p);
        var j :| 0 <= j < |m| && m[j] == p;
        assert props[j] in props;
        SortObjectIdempotent(props[j].value);
      }
      SortValuesWf(props);
      SortValuesStill(f);
      SortPropsAgain(f, m);
    case _ =>
  }

  lemma {:induction false} SameAsSorted(v: Json)
    requires Wf(v)
    ensures SameJson(v, SortObject(v))
  {
    SortObjectWf(v);
    SortObjectIdempotent(v);
    SortsAlikeSame(v, SortObject(v));
  }

  lemma LookupFinds(props: seq<Prop>, p: Prop)
    requires UniqueNames(props) && p in props
    ensures Lookup(props, p.name) == p.value
  {
    if props[0] != p {
      var k :| 0 <= k < |props| && props[k] == p;
      assert PropName(props[0]) != PropName(props[k]);
      assert props[1..][k - 1] == p;
      assert UniqueNames(props[1..]);
      LookupFinds(props[1..], p);
    }
  }

  lemma LookupMisses(props: seq<Prop>, name: string)
    requires forall p | p in props :: p.name != name
    ensures Lookup(props, name) == Null
  {
  }

  lemma {:induction false} LookupWf(v: Json, name: string)
    requires Wf(v)
    ensures Wf(Get(v, name))
  {
    if v.Obj? {
      if p :| p in v.props && p.name == name { LookupFinds(v.props, p); } else { LookupMisses(v.props, name); }
    }
  }

  lemma SameKind(a: Json, b: Json)
    requires SameJson(a, b)
    ensures a.Obj? <==> b.Obj?
  {
  }

  lemma {:induction false} SameProp(a: Json, b: Json, p: Prop) returns (q: Prop)
    requires a.Obj? && SameJson(a, b) && p in a.props
    ensures b.Obj? && q in b.props && q.name == p.name && SameJson(p.value, q.value)
  {
    q :| q in b.props && q.name == p.name && SameJson(p.value, q.value);
  }

  lemma {:induction false} SameNames(a: Json, b: Json)
    requires Wf(a) && Wf(b) && SameJson(a, b) && a.Obj?
    ensures forall q | q in b.props :: exists p | p in a.props :: p.name == q.name
  {
    SameSortsAlike(a, b);
    var ma, mb := SortValues(a.props), SortValues(b.props);
    assert multiset(ma) == multiset(SortObject(a).props) == multiset(SortObject(b).props) == multiset(mb);
    forall q | q in b.props ensures exists p | p in a.props :: p.name == q.name {
      var j :| 0 <= j < |b.props| && b.props[j] == q;
      MultisetMembers(mb, ma, mb[j]);
      var i :| 0 <= i < |ma| && ma[i] == mb[j];
      assert a.props[i] in a.props;
    }
  }

  lemma {:induction false} SamePropsPresent(a: Json, b: Json, p: Prop)
    requires Wf(a) && Wf(b) && a.Obj? && p in a.props && SameJson(a, b)
    ensures SameJson(Get(a, p.name), Get(b, p.name))
  {
    var q := SameProp(a, b, p);
    assert Get(a, p.name) == p.value by { LookupFinds(a.props, p); }
    assert Get(b, p.name) == q.value by { LookupFinds(b.props, q); }
  }

  lemma {:induction false} SamePropsAbsent(a: Json, b: Json, name: string)
    requires Wf(a) && Wf(b) && a.Obj? && b.Obj? && SameJson(a, b)
    requires forall p | p in a.props :: p.name != name
    ensures Get(a, name) == Get(b, name) == Null
  {
    LookupMisses(a.props, name);
    SameNames(a, b);
    LookupMisses(b.props, name);
  }

  /** Reading a property does not see the order of keys. */
  lemma {:induction false} SameProps(a: Json, b: Json, name: string)
    requires Wf(a) && Wf(b) && SameJson(a, b)
    ensures SameJson(Get(a, name), Get(b, name))
  {
    SameKind(a, b);
    if a.Obj? {
      if p :| p in a.props && p.name == name {
        SamePropsPresent(a, b, p);
      } else {
        SamePropsAbsent(a, b, name);
      }
    }
  }

  lemma {:induction false} SameText(a: Json, b: Json)
    requires SameJson(a, b)
    ensures ToText(a) == ToText(b) && Truthy(a) == Truthy(b)
    decreases a
  {
    match a
    case Arr(items) => SameJoin(items, b.items);
    case _ =>
  }

  lemma {:induction false} SameJoin(xs: seq<Json>, ys: seq<Json>)
    requires |xs| == |ys| && forall i | 0 <= i < |xs| :: SameJson(xs[i], ys[i])
    ensures JoinText(xs) == JoinText(ys)
    decreases xs
  {
    if xs != [] {
      SameText(xs[0], ys[0]);
      SameJoin(xs[1..], ys[1..]);
    }
  }
}
