/** Canonical JSON (src/artifact.rs): the writer that every hash and signature is computed over. */
module Canonical {
  import opened Wrappers
  import opened Text
  import opened Json

  function Keys(fields: seq<Field>): (keys: seq<string>)
    ensures |keys| == |fields|
    ensures forall i :: 0 <= i < |fields| ==> keys[i] == fields[i].key
  {
    seq(|fields|, i requires 0 <= i < |fields| => fields[i].key)
  }

  /** The fields named by `keys`, in that order. */
  function Pick(keys: seq<string>, fields: seq<Field>): (picked: seq<Field>)
    requires forall k :: k in keys ==> Lookup(fields, k).Some?
  {
    if keys == [] then []
    else
      assert keys[0] in keys && forall k :: k in keys[1..] ==> k in keys;
      [Field(keys[0], Lookup(fields, keys[0]).value)] + Pick(keys[1..], fields)
  }

  /** The value with the keys of every object sorted. */
  function Canon(v: Raw): Raw
    decreases v
  {
    match v
    case Arr(items) => Arr(CanonItems(items))
    case Obj(fields) =>
      var keys := SortStrings(Keys(fields));
      SortedKeysFound(fields);
      Obj(Pick(keys, CanonFields(fields)))
    case _ => v
  }

  function CanonItems(items: seq<Raw>): (r: seq<Raw>)
    ensures |r| == |items|
    decreases items
  {
    if items == [] then [] else [Canon(items[0])] + CanonItems(items[1..])
  }

  function CanonFields(fields: seq<Field>): (r: seq<Field>)
    ensures Keys(r) == Keys(fields)
    decreases fields
  {
    if fields == [] then []
    else
      var f := fields[0];
      [Field(f.key, Canon(f.value))] + CanonFields(fields[1..])
  }

  lemma SortedKeysFound(fields: seq<Field>)
    ensures forall k :: k in SortStrings(Keys(fields)) <==> k in Keys(fields)
    ensures forall g :: Keys(g) == Keys(fields) ==> forall k :: k in Keys(fields) ==> Lookup(g, k).Some?
  {
    Sorting.SameMultisetSameElements(SortStrings(Keys(fields)), Keys(fields));
    forall g, k | Keys(g) == Keys(fields) && k in Keys(fields) ensures Lookup(g, k).Some? {
      KeyFound(g, k);
    }
  }

  lemma KeyFound(fields: seq<Field>, k: string)
    ensures k in Keys(fields) <==> Lookup(fields, k).Some?
  {
    LookupFound(fields, k);
    if k in Keys(fields) {
      var i :| 0 <= i < |Keys(fields)| && Keys(fields)[i] == k;
      assert fields[i].key == k;
    }
  }

  function CanonicalJson(v: Value): string {
    Print(Canon(v))
  }

  // ---------------------------------------------------------------- what a JSON value means

  /** A JSON value with its objects read as maps: the reading in which key order does not exist. */
  datatype Meaning =
    | MNull
    | MBool(b: bool)
    | MNum(n: Number)
    | MStr(s: string)
    | MArr(items: seq<Meaning>)
    | MObj(fields: map<string, Meaning>)

  function Mean(v: Raw): Meaning
    decreases v
  {
    match v
    case Null => MNull
    case Bool(b) => MBool(b)
    case Num(n) => MNum(n)
    case Str(s) => MStr(s)
    case Arr(items) => MArr(MeanItems(items))
    case Obj(fields) => MObj(MeanFields(fields))
  }

  function MeanItems(items: seq<Raw>): (r: seq<Meaning>)
    ensures |r| == |items|
    decreases items
  {
    if items == [] then [] else [Mean(items[0])] + MeanItems(items[1..])
  }

  function MeanFields(fields: seq<Field>): map<string, Meaning>
    decreases fields
  {
    if fields == [] then map[]
    else
      var f := fields[0];
      MeanFields(fields[1..])[f.key := Mean(f.value)]
  }

  lemma {:induction false} MeanItemsAt(items: seq<Raw>, i: nat)
    requires i < |items|
    ensures MeanItems(items)[i] == Mean(items[i])
    ensures CanonItems(items)[i] == Canon(items[i])
  {
    if i == 0 {
    } else {
      MeanItemsAt(items[1..], i - 1);
    }
  }

  lemma {:induction false} MeanLookup(fields: seq<Field>, k: string)
    ensures k in MeanFields(fields) <==> Lookup(fields, k).Some?
    ensures k in MeanFields(fields) ==> MeanFields(fields)[k] == Mean(Lookup(fields, k).value)
  {
    if fields == [] {
    } else {
      MeanLookup(fields[1..], k);
    }
  }

  lemma {:induction false} CanonLookup(fields: seq<Field>, k: string)
    requires k in Keys(fields)
    ensures Lookup(fields, k).Some?
    ensures Lookup(CanonFields(fields), k) == Some(Canon(Lookup(fields, k).value))
  {
    KeyFound(fields, k);
    if fields[0].key != k {
      assert k in Keys(fields[1..]) by { KeyFound(fields[1..], k); }
      CanonLookup(fields[1..], k);
      assert CanonFields(fields)[1..] == CanonFields(fields[1..]);
    }
  }

  lemma {:induction false} PickMeaning(keys: seq<string>, fields: seq<Field>)
    requires forall k :: k in keys ==> Lookup(fields, k).Some?
    ensures MeanFields(Pick(keys, fields)).Keys == set k | k in keys
    ensures forall k :: k in keys ==> MeanFields(Pick(keys, fields))[k] == Mean(Lookup(fields, k).value)
  {
    if keys == [] {
    } else {
      assert forall k :: k in keys <==> k == keys[0] || k in keys[1..];
      PickMeaning(keys[1..], fields);
      assert Pick(keys, fields)[1..] == Pick(keys[1..], fields);
    }
  }

  /** Sorting the keys does not change what a value means. */
  lemma {:induction false} CanonKeepsMeaning(v: Raw)
    ensures Mean(Canon(v)) == Mean(v)
    decreases v
  {
    match v
    case Arr(items) =>
      forall i | 0 <= i < |items| ensures MeanItems(CanonItems(items))[i] == MeanItems(items)[i] {
        MeanItemsAt(items, i);
        MeanItemsAt(CanonItems(items), i);
        CanonKeepsMeaning(items[i]);
      }
    case Obj(fields) =>
      forall i | 0 <= i < |fields| ensures Mean(Canon(fields[i].value)) == Mean(fields[i].value) {
        CanonKeepsMeaning(fields[i].value);
      }
      SortedKeysFound(fields);
      SortingKeepsMeaning(fields, SortStrings(Keys(fields)));
    case _ =>
  }

  lemma SortingKeepsMeaning(fields: seq<Field>, keys: seq<string>)
    requires forall i :: 0 <= i < |fields| ==> Mean(Canon(fields[i].value)) == Mean(fields[i].value)
    requires forall k :: k in keys <==> k in Keys(fields)
    ensures forall k :: k in keys ==> Lookup(CanonFields(fields), k).Some?
    ensures MeanFields(Pick(keys, CanonFields(fields))) == MeanFields(fields)
  {
    var canon := CanonFields(fields);
    forall k | k in keys
      ensures Lookup(canon, k).Some? && k in MeanFields(fields) && Mean(Lookup(canon, k).value) == MeanFields(fields)[k]
    {
      CanonLookup(fields, k);
      MeanLookup(fields, k);
      LookupFound(fields, k);
      var i :| 0 <= i < |fields| && fields[i] == Field(k, Lookup(fields, k).value);
    }
    PickMeaning(keys, canon);
    forall k ensures k in MeanFields(fields) <==> k in keys {
      MeanLookup(fields, k);
      KeyFound(fields, k);
    }
  }

  lemma {:induction false} PickSame(keys: seq<string>, a: seq<Field>, b: seq<Field>)
    requires forall k :: k in keys ==> Lookup(a, k).Some? && Lookup(a, k) == Lookup(b, k)
    ensures Pick(keys, a) == Pick(keys, b)
  {
    if keys == [] {
    } else {
      assert keys[0] in keys && forall k :: k in keys[1..] ==> k in keys;
      PickSame(keys[1..], a, b);
    }
  }

  lemma MeaningFixesKeys(a: seq<Field>, b: seq<Field>)
    requires MeanFields(a) == MeanFields(b) && Distinct(Keys(a)) && Distinct(Keys(b))
    ensures SortStrings(Keys(a)) == SortStrings(Keys(b))
  {
    forall k ensures k in Keys(a) <==> k in Keys(b) {
      MeanLookup(a, k);
      MeanLookup(b, k);
      KeyFound(a, k);
      KeyFound(b, k);
    }
    DistinctMultiset(Keys(a), Keys(b));
    SortForgetsOrder(Keys(a), Keys(b));
  }

  /** Values that mean the same have one canonical form. */
  lemma {:induction false} MeaningFixesCanon(v: Value, w: Value)
    requires Mean(v) == Mean(w)
    ensures Canon(v) == Canon(w)
    decreases v
  {
    match v
    case Arr(items) =>
      forall i | 0 <= i < |items| ensures CanonItems(items)[i] == CanonItems(w.items)[i] {
        MeanItemsAt(items, i);
        MeanItemsAt(w.items, i);
        assert items[i] in items && w.items[i] in w.items;
        MeaningFixesCanon(items[i], w.items[i]);
      }
    case Obj(fields) =>
      forall i, j | 0 <= i < |fields| && 0 <= j < |w.fields| && fields[i].key == w.fields[j].key
        ensures Canon(fields[i].value) == Canon(w.fields[j].value)
      {
        FieldMeaning(fields, i);
        FieldMeaning(w.fields, j);
        assert fields[i] in fields && w.fields[j] in w.fields;
        MeaningFixesCanon(fields[i].value, w.fields[j].value);
      }
      MeaningFixesKeys(fields, w.fields);
      SortedKeysFound(fields);
      SortedKeysFound(w.fields);
      FieldsFixPick(fields, w.fields, SortStrings(Keys(fields)));
    case _ =>
  }

  lemma FieldMeaning(fields: seq<Field>, i: nat)
    requires i < |fields| && Distinct(Keys(fields))
    ensures fields[i].key in MeanFields(fields) && MeanFields(fields)[fields[i].key] == Mean(fields[i].value)
  {
    assert forall j :: 0 <= j < i ==> Keys(fields)[j] != Keys(fields)[i];
    LookupAt(fields, i);
    MeanLookup(fields, fields[i].key);
  }

  lemma FieldFixesCanon(a: seq<Field>, b: seq<Field>, k: string)
    requires k in Keys(a) && k in Keys(b)
    requires forall i, j :: 0 <= i < |a| && 0 <= j < |b| && a[i].key == b[j].key ==>
               Canon(a[i].value) == Canon(b[j].value)
    ensures Lookup(CanonFields(a), k).Some? && Lookup(CanonFields(a), k) == Lookup(CanonFields(b), k)
  {
    CanonLookup(a, k);
    CanonLookup(b, k);
    LookupFound(a, k);
    LookupFound(b, k);
    var i :| 0 <= i < |a| && a[i] == Field(k, Lookup(a, k).value);
    var j :| 0 <= j < |b| && b[j] == Field(k, Lookup(b, k).value);
  }

  lemma FieldsFixPick(a: seq<Field>, b: seq<Field>, keys: seq<string>)
    requires forall k :: k in keys ==> k in Keys(a) && k in Keys(b)
    requires forall i, j :: 0 <= i < |a| && 0 <= j < |b| && a[i].key == b[j].key ==>
               Canon(a[i].value) == Canon(b[j].value)
    ensures forall k :: k in keys ==> Lookup(CanonFields(a), k).Some? && Lookup(CanonFields(b), k).Some?
    ensures Pick(keys, CanonFields(a)) == Pick(keys, CanonFields(b))
  {
    forall k | k in keys
      ensures Lookup(CanonFields(a), k).Some? && Lookup(CanonFields(a), k) == Lookup(CanonFields(b), k)
    {
      FieldFixesCanon(a, b, k);
    }
    PickSame(keys, CanonFields(a), CanonFields(b));
  }

  // ---------------------------------------------------------------- the laws of the canonical form

  /** Canonical bytes agree exactly when the values agree with objects read as maps: injective, and blind to key
      order. */
  lemma CanonicalExact(v: Value, w: Value)
    ensures CanonicalJson(v) == CanonicalJson(w) <==> Mean(v) == Mean(w)
  {
    if CanonicalJson(v) == CanonicalJson(w) {
      CanonicalInjective(v, w, "", "");
    }
    if Mean(v) == Mean(w) {
      MeaningFixesCanon(v, w);
    }
  }

  /** The same inside a longer text: the canonical form marks its own end. */
  lemma CanonicalInjective(v: Value, w: Value, restV: string, restW: string)
    requires Delimited(restV) && Delimited(restW)
    requires CanonicalJson(v) + restV == CanonicalJson(w) + restW
    ensures Mean(v) == Mean(w) && restV == restW
  {
    PrintInjective(Canon(v), Canon(w), restV, restW);
    CanonKeepsMeaning(v);
    CanonKeepsMeaning(w);
  }

  /** Decoding the canonical bytes gives the value back with its keys sorted. */
  lemma CanonicalDecodes(v: Value, rest: string)
    requires Delimited(rest)
    ensures ParseValue(CanonicalJson(v) + rest) == Some(Parsed(Canon(v), rest))
    ensures Mean(Canon(v)) == Mean(v) && KeysSorted(Canon(v))
  {
    ParsePrint(Canon(v), rest);
    CanonKeepsMeaning(v);
    CanonSorts(v);
  }

  ghost predicate KeysSorted(v: Raw) {
    match v
    case Arr(items) => forall x :: x in items ==> KeysSorted(x)
    case Obj(fields) => Sorting.Sorted(Text.Le, Keys(fields)) && forall f :: f in fields ==> KeysSorted(f.value)
    case _ => true
  }

  lemma {:induction false} PickShape(keys: seq<string>, fields: seq<Field>)
    requires forall k :: k in keys ==> Lookup(fields, k).Some?
    ensures Keys(Pick(keys, fields)) == keys
    ensures forall f :: f in Pick(keys, fields) ==> f in fields
  {
    if keys == [] {
    } else {
      assert keys[0] in keys && forall k :: k in keys[1..] ==> k in keys;
      PickShape(keys[1..], fields);
      LookupFound(fields, keys[0]);
    }
  }

  lemma {:induction false} CanonFieldsAt(fields: seq<Field>, i: nat)
    requires i < |fields|
    ensures |CanonFields(fields)| == |fields|
    ensures CanonFields(fields)[i] == Field(fields[i].key, Canon(fields[i].value))
  {
    assert |Keys(CanonFields(fields))| == |CanonFields(fields)|;
    if i > 0 {
      CanonFieldsAt(fields[1..], i - 1);
    }
  }

  lemma {:induction false} CanonSorts(v: Raw)
    ensures KeysSorted(Canon(v))
    decreases v
  {
    match v
    case Arr(items) =>
      forall i | 0 <= i < |items| ensures KeysSorted(CanonItems(items)[i]) {
        MeanItemsAt(items, i);
        CanonSorts(items[i]);
      }
    case Obj(fields) =>
      var keys, canon := SortStrings(Keys(fields)), CanonFields(fields);
      SortedKeysFound(fields);
      PickShape(keys, canon);
      LeIsOrder();
      Sorting.SortSorted(Text.Le, Keys(fields));
      assert |canon| == |fields| by { assert |Keys(canon)| == |Keys(fields)|; }
      forall i | 0 <= i < |fields| ensures KeysSorted(canon[i].value) {
        CanonFieldsAt(fields, i);
        CanonSorts(fields[i].value);
      }
    case _ =>
  }

  /** `w` is `v` with the fields of its objects, at any depth, listed in another order. */
  ghost predicate Reordered(v: Raw, w: Raw)
    decreases v
  {
    match v
    case Arr(items) =>
      w.Arr? && |w.items| == |items| && forall i :: 0 <= i < |items| ==> Reordered(items[i], w.items[i])
    case Obj(fields) =>
      && w.Obj?
      && multiset(Keys(fields)) == multiset(Keys(w.fields))
      && forall i, j :: 0 <= i < |fields| && 0 <= j < |w.fields| && fields[i].key == w.fields[j].key ==>
           Reordered(fields[i].value, w.fields[j].value)
    case _ => v == w
  }

  lemma {:induction false} ReorderedMeansSame(v: Raw, w: Raw)
    requires Reordered(v, w)
    ensures Mean(v) == Mean(w)
    decreases v
  {
    match v
    case Arr(items) =>
      forall i | 0 <= i < |items| ensures MeanItems(items)[i] == MeanItems(w.items)[i] {
        MeanItemsAt(items, i);
        MeanItemsAt(w.items, i);
        ReorderedMeansSame(items[i], w.items[i]);
      }
    case Obj(fields) =>
      Sorting.SameMultisetSameElements(Keys(fields), Keys(w.fields));
      forall k
        ensures k in MeanFields(fields) <==> k in MeanFields(w.fields)
        ensures k in MeanFields(fields) ==> MeanFields(fields)[k] == MeanFields(w.fields)[k]
      {
        MeanLookup(fields, k);
        MeanLookup(w.fields, k);
        KeyFound(fields, k);
        KeyFound(w.fields, k);
        LookupFound(fields, k);
        LookupFound(w.fields, k);
        if k in MeanFields(fields) {
          var i :| 0 <= i < |fields| && fields[i] == Field(k, Lookup(fields, k).value);
          var j :| 0 <= j < |w.fields| && w.fields[j] == Field(k, Lookup(w.fields, k).value);
          ReorderedMeansSame(fields[i].value, w.fields[j].value);
        }
      }
      assert MeanFields(fields) == MeanFields(w.fields);
    case _ =>
  }

  /** Listing the keys of any object, at any depth, in another order leaves the bytes alone. */
  lemma KeyOrderIsInvisible(v: Value, w: Value)
    requires Reordered(v, w)
    ensures CanonicalJson(v) == CanonicalJson(w)
  {
    ReorderedMeansSame(v, w);
    CanonicalExact(v, w);
  }

  // ---------------------------------------------------------------- the writer itself

  /** The `Vec<u8>` the writer appends to. */
  class Buffer {
    var bytes: string

    constructor ()
      ensures bytes == ""
    {
      bytes := "";
    }

    method WriteAll(s: string)
      modifies this
      ensures bytes == old(bytes) + s
    {
      bytes := bytes + s;
    }
  }

  lemma RegroupList(a: string, b: string, c: string)
    ensures a + "," + (b + "," + c) == (a + "," + b) + "," + c
  {}

  lemma {:induction false} PrintItemsSnoc(items: seq<Raw>, x: Raw)
    ensures PrintItems(items + [x]) == if items == [] then Print(x) else PrintItems(items) + "," + Print(x)
  {
    if items == [] {
      assert items + [x] == [x];
    } else {
      PrintItemsSnoc(items[1..], x);
      RegroupList(Print(items[0]), PrintItems(items[1..]), Print(x));
      assert (items + [x])[1..] == items[1..] + [x];
    }
  }

  lemma {:induction false} PrintFieldsSnoc(fields: seq<Field>, f: Field)
    ensures PrintFields(fields + [f]) ==
            if fields == [] then PrintField(f) else PrintFields(fields) + "," + PrintField(f)
  {
    if fields == [] {
      assert fields + [f] == [f];
    } else {
      PrintFieldsSnoc(fields[1..], f);
      RegroupList(PrintField(fields[0]), PrintFields(fields[1..]), PrintField(f));
      assert (fields + [f])[1..] == fields[1..] + [f];
    }
  }

  lemma RegroupItem(before: string, sofar: string, item: string)
    ensures before + sofar + "," + item == before + (sofar + "," + item)
    ensures before + "" + item == before + item
  {}

  lemma RegroupBody(before: string, open: string, body: string, close: string)
    ensures before + open + body + close == before + (open + body + close)
  {}

  /** `write_canonical`: appends the canonical form of `value` to `out`. */
  method WriteCanonical(value: Value, out: Buffer)
    modifies out
    ensures out.bytes == old(out.bytes) + CanonicalJson(value)
    decreases value, 2
  {
    match value
    case Null => out.WriteAll("null");
    case Bool(b) => out.WriteAll(if b then "true" else "false");
    case Num(n) => out.WriteAll(NumberText(n));
    case Str(s) => out.WriteAll(Quote(s));
    case Arr(items) =>
      RegroupBody(out.bytes, "[", PrintItems(CanonItems(items)), "]");
      out.WriteAll("[");
      WriteItems(items, out);
      out.WriteAll("]");
    case Obj(fields) =>
      var keys := SortStrings(Keys(fields));
      SortedKeysFound(fields);
      RegroupBody(out.bytes, "{", PrintFields(Pick(keys, CanonFields(fields))), "}");
      out.WriteAll("{");
      WriteFields(keys, fields, out);
      out.WriteAll("}");
  }

  /** The array arm's loop. */
  method WriteItems(items: seq<Raw>, out: Buffer)
    requires forall x :: x in items ==> UniqueKeys(x)
    modifies out
    ensures out.bytes == old(out.bytes) + PrintItems(CanonItems(items))
    decreases items
  {
    ghost var before, canon := out.bytes, CanonItems(items);
    for idx := 0 to |items|
      invariant out.bytes == before + PrintItems(canon[..idx])
    {
      NextItem(before, items, idx);
      if idx > 0 {
        out.WriteAll(",");
      }
      WriteCanonical(items[idx], out);
    }
    assert canon[..|items|] == canon;
  }

  lemma NextItem(before: string, items: seq<Raw>, idx: nat)
    requires idx < |items| && forall x :: x in items ==> UniqueKeys(x)
    ensures |CanonItems(items)| == |items| && UniqueKeys(items[idx])
    ensures before + PrintItems(CanonItems(items)[..idx + 1]) ==
            before + PrintItems(CanonItems(items)[..idx]) + (if idx == 0 then "" else ",") + CanonicalJson(items[idx])
  {
    assert items[idx] in items;
    MeanItemsAt(items, idx);
    NextPrinted(before, CanonItems(items), idx);
  }

  lemma NextPrinted(before: string, canon: seq<Raw>, idx: nat)
    requires idx < |canon|
    ensures before + PrintItems(canon[..idx + 1]) ==
            before + PrintItems(canon[..idx]) + (if idx == 0 then "" else ",") + Print(canon[idx])
  {
    ItemAppended(before, canon[..idx], canon[idx]);
    assert canon[..idx + 1] == canon[..idx] + [canon[idx]];
  }

  lemma ItemAppended(before: string, items: seq<Raw>, x: Raw)
    ensures before + PrintItems(items + [x]) ==
            before + PrintItems(items) + (if items == [] then "" else ",") + Print(x)
  {
    PrintItemsSnoc(items, x);
    RegroupItem(before, PrintItems(items), Print(x));
  }

  /** The object arm's loop, over the sorted keys. Looking a key up never fails. */
  method WriteFields(keys: seq<string>, fields: seq<Field>, out: Buffer)
    requires forall f :: f in fields ==> UniqueKeys(f.value)
    requires forall k :: k in keys ==> k in Keys(fields) && Lookup(CanonFields(fields), k).Some?
    modifies out
    ensures out.bytes == old(out.bytes) + PrintFields(Pick(keys, CanonFields(fields)))
    decreases Obj(fields), 1
  {
    ghost var before, done := out.bytes, [];
    for idx := 0 to |keys|
      invariant done == Pick(keys[..idx], CanonFields(fields))
      invariant idx == 0 <==> done == []
      invariant out.bytes == before + PrintFields(done)
    {
      var key := keys[idx];
      var v := Found(fields, key);
      NextField(keys, idx, fields, v, before);
      if idx > 0 {
        out.WriteAll(",");
      }
      WriteField(key, v, out);
      done := done + [Field(key, Canon(v))];
    }
    assert keys[..|keys|] == keys;
  }

  lemma NextField(keys: seq<string>, idx: nat, fields: seq<Field>, v: Raw, before: string)
    requires idx < |keys| && forall k :: k in keys ==> Lookup(CanonFields(fields), k).Some?
    requires Lookup(CanonFields(fields), keys[idx]) == Some(Canon(v))
    ensures var done, f := Pick(keys[..idx], CanonFields(fields)), Field(keys[idx], Canon(v));
            && Pick(keys[..idx + 1], CanonFields(fields)) == done + [f]
            && before + PrintFields(done + [f]) ==
               before + PrintFields(done) + (if done == [] then "" else ",") + PrintField(f)
  {
    PickSnoc(keys[..idx], keys[idx], CanonFields(fields));
    assert keys[..idx + 1] == keys[..idx] + [keys[idx]];
    FieldAppended(before, Pick(keys[..idx], CanonFields(fields)), Field(keys[idx], Canon(v)));
  }

  /** `map.get(key)` for a key of the map: never absent, and part of the map. */
  function Found(fields: seq<Field>, key: string): (v: Raw)
    requires key in Keys(fields)
    ensures Lookup(fields, key) == Some(v)
    ensures Lookup(CanonFields(fields), key) == Some(Canon(v))
    ensures Field(key, v) in fields
    ensures v < Obj(fields)
  {
    CanonLookup(fields, key);
    LookupFound(fields, key);
    LookupSmaller(fields, key);
    Lookup(fields, key).value
  }

  lemma LookupSmaller(fields: seq<Field>, key: string)
    requires Lookup(fields, key).Some?
    ensures Lookup(fields, key).value < Obj(fields)
  {
    LookupFound(fields, key);
    var v := Lookup(fields, key).value;
    var i :| 0 <= i < |fields| && fields[i] == Field(key, v);
    assert fields[i].value < Obj(fields);
  }

  lemma {:induction false} PickSnoc(keys: seq<string>, key: string, fields: seq<Field>)
    requires forall k :: k in keys ==> Lookup(fields, k).Some?
    requires Lookup(fields, key).Some?
    ensures Pick(keys + [key], fields) == Pick(keys, fields) + [Field(key, Lookup(fields, key).value)]
  {
    if keys == [] {
    } else {
      assert forall k :: k in keys[1..] ==> k in keys;
      PickSnoc(keys[1..], key, fields);
      assert (keys + [key])[1..] == keys[1..] + [key];
    }
  }

  lemma FieldAppended(before: string, fields: seq<Field>, f: Field)
    ensures before + PrintFields(fields + [f]) ==
            before + PrintFields(fields) + (if fields == [] then "" else ",") + PrintField(f)
  {
    PrintFieldsSnoc(fields, f);
    RegroupItem(before, PrintFields(fields), PrintField(f));
  }

  method WriteField(key: string, value: Value, out: Buffer)
    modifies out
    ensures out.bytes == old(out.bytes) + PrintField(Field(key, Canon(value)))
    decreases value, 3
  {
    RegroupBody(out.bytes, Quote(key), ":", CanonicalJson(value));
    out.WriteAll(Quote(key));
    out.WriteAll(":");
    WriteCanonical(value, out);
  }

  /** `canonical_json`. */
  method CanonicalBytes(value: Value) returns (bytes: string)
    ensures bytes == CanonicalJson(value)
  {
    var out := new Buffer();
    WriteCanonical(value, out);
    bytes := out.bytes;
  }
}
