/** JSON objects with a fixed list of keys: what `serde` makes of a struct. */
module Records {
  import opened Wrappers
  import opened Text
  import opened Json
  import opened Canonical

  function Record(keys: seq<string>, values: seq<Value>): (v: Value)
    requires |keys| == |values| && Distinct(keys)
    ensures v.Obj? && |v.fields| == |keys|
    ensures forall i :: 0 <= i < |keys| ==> v.fields[i] == Field(keys[i], values[i])
  {
    var fields := seq(|keys|, i requires 0 <= i < |keys| => Field(keys[i], values[i]));
    assert UniqueKeys(Obj(fields));
    Obj(fields)
  }

  /** A key finds its own value. */
  lemma RecordAt(keys: seq<string>, values: seq<Value>, i: nat)
    requires |keys| == |values| && Distinct(keys) && i < |keys|
    ensures Get(Record(keys, values), keys[i]) == Some(values[i])
  {
    LookupAt(Record(keys, values).fields, i);
  }

  ghost predicate SameValues(v: seq<Value>, w: seq<Value>) {
    |v| == |w| && forall i :: 0 <= i < |v| ==> Mean(v[i]) == Mean(w[i])
  }

  /** Records over the same keys mean the same exactly when they agree key by key. */
  lemma RecordMeaning(keys: seq<string>, v: seq<Value>, w: seq<Value>)
    requires |keys| == |v| == |w| && Distinct(keys)
    ensures Mean(Record(keys, v)) == Mean(Record(keys, w)) <==> SameValues(v, w)
  {
    var f, g := Record(keys, v).fields, Record(keys, w).fields;
    forall i | 0 <= i < |keys|
      ensures keys[i] in MeanFields(f) && MeanFields(f)[keys[i]] == Mean(v[i])
      ensures keys[i] in MeanFields(g) && MeanFields(g)[keys[i]] == Mean(w[i])
    {
      RecordAt(keys, v, i);
      RecordAt(keys, w, i);
      MeanLookup(f, keys[i]);
      MeanLookup(g, keys[i]);
    }
    if SameValues(v, w) {
      forall k ensures k in MeanFields(f) <==> k in MeanFields(g)
        ensures k in MeanFields(f) ==> MeanFields(f)[k] == MeanFields(g)[k]
      {
        MeanLookup(f, k);
        MeanLookup(g, k);
        LookupFound(f, k);
        LookupFound(g, k);
        assert forall i :: 0 <= i < |keys| ==> f[i].key == g[i].key;
      }
      assert MeanFields(f) == MeanFields(g);
    }
  }

  /** A number that tells the keys of one record apart: length, first and last letter. */
  function Tag(key: string): int {
    if key == "" then 0 else 1_000_000 * |key| + 1_000 * key[0] as int + key[|key| - 1] as int
  }

  lemma DistinctByTag(keys: seq<string>, tags: seq<int>)
    requires |tags| == |keys| && forall i :: 0 <= i < |keys| ==> Tag(keys[i]) == tags[i]
    requires Distinct(tags)
    ensures Distinct(keys)
  {
    forall i, j | 0 <= i < j < |keys| ensures keys[i] != keys[j] {
      assert tags[i] != tags[j];
    }
  }

  function Strings(s: seq<string>): (r: seq<Raw>)
    ensures |r| == |s| && forall i :: 0 <= i < |s| ==> r[i] == Str(s[i])
  {
    seq(|s|, i requires 0 <= i < |s| => Str(s[i]))
  }

  function StringsJson(s: seq<string>): Value {
    assert forall x :: x in Strings(s) ==> UniqueKeys(x) by {
      assert forall x :: x in Strings(s) ==> x.Str?;
    }
    Arr(Strings(s))
  }

  lemma StringsMeaning(a: seq<string>, b: seq<string>)
    ensures Mean(StringsJson(a)) == Mean(StringsJson(b)) <==> a == b
  {
    if Mean(StringsJson(a)) == Mean(StringsJson(b)) {
      assert |Strings(a)| == |MeanItems(Strings(a))| == |MeanItems(Strings(b))| == |Strings(b)|;
      forall i | 0 <= i < |a| ensures a[i] == b[i] {
        MeanItemsAt(Strings(a), i);
        MeanItemsAt(Strings(b), i);
        assert MStr(a[i]) == MStr(b[i]);
      }
    }
  }
}
