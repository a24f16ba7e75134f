/** Resolution of a query section's optional `sort` option into the sort keys
    and directions used to order the final table, and the `ascending` flags
    those directions become (api_wrapper.py lines 31-48 and 115-116). */
module Sorting {
  import opened Wrappers
  import opened Json

  /** The resolved sort: field names and their directions, position by position.
      A direction is whatever JSON value the user wrote beside the field. */
  datatype SortSpec = SortSpec(fields: seq<string>, directions: seq<Value>)

  const Asc: Value := Str("asc")
  const Desc: Value := Str("desc")

  /** A usable sort for a field list: one direction per key, and only known keys. */
  predicate Usable(spec: SortSpec, fields: seq<string>) {
    && |spec.fields| == |spec.directions|
    && |spec.fields| >= 1
    && forall i :: 0 <= i < |spec.fields| ==> spec.fields[i] in fields
  }

  /** The fallback: ascending on the first requested field. */
  function DefaultSort(fields: seq<string>): SortSpec
    requires |fields| > 0
  {
    SortSpec([fields[0]], [Asc])
  }

  /** Python's `for x in v`: a list yields its elements, a dict its keys, a
      string its one-character substrings; any other value raises TypeError. */
  function Iterate(v: Value): Option<seq<Value>>
  {
    match v
    case Arr(xs) => Some(xs)
    case Obj(es) => Some(seq(|es|, i requires 0 <= i < |es| => Str(es[i].0)))
    case Str(s) => Some(seq(|s|, i requires 0 <= i < |s| => Str([s[i]])))
    case _ => None
  }

  /** `container[key]` with a string key: only a dict holding the key answers;
      indexing a list or a string by a string raises TypeError. */
  function Subscript(container: Value, key: string): Option<Value>
  {
    match container
    case Obj(es) => Get(es, key)
    case _ => None
  }

  /** The inner loop over the keys of one element of the sort list: keys that
      are requested fields are kept with `dct[field]` as their direction. */
  function CollectKeys(dct: Value, keys: seq<Value>, fields: seq<string>): Option<seq<(string, Value)>>
  {
    if |keys| == 0 then Some([])
    else
      match keys[0]
      case Str(k) =>
        if k in fields then
          var d :- Subscript(dct, k);
          var rest :- CollectKeys(dct, keys[1..], fields);
          Some([(k, d)] + rest)
        else CollectKeys(dct, keys[1..], fields)
      case _ => CollectKeys(dct, keys[1..], fields)
  }

  /** The outer loop over the sort list; None when any step raises. */
  function CollectAll(dcts: seq<Value>, fields: seq<string>): Option<seq<(string, Value)>>
  {
    if |dcts| == 0 then Some([])
    else
      var keys :- Iterate(dcts[0]);
      var here :- CollectKeys(dcts[0], keys, fields);
      var rest :- CollectAll(dcts[1..], fields);
      Some(here + rest)
  }

  /** Splits (field, direction) pairs into the two parallel lists. */
  function Unzip(ps: seq<(string, Value)>): (spec: SortSpec)
    ensures |spec.fields| == |spec.directions| == |ps|
    ensures forall i :: 0 <= i < |ps| ==> spec.fields[i] == ps[i].0 && spec.directions[i] == ps[i].1
  {
    SortSpec(seq(|ps|, i requires 0 <= i < |ps| => ps[i].0), seq(|ps|, i requires 0 <= i < |ps| => ps[i].1))
  }

  /** Sort resolution. `sort` is None when the section has no `sort` option
      or its text is not JSON. Any exception inside the try block, or no
      surviving key, falls back to ascending on `fields[0]`; that fallback
      itself raises IndexError when `fields` is empty, which is the None result. */
  function Resolve(fields: seq<string>, sort: Option<Value>): (r: Option<SortSpec>)
    ensures r.Some? <==> |fields| > 0
    ensures r.Some? ==> Usable(r.value, fields)
    ensures r.Some? && sort.None? ==> r.value == DefaultSort(fields)
  {
    if |fields| == 0 then None
    else
      match sort
      case None => Some(DefaultSort(fields))
      case Some(v) =>
        match Iterate(v)
        case None => Some(DefaultSort(fields))
        case Some(dcts) =>
          match CollectAll(dcts, fields)
          case None => Some(DefaultSort(fields))
          case Some(ps) =>
            if |ps| == 0 then Some(DefaultSort(fields))
            else
              CollectedKnown(dcts, fields);
              Some(Unzip(ps))
  }

  /** Every collected key is a requested field. */
  lemma {:induction false} CollectedKnown(dcts: seq<Value>, fields: seq<string>)
    ensures CollectAll(dcts, fields).Some? ==>
      forall i :: 0 <= i < |CollectAll(dcts, fields).value| ==> CollectAll(dcts, fields).value[i].0 in fields
  {
    if |dcts| > 0 && CollectAll(dcts, fields).Some? {
      var keys := Iterate(dcts[0]).value;
      KeysKnown(dcts[0], keys, fields);
      CollectedKnown(dcts[1..], fields);
    }
  }

  lemma {:induction false} KeysKnown(dct: Value, keys: seq<Value>, fields: seq<string>)
    ensures CollectKeys(dct, keys, fields).Some? ==>
      forall i :: 0 <= i < |CollectKeys(dct, keys, fields).value| ==> CollectKeys(dct, keys, fields).value[i].0 in fields
  {
    if |keys| > 0 {
      KeysKnown(dct, keys[1..], fields);
    }
  }

  // ---------------------------------------------------------------------------
  // Reference definition for the documented shape: a list of dicts.

  /** The sort option written as the documented list of single-key (or
      multi-key) dicts. */
  function SortList(ds: seq<seq<(string, Value)>>): (v: Value)
  {
    Arr(seq(|ds|, i requires 0 <= i < |ds| => Obj(ds[i])))
  }

  /** All entries of all dicts, in list order and then dict order. */
  function Flatten(ds: seq<seq<(string, Value)>>): seq<(string, Value)>
  {
    if |ds| == 0 then [] else ds[0] + Flatten(ds[1..])
  }

  /** The entries whose key is a requested field, in their original order. */
  function KeepKnown(es: seq<(string, Value)>, fields: seq<string>): seq<(string, Value)>
  {
    if |es| == 0 then []
    else if es[0].0 in fields then [es[0]] + KeepKnown(es[1..], fields)
    else KeepKnown(es[1..], fields)
  }

  lemma {:induction false} KeepKnownAppend(a: seq<(string, Value)>, b: seq<(string, Value)>, fields: seq<string>)
    ensures KeepKnown(a + b, fields) == KeepKnown(a, fields) + KeepKnown(b, fields)
  {
    if |a| == 0 {
      assert a + b == b;
    } else {
      assert (a + b)[0] == a[0];
      assert (a + b)[1..] == a[1..] + b;
      KeepKnownAppend(a[1..], b, fields);
    }
  }

  /** Walking the keys of one dict from position j keeps exactly the known entries from j on. */
  lemma {:induction false} CollectKeysOfDict(es: seq<(string, Value)>, keys: seq<Value>, j: nat, fields: seq<string>)
    requires DistinctKeys(es)
    requires |keys| == |es|
    requires forall i :: 0 <= i < |es| ==> keys[i] == Str(es[i].0)
    requires j <= |es|
    ensures CollectKeys(Obj(es), keys[j..], fields) == Some(KeepKnown(es[j..], fields))
    decreases |es| - j
  {
    if j < |es| {
      CollectKeysOfDict(es, keys, j + 1, fields);
      assert keys[j..][1..] == keys[j + 1..];
      assert es[j..][1..] == es[j + 1..];
      assert keys[j..][0] == Str(es[j].0);
      if es[j].0 in fields {
        GetEntry(es, j);
      }
    }
  }

  lemma {:induction false} CollectAllOfDicts(ds: seq<seq<(string, Value)>>, fields: seq<string>)
    requires forall i :: 0 <= i < |ds| ==> DistinctKeys(ds[i])
    ensures CollectAll(SortList(ds).items, fields) == Some(KeepKnown(Flatten(ds), fields))
  {
    if |ds| > 0 {
      var dcts := SortList(ds).items;
      assert dcts[0] == Obj(ds[0]);
      var keys := Iterate(dcts[0]).value;
      CollectKeysOfDict(ds[0], keys, 0, fields);
      assert keys[0..] == keys && ds[0][0..] == ds[0];
      assert dcts[1..] == SortList(ds[1..]).items;
      CollectAllOfDicts(ds[1..], fields);
      KeepKnownAppend(ds[0], Flatten(ds[1..]), fields);
    }
  }

  /** For a sort option that is a list of dicts, the resolved keys are exactly
      the dict keys that are requested fields, in list and dict order, each
      with its own direction; when none survives the fallback is used. */
  lemma ResolveListOfDicts(fields: seq<string>, ds: seq<seq<(string, Value)>>)
    requires |fields| > 0
    requires forall i :: 0 <= i < |ds| ==> DistinctKeys(ds[i])
    ensures var kept := KeepKnown(Flatten(ds), fields);
      Resolve(fields, Some(SortList(ds))) ==
        Some(if |kept| == 0 then DefaultSort(fields) else Unzip(kept))
  {
    CollectAllOfDicts(ds, fields);
  }

  /** A value that is not a list of dicts still resolves to a usable sort:
      one that raises while being walked falls back, whatever it held. */
  lemma {:induction false} MalformedFallsBack(fields: seq<string>, v: Value)
    requires |fields| > 0
    requires Iterate(v).None? || CollectAll(Iterate(v).value, fields).None?
    ensures Resolve(fields, Some(v)) == Some(DefaultSort(fields))
  {
  }

  /** Walking a value that is not a dict fails as soon as a requested field
      turns up among its keys: `dct[field]` raises. */
  lemma {:induction false} CollectKeysOfNonDict(dct: Value, keys: seq<Value>, fields: seq<string>, j: nat)
    requires !dct.Obj?
    requires j < |keys| && keys[j].Str? && keys[j].s in fields
    ensures CollectKeys(dct, keys, fields).None?
    decreases j
  {
    if !(keys[0].Str? && keys[0].s in fields) {
      assert keys[1..][j - 1] == keys[j];
      CollectKeysOfNonDict(dct, keys[1..], fields, j - 1);
    }
  }

  /** The outer loop fails when any one element of the sort list fails. */
  lemma {:induction false} CollectAllFailsAt(dcts: seq<Value>, fields: seq<string>, i: nat)
    requires i < |dcts|
    requires Iterate(dcts[i]).None? || CollectKeys(dcts[i], Iterate(dcts[i]).value, fields).None?
    ensures CollectAll(dcts, fields).None?
    decreases i
  {
    if i > 0 && Iterate(dcts[0]).Some? && CollectKeys(dcts[0], Iterate(dcts[0]).value, fields).Some? {
      assert dcts[1..][i - 1] == dcts[i];
      CollectAllFailsAt(dcts[1..], fields, i - 1);
    }
  }

  /** A string in the sort list is walked character by character: when any of
      its characters is a requested field, `dct[field]` on the string raises
      and the whole option falls back, whatever the other elements hold. */
  lemma StringElementFallsBack(fields: seq<string>, dcts: seq<Value>, i: nat, j: nat)
    requires i < |dcts| && dcts[i].Str?
    requires j < |dcts[i].s| && [dcts[i].s[j]] in fields
    ensures Resolve(fields, Some(Arr(dcts))) == Some(DefaultSort(fields))
  {
    var keys := Iterate(dcts[i]).value;
    assert keys[j] == Str([dcts[i].s[j]]);
    CollectKeysOfNonDict(dcts[i], keys, fields, j);
    CollectAllFailsAt(dcts, fields, i);
  }

  // ---------------------------------------------------------------------------
  // Directions become pandas' `ascending` list (lines 115-116).

  /** A direction sorts ascending unless it is exactly the string "desc". */
  function AscendingFlags(directions: seq<Value>): (flags: seq<bool>)
    ensures |flags| == |directions|
    ensures forall i :: 0 <= i < |directions| ==> (flags[i] <==> directions[i] != Desc)
  {
    if |directions| == 0 then []
    else [directions[0] != Desc] + AscendingFlags(directions[1..])
  }

  /** Upper-case and misspelt directions sort ascending; only "desc" does not. */
  lemma OnlyExactDescDescends()
    ensures AscendingFlags([Str("asc"), Str("ASC"), Str("DESC"), Str("dsc"), Int(0), Desc]) ==
      [true, true, true, true, true, false]
  {
  }
}
