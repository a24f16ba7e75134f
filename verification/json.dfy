/** Decoded JSON values, as `json.loads` hands them to the query runner and as
    `requests` serialises the request bodies. */
module Json {
  import opened Wrappers

  /** A JSON value. Numbers are integers here (the runner only ever compares
      them or passes them on); an object keeps its entries in document order,
      which is the iteration order of the Python dict built from it. */
  datatype Value =
    | Null
    | Bool(b: bool)
    | Int(i: int)
    | Str(s: string)
    | Arr(items: seq<Value>)
    | Obj(entries: seq<(string, Value)>)

  /** `json.loads` never yields an object with a repeated key. */
  predicate DistinctKeys(entries: seq<(string, Value)>) {
    forall i, j :: 0 <= i < j < |entries| ==> entries[i].0 != entries[j].0
  }

  /** `d[key]` on a dict: the value of the first entry with that key. */
  function Get(entries: seq<(string, Value)>, key: string): (r: Option<Value>)
    ensures r.Some? <==> exists i :: 0 <= i < |entries| && entries[i].0 == key
    ensures r.Some? ==> exists i :: 0 <= i < |entries| && entries[i] == (key, r.value)
  {
    if |entries| == 0 then None
    else if entries[0].0 == key then Some(entries[0].1)
    else
      var r := Get(entries[1..], key);
      assert r.Some? ==> exists i :: 0 <= i < |entries[1..]| && entries[1..][i] == (key, r.value);
      r
  }

  /** With distinct keys, looking up the key of an entry yields that entry's value. */
  lemma {:induction false} GetEntry(entries: seq<(string, Value)>, i: nat)
    requires DistinctKeys(entries)
    requires i < |entries|
    ensures Get(entries, entries[i].0) == Some(entries[i].1)
  {
    if i > 0 {
      assert entries[0].0 != entries[i].0;
      assert DistinctKeys(entries[1..]) by {
        forall a, b | 0 <= a < b < |entries[1..]|
          ensures entries[1..][a].0 != entries[1..][b].0
        {
          assert entries[1..][a] == entries[a + 1] && entries[1..][b] == entries[b + 1];
        }
      }
      GetEntry(entries[1..], i - 1);
      assert entries[1..][i - 1] == entries[i];
    }
  }

  /** A list of strings as a JSON array (how the `fields` list is sent). */
  function StrList(ss: seq<string>): (vs: seq<Value>)
    ensures |vs| == |ss|
  {
    if |ss| == 0 then [] else [Str(ss[0])] + StrList(ss[1..])
  }

  /** Reads a JSON array back as a list of strings; fails on any non-string element. */
  function AsStrings(vs: seq<Value>): Option<seq<string>>
  {
    if |vs| == 0 then Some([])
    else
      match vs[0]
      case Str(s) =>
        var rest :- AsStrings(vs[1..]);
        Some([s] + rest)
      case _ => None
  }

  /** Sending a list of strings as JSON and reading it back is lossless. */
  lemma {:induction false} AsStringsOfStrList(ss: seq<string>)
    ensures AsStrings(StrList(ss)) == Some(ss)
  {
    if |ss| > 0 {
      AsStringsOfStrList(ss[1..]);
      assert StrList(ss)[1..] == StrList(ss[1..]);
      assert [ss[0]] + ss[1..] == ss;
    }
  }
}
