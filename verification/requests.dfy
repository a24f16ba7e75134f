/** The body of every search request (api_wrapper.py lines 50-51 and 62-70):
    the item binding ANDed with the section's criteria, the requested fields,
    and an offset page of at most 1000 records. */
module Requests {
  import opened Wrappers
  import opened Json

  /** Records asked for per request (`per_page`, line 59). */
  const PerPage: nat := 1000

  /** One request body, before it is serialised: the item bound to the
      section's `input_type`, the section's `criteria*` fragments in option
      order, the requested fields, and the page window. */
  datatype Request = Request(
    inputType: string,
    item: string,
    criteria: seq<Value>,
    fields: seq<string>,
    size: nat,
    offset: nat)

  /** The request for the page-th page (counting from 1) of one item. */
  function PageRequest(inputType: string, item: string, criteria: seq<Value>, fields: seq<string>, page: nat): (r: Request)
    requires page >= 1
  {
    Request(inputType, item, criteria, fields, PerPage, (page - 1) * PerPage)
  }

  /** `{"_and": [fragment, ...]}`: all criteria fragments ANDed (lines 50-51). */
  function Conjunction(parts: seq<Value>): Value {
    Obj([("_and", Arr(parts))])
  }

  /** The `q` member: `{"_and": [{input_type: item}, criteria]}` (line 67). */
  function Filter(r: Request): Value {
    Conjunction([Obj([(r.inputType, Str(r.item))]), Conjunction(r.criteria)])
  }

  /** The JSON body `{q, f, o}` that is posted (lines 66-70). */
  function Encode(r: Request): (v: Value)
    ensures Decode(v) == Some(r)
  {
    AsStringsOfStrList(r.fields);
    Obj([
      ("q", Filter(r)),
      ("f", Arr(StrList(r.fields))),
      ("o", Obj([("size", Int(r.size)), ("offset", Int(r.offset))]))
    ])
  }

  /** The parts of a conjunction, when the value is one. */
  function AsConjunction(v: Value): Option<seq<Value>> {
    match v
    case Obj(es) =>
      if |es| == 1 && es[0].0 == "_and" && es[0].1.Arr? then Some(es[0].1.items) else None
    case _ => None
  }

  /** Reads a request body back; fails on anything `Encode` cannot produce. */
  function Decode(v: Value): Option<Request> {
    match v
    case Obj(es) =>
      if |es| != 3 || es[0].0 != "q" || es[1].0 != "f" || es[2].0 != "o" then None
      else
        var top :- AsConjunction(es[0].1);
        if |top| != 2 || !top[0].Obj? || |top[0].entries| != 1 || !top[0].entries[0].1.Str? then None
        else
          var criteria :- AsConjunction(top[1]);
          if !es[1].1.Arr? then None
          else
            var fields :- AsStrings(es[1].1.items);
            var window := es[2].1;
            if !window.Obj? || |window.entries| != 2
               || window.entries[0].0 != "size" || window.entries[1].0 != "offset"
               || !window.entries[0].1.Int? || !window.entries[1].1.Int?
               || window.entries[0].1.i < 0 || window.entries[1].1.i < 0
            then None
            else
              Some(Request(top[0].entries[0].0, top[0].entries[0].1.s, criteria, fields,
                           window.entries[0].1.i, window.entries[1].1.i))
    case _ => None
  }

  /** Two requests differ exactly when their bodies differ. */
  lemma EncodeInjective(r1: Request, r2: Request)
    ensures Encode(r1) == Encode(r2) <==> r1 == r2
  {
  }
}
