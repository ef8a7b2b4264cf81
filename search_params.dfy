/** The part of `URLSearchParams` the client uses: an ordered list of
    name/value pairs with `get` and `set`, and its serialisation. Percent-encoding
    is not modelled: a pair is written as `name=value`. */
module SearchParams {
  import opened Wrappers

  type Params = seq<(string, string)>

  /** `params.get(name)`: the value of the first pair under `name`. */
  function Get(ps: Params, name: string): Option<string>
  {
    if ps == [] then None else if ps[0].0 == name then Some(ps[0].1) else Get(ps[1..], name)
  }

  /** No name occurs twice. */
  predicate UniqueNames(ps: Params) {
    forall i, j :: 0 <= i < j < |ps| ==> ps[i].0 != ps[j].0
  }

  /** `get` finds nothing exactly when no pair carries the name. */
  lemma {:induction false} GetNone(ps: Params, name: string)
    ensures Get(ps, name).None? <==> forall i :: 0 <= i < |ps| ==> ps[i].0 != name
    decreases |ps|
  {
    if ps != [] {
      GetNone(ps[1..], name);
      assert forall i :: 1 <= i < |ps| ==> ps[i] == ps[1..][i - 1];
    }
  }

  /** Drops every pair under `name`. */
  function RemoveAll(ps: Params, name: string): (r: Params)
    ensures Get(r, name) == None
    ensures forall other :: other != name ==> Get(r, other) == Get(ps, other)
  {
    if ps == [] then []
    else if ps[0].0 == name then RemoveAll(ps[1..], name)
    else [ps[0]] + RemoveAll(ps[1..], name)
  }

  /** Gives the first pair under `name` the new value and drops the later ones. */
  function ReplaceFirst(ps: Params, name: string, value: string): (r: Params)
    requires Get(ps, name).Some?
    ensures Get(r, name) == Some(value)
    ensures forall other :: other != name ==> Get(r, other) == Get(ps, other)
  {
    if ps[0].0 == name then [(name, value)] + RemoveAll(ps[1..], name)
    else [ps[0]] + ReplaceFirst(ps[1..], name, value)
  }

  lemma {:induction false} GetAppend(ps: Params, name: string, value: string, other: string)
    requires Get(ps, name).None?
    ensures Get(ps + [(name, value)], other) ==
      if other == name then Some(value) else Get(ps, other)
    decreases |ps|
  {
    if ps != [] {
      assert (ps + [(name, value)])[1..] == ps[1..] + [(name, value)];
      GetAppend(ps[1..], name, value, other);
    }
  }

  /** `params.set(name, value)`: afterwards `get(name)` is `value` and every
      other name reads as before; a new name goes to the end. */
  function Set(ps: Params, name: string, value: string): (r: Params)
    ensures Get(r, name) == Some(value)
    ensures forall other {:trigger Get(r, other)} :: other != name ==> Get(r, other) == Get(ps, other)
    ensures Get(ps, name).None? ==> r == ps + [(name, value)]
    ensures Get(ps, name).None? && UniqueNames(ps) ==> UniqueNames(r)
  {
    if Get(ps, name).Some? then ReplaceFirst(ps, name, value)
    else
      var r := ps + [(name, value)];
      GetAppend(ps, name, value, name);
      GetNone(ps, name);
      assert forall other :: other != name ==> Get(r, other) == Get(ps, other) by {
        forall other | other != name
          ensures Get(r, other) == Get(ps, other)
        {
          GetAppend(ps, name, value, other);
        }
      }
      r
  }

  function Pair(kv: (string, string)): string {
    kv.0 + "=" + kv.1
  }

  /** `params.toString()`: the pairs in order, joined with `&`. */
  function Serialize(ps: Params): (s: string)
    ensures s == "" <==> ps == []
  {
    if ps == [] then ""
    else if |ps| == 1 then Pair(ps[0])
    else Pair(ps[0]) + "&" + Serialize(ps[1..])
  }

  /** `query ? '?' + query : ''`. */
  function QuerySuffix(query: string): (s: string)
    ensures s == "" <==> query == ""
    ensures query != "" ==> s[0] == '?' && s[1..] == query
  {
    if query != "" then "?" + query else ""
  }
}
