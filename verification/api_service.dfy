/** The thin HTTP wrapper the user screens go through: a request is the base
    URL joined with a path, an optional body and query parameters built from
    a plain object; the verb switch has no `PATCH` arm. */
module ApiService {
  import opened Values
  import opened Http

  /** One property of the `params` object: `null`/`undefined`, a scalar
      (already rendered as the string `HttpParams` stores) or an array. */
  datatype ParamValue = Absent | Scalar(value: string) | Many(values: seq<string>)

  /** The `params` object, as its `Object.keys` order of entries. */
  type ParamObject = seq<(string, ParamValue)>

  /** `HttpParams`: keys in first-insertion order, each with its list of values. */
  type QueryParams = seq<(string, seq<string>)>

  /** Position of `key` among the keys of `ps`, if present. */
  function KeyIndex(ps: QueryParams, key: string): (r: Option<nat>)
    ensures r.Some? ==> r.value < |ps| && ps[r.value].0 == key
    ensures r.None? ==> forall i :: 0 <= i < |ps| ==> ps[i].0 != key
  {
    if |ps| == 0 then None
    else if ps[|ps| - 1].0 == key then Some(|ps| - 1)
    else KeyIndex(ps[..|ps| - 1], key)
  }

  /** The values stored under `key`, if any. */
  function ValuesOf(ps: QueryParams, key: string): Option<seq<string>> {
    match KeyIndex(ps, key)
    case Some(i) => Some(ps[i].1)
    case None => None
  }

  /** No key occurs twice. */
  predicate DistinctKeys<V>(ps: seq<(string, V)>) {
    forall i, j :: 0 <= i < j < |ps| ==> ps[i].0 != ps[j].0
  }

  /** `params.set(key, value)`: the key keeps its place and holds only `value`. */
  function SetParam(ps: QueryParams, key: string, value: string): (r: QueryParams)
    requires DistinctKeys(ps)
    ensures DistinctKeys(r)
    ensures ValuesOf(r, key) == Some([value])
    ensures forall k :: k != key ==> ValuesOf(r, k) == ValuesOf(ps, k)
  {
    match KeyIndex(ps, key)
    case Some(i) =>
      var r := ps[i := (key, [value])];
      assert forall k :: KeyIndex(r, k) == KeyIndex(ps, k) by {
        forall k { SameKeysSameIndex(ps, r, k); }
      }
      r
    case None =>
      var r := ps + [(key, [value])];
      assert forall k :: k != key ==> KeyIndex(r, k) == KeyIndex(ps, k) by {
        assert r[..|r| - 1] == ps;
      }
      r
  }

  /** `params.append(key, value)`: `value` joins the end of the key's list. */
  function AppendParam(ps: QueryParams, key: string, value: string): (r: QueryParams)
    requires DistinctKeys(ps)
    ensures DistinctKeys(r)
    ensures ValuesOf(r, key) == Some(ValuesOf(ps, key).GetOr([]) + [value])
    ensures forall k :: k != key ==> ValuesOf(r, k) == ValuesOf(ps, k)
  {
    match KeyIndex(ps, key)
    case Some(i) =>
      var r := ps[i := (key, ps[i].1 + [value])];
      assert forall k :: KeyIndex(r, k) == KeyIndex(ps, k) by {
        forall k { SameKeysSameIndex(ps, r, k); }
      }
      r
    case None =>
      var r := ps + [(key, [value])];
      assert forall k :: k != key ==> KeyIndex(r, k) == KeyIndex(ps, k) by {
        assert r[..|r| - 1] == ps;
      }
      assert [] + [value] == [value];
      r
  }

  /** Rewriting values in place leaves every key where it was. */
  lemma {:induction false} SameKeysSameIndex(ps: QueryParams, qs: QueryParams, k: string)
    requires |ps| == |qs|
    requires forall i :: 0 <= i < |ps| ==> ps[i].0 == qs[i].0
    ensures KeyIndex(ps, k) == KeyIndex(qs, k)
  {
    if |ps| > 0 && ps[|ps| - 1].0 != k {
      SameKeysSameIndex(ps[..|ps| - 1], qs[..|qs| - 1], k);
    }
  }

  /** Appending each element of an array in turn. */
  function AppendAll(ps: QueryParams, key: string, values: seq<string>): (r: QueryParams)
    requires DistinctKeys(ps)
    ensures DistinctKeys(r)
    ensures values != [] ==> ValuesOf(r, key) == Some(ValuesOf(ps, key).GetOr([]) + values)
    ensures values == [] ==> r == ps
    ensures forall k :: k != key ==> ValuesOf(r, k) == ValuesOf(ps, k)
    decreases |values|
  {
    if |values| == 0 then ps
    else
      var next := AppendParam(ps, key, values[0]);
      var r := AppendAll(next, key, values[1..]);
      var before := ValuesOf(ps, key).GetOr([]);
      assert ValuesOf(next, key) == Some(before + [values[0]]);
      HeadThenTail(before, values);
      assert ValuesOf(r, key) == Some(before + values);
      assert forall k :: k != key ==> ValuesOf(r, k) == ValuesOf(next, k) == ValuesOf(ps, k);
      r
  }

  /** Appending the first value and then the rest appends them all. */
  lemma HeadThenTail(before: seq<string>, values: seq<string>)
    requires |values| > 0
    ensures (before + [values[0]]) + values[1..] == before + values
    ensures |values| == 1 ==> before + [values[0]] == before + values
  {
    assert values == [values[0]] + values[1..];
  }

  /** One step of `createParams`: skip an absent value, append each array
      element, set a scalar. */
  function AddEntry(ps: QueryParams, entry: (string, ParamValue)): (r: QueryParams)
    requires DistinctKeys(ps)
    ensures DistinctKeys(r)
  {
    match entry.1
    case Absent => ps
    case Many(vs) => AppendAll(ps, entry.0, vs)
    case Scalar(v) => SetParam(ps, entry.0, v)
  }

  /** `createParams` as a left fold over the object's entries. */
  function Encode(entries: ParamObject): (r: QueryParams)
    ensures DistinctKeys(r)
  {
    if |entries| == 0 then []
    else AddEntry(Encode(entries[..|entries| - 1]), entries[|entries| - 1])
  }

  /** `createParams`: the query parameters an object turns into. */
  method CreateParams(entries: ParamObject) returns (ps: QueryParams)
    ensures ps == Encode(entries)
    ensures DistinctKeys(ps)
  {
    ps := [];
    var i := 0;
    while i < |entries|
      invariant 0 <= i <= |entries|
      invariant ps == Encode(entries[..i])
    {
      assert entries[..i + 1][..i] == entries[..i];
      ps := AddEntry(ps, entries[i]);
      i := i + 1;
    }
    assert entries[..i] == entries;
  }

  /** What a key of the object contributes to the query: nothing for
      `null`/`undefined` or an empty array, the one value of a scalar, every
      element of an array in order. */
  function Expected(value: ParamValue): Option<seq<string>> {
    match value
    case Absent => None
    case Scalar(v) => Some([v])
    case Many(vs) => if vs == [] then None else Some(vs)
  }

  /** The value the object holds under `key`, `Absent` when it has no such key. */
  function ValueAt(entries: ParamObject, key: string): (v: ParamValue)
    ensures v != Absent ==> exists i :: 0 <= i < |entries| && entries[i] == (key, v)
  {
    if |entries| == 0 then Absent
    else if entries[|entries| - 1].0 == key then entries[|entries| - 1].1
    else ValueAt(entries[..|entries| - 1], key)
  }

  /** For an object (distinct keys), every key's values in the query are
      exactly what that key contributes, and keys the object lacks are absent. */
  lemma {:induction false} EncodeValues(entries: ParamObject, key: string)
    requires DistinctKeys(entries)
    ensures ValuesOf(Encode(entries), key) == Expected(ValueAt(entries, key))
  {
    if |entries| > 0 {
      var init := entries[..|entries| - 1];
      var last := entries[|entries| - 1];
      assert DistinctKeys(init);
      EncodeValues(init, key);
      if last.0 == key {
        assert forall i :: 0 <= i < |init| ==> init[i].0 != key by {
          assert forall i :: 0 <= i < |init| ==> init[i] == entries[i];
        }
        AbsentKey(init, key);
        assert ValuesOf(Encode(init), key) == None;
        match last.1
        case Absent =>
        case Scalar(v) =>
        case Many(vs) =>
          assert [] + vs == vs;
      }
    }
  }

  /** In an object, the value under the key of entry `i` is that entry's value. */
  lemma {:induction false} ValueAtEntry(entries: ParamObject, i: nat)
    requires DistinctKeys(entries) && i < |entries|
    ensures ValueAt(entries, entries[i].0) == entries[i].1
  {
    if i < |entries| - 1 {
      var init := entries[..|entries| - 1];
      assert init[i] == entries[i];
      ValueAtEntry(init, i);
    }
  }

  /** A key that does not occur in the object contributes nothing. */
  lemma {:induction false} AbsentKey(entries: ParamObject, key: string)
    requires forall i :: 0 <= i < |entries| ==> entries[i].0 != key
    ensures ValueAt(entries, key) == Absent
  {
    if |entries| > 0 {
      AbsentKey(entries[..|entries| - 1], key);
    }
  }

  /** What `request` does: hand a call to `HttpClient`, or throw. */
  datatype Dispatch<B> = Sent(call: Call<B>, params: QueryParams) | Unsupported(message: string)

  /** `request`, as written: the switch handles GET, POST, PUT and DELETE
      and throws `Unsupported request: <verb>` for anything else. */
  function Request<B>(baseUrl: string, verb: Verb, path: string, body: Option<B>, params: ParamObject)
    : (d: Dispatch<B>)
    ensures verb != PATCH ==> d.Sent? && d.call.verb == verb && d.call.url == baseUrl + path
    ensures verb != PATCH ==> d.params == Encode(params)
    ensures verb == POST || verb == PUT ==> d.call.body == body
    ensures verb == GET || verb == DELETE ==> d.call.body == None
    ensures verb == PATCH ==> d == Unsupported("Unsupported request: PATCH")
  {
    var url := baseUrl + path;
    match verb
    case GET => Sent(Call(GET, url, None), Encode(params))
    case POST => Sent(Call(POST, url, body), Encode(params))
    case PUT => Sent(Call(PUT, url, body), Encode(params))
    case DELETE => Sent(Call(DELETE, url, None), Encode(params))
    case PATCH => Unsupported("Unsupported request: PATCH")
  }

  /** `get(path, params)`. */
  function Get<B>(baseUrl: string, path: string, params: ParamObject): (d: Dispatch<B>)
    ensures d == Sent(Call(GET, baseUrl + path, None), Encode(params))
  {
    Request(baseUrl, GET, path, None, params)
  }

  function Post<B>(baseUrl: string, path: string, body: B): (d: Dispatch<B>)
    ensures d == Sent(Call(POST, baseUrl + path, Some(body)), [])
  {
    Request(baseUrl, POST, path, Some(body), [])
  }

  function Put<B>(baseUrl: string, path: string, body: B): (d: Dispatch<B>)
    ensures d == Sent(Call(PUT, baseUrl + path, Some(body)), [])
  {
    Request(baseUrl, PUT, path, Some(body), [])
  }

  function Delete<B>(baseUrl: string, path: string): (d: Dispatch<B>)
    ensures d == Sent(Call(DELETE, baseUrl + path, None), [])
  {
    Request(baseUrl, DELETE, path, None, [])
  }

  /** `patch(path, body)`, as written. */
  function Patch<B>(baseUrl: string, path: string, body: B): (d: Dispatch<B>)
    ensures d.Unsupported?
  {
    Request(baseUrl, PATCH, path, Some(body), [])
  }

  /** Every `patch` call throws, whatever its path or body: a role update
      through this wrapper never reaches the network. */
  lemma PatchNeverSends<B>(baseUrl: string, path: string, body: B)
    ensures Patch(baseUrl, path, body) == Unsupported("Unsupported request: PATCH")
  {
  }

  /** `request` with the missing arm added: PATCH is sent with its body. */
  function RequestFixed<B>(baseUrl: string, verb: Verb, path: string, body: Option<B>, params: ParamObject)
    : (d: Dispatch<B>)
    ensures d.Sent? && d.call.verb == verb && d.call.url == baseUrl + path
    ensures d.params == Encode(params)
    ensures verb == POST || verb == PUT || verb == PATCH ==> d.call.body == body
    ensures verb != PATCH ==> d == Request(baseUrl, verb, path, body, params)
  {
    if verb == PATCH then Sent(Call(PATCH, baseUrl + path, body), Encode(params))
    else Request(baseUrl, verb, path, body, params)
  }

  /** `patch(path, body)` over the fixed dispatch. */
  function PatchFixed<B>(baseUrl: string, path: string, body: B): (d: Dispatch<B>)
    ensures d == Sent(Call(PATCH, baseUrl + path, Some(body)), [])
  {
    RequestFixed(baseUrl, PATCH, path, Some(body), [])
  }
}
