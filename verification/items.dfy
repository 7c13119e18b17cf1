/** The records of the enumerable taxonomies (content types, countries,
    languages) and the envelope unwrapping both CRUD services share:
    `_id` is copied into `id` on the way in, `id` is dropped on the way out. */
module Items {
  import opened Values
  import opened Http

  /** A taxonomy record: `backendId` is the backend's `_id`, `id` the client copy. */
  datatype Item = Item(
    backendId: Option<string>,
    id: Option<string>,
    name: string,
    createdAt: Option<string>,
    updatedAt: Option<string>,
    version: Option<int>)

  /** A record without its `id` field: the body of a create or update. */
  datatype ItemData = ItemData(
    backendId: Option<string>,
    name: string,
    createdAt: Option<string>,
    updatedAt: Option<string>,
    version: Option<int>)

  /** `const { id, ...data } = item`: everything but the client `id`; `_id` stays. */
  function StripId(item: Item): ItemData {
    ItemData(item.backendId, item.name, item.createdAt, item.updatedAt, item.version)
  }

  /** Two records strip to the same body exactly when they differ at most in `id`. */
  lemma StripIdForgetsOnlyId(a: Item, b: Item)
    ensures StripId(a) == StripId(b) <==> a.(id := b.id) == b
  {
  }

  /** `{...item, id: item._id}`. */
  function CopyId(item: Item): (r: Item)
    ensures r.id == item.backendId
    ensures StripId(r) == StripId(item)
  {
    item.(id := item.backendId)
  }

  /** `items.map(item => ({...item, id: item._id}))`. */
  function CopyIds(items: seq<Item>): (r: seq<Item>)
    ensures |r| == |items|
    ensures forall i :: 0 <= i < |items| ==> r[i].id == items[i].backendId
    ensures forall i :: 0 <= i < |items| ==> StripId(r[i]) == StripId(items[i])
  {
    seq(|items|, i requires 0 <= i < |items| => CopyId(items[i]))
  }

  /** `response.success && response.data`. */
  predicate Accepted<T>(env: Envelope<T>) {
    env.success && env.data.Some?
  }

  /** A list read: the records with `id` filled in when the envelope is accepted,
      `[]` on any business failure; only a transport failure is an error. */
  function UnwrapList(reply: Reply<Envelope<seq<Item>>>): (r: Outcome<seq<Item>>)
    ensures reply.Failed? ==> r == Error(Transport(reply.error))
    ensures reply.Delivered? ==> r.Next?
    ensures reply.Delivered? && Accepted(reply.body) ==> r.value == CopyIds(reply.body.data.value)
    ensures reply.Delivered? && !Accepted(reply.body) ==> r.value == []
  {
    match reply
    case Failed(e) => Error(Transport(e))
    case Delivered(env) =>
      if Accepted(env) then Next(CopyIds(env.data.value)) else Next([])
  }

  /** A single read: the record with `id` filled in, or the `notFound` error
      whenever the envelope lacks `success` or `data`. */
  function UnwrapOne(reply: Reply<Envelope<Item>>, notFound: string): (r: Outcome<Item>)
    ensures r.Next? <==> reply.Delivered? && Accepted(reply.body)
    ensures r.Next? ==> r.value.id == reply.body.data.value.backendId
    ensures r.Next? ==> StripId(r.value) == StripId(reply.body.data.value)
    ensures reply.Delivered? && !Accepted(reply.body) ==> r == Error(Thrown(notFound))
    ensures reply.Failed? ==> r == Error(Transport(reply.error))
  {
    match reply
    case Failed(e) => Error(Transport(e))
    case Delivered(env) =>
      if Accepted(env) then Next(CopyId(env.data.value)) else Error(Thrown(notFound))
  }

  /** A create or update reply: the saved record, or the backend message
      (`fallback` when that is missing or empty). */
  function UnwrapWrite(reply: Reply<Envelope<Item>>, fallback: string): (r: Outcome<Item>)
    ensures r.Next? <==> reply.Delivered? && Accepted(reply.body)
    ensures r.Next? ==> r.value.id == reply.body.data.value.backendId
    ensures r.Next? ==> StripId(r.value) == StripId(reply.body.data.value)
    ensures reply.Delivered? && !Accepted(reply.body) ==>
      r == Error(Thrown(StrOr(reply.body.message, fallback)))
    ensures reply.Failed? ==> r == Error(Transport(reply.error))
  {
    match reply
    case Failed(e) => Error(Transport(e))
    case Delivered(env) =>
      if Accepted(env) then Next(CopyId(env.data.value))
      else Error(Thrown(StrOr(env.message, fallback)))
  }

  /** A write failure always carries a non-empty message when the fallback is non-empty. */
  lemma WriteFailureMessageNonEmpty(reply: Reply<Envelope<Item>>, fallback: string)
    requires fallback != ""
    requires reply.Delivered? && !Accepted(reply.body)
    ensures UnwrapWrite(reply, fallback).Error?
    ensures UnwrapWrite(reply, fallback).reason.Thrown?
    ensures UnwrapWrite(reply, fallback).reason.message != ""
  {
  }

  /** A delete reply: exactly the envelope's `success` flag; never an error
      for a business failure. */
  function UnwrapDelete(reply: Reply<Envelope<()>>): (r: Outcome<bool>)
    ensures reply.Delivered? ==> r == Next(reply.body.success)
    ensures reply.Failed? ==> r == Error(Transport(reply.error))
  {
    match reply
    case Failed(e) => Error(Transport(e))
    case Delivered(env) => Next(env.success)
  }

  /** `items.filter(i => i.id !== id)`: every record whose client `id` differs,
      in order; an absent `id` matches every record without one. */
  function WithoutId(items: seq<Item>, id: Option<string>): (r: seq<Item>)
    ensures |r| <= |items|
    ensures forall x :: x in r <==> x in items && x.id != id
  {
    if |items| == 0 then []
    else if items[0].id != id then [items[0]] + WithoutId(items[1..], id)
    else WithoutId(items[1..], id)
  }

  /** A single record is kept exactly when its `id` differs. */
  lemma WithoutIdOne(item: Item, id: Option<string>)
    ensures WithoutId([item], id) == if item.id != id then [item] else []
  {
    assert [item][1..] == [];
  }

  /** Filtering a concatenation filters each part and keeps their order, so
      the surviving records appear in the order of the input. */
  lemma {:induction false} WithoutIdAppend(a: seq<Item>, b: seq<Item>, id: Option<string>)
    ensures WithoutId(a + b, id) == WithoutId(a, id) + WithoutId(b, id)
  {
    if |a| == 0 {
      assert a + b == b;
    } else {
      assert (a + b)[0] == a[0];
      assert (a + b)[1..] == a[1..] + b;
      WithoutIdAppend(a[1..], b, id);
    }
  }

  /** Filtering keeps every record when none carries the `id`. */
  lemma {:induction false} WithoutAbsentId(items: seq<Item>, id: Option<string>)
    requires forall i :: 0 <= i < |items| ==> items[i].id != id
    ensures WithoutId(items, id) == items
  {
    if |items| > 0 {
      WithoutAbsentId(items[1..], id);
    }
  }

  /** Filtering twice by the same `id` is filtering once. */
  lemma WithoutIdIdempotent(items: seq<Item>, id: Option<string>)
    ensures WithoutId(WithoutId(items, id), id) == WithoutId(items, id)
  {
    var r := WithoutId(items, id);
    assert forall i :: 0 <= i < |r| ==> r[i] in r;
    WithoutAbsentId(r, id);
  }
}
