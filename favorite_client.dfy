/**
 * The remote favorite store behind `POST /api/favorites` and `DELETE /api/favorites/{id}`.
 * The client turns every response that is not a 2xx into a thrown error; what a
 * successful call does to the stored records is the REST contract assumed here.
 */
module FavoriteClient {
  import opened Common
  import opened Entities

  /**
   * How a store call settled. `Ok` is a 2xx response whose JSON body, for a
   * create, also parses. `NotOk` is a non-2xx status, a network failure, or a
   * create body that does not parse: each makes the client throw.
   */
  datatype Response = Ok | NotOk

  /** The body of `POST /api/favorites`; "" stands for a missing or empty `user_email`. */
  datatype CreateRequest = CreateRequest(userEmail: string, itemId: string)

  /** The record the server stores for a create request, with the id it assigned. */
  function Created(req: CreateRequest, assignedId: string): (r: FavoriteData)
    ensures r.id == Some(assignedId) && r.userEmail == req.userEmail && r.itemId == req.itemId
  {
    FavoriteData(Some(assignedId), req.userEmail, req.itemId, None)
  }

  /** `records` with every record whose id is `id` removed, the others kept in order. */
  function WithoutId(records: seq<FavoriteData>, id: string): (r: seq<FavoriteData>)
    ensures |r| <= |records|
    ensures forall x :: x in r <==> x in records && x.id != Some(id)
    ensures (forall k :: 0 <= k < |records| ==> records[k].id != Some(id)) ==> r == records
  {
    if records == [] then []
    else if records[0].id == Some(id) then WithoutId(records[1..], id)
    else [records[0]] + WithoutId(records[1..], id)
  }

  /** The removal works record by record, so the survivors keep their relative order. */
  lemma {:induction false} WithoutIdAppend(a: seq<FavoriteData>, b: seq<FavoriteData>, id: string)
    ensures WithoutId(a + b, id) == WithoutId(a, id) + WithoutId(b, id)
  {
    if a == [] {
      assert a + b == b;
    } else {
      assert (a + b)[1..] == a[1..] + b;
      WithoutIdAppend(a[1..], b, id);
    }
  }

  class RemoteFavorites {
    var records: seq<FavoriteData>

    constructor (initial: seq<FavoriteData>)
      ensures records == initial
    {
      records := initial;
    }

    /** `Favorite.create`: fails unless the response is a 2xx. */
    method Create(req: CreateRequest, response: Response, assignedId: string) returns (ok: bool)
      modifies this
      ensures ok <==> response.Ok?
      ensures records == if ok then old(records) + [Created(req, assignedId)] else old(records)
    {
      ok := response.Ok?;
      if ok {
        records := records + [Created(req, assignedId)];
      }
    }

    /** `Favorite.delete`: fails unless the response is a 2xx. */
    method Delete(id: string, response: Response) returns (ok: bool)
      modifies this
      ensures ok <==> response.Ok?
      ensures records == if ok then WithoutId(old(records), id) else old(records)
    {
      ok := response.Ok?;
      if ok {
        records := WithoutId(records, id);
      }
    }
  }
}
