/** The wishlist synchroniser of `src/contexts/WishlistContext.tsx`: the wished-for
    product records and their ids, both taken from the server after every call. */
module WishlistContext {
  import opened Common
  import opened Api
  import opened LocalStorage
  import Seqs

  const LOGIN_TO_ADD := "Please login to add items to wishlist"

  /** `products.map(p => p._id)` */
  function Ids(ps: seq<ApiProduct>): (r: seq<string>)
    ensures |r| == |ps|
    ensures forall i :: 0 <= i < |ps| ==> r[i] == ps[i].id
    decreases |ps|
  {
    if ps == [] then [] else [ps[0].id] + Ids(ps[1..])
  }

  class WishlistStore {
    const store: Storage
    var items: seq<ApiProduct>
    var wishlistIds: seq<string>
    var isLoading: bool

    constructor (store: Storage)
      ensures this.store == store
      ensures items == [] && wishlistIds == [] && !isLoading
    {
      this.store := store;
      items := [];
      wishlistIds := [];
      isLoading := false;
    }

    /** `isInWishlist`: membership in the id list. */
    function IsInWishlist(productId: string): (b: bool)
      reads this
      ensures b <==> productId in wishlistIds
    {
      Seqs.Includes(wishlistIds, productId)
    }

    /** The ids list describes the records list, in order. */
    predicate InSync()
      reads this
    {
      wishlistIds == Ids(items)
    }

    /** `refreshWishlist`: silent without a token; otherwise load the records and their
        ids. A missing `data` makes the `map` call throw, which, like a failed call,
        empties both lists. */
    method RefreshWishlist(resp: Response<Option<seq<ApiProduct>>>) returns (sent: seq<Request>)
      modifies this
      ensures !IsAuthenticated(store.entries) ==>
                sent == [] && items == old(items) && wishlistIds == old(wishlistIds) && isLoading == old(isLoading)
      ensures IsAuthenticated(store.entries) ==> sent == [WishlistGetRequest] && !isLoading && InSync()
      ensures IsAuthenticated(store.entries) ==>
                items == (if resp.Ok? && resp.body.Some? then resp.body.value else [])
    {
      if !IsAuthenticated(store.entries) {
        return [];
      }
      isLoading := true;
      sent := [WishlistGetRequest];
      match resp {
        case Ok(data) =>
          items := data.GetOr([]);
          match data {
            case Some(ps) =>
              wishlistIds := Ids(ps);
            case None =>
              items := [];
              wishlistIds := [];
          }
        case Err(_) =>
          items := [];
          wishlistIds := [];
      }
      isLoading := false;
    }

    /** `addItem`: rejects without a token; otherwise adds on the server and then
        refreshes, so the ids the add returned are overwritten by the refresh. A failed
        add rejects with its error and leaves both lists alone. */
    method AddItem(productId: string, addResp: Response<Option<seq<string>>>,
                   refreshResp: Response<Option<seq<ApiProduct>>>)
      returns (done: Completion, sent: seq<Request>)
      modifies this
      ensures !IsAuthenticated(store.entries) ==>
                done == Abrupt(ErrorObject(LOGIN_TO_ADD)) && sent == []
                && items == old(items) && wishlistIds == old(wishlistIds) && isLoading == old(isLoading)
      ensures IsAuthenticated(store.entries) ==> !isLoading
      ensures IsAuthenticated(store.entries) && addResp.Err? ==>
                done == Abrupt(addResp.thrown) && sent == [WishlistAddRequest(productId)]
                && items == old(items) && wishlistIds == old(wishlistIds)
      ensures IsAuthenticated(store.entries) && addResp.Ok? ==>
                done == Normal && sent == [WishlistAddRequest(productId), WishlistGetRequest] && InSync()
                && items == (if refreshResp.Ok? && refreshResp.body.Some? then refreshResp.body.value else [])
    {
      if !IsAuthenticated(store.entries) {
        return Abrupt(ErrorObject(LOGIN_TO_ADD)), [];
      }
      isLoading := true;
      sent := [WishlistAddRequest(productId)];
      match addResp {
        case Ok(ids) =>
          wishlistIds := ids.GetOr([]);
          var refreshed := RefreshWishlist(refreshResp);
          sent := sent + refreshed;
          done := Normal;
        case Err(t) =>
          done := Abrupt(t);
      }
      isLoading := false;
    }

    /** `removeItem`: silent without a token; otherwise the ids become the server's
        list and the records with that id are dropped locally. A failed call rejects
        with its error and leaves both lists alone. */
    method RemoveItem(productId: string, resp: Response<Option<seq<string>>>)
      returns (done: Completion, sent: seq<Request>)
      modifies this
      ensures !IsAuthenticated(store.entries) ==>
                done == Normal && sent == []
                && items == old(items) && wishlistIds == old(wishlistIds) && isLoading == old(isLoading)
      ensures IsAuthenticated(store.entries) ==> sent == [WishlistRemoveRequest(productId)] && !isLoading
      ensures IsAuthenticated(store.entries) && resp.Ok? ==>
                done == Normal && wishlistIds == resp.body.GetOr([]) && items == WithoutId(old(items), productId)
      ensures IsAuthenticated(store.entries) && resp.Err? ==>
                done == Abrupt(resp.thrown) && items == old(items) && wishlistIds == old(wishlistIds)
    {
      if !IsAuthenticated(store.entries) {
        return Normal, [];
      }
      isLoading := true;
      sent := [WishlistRemoveRequest(productId)];
      match resp {
        case Ok(ids) =>
          wishlistIds := ids.GetOr([]);
          items := WithoutId(items, productId);
          done := Normal;
        case Err(t) =>
          done := Abrupt(t);
      }
      isLoading := false;
    }

    /** `toggleItem`: removal for a listed id, addition otherwise. */
    method ToggleItem(productId: string, addResp: Response<Option<seq<string>>>,
                      refreshResp: Response<Option<seq<ApiProduct>>>, removeResp: Response<Option<seq<string>>>)
      returns (done: Completion, sent: seq<Request>)
      modifies this
      ensures !IsAuthenticated(store.entries) ==>
                items == old(items) && wishlistIds == old(wishlistIds) && isLoading == old(isLoading) && sent == []
      ensures !IsAuthenticated(store.entries) ==>
                done == if productId in old(wishlistIds) then Normal else Abrupt(ErrorObject(LOGIN_TO_ADD))
      ensures IsAuthenticated(store.entries) ==> !isLoading
      ensures IsAuthenticated(store.entries) && productId in old(wishlistIds) ==>
                sent == [WishlistRemoveRequest(productId)]
                && (removeResp.Ok? ==> done == Normal && items == WithoutId(old(items), productId)
                                        && wishlistIds == removeResp.body.GetOr([]))
                && (removeResp.Err? ==> done == Abrupt(removeResp.thrown)
                                         && items == old(items) && wishlistIds == old(wishlistIds))
      ensures IsAuthenticated(store.entries) && productId !in old(wishlistIds) ==>
                (addResp.Ok? ==> done == Normal && sent == [WishlistAddRequest(productId), WishlistGetRequest]
                                 && items == (if refreshResp.Ok? && refreshResp.body.Some? then refreshResp.body.value else [])
                                 && InSync())
                && (addResp.Err? ==> done == Abrupt(addResp.thrown) && sent == [WishlistAddRequest(productId)]
                                      && items == old(items) && wishlistIds == old(wishlistIds))
    {
      if IsInWishlist(productId) {
        done, sent := RemoveItem(productId, removeResp);
      } else {
        done, sent := AddItem(productId, addResp, refreshResp);
      }
    }
  }
}
