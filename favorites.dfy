/**
 * The favorite toggle control on an item card: it shows whether the item is in
 * the user's favorites and, on a click, redirects to sign-in, deletes the
 * matching record or creates one, holding `isProcessing` while a call is out.
 */
module Favorites {
  import opened Common
  import opened Entities
  import opened FavoriteClient

  const SignInPath: string := "/auth/signin"

  /** `userFavorites.some(fav => fav.item_id === itemId)` */
  function IsFavorited(favs: seq<FavoriteData>, itemId: string): (r: bool)
    ensures r <==> exists i :: 0 <= i < |favs| && favs[i].itemId == itemId
  {
    if favs == [] then false
    else favs[0].itemId == itemId || IsFavorited(favs[1..], itemId)
  }

  /** Whether an item is favorited does not depend on the order of the records. */
  lemma IsFavoritedIgnoresOrder(a: seq<FavoriteData>, b: seq<FavoriteData>, itemId: string)
    requires multiset(a) == multiset(b)
    ensures IsFavorited(a, itemId) == IsFavorited(b, itemId)
  {
    forall x: seq<FavoriteData>, y: seq<FavoriteData> | multiset(x) == multiset(y) && IsFavorited(x, itemId)
      ensures IsFavorited(y, itemId)
    {
      var i :| 0 <= i < |x| && x[i].itemId == itemId;
      assert x[i] in multiset(y);
      var j :| 0 <= j < |y| && y[j] == x[i];
    }
  }

  /** Index `i` holds the first record of `favs` for `itemId`. */
  predicate IsFirstMatch(favs: seq<FavoriteData>, itemId: string, i: int) {
    0 <= i < |favs| && favs[i].itemId == itemId &&
    forall j :: 0 <= j < i ==> favs[j].itemId != itemId
  }

  lemma FirstMatchUnique(favs: seq<FavoriteData>, itemId: string, i: int, k: int)
    requires IsFirstMatch(favs, itemId, i) && IsFirstMatch(favs, itemId, k)
    ensures i == k
  {
  }

  /** `userFavorites.find(fav => fav.item_id === itemId)` */
  function FirstMatch(favs: seq<FavoriteData>, itemId: string): (r: Option<FavoriteData>)
    ensures r.Some? <==> IsFavorited(favs, itemId)
    ensures r.Some? ==> exists i :: IsFirstMatch(favs, itemId, i) && favs[i] == r.value
  {
    if favs == [] then None
    else if favs[0].itemId == itemId then
      assert IsFirstMatch(favs, itemId, 0);
      Some(favs[0])
    else
      var r := FirstMatch(favs[1..], itemId);
      if r.Some? then
        var i :| IsFirstMatch(favs[1..], itemId, i) && favs[1..][i] == r.value;
        assert IsFirstMatch(favs, itemId, i + 1);
        r
      else
        r
  }

  /** `currentUser.email || currentUser.emailAddresses?.[0]?.emailAddress || currentUser.email`,
      with "" standing for the falsy value the chain ends in when neither is present. */
  function ResolveEmail(u: CurrentUser): (r: string)
    ensures Truthy(u.email) ==> r == u.email.value
    ensures !Truthy(u.email) && Truthy(FirstEmailAddress(u)) ==> r == FirstEmailAddress(u).value
    ensures !Truthy(u.email) && !Truthy(FirstEmailAddress(u)) ==> r == ""
  {
    OrElse(OrElse(u.email, FirstEmailAddress(u)), u.email).GetOr("")
  }

  /** The one store call a signed-in click makes, if any. */
  datatype StoreCall = DeleteCall(id: string) | CreateCall(request: CreateRequest) | NoStoreCall

  /** The store step of the handler for a signed-in user. */
  function PlanStoreCall(itemId: string, favs: seq<FavoriteData>, user: CurrentUser): (c: StoreCall)
    ensures c.CreateCall? <==> !IsFavorited(favs, itemId)
    ensures c.CreateCall? ==> c.request == CreateRequest(ResolveEmail(user), itemId)
    ensures c.DeleteCall? ==> c.id != "" && exists i :: IsFirstMatch(favs, itemId, i) && favs[i].id == Some(c.id)
    ensures c.NoStoreCall? <==> exists i :: IsFirstMatch(favs, itemId, i) && !Truthy(favs[i].id)
  {
    if IsFavorited(favs, itemId) then
      var favorite := FirstMatch(favs, itemId).value;
      if Truthy(favorite.id) then DeleteCall(favorite.id.value) else NoStoreCall
    else
      CreateCall(CreateRequest(ResolveEmail(user), itemId))
  }

  /** What the handler makes happen outside the component, in order. */
  datatype Effect = Navigate(path: string) | Call(call: StoreCall) | FavoriteChanged

  function CallEffects(c: StoreCall): seq<Effect> {
    if c.NoStoreCall? then [] else [Call(c)]
  }

  /**
   * Everything one complete run of `handleToggleFavorite` does, for the props it
   * was rendered with, whether an `onFavoriteChange` callback was passed, and how
   * the store call (if any) answered.
   */
  function ToggleRun(itemId: string, favs: seq<FavoriteData>, user: Option<CurrentUser>,
                     hasFavoriteChange: bool, response: Response): (r: seq<Effect>)
    ensures user.None? ==> r == [Navigate(SignInPath)]
    ensures user.Some? ==> forall e :: e in r ==> !e.Navigate?
    ensures forall i, j :: 0 <= i < j < |r| ==> !(r[i].Call? && r[j].Call?)
    ensures forall e :: e in r && e.Call? ==> e.call.DeleteCall? == IsFavorited(favs, itemId)
    ensures user.Some? ==>
              (forall e :: e in r && e.Call? ==> e.call == PlanStoreCall(itemId, favs, user.value)) &&
              (!PlanStoreCall(itemId, favs, user.value).NoStoreCall? ==> Call(PlanStoreCall(itemId, favs, user.value)) in r)
    ensures FavoriteChanged in r <==>
              user.Some? && hasFavoriteChange &&
              (response.Ok? || forall e :: e in r ==> !e.Call?)
  {
    if user.None? then [Navigate(SignInPath)]
    else
      var c := PlanStoreCall(itemId, favs, user.value);
      var r := CallEffects(c) + (if hasFavoriteChange && (c.NoStoreCall? || response.Ok?) then [FavoriteChanged] else []);
      assert !c.NoStoreCall? ==> r[0] == Call(c);
      r
  }

  /** The remote records after the store call settled with `response`. */
  /** It combines the `Create` and `Delete` contracts of the remote store. */
  function StoreAfter(records: seq<FavoriteData>, c: StoreCall, response: Response, assignedId: string): (r: seq<FavoriteData>)
    ensures response.NotOk? || c.NoStoreCall? ==> r == records
    ensures response.Ok? && c.CreateCall? ==>
              |r| == |records| + 1 && r[..|records|] == records && r[|records|].id == Some(assignedId) &&
              r[|records|].itemId == c.request.itemId && r[|records|].userEmail == c.request.userEmail
    ensures response.Ok? && c.DeleteCall? ==> forall x :: x in r <==> x in records && x.id != Some(c.id)
  {
    if response.NotOk? then records
    else match c
      case DeleteCall(id) => WithoutId(records, id)
      case CreateCall(req) => records + [Created(req, assignedId)]
      case NoStoreCall => records
  }

  /** At most one record of `favs` is for `itemId` (the intended per-user uniqueness). */
  predicate AtMostOneFor(favs: seq<FavoriteData>, itemId: string) {
    forall i, j :: 0 <= i < j < |favs| && favs[i].itemId == itemId ==> favs[j].itemId != itemId
  }

  /** No two records of `favs` share a server id. */
  predicate DistinctIds(favs: seq<FavoriteData>) {
    forall i, j :: 0 <= i < j < |favs| ==> favs[i].id != favs[j].id
  }

  /** Removing an id that exactly one record carries shortens the list by one. */
  lemma {:induction false} WithoutDistinctIdDropsOne(records: seq<FavoriteData>, id: string, i: int)
    requires DistinctIds(records)
    requires 0 <= i < |records| && records[i].id == Some(id)
    ensures |WithoutId(records, id)| == |records| - 1
  {
    if i == 0 {
      forall k | 0 <= k < |records[1..]|
        ensures records[1..][k].id != Some(id)
      {
        assert records[k + 1] == records[1..][k];
      }
    } else {
      assert records[0].id != records[i].id;
      assert records[1..][i - 1] == records[i];
      WithoutDistinctIdDropsOne(records[1..], id, i - 1);
    }
  }

  /**
   * When the list the button was given is the server's list, every record has
   * its server id, and the item appears at most once, a successful toggle flips
   * whether the item is favorited and leaves every other record in place.
   */
  lemma ToggleFlipsFavorite(itemId: string, favs: seq<FavoriteData>, user: CurrentUser, assignedId: string)
    requires forall i :: 0 <= i < |favs| ==> Truthy(favs[i].id)
    requires DistinctIds(favs)
    requires AtMostOneFor(favs, itemId)
    ensures var after := StoreAfter(favs, PlanStoreCall(itemId, favs, user), Ok, assignedId);
            IsFavorited(after, itemId) == !IsFavorited(favs, itemId) &&
            (forall x :: x in favs && x.itemId != itemId ==> x in after) &&
            (forall x :: x in after ==> x in favs || x.itemId == itemId) &&
            |after| == (if IsFavorited(favs, itemId) then |favs| - 1 else |favs| + 1) &&
            AtMostOneFor(after, itemId)
  {
    var c := PlanStoreCall(itemId, favs, user);
    var after := StoreAfter(favs, c, Ok, assignedId);
    if IsFavorited(favs, itemId) {
      var i :| IsFirstMatch(favs, itemId, i) && favs[i].id == Some(c.id);
      WithoutDistinctIdDropsOne(favs, c.id, i);
      forall k | 0 <= k < |after|
        ensures after[k].itemId != itemId
      {
        assert after[k] in favs;
        var m :| 0 <= m < |favs| && favs[m] == after[k];
        if m != i {
          assert favs[m].id != favs[i].id;
        }
      }
      forall x | x in favs && x.itemId != itemId
        ensures x in after
      {
        var m :| 0 <= m < |favs| && favs[m] == x;
        assert m != i;
      }
    } else {
      assert after[|favs|].itemId == itemId;
    }
  }

  /** Where the handler is suspended. */
  datatype Phase = Idle | AwaitingStore(call: StoreCall) | AwaitingFavoriteChange

  class FavoriteButton {
    const itemId: string
    const hasFavoriteChange: bool
    const store: RemoteFavorites
    var userFavorites: seq<FavoriteData>
    var currentUser: Option<CurrentUser>
    var isProcessing: bool
    var phase: Phase
    var effects: seq<Effect>

    ghost predicate Valid()
      reads this
    {
      (isProcessing <==> !phase.Idle?) &&
      (phase.AwaitingStore? ==> !phase.call.NoStoreCall?)
    }

    constructor (itemId: string, userFavorites: seq<FavoriteData>, currentUser: Option<CurrentUser>,
                 hasFavoriteChange: bool, store: RemoteFavorites)
      ensures Valid() && !isProcessing && effects == []
      ensures this.itemId == itemId && this.userFavorites == userFavorites
      ensures this.currentUser == currentUser && this.hasFavoriteChange == hasFavoriteChange
      ensures this.store == store
    {
      this.itemId := itemId;
      this.hasFavoriteChange := hasFavoriteChange;
      this.store := store;
      this.userFavorites := userFavorites;
      this.currentUser := currentUser;
      isProcessing := false;
      phase := Idle;
      effects := [];
    }

    /** The filled heart. */
    predicate Favorited()
      reads this
    {
      IsFavorited(userFavorites, itemId)
    }

    /** The control is disabled while a toggle is in flight. */
    predicate Disabled()
      reads this
    {
      isProcessing
    }

    /** A re-render with new props keeps the component's own state. */
    method Rerender(favs: seq<FavoriteData>, user: Option<CurrentUser>)
      requires Valid()
      modifies this`userFavorites, this`currentUser
      ensures Valid() && userFavorites == favs && currentUser == user
    {
      userFavorites, currentUser := favs, user;
    }

    /** A click, up to the first `await` of the store call. A disabled control ignores it. */
    method Click()
      requires Valid()
      modifies this`isProcessing, this`phase, this`effects
      ensures Valid()
      ensures old(Disabled()) ==> Disabled() && phase == old(phase) && effects == old(effects)
      ensures !old(isProcessing) && currentUser.None? ==>
                !isProcessing && effects == old(effects) + [Navigate(SignInPath)]
      ensures !old(isProcessing) && currentUser.Some? ==>
                var c := PlanStoreCall(itemId, userFavorites, currentUser.value);
                effects == old(effects) + CallEffects(c) + (if c.NoStoreCall? && hasFavoriteChange then [FavoriteChanged] else []) &&
                phase == (if !c.NoStoreCall? then AwaitingStore(c)
                          else if hasFavoriteChange then AwaitingFavoriteChange
                          else Idle)
    {
      if isProcessing {
        return;
      }
      if currentUser.None? {
        effects := effects + [Navigate(SignInPath)];
        return;
      }
      isProcessing := true;
      var c := PlanStoreCall(itemId, userFavorites, currentUser.value);
      if !c.NoStoreCall? {
        effects := effects + [Call(c)];
        phase := AwaitingStore(c);
      } else if hasFavoriteChange {
        effects := effects + [FavoriteChanged];
        phase := AwaitingFavoriteChange;
      } else {
        isProcessing := false;
        phase := Idle;
      }
    }

    /** The store call settles; a failure is swallowed and ends the handler. */
    method StoreSettled(response: Response, assignedId: string)
      requires Valid() && phase.AwaitingStore?
      modifies this`isProcessing, this`phase, this`effects, store
      ensures Valid()
      ensures store.records == StoreAfter(old(store.records), old(phase).call, response, assignedId)
      ensures effects == old(effects) + (if response.Ok? && hasFavoriteChange then [FavoriteChanged] else [])
      ensures phase == if response.Ok? && hasFavoriteChange then AwaitingFavoriteChange else Idle
    {
      var ok;
      match phase.call {
        case DeleteCall(id) => ok := store.Delete(id, response);
        case CreateCall(req) => ok := store.Create(req, response, assignedId);
      }
      if ok && hasFavoriteChange {
        effects := effects + [FavoriteChanged];
        phase := AwaitingFavoriteChange;
      } else {
        isProcessing := false;
        phase := Idle;
      }
    }

    /** The `onFavoriteChange` callback settles; success and failure both end the handler. */
    method FavoriteChangeSettled()
      requires Valid() && phase.AwaitingFavoriteChange?
      modifies this`isProcessing, this`phase
      ensures Valid() && !isProcessing
    {
      isProcessing := false;
      phase := Idle;
    }

    /**
     * One whole run of `handleToggleFavorite` with no other click in between:
     * it performs exactly `ToggleRun` and always ends with `isProcessing` false.
     */
    method ToggleToCompletion(response: Response, assignedId: string)
      requires Valid() && !isProcessing
      modifies this`isProcessing, this`phase, this`effects, store
      ensures Valid() && !isProcessing
      ensures effects == old(effects) + ToggleRun(itemId, userFavorites, currentUser, hasFavoriteChange, response)
      ensures store.records ==
                if currentUser.None? then old(store.records)
                else StoreAfter(old(store.records), PlanStoreCall(itemId, userFavorites, currentUser.value), response, assignedId)
    {
      Click();
      if phase.AwaitingStore? {
        StoreSettled(response, assignedId);
      }
      if phase.AwaitingFavoriteChange? {
        FavoriteChangeSettled();
      }
    }
  }
}
