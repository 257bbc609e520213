/**
 * The featured-items listing of the home page: three mock items, and the
 * user's favorites read from the local cache, with an in-memory demo favorite
 * when the cache has no entry for the user.
 */
module FeaturedItems {
  import opened Common
  import opened Entities
  import opened HomeViews

  const MockFeatured: seq<Item> := [
    PressureWasher,
    Item("2", "Drone", "electronics", Some("Paris"), 25, true, Some(true),
         Some(["https://images.unsplash.com/photo-1473968512647-3e447244af8f?w=400&h=500&fit=crop"]), None),
    Item("3", "Skis", "sports", Some("Madrid"), 15, true, Some(true),
         Some(["https://images.unsplash.com/photo-1551524164-6cf77f5e7f8b?w=400&h=500&fit=crop"]), None)
  ]

  /** The demo favorite (the pressure washer), stamped with the time of the effect. */
  function DemoFavorites(email: string, now: string): (r: seq<FavoriteData>)
    ensures |r| == 1 && r[0].id == Some("fav_1") && r[0].itemId == "1" && r[0].userEmail == email
    ensures r[0].itemId == MockFeatured[0].id
  {
    [FavoriteData(Some("fav_1"), email, "1", Some(now))]
  }

  /** The state after the load effect runs with the current hook values. */
  function AfterLoad(userLoaded: bool, isSignedIn: bool, user: Option<CurrentUser>,
                     entries: map<string, StoredValue>, now: string, prior: ViewState): (s: ViewState)
    ensures !userLoaded ==> s == prior
    ensures userLoaded && !isSignedIn ==> s == prior.(isLoading := false)
    ensures userLoaded && isSignedIn ==> s.items == MockFeatured && !s.isLoading
    ensures userLoaded && isSignedIn && ReadFavorites(user, entries).Loaded? ==>
              s.userFavorites == ReadFavorites(user, entries).records
    ensures userLoaded && isSignedIn && ReadFavorites(user, entries).Missing? ==>
              s.userFavorites == DemoFavorites(CacheEmail(user).value, now)
    ensures (ReadFavorites(user, entries).NoEmail? || ReadFavorites(user, entries).ReadFailed?) ==>
              s.userFavorites == prior.userFavorites
    ensures ShouldRender(userLoaded, isSignedIn, s.isLoading, s.items) <==> userLoaded && isSignedIn
  {
    if userLoaded && isSignedIn then
      var favorites := match ReadFavorites(user, entries)
        case Loaded(records) => records
        case Missing(email) => DemoFavorites(email, now)
        case _ => prior.userFavorites;
      ViewState(MockFeatured, favorites, false)
    else if userLoaded then
      prior.(isLoading := false)
    else
      prior
  }

  class FeaturedItemsView {
    const storage: Storage
    const hasParentCallback: bool
    var userLoaded: bool
    var isSignedIn: bool
    var currentUser: Option<CurrentUser>
    var featuredItems: seq<Item>
    var userFavorites: seq<FavoriteData>
    var isLoading: bool
    var parentCalls: nat

    function State(): ViewState
      reads this
    {
      ViewState(featuredItems, userFavorites, isLoading)
    }

    constructor (storage: Storage, hasParentCallback: bool,
                 userLoaded: bool, isSignedIn: bool, currentUser: Option<CurrentUser>)
      ensures State() == InitialState && parentCalls == 0
      ensures this.storage == storage && this.hasParentCallback == hasParentCallback
      ensures this.userLoaded == userLoaded && this.isSignedIn == isSignedIn && this.currentUser == currentUser
    {
      this.storage := storage;
      this.hasParentCallback := hasParentCallback;
      this.userLoaded, this.isSignedIn, this.currentUser := userLoaded, isSignedIn, currentUser;
      featuredItems, userFavorites, isLoading := [], [], true;
      parentCalls := 0;
    }

    /** The identity hooks report new values; the effect below then runs again. */
    method HooksChanged(userLoaded: bool, isSignedIn: bool, currentUser: Option<CurrentUser>)
      modifies this`userLoaded, this`isSignedIn, this`currentUser
      ensures this.userLoaded == userLoaded && this.isSignedIn == isSignedIn && this.currentUser == currentUser
    {
      this.userLoaded, this.isSignedIn, this.currentUser := userLoaded, isSignedIn, currentUser;
    }

    /** The load effect; `now` is the clock reading used for the demo record. Storage is only read. */
    method LoadEffect(now: string)
      modifies this`featuredItems, this`userFavorites, this`isLoading
      ensures State() == AfterLoad(userLoaded, isSignedIn, currentUser, storage.entries, now, old(State()))
      ensures userLoaded ==> (Renders() <==> isSignedIn)
      ensures unchanged(storage)
    {
      if userLoaded && isSignedIn {
        featuredItems := MockFeatured;
        if currentUser.Some? {
          var userEmail := FirstEmailAddress(currentUser.value);
          if Truthy(userEmail) {
            var key := StorageKey(userEmail.value);
            if key in storage.entries && !storage.entries[key].EmptyText? {
              if storage.entries[key].Json? {
                userFavorites := storage.entries[key].records;
              }
            } else {
              userFavorites := DemoFavorites(userEmail.value, now);
            }
          }
        }
        isLoading := false;
      } else if userLoaded && !isSignedIn {
        isLoading := false;
      }
    }

    /**
     * `handleFavoriteChange`: awaits the parent's callback, then re-reads the
     * cache. A rejected callback rejects this promise before the re-read.
     */
    method HandleFavoriteChange(parent: Settled) returns (resolved: bool)
      modifies this`userFavorites, this`parentCalls
      ensures parentCalls == old(parentCalls) + (if hasParentCallback then 1 else 0)
      ensures resolved <==> !hasParentCallback || parent.Resolved?
      ensures userFavorites ==
                if resolved then ReloadedFavorites(currentUser, storage.entries, old(userFavorites))
                else old(userFavorites)
      ensures unchanged(storage)
    {
      if hasParentCallback {
        parentCalls := parentCalls + 1;
        if parent.Rejected? {
          return false;
        }
      }
      if currentUser.Some? {
        var userEmail := FirstEmailAddress(currentUser.value);
        if Truthy(userEmail) {
          var key := StorageKey(userEmail.value);
          if key in storage.entries && storage.entries[key].Json? {
            userFavorites := storage.entries[key].records;
          }
        }
      }
      return true;
    }

    predicate Renders()
      reads this
    {
      ShouldRender(userLoaded, isSignedIn, isLoading, featuredItems)
    }
  }
}
