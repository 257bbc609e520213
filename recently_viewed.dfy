/**
 * The recently-viewed listing of the home page: one mock item and the user's
 * favorites read from the local cache, with no demo favorite.
 */
module RecentlyViewed {
  import opened Common
  import opened Entities
  import opened HomeViews
  import FeaturedItems

  const MockRecent: seq<Item> := [PressureWasher]

  /** The state after the load effect runs with the current hook values. */
  function AfterLoad(userLoaded: bool, isSignedIn: bool, user: Option<CurrentUser>,
                     entries: map<string, StoredValue>, prior: ViewState): (s: ViewState)
    ensures !userLoaded ==> s == prior
    ensures userLoaded && !isSignedIn ==> s == prior.(isLoading := false)
    ensures userLoaded && isSignedIn ==> s.items == MockRecent && !s.isLoading
    ensures userLoaded && isSignedIn && ReadFavorites(user, entries).Loaded? ==>
              s.userFavorites == ReadFavorites(user, entries).records
    ensures !ReadFavorites(user, entries).Loaded? ==> s.userFavorites == prior.userFavorites
    ensures ShouldRender(userLoaded, isSignedIn, s.isLoading, s.items) <==> userLoaded && isSignedIn
  {
    if userLoaded && isSignedIn then
      var favorites := match ReadFavorites(user, entries)
        case Loaded(records) => records
        case _ => prior.userFavorites;
      ViewState(MockRecent, favorites, false)
    else if userLoaded then
      prior.(isLoading := false)
    else
      prior
  }

  /**
   * The two listings load the same favorites except when the cache has no
   * entry: then only the featured listing installs its demo record.
   */
  lemma {:induction false} SeedIsTheOnlyDifference(userLoaded: bool, isSignedIn: bool, user: Option<CurrentUser>,
                                 entries: map<string, StoredValue>, now: string, prior: ViewState)
    requires userLoaded && isSignedIn
    ensures var recent := AfterLoad(userLoaded, isSignedIn, user, entries, prior).userFavorites;
            var featured := FeaturedItems.AfterLoad(userLoaded, isSignedIn, user, entries, now, prior).userFavorites;
            (recent == featured <==> !ReadFavorites(user, entries).Missing? || prior.userFavorites == featured) &&
            (ReadFavorites(user, entries).Missing? ==> |featured| == 1)
  {
  }

  class RecentlyViewedView {
    const storage: Storage
    const hasParentCallback: bool
    var userLoaded: bool
    var isSignedIn: bool
    var currentUser: Option<CurrentUser>
    var recentItems: seq<Item>
    var userFavorites: seq<FavoriteData>
    var isLoading: bool
    var parentCalls: nat

    function State(): ViewState
      reads this
    {
      ViewState(recentItems, userFavorites, isLoading)
    }

    constructor (storage: Storage, hasParentCallback: bool,
                 userLoaded: bool, isSignedIn: bool, currentUser: Option<CurrentUser>)
      ensures State() == InitialState && parentCalls == 0
      ensures this.storage == storage && this.hasParentCallback == hasParentCallback
      ensures this.userLoaded == userLoaded && this.isSignedIn == isSignedIn && this.currentUser == currentUser
    {
      this.storage := storage;
      this.hasParentCallback := hasParentCallback;
      this.userLoaded, this.isSignedIn, this.currentUser := userLoaded, isSignedIn, currentUser;
      recentItems, userFavorites, isLoading := [], [], true;
      parentCalls := 0;
    }

    /** The identity hooks report new values; the effect below then runs again. */
    method HooksChanged(userLoaded: bool, isSignedIn: bool, currentUser: Option<CurrentUser>)
      modifies this`userLoaded, this`isSignedIn, this`currentUser
      ensures this.userLoaded == userLoaded && this.isSignedIn == isSignedIn && this.currentUser == currentUser
    {
      this.userLoaded, this.isSignedIn, this.currentUser := userLoaded, isSignedIn, currentUser;
    }

    /** The load effect. Storage is only read. */
    method LoadEffect()
      modifies this`recentItems, this`userFavorites, this`isLoading
      ensures State() == AfterLoad(userLoaded, isSignedIn, currentUser, storage.entries, old(State()))
      ensures userLoaded ==> (Renders() <==> isSignedIn)
      ensures unchanged(storage)
    {
      if userLoaded && isSignedIn {
        recentItems := MockRecent;
        if currentUser.Some? {
          var userEmail := FirstEmailAddress(currentUser.value);
          if Truthy(userEmail) {
            var key := StorageKey(userEmail.value);
            if key in storage.entries && storage.entries[key].Json? {
              userFavorites := storage.entries[key].records;
            }
          }
        }
        isLoading := false;
      } else if userLoaded && !isSignedIn {
        isLoading := false;
      }
    }

    /**
     * `handleFavoriteChange`: awaits the parent's callback, then re-reads the
     * cache. A rejected callback rejects this promise before the re-read.
     */
    method HandleFavoriteChange(parent: Settled) returns (resolved: bool)
      modifies this`userFavorites, this`parentCalls
      ensures parentCalls == old(parentCalls) + (if hasParentCallback then 1 else 0)
      ensures resolved <==> !hasParentCallback || parent.Resolved?
      ensures userFavorites ==
                if resolved then ReloadedFavorites(currentUser, storage.entries, old(userFavorites))
                else old(userFavorites)
      ensures unchanged(storage)
    {
      if hasParentCallback {
        parentCalls := parentCalls + 1;
        if parent.Rejected? {
          return false;
        }
      }
      if currentUser.Some? {
        var userEmail := FirstEmailAddress(currentUser.value);
        if Truthy(userEmail) {
          var key := StorageKey(userEmail.value);
          if key in storage.entries && storage.entries[key].Json? {
            userFavorites := storage.entries[key].records;
          }
        }
      }
      return true;
    }

    predicate Renders()
      reads this
    {
      ShouldRender(userLoaded, isSignedIn, isLoading, recentItems)
    }
  }
}
