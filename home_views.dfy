/**
 * What the two home-page listings (featured and recently viewed) share: the
 * browser's local storage used as a per-user favorite cache, the lookup they
 * both perform, the reload after a favorite changes, and the render guard.
 */
module HomeViews {
  import opened Common
  import opened Entities

  const KeyPrefix: string := "favorites_"

  /** The local-storage key of a user's cached favorites. */
  function StorageKey(email: string): (k: string)
    ensures StartsWith(k, KeyPrefix) && k[|KeyPrefix|..] == email
  {
    KeyPrefix + email
  }

  /** Distinct users have distinct cache keys. */
  lemma StorageKeyInjective(a: string, b: string)
    requires StorageKey(a) == StorageKey(b)
    ensures a == b
  {
    assert a == StorageKey(a)[|KeyPrefix|..];
  }

  /**
   * A stored string as `localStorage.getItem` returns it and as `JSON.parse`
   * reads it: a parsed array of records, text that makes the parser throw, or
   * the empty string (which is falsy and therefore read as no entry).
   */
  datatype StoredValue = Json(records: seq<FavoriteData>) | Unparsable | EmptyText

  /** The browser's local storage; nothing in these views writes it. */
  class Storage {
    var entries: map<string, StoredValue>

    constructor (entries: map<string, StoredValue>)
      ensures this.entries == entries
    {
      this.entries := entries;
    }
  }

  /** `currentUser?.emailAddresses[0]?.emailAddress` */
  function CacheEmail(user: Option<CurrentUser>): Option<string> {
    if user.None? then None else FirstEmailAddress(user.value)
  }

  /** How the favorites lookup of either view ended. */
  datatype CacheRead =
    | NoEmail                          // no user, or no first email address: no lookup is made
    | Missing(email: string)           // the key is absent or holds ""
    | Loaded(records: seq<FavoriteData>)
    | ReadFailed                       // `JSON.parse` threw; the error is caught and logged

  function ReadFavorites(user: Option<CurrentUser>, entries: map<string, StoredValue>): (r: CacheRead)
    ensures r.NoEmail? <==> !Truthy(CacheEmail(user))
    ensures r.Loaded? <==>
              Truthy(CacheEmail(user)) && StorageKey(CacheEmail(user).value) in entries &&
              entries[StorageKey(CacheEmail(user).value)].Json?
    ensures r.Loaded? ==> r.records == entries[StorageKey(CacheEmail(user).value)].records
    ensures r.Missing? <==>
              Truthy(CacheEmail(user)) &&
              (StorageKey(CacheEmail(user).value) !in entries || entries[StorageKey(CacheEmail(user).value)] == EmptyText)
    ensures r.Missing? ==> r.email == CacheEmail(user).value && r.email != ""
  {
    var email := CacheEmail(user);
    if !Truthy(email) then NoEmail
    else
      var key := StorageKey(email.value);
      if key !in entries || entries[key].EmptyText? then Missing(email.value)
      else match entries[key]
        case Json(records) => Loaded(records)
        case Unparsable => ReadFailed
  }

  /** The favorites after `handleFavoriteChange` re-reads the cache: replaced only by a parsed entry. */
  function ReloadedFavorites(user: Option<CurrentUser>, entries: map<string, StoredValue>,
                             current: seq<FavoriteData>): (r: seq<FavoriteData>)
    ensures ReadFavorites(user, entries).Loaded? ==> r == ReadFavorites(user, entries).records
    ensures !ReadFavorites(user, entries).Loaded? ==> r == current
  {
    match ReadFavorites(user, entries)
    case Loaded(records) => records
    case _ => current
  }

  /** Reloading with nothing cached never clears the list on screen. */
  lemma ReloadKeepsListWithoutEntry(user: Option<CurrentUser>, entries: map<string, StoredValue>,
                                    current: seq<FavoriteData>)
    requires Truthy(CacheEmail(user)) ==> StorageKey(CacheEmail(user).value) !in entries
    ensures ReloadedFavorites(user, entries, current) == current
  {
  }

  /** The listing renders only when loaded, signed in, done loading and holding an item. */
  function ShouldRender(userLoaded: bool, isSignedIn: bool, isLoading: bool, items: seq<Item>): (b: bool)
    ensures b <==> userLoaded && isSignedIn && !isLoading && |items| > 0
  {
    if !userLoaded || !isSignedIn then false
    else if isLoading || |items| == 0 then false
    else true
  }

  /** How the parent's `onFavoriteChange` promise settled. */
  datatype Settled = Resolved | Rejected

  /** The state both listings hold. */
  datatype ViewState = ViewState(items: seq<Item>, userFavorites: seq<FavoriteData>, isLoading: bool)

  const InitialState: ViewState := ViewState([], [], true)

  /** The image of the pressure-washer mock item, used by both listings. */
  const PressureWasherImage: string :=
    "https://images.unsplash.com/photo-1628177142898-93e36b4afd25?w=400&h=500&fit=crop"

  const PressureWasher: Item :=
    Item("1", "Pressure washer", "tools", Some("Pozuelo"), 10, true, Some(true), Some([PressureWasherImage]), None)
}
