/** The records the components pass around. */
module Entities {
  import opened Common

  /** A saved association between a user and a rentable item. `id` is assigned by the server. */
  datatype FavoriteData = FavoriteData(id: Option<string>, userEmail: string, itemId: string, createdAt: Option<string>)

  /** One entry of a user's `emailAddresses` list. */
  datatype EmailAddress = EmailAddress(emailAddress: Option<string>)

  /**
   * The current-user object. The identity provider's user carries `emailAddresses`;
   * the local `UserData` shape carries `email`. An absent list is the empty list.
   */
  datatype CurrentUser = CurrentUser(email: Option<string>, emailAddresses: seq<EmailAddress>)

  /** `user.emailAddresses[0]?.emailAddress` */
  function FirstEmailAddress(u: CurrentUser): Option<string> {
    if |u.emailAddresses| == 0 then None else u.emailAddresses[0].emailAddress
  }

  /** A rentable item as the listing views and the card see it. */
  datatype Item = Item(
    id: string,
    title: string,
    category: string,
    location: Option<string>,
    dailyRate: int,
    availability: bool,
    instantBooking: Option<bool>,
    images: Option<seq<string>>,
    videos: Option<seq<string>>)
}
