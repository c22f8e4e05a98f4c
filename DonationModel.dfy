/**
 * The `Donation` record and the two screens that build one: the Donate
 * button (a new record) and the Edit Donation save action (a changed copy).
 */
module DonationModel {

  import opened Wrappers
  import opened UserModel

  /** One blood donation. `date` is in milliseconds since the epoch. */
  datatype Donation = Donation(id: string, userId: string, date: Int64, location: string, bloodGroup: string)

  /** The donation built with no arguments; `date` defaults to the current time, given here as `now`. */
  function DefaultDonation(now: Int64): (d: Donation)
    ensures d.id == "" && d.userId == "" && d.location == "" && d.bloodGroup == ""
    ensures d.date == now
  {
    Donation("", "", now, "", "")
  }

  /**
   * Kotlin's `Char.isWhitespace`: the Unicode space, line and paragraph
   * separators together with the control characters U+0009..U+000D and
   * U+001C..U+001F.
   */
  predicate IsWhitespace(c: char)
  {
    || '\t' <= c <= '\r'
    || '\U{1C}' <= c <= ' '
    || c == '\U{A0}' || c == '\U{1680}'
    || '\U{2000}' <= c <= '\U{200A}'
    || c == '\U{2028}' || c == '\U{2029}' || c == '\U{202F}' || c == '\U{205F}' || c == '\U{3000}'
  }

  /** `isBlank`: empty, or whitespace only. */
  predicate IsBlank(s: string)
  {
    forall i :: 0 <= i < |s| ==> IsWhitespace(s[i])
  }

  /** Why the Donate button refused to build a record. */
  datatype DonateRefusal = BlankLocation | NoCurrentUser

  datatype DonateOutcome = Refused(reason: DonateRefusal) | NewDonation(donation: Donation)

  /**
   * The Donate button: refuse a blank location, then a missing current user;
   * otherwise the new record copies the owner's uid and blood group as they
   * are now. `newId` stands for the random UUID.
   */
  function Donate(location: string, currentUser: Option<User>, newId: string, date: Int64): (o: DonateOutcome)
    ensures o == Refused(BlankLocation) <==> IsBlank(location)
    ensures o == Refused(NoCurrentUser) <==> !IsBlank(location) && currentUser == None
    ensures o.NewDonation? <==> !IsBlank(location) && currentUser.Some?
    ensures o.NewDonation? ==>
      && o.donation.id == newId
      && o.donation.userId == currentUser.value.uid
      && o.donation.bloodGroup == currentUser.value.bloodGroup
      && o.donation.location == location
      && o.donation.date == date
  {
    if IsBlank(location) then Refused(BlankLocation)
    else match currentUser
      case None => Refused(NoCurrentUser)
      case Some(u) => NewDonation(Donation(newId, u.uid, date, location, u.bloodGroup))
  }

  /** The Edit Donation save action: `donation.copy(location = ..., date = ...)`. */
  function EditDonation(d: Donation, location: string, date: Int64): (e: Donation)
    ensures e.id == d.id && e.userId == d.userId && e.bloodGroup == d.bloodGroup
    ensures e.location == location && e.date == date
  {
    d.(location := location, date := date)
  }
}
