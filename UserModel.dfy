/**
 * The `User` record of the blood bank and its field-map encoding `toMap`.
 */
module UserModel {

  import opened Wrappers

  /** Kotlin `Int`: a signed 32-bit integer. */
  newtype Int32 = x: int | -0x8000_0000 <= x < 0x8000_0000

  /** Kotlin `Long`: a signed 64-bit integer (timestamps are milliseconds since the epoch). */
  newtype Int64 = x: int | -0x8000_0000_0000_0000 <= x < 0x8000_0000_0000_0000

  /** A registered user. Every field is immutable; a changed user is a new value. */
  datatype User = User(
    uid: string,
    fullName: string,
    email: string,
    phone: string,
    bloodGroup: string,
    isDonor: bool,
    profileImageUrl: Option<string>,
    lastDonationDate: Option<Int64>,
    totalDonations: Int32,
    createdAt: Int64,
    updatedAt: Int64
  )

  /**
   * The user built when a caller passes no argument at all. `createdAt` and
   * `updatedAt` default to two separate readings of the clock, so they are
   * parameters here.
   */
  function DefaultUser(createdAt: Int64, updatedAt: Int64): (u: User)
    ensures u.uid == "" && u.fullName == "" && u.email == "" && u.phone == "" && u.bloodGroup == ""
    ensures !u.isDonor
    ensures u.profileImageUrl == None && u.lastDonationDate == None
    ensures u.totalDonations == 0
    ensures u.createdAt == createdAt && u.updatedAt == updatedAt
  {
    User("", "", "", "", "", false, None, None, 0, createdAt, updatedAt)
  }

  /** A value of Kotlin's `Any?` as it occurs in the map that `toMap` builds. */
  datatype Value = Null | Text(s: string) | Flag(b: bool) | Long(l: Int64) | Int(i: Int32)

  function OptionalText(o: Option<string>): Value
  {
    match o
    case None => Null
    case Some(s) => Text(s)
  }

  function OptionalLong(o: Option<Int64>): Value
  {
    match o
    case None => Null
    case Some(l) => Long(l)
  }

  /** The eleven keys `toMap` writes, one per constructor field. */
  const UserKeys: set<string> := {
    "uid", "fullName", "email", "phone", "bloodGroup", "isDonor",
    "profileImageUrl", "lastDonationDate", "totalDonations", "createdAt", "updatedAt"
  }

  /** `User.toMap()`: each field stored under the key spelled like the field. */
  function ToMap(u: User): (m: map<string, Value>)
    ensures m.Keys == UserKeys
    ensures "isDonor" in m && m["isDonor"] == Flag(u.isDonor) && "donor" !in m
  {
    map[
      "uid" := Text(u.uid),
      "fullName" := Text(u.fullName),
      "email" := Text(u.email),
      "phone" := Text(u.phone),
      "bloodGroup" := Text(u.bloodGroup),
      "isDonor" := Flag(u.isDonor),
      "profileImageUrl" := OptionalText(u.profileImageUrl),
      "lastDonationDate" := OptionalLong(u.lastDonationDate),
      "totalDonations" := Int(u.totalDonations),
      "createdAt" := Long(u.createdAt),
      "updatedAt" := Long(u.updatedAt)
    ]
  }

  /** The eleven keys are pairwise different, so no field overwrites another. */
  lemma ToMapSize(u: User)
    ensures |ToMap(u)| == 11
  {
    assert |UserKeys| == 11;
  }

  function TextAt(m: map<string, Value>, k: string): Option<string>
  {
    if k in m && m[k].Text? then Some(m[k].s) else None
  }

  function LongAt(m: map<string, Value>, k: string): Option<Int64>
  {
    if k in m && m[k].Long? then Some(m[k].l) else None
  }

  /** A nullable text field: `Null` is a present-but-absent value, anything else but text is ill-typed. */
  function OptionalTextAt(m: map<string, Value>, k: string): Option<Option<string>>
  {
    if k !in m then None
    else match m[k]
      case Null => Some(None)
      case Text(s) => Some(Some(s))
      case _ => None
  }

  function OptionalLongAt(m: map<string, Value>, k: string): Option<Option<Int64>>
  {
    if k !in m then None
    else match m[k]
      case Null => Some(None)
      case Long(l) => Some(Some(l))
      case _ => None
  }

  /**
   * Rebuilds a user from a field map; `None` when a key is missing or holds
   * a value of the wrong kind. It is the inverse that shows `ToMap` loses nothing.
   */
  function FromMap(m: map<string, Value>): (r: Option<User>)
    ensures r.Some? ==> UserKeys <= m.Keys
  {
    if && TextAt(m, "uid").Some? && TextAt(m, "fullName").Some? && TextAt(m, "email").Some?
       && TextAt(m, "phone").Some? && TextAt(m, "bloodGroup").Some?
       && "isDonor" in m && m["isDonor"].Flag?
       && OptionalTextAt(m, "profileImageUrl").Some? && OptionalLongAt(m, "lastDonationDate").Some?
       && "totalDonations" in m && m["totalDonations"].Int?
       && LongAt(m, "createdAt").Some? && LongAt(m, "updatedAt").Some?
    then
      Some(User(
        TextAt(m, "uid").value, TextAt(m, "fullName").value, TextAt(m, "email").value,
        TextAt(m, "phone").value, TextAt(m, "bloodGroup").value,
        m["isDonor"].b,
        OptionalTextAt(m, "profileImageUrl").value, OptionalLongAt(m, "lastDonationDate").value,
        m["totalDonations"].i,
        LongAt(m, "createdAt").value, LongAt(m, "updatedAt").value))
    else
      None
  }

  /** Every field of a user can be read back from its map. */
  lemma ToMapRoundTrip(u: User)
    ensures FromMap(ToMap(u)) == Some(u)
  {
    var m := ToMap(u);
    assert OptionalTextAt(m, "profileImageUrl") == Some(u.profileImageUrl);
    assert OptionalLongAt(m, "lastDonationDate") == Some(u.lastDonationDate);
  }

  /** Two different users never have the same map. */
  lemma ToMapInjective(u: User, v: User)
    requires ToMap(u) == ToMap(v)
    ensures u == v
  {
    ToMapRoundTrip(u);
    ToMapRoundTrip(v);
  }
}
