/** The user record of the server (server/models/User.js): its enumerations
    and defaults, the field rules the schema enforces, the emergency-contact
    sub-record, and the password-reset token it issues. */
module UserModel {
  import opened Wrappers
  import opened Text

  const NameMaxLength: nat := 50
  const PasswordMinLength: nat := 6
  const DefaultRelationship: string := "Emergency Contact"
  const FreeSessionsLimit: nat := 10
  /** Ten minutes, in milliseconds. */
  const ResetTokenLifetime: nat := 10 * 60 * 1000
  /** `randomBytes(20)`. */
  const ResetTokenBytes: nat := 20

  // ---------------------------------------------------------------------
  // Enumerations

  datatype Role = UserRole | Admin
  {
    function Name(): string
    {
      match this
      case UserRole => "user"
      case Admin => "admin"
    }
  }

  datatype Theme = Light | Dark | Auto
  {
    function Name(): string
    {
      match this
      case Light => "light"
      case Dark => "dark"
      case Auto => "auto"
    }
  }

  datatype Plan = Free | Premium | Enterprise
  {
    function Name(): string
    {
      match this
      case Free => "free"
      case Premium => "premium"
      case Enterprise => "enterprise"
    }
  }

  /** The schema's enum check for `role`: the value it accepts, if any. */
  function RoleFromName(s: string): (r: Option<Role>)
    ensures r.Some? ==> r.value.Name() == s
    ensures forall x: Role :: x.Name() == s ==> r == Some(x)
  {
    if s == "user" then Some(UserRole) else if s == "admin" then Some(Admin) else None
  }

  function ThemeFromName(s: string): (r: Option<Theme>)
    ensures r.Some? ==> r.value.Name() == s
    ensures forall x: Theme :: x.Name() == s ==> r == Some(x)
  {
    if s == "light" then Some(Light)
    else if s == "dark" then Some(Dark)
    else if s == "auto" then Some(Auto)
    else None
  }

  function PlanFromName(s: string): (r: Option<Plan>)
    ensures r.Some? ==> r.value.Name() == s
    ensures forall x: Plan :: x.Name() == s ==> r == Some(x)
  {
    if s == "free" then Some(Free)
    else if s == "premium" then Some(Premium)
    else if s == "enterprise" then Some(Enterprise)
    else None
  }

  // ---------------------------------------------------------------------
  // Field rules

  /** The `name` path: trimmed by its setter, then required and at most 50
      characters. */
  function StoredName(raw: Option<string>): (r: Result<string>)
    ensures r.Ok? ==> r.value != [] && Utf16Length(r.value) <= NameMaxLength
    ensures r.Ok? ==> raw.Some? && r.value == Trim(raw.value)
    ensures r.Ok? <==> raw.Some? && Trim(raw.value) != [] && Utf16Length(Trim(raw.value)) <= NameMaxLength
  {
    match raw
    case None => Err("Please provide a name")
    case Some(s) =>
      var t := Trim(s);
      if t == [] then Err("Please provide a name")
      else if Utf16Length(t) > NameMaxLength then Err("Name cannot be more than 50 characters")
      else Ok(t)
  }

  /** Storing a stored name again changes nothing. */
  lemma StoredNameStable(raw: Option<string>)
    requires StoredName(raw).Ok?
    ensures StoredName(Some(StoredName(raw).value)) == StoredName(raw)
  {
    TrimIdempotent(raw.value);
  }

  /** The `password` path: required and at least 6 characters; the error
      the schema reports, if any. */
  function PasswordError(raw: Option<string>): (r: Option<string>)
    ensures r.None? <==> raw.Some? && raw.value != [] && Utf16Length(raw.value) >= PasswordMinLength
  {
    if raw.None? || raw.value == [] then Some("Please provide a password")
    else if Utf16Length(raw.value) < PasswordMinLength then Some("Password must be at least 6 characters")
    else None
  }

  // ---------------------------------------------------------------------
  // Emergency contacts

  datatype EmergencyContact = EmergencyContact(name: string, phone: string, relationship: string, isPrimary: bool)

  /** A contact as submitted: any field may be absent. */
  datatype ContactInput = ContactInput(name: Option<string>, phone: Option<string>,
                                       relationship: Option<string>, isPrimary: Option<bool>)

  /** The contact sub-schema: name and phone are required (absent or empty
      fails), an absent relationship defaults to "Emergency Contact" and an
      absent isPrimary to false; the phone's format is not checked. */
  function StoredContact(i: ContactInput): (r: Result<EmergencyContact>)
    ensures r.Ok? <==> i.name.Some? && i.name.value != [] && i.phone.Some? && i.phone.value != []
    ensures r.Ok? ==> r.value.name == i.name.value && r.value.phone == i.phone.value
    ensures r.Ok? ==> r.value.relationship == (if i.relationship.Some? then i.relationship.value else DefaultRelationship)
    ensures r.Ok? ==> r.value.isPrimary == (i.isPrimary.Some? && i.isPrimary.value)
  {
    if i.name.None? || i.name.value == [] then Err("Path `name` is required.")
    else if i.phone.None? || i.phone.value == [] then Err("Path `phone` is required.")
    else
      var relationship := match i.relationship case Some(s) => s case None => DefaultRelationship;
      var isPrimary := match i.isPrimary case Some(b) => b case None => false;
      Ok(EmergencyContact(i.name.value, i.phone.value, relationship, isPrimary))
  }

  predicate ValidContact(c: EmergencyContact)
  {
    c.name != [] && c.phone != []
  }

  /** Every contact the schema accepts is valid, and a valid contact stored
      again with all its fields given comes back unchanged. */
  lemma StoredContactRoundTrip(c: EmergencyContact)
    ensures ValidContact(c) <==> StoredContact(ContactInput(Some(c.name), Some(c.phone), Some(c.relationship), Some(c.isPrimary))).Ok?
    ensures ValidContact(c) ==> StoredContact(ContactInput(Some(c.name), Some(c.phone), Some(c.relationship), Some(c.isPrimary))) == Ok(c)
  {
  }

  // ---------------------------------------------------------------------
  // Subscription

  datatype Subscription = Subscription(plan: Plan, sessionsUsed: int, sessionsLimit: int,
                                       startDate: Option<int>, endDate: Option<int>)

  const DefaultSubscription: Subscription := Subscription(Free, 0, FreeSessionsLimit, None, None)

  // ---------------------------------------------------------------------
  // Password-reset token

  function HexDigit(n: nat): (c: char)
    requires n < 16
    ensures ('0' <= c <= '9') || ('a' <= c <= 'f')
  {
    if n < 10 then ('0' as int + n) as char else ('a' as int + n - 10) as char
  }

  /** `buffer.toString('hex')`: two lower-case hex digits per byte. */
  function Hex(bytes: seq<Byte>): (r: string)
    ensures |r| == 2 * |bytes|
    ensures forall i :: 0 <= i < |r| ==> ('0' <= r[i] <= '9') || ('a' <= r[i] <= 'f')
  {
    if bytes == [] then []
    else [HexDigit(bytes[0] as int / 16), HexDigit(bytes[0] as int % 16)] + Hex(bytes[1..])
  }

  lemma HexDigitInjective(m: nat, n: nat)
    requires m < 16 && n < 16 && HexDigit(m) == HexDigit(n)
    ensures m == n
  {
  }

  /** A byte is determined by its two hex digits. */
  lemma HexByteInjective(x: Byte, y: Byte)
    requires HexDigit(x as int / 16) == HexDigit(y as int / 16)
    requires HexDigit(x as int % 16) == HexDigit(y as int % 16)
    ensures x == y
  {
    var m, n := x as int, y as int;
    HexDigitInjective(m / 16, n / 16);
    HexDigitInjective(m % 16, n % 16);
    assert m == 16 * (m / 16) + m % 16;
    assert n == 16 * (n / 16) + n % 16;
  }

  /** Different random bytes give different tokens. */
  lemma {:induction false} HexInjective(a: seq<Byte>, b: seq<Byte>)
    requires Hex(a) == Hex(b)
    ensures a == b
  {
    if a != [] {
      var ha, hb := Hex(a), Hex(b);
      assert |b| == |a|;
      assert ha == [HexDigit(a[0] as int / 16), HexDigit(a[0] as int % 16)] + Hex(a[1..]);
      assert hb == [HexDigit(b[0] as int / 16), HexDigit(b[0] as int % 16)] + Hex(b[1..]);
      assert ha[0] == hb[0] && ha[1] == hb[1];
      HexByteInjective(a[0], b[0]);
      assert Hex(a[1..]) == ha[2..];
      assert Hex(b[1..]) == hb[2..];
      HexInjective(a[1..], b[1..]);
      assert a == [a[0]] + a[1..];
      assert b == [b[0]] + b[1..];
    }
  }

  /** The fields of a user the crisis path and the session controller read
      or write. The e-mail check, password hashing and token signing are
      not part of this model. */
  class User {
    const id: nat
    var name: string
    var email: string
    var role: Role
    var isVerified: bool
    var theme: Theme
    var notifications: bool
    var emergencyContacts: seq<EmergencyContact>
    var subscription: Subscription
    var resetPasswordToken: Option<string>
    var resetPasswordExpire: Option<int>

    /** A new user as the schema's defaults make it. */
    constructor (id: nat, name: string, email: string)
      requires StoredName(Some(name)) == Ok(name)
      ensures this.id == id && this.name == name && this.email == email
      ensures role == UserRole && !isVerified && theme == Auto && notifications
      ensures emergencyContacts == [] && subscription == DefaultSubscription
      ensures resetPasswordToken.None? && resetPasswordExpire.None?
      ensures Valid()
    {
      this.id := id;
      this.name := name;
      this.email := email;
      role := UserRole;
      isVerified := false;
      theme := Auto;
      notifications := true;
      emergencyContacts := [];
      subscription := DefaultSubscription;
      resetPasswordToken := None;
      resetPasswordExpire := None;
    }

    /** What the schema guarantees of a stored user. */
    predicate Valid()
      reads this
    {
      && StoredName(Some(name)) == Ok(name)
      && (forall i :: 0 <= i < |emergencyContacts| ==> ValidContact(emergencyContacts[i]))
      && subscription.sessionsUsed >= 0
    }

    /** `getResetPasswordToken`: draws a 40-digit hex token from 20 random
        bytes, stores only its SHA-256 digest with an expiry ten minutes from
        `now`, and returns the token itself. */
    method GetResetPasswordToken(random: seq<Byte>, now: int, sha256Hex: string -> string) returns (token: string)
      requires |random| == ResetTokenBytes
      modifies this
      ensures token == Hex(random) && |token| == 40
      ensures resetPasswordToken == Some(sha256Hex(token))
      ensures resetPasswordExpire == Some(now + ResetTokenLifetime)
      ensures name == old(name) && email == old(email) && role == old(role)
      ensures isVerified == old(isVerified) && theme == old(theme) && notifications == old(notifications)
      ensures emergencyContacts == old(emergencyContacts) && subscription == old(subscription)
    {
      token := Hex(random);
      resetPasswordToken := Some(sha256Hex(token));
      resetPasswordExpire := Some(now + 10 * 60 * 1000);
    }
  }
}
