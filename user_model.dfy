/**
 * The User record of rangers_shop/models.py: its id is the string form of a
 * version-4 UUID, its password is stored hashed. The random bits of uuid4 and
 * the password-hashing function come from outside and are parameters here.
 */
module UserModel {
  import opened Results

  /** One hexadecimal digit. */
  newtype Nibble = n: int | 0 <= n < 16

  /** The 128 bits of a UUID as 32 hexadecimal digits, most significant first. */
  type Uuid = s: seq<Nibble> | |s| == 32 witness seq(32, _ => 0)

  predicate IsHexDigit(c: char) {
    '0' <= c <= '9' || 'a' <= c <= 'f'
  }

  /** The lower-case digit `str(uuid)` writes for a nibble. */
  function HexDigit(n: Nibble): (c: char)
    ensures IsHexDigit(c)
  {
    if n < 10 then ('0' as int + n as int) as char else ('a' as int + n as int - 10) as char
  }

  function HexValue(c: char): Option<Nibble> {
    if '0' <= c <= '9' then Some((c as int - '0' as int) as Nibble)
    else if 'a' <= c <= 'f' then Some((c as int - 'a' as int + 10) as Nibble)
    else None
  }

  /** Digits written out one character each. */
  function Hex(ds: seq<Nibble>): (s: string)
    ensures |s| == |ds|
    ensures forall i :: 0 <= i < |ds| ==> s[i] == HexDigit(ds[i])
  {
    if ds == [] then "" else [HexDigit(ds[0])] + Hex(ds[1..])
  }

  /** Reads hexadecimal digits back; fails on any other character. */
  function ParseHex(s: string): Option<seq<Nibble>> {
    if s == [] then Some([])
    else
      match (HexValue(s[0]), ParseHex(s[1..]))
      case (Some(d), Some(ds)) => Some([d] + ds)
      case _ => None
  }

  /** `uuid.uuid4()` on 128 random bits: the version field (digit 12) becomes 4
      and the top two bits of the variant field (digit 16) become 10. */
  function Uuid4(random: Uuid): Uuid {
    random[12 := 4][16 := 8 + random[16] % 4]
  }

  /** `str(uuid)`: groups of 8, 4, 4, 4 and 12 digits joined by hyphens. */
  function Format(u: Uuid): string {
    Hex(u[..8]) + "-" + Hex(u[8..12]) + "-" + Hex(u[12..16]) + "-" + Hex(u[16..20]) + "-" + Hex(u[20..])
  }

  /** `uuid.UUID(s)` for the form `str` writes. */
  function Parse(s: string): Option<Uuid> {
    if |s| != 36 || s[8] != '-' || s[13] != '-' || s[18] != '-' || s[23] != '-' then None
    else
      match ParseHex(s[..8] + s[9..13] + s[14..18] + s[19..23] + s[24..])
      case Some(ds) => if |ds| == 32 then Some(ds) else None
      case None => None
  }

  /** `set_id`: the string form of a fresh version-4 UUID. */
  function SetId(random: Uuid): (id: string)
    ensures |id| == 36
    ensures id[8] == '-' && id[13] == '-' && id[18] == '-' && id[23] == '-'
    ensures id[14] == '4' && id[19] in "89ab"
    ensures forall i :: 0 <= i < 36 && i != 8 && i != 13 && i != 18 && i != 23 ==> IsHexDigit(id[i])
  {
    var u := Uuid4(random);
    var id := Format(u);
    assert id[14] == HexDigit(u[12]);
    assert id[19] == HexDigit(u[16]);
    id
  }

  /** `set_password`: the hash of the password, by the hashing function given. */
  function SetPassword(hash: string -> string, password: string): (stored: string)
    ensures stored == hash(password)
  {
    hash(password)
  }

  lemma {:induction false} HexRoundTrip(ds: seq<Nibble>)
    ensures ParseHex(Hex(ds)) == Some(ds)
  {
    if ds != [] {
      HexRoundTrip(ds[1..]);
      var d := ds[0];
      assert HexValue(HexDigit(d)) == Some(d);
      assert Hex(ds)[0] == HexDigit(d);
      assert Hex(ds)[1..] == Hex(ds[1..]);
      assert [d] + ds[1..] == ds;
    }
  }

  /** The digits of the string form, hyphens dropped, are the digits of the UUID. */
  lemma FormatDigits(u: Uuid)
    ensures |Format(u)| == 36
    ensures Format(u)[8] == '-' && Format(u)[13] == '-' && Format(u)[18] == '-' && Format(u)[23] == '-'
    ensures var s := Format(u); s[..8] + s[9..13] + s[14..18] + s[19..23] + s[24..] == Hex(u)
  {
    var s := Format(u);
    var t := s[..8] + s[9..13] + s[14..18] + s[19..23] + s[24..];
    assert |t| == 32;
    forall i | 0 <= i < 32
      ensures t[i] == HexDigit(u[i])
    {
      if i < 8 {
        assert t[i] == s[i];
      } else if i < 12 {
        assert t[i] == s[i + 1];
      } else if i < 16 {
        assert t[i] == s[i + 2];
      } else if i < 20 {
        assert t[i] == s[i + 3];
      } else {
        assert t[i] == s[i + 4];
      }
    }
  }

  /** Reading back the string form of a UUID gives that UUID. */
  lemma FormatRoundTrip(u: Uuid)
    ensures Parse(Format(u)) == Some(u)
  {
    FormatDigits(u);
    HexRoundTrip(u);
  }

  /** Two users get the same id only from the same UUID. */
  lemma SetIdInjective(a: Uuid, b: Uuid)
    ensures SetId(a) == SetId(b) <==> Uuid4(a) == Uuid4(b)
  {
    FormatRoundTrip(Uuid4(a));
    FormatRoundTrip(Uuid4(b));
  }

  /** A row of the User table. Nothing changes a user after registration. */
  class User {
    const userId: string
    const firstName: string
    const lastName: string
    const username: string
    const email: string
    const password: string

    /** `User(username, email, password, first_name="", last_name="")`;
        `random` is what uuid4 draws and `hash` is the password hasher. */
    constructor (random: Uuid, hash: string -> string, username: string, email: string, password: string,
                 firstName: string := "", lastName: string := "")
      ensures this.userId == SetId(random)
      ensures this.firstName == firstName && this.lastName == lastName
      ensures this.username == username && this.email == email
      ensures this.password == SetPassword(hash, password)
    {
      this.userId := SetId(random);
      this.firstName := firstName;
      this.lastName := lastName;
      this.username := username;
      this.email := email;
      this.password := SetPassword(hash, password);
    }
  }

  /** `User(username, email, password)` with the names left out: both names are empty. */
  method NewUserWithoutNames(random: Uuid, hash: string -> string, username: string, email: string, password: string)
    returns (user: User)
    ensures user.firstName == "" && user.lastName == ""
    ensures user.username == username && user.email == email && user.password == hash(password)
  {
    user := new User(random, hash, username, email, password);
  }
}
