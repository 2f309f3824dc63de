/**
 * lib/verifalia/security/username_password_authenticator.rb: the checks made
 * on the credentials, and the HTTP Basic `Authorization` header the
 * authenticator writes into each request (section 2 of RFC 7617: the user-id,
 * a colon and the password, UTF-8 encoded, then Base64 encoded as in section
 * 4 of RFC 4648).
 */
module Security {
  import opened Wrappers
  import opened RubyCore

  type Byte = b: int | 0 <= b < 256

  // ---------------------------------------------------------------------------
  // Base64 (section 4 of RFC 4648), with padding and without line breaks

  /** The character of the Base64 alphabet for a 6-bit value. */
  function Sextet(i: int): (c: char)
    requires 0 <= i < 64
  {
    if i < 26 then ('A' as int + i) as char
    else if i < 52 then ('a' as int + i - 26) as char
    else if i < 62 then ('0' as int + i - 52) as char
    else if i == 62 then '+'
    else '/'
  }

  /** The 6-bit value of a character of the Base64 alphabet; None for any other character. */
  function SextetValue(c: char): (r: Option<int>)
    ensures r.Some? ==> 0 <= r.value < 64 && Sextet(r.value) == c
  {
    if 'A' <= c <= 'Z' then Some(c as int - 'A' as int)
    else if 'a' <= c <= 'z' then Some(c as int - 'a' as int + 26)
    else if '0' <= c <= '9' then Some(c as int - '0' as int + 52)
    else if c == '+' then Some(62)
    else if c == '/' then Some(63)
    else None
  }

  /** Every character of the alphabet reads back as the value it was written for, and none of them is the padding. */
  lemma SextetRoundTrip(i: int)
    requires 0 <= i < 64
    ensures SextetValue(Sextet(i)) == Some(i) && Sextet(i) != '='
  {
  }

  /** Three bytes as four characters: the 24 bits cut into four 6-bit groups, high bits first. */
  function EncodeGroup(a: Byte, b: Byte, c: Byte): string {
    [Sextet(a / 4), Sextet((a % 4) * 16 + b / 16), Sextet((b % 16) * 4 + c / 64), Sextet(c % 64)]
  }

  /** Base64 of a byte string: whole groups, then one or two trailing bytes padded with `=`. */
  function Base64Encode(bs: seq<Byte>): (s: string)
    ensures |s| == 4 * ((|bs| + 2) / 3)
    decreases |bs|
  {
    if |bs| == 0 then []
    else if |bs| == 1 then [Sextet(bs[0] / 4), Sextet((bs[0] % 4) * 16), '=', '=']
    else if |bs| == 2 then [Sextet(bs[0] / 4), Sextet((bs[0] % 4) * 16 + bs[1] / 16), Sextet((bs[1] % 16) * 4), '=']
    else EncodeGroup(bs[0], bs[1], bs[2]) + Base64Encode(bs[3..])
  }

  /** Four characters without padding as the three bytes they carry; None when one is not in the alphabet. */
  function DecodeGroup(g: string): Option<seq<Byte>>
    requires |g| == 4
  {
    var v0, v1, v2, v3 := SextetValue(g[0]), SextetValue(g[1]), SextetValue(g[2]), SextetValue(g[3]);
    if v0.None? || v1.None? || v2.None? || v3.None? then None
    else Some([v0.value * 4 + v1.value / 16, (v1.value % 16) * 16 + v2.value / 4, (v2.value % 4) * 64 + v3.value])
  }

  /** A last group ending in padding: `xx==` carries one byte, `xxx=` two. */
  function DecodeTail(g: string): Option<seq<Byte>>
    requires |g| == 4
  {
    var v0, v1, v2 := SextetValue(g[0]), SextetValue(g[1]), SextetValue(g[2]);
    if v0.None? || v1.None? then None
    else if g[2] == '=' && g[3] == '=' then Some([v0.value * 4 + v1.value / 16])
    else if v2.None? || g[3] != '=' then None
    else Some([v0.value * 4 + v1.value / 16, (v1.value % 16) * 16 + v2.value / 4])
  }

  /**
   * Reading Base64 back: four characters at a time, the last group possibly
   * padded; None for text that is not Base64.
   */
  function Base64Decode(s: string): Option<seq<Byte>>
    decreases |s|
  {
    if s == [] then Some([])
    else if |s| < 4 then None
    else if |s| == 4 && s[3] == '=' then DecodeTail(s)
    else
      match DecodeGroup(s[..4])
      case None => None
      case Some(group) =>
        match Base64Decode(s[4..])
        case None => None
        case Some(rest) => Some(group + rest)
  }

  /** The bytes of a group are recovered from its four 6-bit values. */
  lemma GroupRoundTrip(a: Byte, b: Byte, c: Byte)
    ensures (a / 4) * 4 + ((a % 4) * 16 + b / 16) / 16 == a
    ensures (((a % 4) * 16 + b / 16) % 16) * 16 + ((b % 16) * 4 + c / 64) / 4 == b
    ensures (((b % 16) * 4 + c / 64) % 4) * 64 + c % 64 == c
  {
  }

  /** One trailing byte, written as two characters and two pads, reads back. */
  lemma OneByteTail(a: Byte)
    ensures Base64Decode(Base64Encode([a])) == Some([a])
  {
    SextetRoundTrip(a / 4);
    SextetRoundTrip((a % 4) * 16);
  }

  /** Two trailing bytes, written as three characters and a pad, read back. */
  lemma TwoByteTail(a: Byte, b: Byte)
    ensures Base64Decode(Base64Encode([a, b])) == Some([a, b])
  {
    var s := Base64Encode([a, b]);
    SextetRoundTrip(a / 4);
    SextetRoundTrip((a % 4) * 16 + b / 16);
    SextetRoundTrip((b % 16) * 4);
    GroupRoundTrip(a, b, 0);
    assert SextetValue(s[0]) == Some(a / 4);
    assert SextetValue(s[1]) == Some((a % 4) * 16 + b / 16);
    assert SextetValue(s[2]) == Some((b % 16) * 4);
    assert |s| == 4 && s[2] != '=' && s[3] == '=';
  }

  /** A whole group reads back as its three bytes. */
  lemma GroupReadsBack(a: Byte, b: Byte, c: Byte)
    ensures DecodeGroup(EncodeGroup(a, b, c)) == Some([a, b, c])
    ensures EncodeGroup(a, b, c)[3] != '='
  {
    SextetRoundTrip(a / 4);
    SextetRoundTrip((a % 4) * 16 + b / 16);
    SextetRoundTrip((b % 16) * 4 + c / 64);
    SextetRoundTrip(c % 64);
    GroupRoundTrip(a, b, c);
  }

  /** A whole group followed by the rest: the group reads back, then the rest. */
  lemma GroupThenRest(a: Byte, b: Byte, c: Byte, rest: seq<Byte>)
    requires Base64Decode(Base64Encode(rest)) == Some(rest)
    ensures Base64Decode(EncodeGroup(a, b, c) + Base64Encode(rest)) == Some([a, b, c] + rest)
  {
    var s := EncodeGroup(a, b, c) + Base64Encode(rest);
    GroupReadsBack(a, b, c);
    assert s[..4] == EncodeGroup(a, b, c) && s[4..] == Base64Encode(rest);
  }

  /** The three ways a byte string ends, each read back. */
  lemma LastGroupReadsBack(bs: seq<Byte>)
    requires 1 <= |bs| <= 2
    ensures Base64Decode(Base64Encode(bs)) == Some(bs)
  {
    if |bs| == 1 {
      var a := bs[0];
      assert bs == [a];
      OneByteTail(a);
    } else {
      var a, b := bs[0], bs[1];
      assert bs == [a, b];
      TwoByteTail(a, b);
    }
  }

  /** A group in front of a byte string that reads back. */
  lemma FirstGroupReadsBack(bs: seq<Byte>)
    requires |bs| >= 3 && Base64Decode(Base64Encode(bs[3..])) == Some(bs[3..])
    ensures Base64Decode(Base64Encode(bs)) == Some(bs)
  {
    var rest := bs[3..];
    var text := EncodeGroup(bs[0], bs[1], bs[2]) + Base64Encode(rest);
    assert Base64Encode(bs) == text;
    GroupThenRest(bs[0], bs[1], bs[2], rest);
    SplitThree(bs);
  }

  lemma SplitThree<T>(s: seq<T>)
    requires |s| >= 3
    ensures [s[0], s[1], s[2]] + s[3..] == s
  {
  }

  /** Decoding undoes encoding: the text carries exactly the bytes it was made from. */
  lemma {:induction false} Base64RoundTrip(bs: seq<Byte>)
    ensures Base64Decode(Base64Encode(bs)) == Some(bs)
    decreases |bs|
  {
    if 1 <= |bs| <= 2 {
      LastGroupReadsBack(bs);
    } else if |bs| >= 3 {
      Base64RoundTrip(bs[3..]);
      FirstGroupReadsBack(bs);
    }
  }

  // ---------------------------------------------------------------------------
  // UTF-8 (section 3 of RFC 3629)

  /** The UTF-8 bytes of one character. */
  function EncodeChar(ch: char): (bs: seq<Byte>)
    ensures 1 <= |bs| <= 4
  {
    var n := ch as int;
    if n < 0x80 then [n]
    else if n < 0x800 then [0xC0 + n / 64, 0x80 + n % 64]
    else if n < 0x10000 then [0xE0 + n / 4096, 0x80 + (n / 64) % 64, 0x80 + n % 64]
    else [0xF0 + n / 262144, 0x80 + (n / 4096) % 64, 0x80 + (n / 64) % 64, 0x80 + n % 64]
  }

  /** String#b of a UTF-8 string: the bytes of its characters in order. */
  function Utf8Encode(s: string): seq<Byte>
  {
    if s == [] then [] else EncodeChar(s[0]) + Utf8Encode(s[1..])
  }

  /** The code point of n continuation bytes after the lead value, or None when they are not continuation bytes. */
  function Continue(lead: int, bs: seq<Byte>): Option<int>
    decreases |bs|
  {
    if bs == [] then Some(lead)
    else if 0x80 <= bs[0] < 0xC0 then Continue(lead * 64 + (bs[0] - 0x80), bs[1..])
    else None
  }

  /** The length of the sequence a lead byte opens, or 0 for a byte that opens none. */
  function LeadLength(b: Byte): nat {
    if b < 0x80 then 1 else if 0xC0 <= b < 0xE0 then 2 else if 0xE0 <= b < 0xF0 then 3 else if 0xF0 <= b < 0xF8 then 4 else 0
  }

  /** The lead byte's own bits of the code point. */
  function LeadBits(b: Byte): int {
    if b < 0x80 then b else if b < 0xE0 then b - 0xC0 else if b < 0xF0 then b - 0xE0 else b - 0xF0
  }

  /** Reading UTF-8 back into characters; None for bytes that are not UTF-8 or do not name a character. */
  function Utf8Decode(bs: seq<Byte>): Option<string>
    decreases |bs|
  {
    if bs == [] then Some([])
    else
      var k := LeadLength(bs[0]);
      if k == 0 || |bs| < k then None
      else
        match Continue(LeadBits(bs[0]), bs[1..k])
        case None => None
        case Some(n) =>
          if !(0 <= n < 0xD800 || 0xE000 <= n < 0x11_0000) then None
          else
            match Utf8Decode(bs[k..])
            case None => None
            case Some(rest) => Some([n as char] + rest)
  }

  /** Taking six bits off twice is taking twelve off; twelve and six is eighteen. */
  lemma ShiftTwice(n: nat)
    ensures n / 4096 == (n / 64) / 64
    ensures n / 262144 == (n / 4096) / 64
  {
  }

  /** The bytes of one character read back as that character. */
  lemma CharRoundTrip(ch: char)
    ensures var bs := EncodeChar(ch);
            && LeadLength(bs[0]) == |bs|
            && Continue(LeadBits(bs[0]), bs[1..]) == Some(ch as int)
  {
    var n := ch as int;
    var bs := EncodeChar(ch);
    if n < 0x80 {
    } else if n < 0x800 {
      assert bs[1..] == [0x80 + n % 64];
      assert Continue(n / 64, [0x80 + n % 64]) == Continue((n / 64) * 64 + n % 64, []);
    } else if n < 0x10000 {
      ShiftTwice(n);
      var c1, c2 := 0x80 + (n / 64) % 64, 0x80 + n % 64;
      assert bs[1..] == [c1, c2];
      assert [c1, c2][1..] == [c2];
      assert Continue(n / 4096, [c1, c2]) == Continue(n / 64, [c2]);
      assert Continue(n / 64, [c2]) == Continue(n, []);
    } else {
      ShiftTwice(n);
      var c1, c2, c3 := 0x80 + (n / 4096) % 64, 0x80 + (n / 64) % 64, 0x80 + n % 64;
      assert bs[1..] == [c1, c2, c3];
      assert [c1, c2, c3][1..] == [c2, c3];
      assert [c2, c3][1..] == [c3];
      assert Continue(n / 262144, [c1, c2, c3]) == Continue(n / 4096, [c2, c3]);
      assert Continue(n / 4096, [c2, c3]) == Continue(n / 64, [c3]);
      assert Continue(n / 64, [c3]) == Continue(n, []);
    }
  }

  /** Decoding undoes encoding: the bytes sent carry exactly the characters given. */
  lemma {:induction false} Utf8RoundTrip(s: string)
    ensures Utf8Decode(Utf8Encode(s)) == Some(s)
    decreases |s|
  {
    if s != [] {
      var bs := Utf8Encode(s);
      var head := EncodeChar(s[0]);
      CharRoundTrip(s[0]);
      Utf8RoundTrip(s[1..]);
      assert bs[..|head|] == head && bs[|head|..] == Utf8Encode(s[1..]);
      assert bs[1..|head|] == head[1..];
      assert [s[0]] + s[1..] == s;
    }
  }

  // ---------------------------------------------------------------------------
  // HTTP Basic credentials (section 2 of RFC 7617)

  const USERNAME_MISSING: string :=
    "username is nil or empty: please visit https://verifalia.com/client-area to set up a new user, if you don't have one."

  /** Faraday's basic_header_from: "Basic ", then the Base64 of the UTF-8 bytes of user-id ":" password. */
  function BasicHeader(username: string, password: string): string {
    "Basic " + Base64Encode(Utf8Encode(username + ":" + password))
  }

  /** Everything before the first colon, and everything after it; None when there is no colon. */
  function SplitAtColon(s: string): (r: Option<(string, string)>)
    ensures r.Some? ==> s == r.value.0 + ":" + r.value.1 && ':' !in r.value.0
    ensures r.None? ==> ':' !in s
  {
    if s == [] then None
    else if s[0] == ':' then Some(([], s[1..]))
    else match SplitAtColon(s[1..])
      case None => None
      case Some(parts) => Some(([s[0]] + parts.0, parts.1))
  }

  /** How a server reads the header back: the scheme, then Base64, UTF-8, and the split at the first colon. */
  function ReadBasicHeader(h: string): Option<(string, string)> {
    if |h| < 6 || h[..6] != "Basic " then None
    else match Base64Decode(h[6..])
      case None => None
      case Some(bytes) =>
        match Utf8Decode(bytes)
        case None => None
        case Some(text) => SplitAtColon(text)
  }

  /** A user-id without a colon splits off exactly: the colon written after it is the first. */
  lemma {:induction false} SplitAfterUserId(username: string, password: string)
    requires ':' !in username
    ensures SplitAtColon(username + ":" + password) == Some((username, password))
    decreases |username|
  {
    if username == [] {
      assert ([] + ":" + password)[1..] == password;
    } else {
      SplitAfterUserId(username[1..], password);
      assert (username + ":" + password)[1..] == username[1..] + ":" + password;
      assert [username[0]] + username[1..] == username;
    }
  }

  /**
   * The header carries the credentials: it reads back as the user-id and password
   * whenever the user-id has no colon; with a colon in it (which section 2 of RFC
   * 7617 forbids and nothing here rejects) the server splits elsewhere, but the
   * pieces still join back into the same user-pass text.
   */
  lemma BasicHeaderReadsBack(username: string, password: string)
    ensures ReadBasicHeader(BasicHeader(username, password)).Some?
    ensures var parts := ReadBasicHeader(BasicHeader(username, password)).value;
            parts.0 + ":" + parts.1 == username + ":" + password
    ensures ':' !in username ==> ReadBasicHeader(BasicHeader(username, password)) == Some((username, password))
  {
    var text := username + ":" + password;
    var h := BasicHeader(username, password);
    Utf8RoundTrip(text);
    Base64RoundTrip(Utf8Encode(text));
    assert h[..6] == "Basic " && h[6..] == Base64Encode(Utf8Encode(text));
    assert ':' in text by { assert text[|username|] == ':'; }
    if ':' !in username {
      SplitAfterUserId(username, password);
    }
  }

  /** An authenticator's credentials as `initialize` keeps them. */
  class UsernamePasswordAuthenticator {
    /** The user-id exactly as given: the blank check strips it, the stored value is not stripped. */
    const username: string
    const password: string

    constructor (username: string, password: string)
      requires !Blank(username)
      ensures this.username == username && this.password == password
    {
      this.username := username;
      this.password := password;
    }

    /** `authenticate`: sets the request's Authorization header and leaves every other header as it was. */
    method Authenticate(request: Request)
      modifies request
      ensures request.headers == old(request.headers)["Authorization" := BasicHeader(username, password)]
    {
      request.headers := request.headers["Authorization" := BasicHeader(username, password)];
    }
  }

  /** The part of a Faraday request the authenticator touches. */
  class Request {
    var headers: map<string, string>

    constructor (headers: map<string, string>)
      ensures this.headers == headers
    {
      this.headers := headers;
    }
  }

  /**
   * UsernamePasswordAuthenticator.new(username, password): ArgumentError when the
   * username is nil or strips to nothing (it is all whitespace); a nil password
   * becomes the empty string.
   */
  method NewUsernamePasswordAuthenticator(username: Option<string>, password: Option<string>)
    returns (r: Result<UsernamePasswordAuthenticator, RubyError>)
    ensures r.Failure? <==> username.None? || Blank(username.value)
    ensures r.Failure? ==> r.error == ArgumentError(USERNAME_MISSING)
    ensures r.Success? ==> r.value.username == username.value
    ensures r.Success? ==> r.value.password == (if password.Some? then password.value else "")
  {
    if username.None? || |Strip(username.value)| == 0 {
      if username.Some? {
        StripEmptyIffBlank(username.value);
      }
      return Failure(ArgumentError(USERNAME_MISSING));
    }
    StripEmptyIffBlank(username.value);
    var pass := if password.Some? then password.value else "";
    var auth := new UsernamePasswordAuthenticator(username.value, pass);
    r := Success(auth);
  }
}
