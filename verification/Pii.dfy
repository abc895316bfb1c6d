/**
 Personal data at rest: a text is sealed, printed as `enc:v1:<iv>:<tag>:<data>` in
 hexadecimal, and parsed back. The cipher and the text encoding are parameters, with the
 few laws that are used of them.
*/
module Pii {
  import opened Options

  type Byte = b: int | 0 <= b < 256
  type Bytes = seq<Byte>
  type Iv = iv: Bytes | |iv| == 12 witness seq(12, _ => 0)

  datatype Failure = BadKey | BadFormat | NotAuthentic
  datatype Result<+T> = Ok(value: T) | Err(error: Failure)

  // ---- hexadecimal ----

  /** Both cases are read, as a buffer does; only lower case is written. */
  function Nibble(c: char): (n: Option<nat>)
    ensures n.Some? ==> n.value < 16
  {
    if '0' <= c <= '9' then Some(c as nat - '0' as nat)
    else if 'a' <= c <= 'f' then Some(c as nat - 'a' as nat + 10)
    else if 'A' <= c <= 'F' then Some(c as nat - 'A' as nat + 10)
    else None
  }

  predicate IsLowerDigit(c: char) {
    '0' <= c <= '9' || 'a' <= c <= 'f'
  }

  function Digit(n: nat): (c: char)
    requires n < 16
    ensures IsLowerDigit(c) && Nibble(c) == Some(n)
  {
    if n < 10 then ('0' as nat + n) as char else ('a' as nat + n - 10) as char
  }

  function Pair(byte: Byte): (s: string)
    ensures |s| == 2 && IsLowerDigit(s[0]) && IsLowerDigit(s[1])
  {
    [Digit(byte / 16), Digit(byte % 16)]
  }

  function ToHex(bytes: Bytes): string {
    if bytes == [] then "" else Pair(bytes[0]) + ToHex(bytes[1..])
  }

  function Value(high: char, low: char): Byte
    requires Nibble(high).Some? && Nibble(low).Some?
  {
    Nibble(high).value * 16 + Nibble(low).value
  }

  /** Reading stops at the first pair that is not two digits, and drops an odd last digit. */
  function FromHex(s: string): Bytes {
    if |s| < 2 || Nibble(s[0]).None? || Nibble(s[1]).None? then []
    else [Value(s[0], s[1])] + FromHex(s[2..])
  }

  predicate IsHex(s: string) {
    forall i :: 0 <= i < |s| ==> Nibble(s[i]).Some?
  }

  predicate IsPrintedHex(s: string) {
    |s| % 2 == 0 && forall i :: 0 <= i < |s| ==> IsLowerDigit(s[i])
  }

  lemma {:induction false} HexIsPrinted(bytes: Bytes)
    ensures IsPrintedHex(ToHex(bytes)) && |ToHex(bytes)| == 2 * |bytes|
  {
    if bytes != [] { HexIsPrinted(bytes[1..]); }
  }

  lemma {:induction false} HexRoundTrip(bytes: Bytes)
    ensures FromHex(ToHex(bytes)) == bytes
  {
    if bytes != [] {
      HexRoundTrip(bytes[1..]);
      assert ToHex(bytes)[2..] == ToHex(bytes[1..]);
    }
  }

  lemma LowerDigitReprints(c: char)
    requires IsLowerDigit(c)
    ensures Nibble(c).Some? && Digit(Nibble(c).value) == c
  {
  }

  lemma PairReprints(a: char, b: char)
    requires IsLowerDigit(a) && IsLowerDigit(b)
    ensures Nibble(a).Some? && Nibble(b).Some? && Pair(Value(a, b)) == [a, b]
  {
    LowerDigitReprints(a);
    LowerDigitReprints(b);
    var x, y := Nibble(a).value, Nibble(b).value;
    assert (x * 16 + y) / 16 == x && (x * 16 + y) % 16 == y;
  }

  lemma ToHexCons(byte: Byte, rest: Bytes)
    ensures ToHex([byte] + rest) == Pair(byte) + ToHex(rest)
  {
    assert ([byte] + rest)[1..] == rest;
  }

  lemma {:induction false} PrintedHexReprints(s: string)
    requires IsPrintedHex(s)
    ensures ToHex(FromHex(s)) == s
  {
    if s != "" {
      PairReprints(s[0], s[1]);
      PrintedHexReprints(s[2..]);
      ToHexCons(Value(s[0], s[1]), FromHex(s[2..]));
      assert s == [s[0], s[1]] + s[2..];
    }
  }

  /** Reading and printing again gives a text back exactly if it could have been printed. */
  lemma {:induction false} HexReprintsIff(s: string)
    ensures ToHex(FromHex(s)) == s <==> IsPrintedHex(s)
  {
    HexIsPrinted(FromHex(s));
    if IsPrintedHex(s) { PrintedHexReprints(s); }
  }

  function SmallDigit(c: char): (d: char)
    ensures Nibble(d) == Nibble(c)
  {
    if 'A' <= c <= 'F' then (c as int - 'A' as int + 'a' as int) as char else c
  }

  /** The text with its capital letters A to F made small. */
  function Small(s: string): string {
    if s == "" then "" else [SmallDigit(s[0])] + Small(s[1..])
  }

  lemma SmallPair(s: string)
    requires |s| >= 2
    ensures Small(s) == [SmallDigit(s[0]), SmallDigit(s[1])] + Small(s[2..])
  {
    hide SmallDigit;
    assert s[1..][1..] == s[2..];
  }

  /** Capital digits read as small ones do. */
  lemma {:induction false} HexIgnoresCase(s: string)
    ensures |Small(s)| == |s| && FromHex(Small(s)) == FromHex(s)
    decreases |s|
  {
    hide SmallDigit, Nibble;
    if |s| >= 2 {
      HexIgnoresCase(s[2..]);
      SmallPair(s);
      assert Small(s)[2..] == Small(s[2..]);
    }
  }

  /** Every two characters give at most one byte, and give one throughout exactly if all are digits. */
  lemma {:induction false} HexLength(s: string)
    ensures 2 * |FromHex(s)| <= |s|
    ensures |s| % 2 == 0 ==> (2 * |FromHex(s)| == |s| <==> IsHex(s))
  {
    if |s| >= 2 && Nibble(s[0]).Some? && Nibble(s[1]).Some? {
      HexLength(s[2..]);
      assert IsHex(s) <==> IsHex(s[2..]) by {
        assert forall i :: 2 <= i < |s| ==> s[i] == s[2..][i - 2];
      }
    }
  }

  // ---- splitting ----

  function Split(s: string, sep: char): (parts: seq<string>)
    ensures |parts| >= 1
  {
    if s == "" then [""]
    else
      var rest := Split(s[1..], sep);
      if s[0] == sep then [""] + rest else [[s[0]] + rest[0]] + rest[1..]
  }

  lemma {:induction false} SplitAtFirst(a: string, b: string, sep: char)
    requires sep !in a
    ensures Split(a + [sep] + b, sep) == [a] + Split(b, sep)
  {
    if a == "" {
      assert (a + [sep] + b)[1..] == b;
    } else {
      SplitAtFirst(a[1..], b, sep);
      assert (a + [sep] + b)[1..] == a[1..] + [sep] + b;
      assert [a[0]] + a[1..] == a;
    }
  }

  lemma {:induction false} SplitNone(a: string, sep: char)
    requires sep !in a
    ensures Split(a, sep) == [a]
  {
    if a != "" {
      SplitNone(a[1..], sep);
      assert [a[0]] + a[1..] == a;
    }
  }

  /** One part more than there are separators. */
  lemma {:induction false} SplitCount(s: string, sep: char)
    ensures |Split(s, sep)| == multiset(s)[sep] + 1
  {
    if s != "" {
      SplitCount(s[1..], sep);
      assert s == [s[0]] + s[1..];
    }
  }

  /** A part is no longer than the text it was cut from. */
  lemma {:induction false} PartLength(s: string, sep: char, i: nat)
    requires i < |Split(s, sep)|
    ensures |Split(s, sep)[i]| <= |s|
  {
    if s != "" {
      var rest := Split(s[1..], sep);
      if s[0] != sep { PartLength(s[1..], sep, i); } else if i > 0 { PartLength(s[1..], sep, i - 1); }
    }
  }

  // ---- the service ----

  datatype Sealed = Sealed(tag: Bytes, data: Bytes)

  /** An authenticated cipher and a text encoding. */
  datatype Crypto = Crypto(
    seal: (Bytes, Iv, Bytes) -> Sealed,
    open: (Bytes, Bytes, Bytes, Bytes) -> Option<Bytes>,   // key, iv, tag, data
    encode: string -> Bytes,
    decode: Bytes -> string)

  /** Opening undoes sealing and keeps the length; decoding undoes encoding and never lengthens. */
  ghost predicate Lawful(c: Crypto) {
    && (forall key, iv: Iv, m :: c.open(key, iv, c.seal(key, iv, m).tag, c.seal(key, iv, m).data) == Some(m))
    && (forall key, iv, tag, data :: c.open(key, iv, tag, data).Some? ==> |c.open(key, iv, tag, data).value| == |data|)
    && (forall s :: c.decode(c.encode(s)) == s)
    && (forall b :: |c.decode(b)| <= |b|)
  }

  /** The laws are consistent: a cipher that hides nothing and three bytes a character obey them. */
  lemma LawsHoldTogether() returns (c: Crypto)
    ensures Lawful(c)
  {
    c := Crypto((key: Bytes, iv: Iv, m: Bytes) => Sealed([], m),
                (key: Bytes, iv: Bytes, tag: Bytes, data: Bytes) => Some(data), Wide, Narrow);
    forall s ensures Narrow(Wide(s)) == s { NarrowUndoesWide(s); }
  }

  function Wide(s: string): Bytes {
    if s == "" then []
    else
      var code := s[0] as int;
      [code / 65536, code / 256 % 256, code % 256] + Wide(s[1..])
  }

  function Narrow(b: Bytes): (s: string)
    ensures |s| <= |b|
  {
    if |b| < 3 then "" else [CharOf(b[0] as int * 65536 + b[1] as int * 256 + b[2] as int)] + Narrow(b[3..])
  }

  function CharOf(code: nat): char {
    if code < 0xD800 || 0xE000 <= code < 0x11_0000 then code as char else '?'
  }

  lemma {:induction false} NarrowUndoesWide(s: string)
    ensures Narrow(Wide(s)) == s
  {
    if s != "" {
      NarrowUndoesWide(s[1..]);
      assert Wide(s)[3..] == Wide(s[1..]);
      BytesOf(s[0] as int);
      assert s == [s[0]] + s[1..];
    }
  }

  lemma BytesOf(code: nat)
    ensures code / 65536 * 65536 + code / 256 % 256 * 256 + code % 256 == code
  {
  }

  const VERSION := "enc:v1:"
  const KEY_BYTES := 32

  /** None: no key is configured, and texts pass through. */
  function LoadKey(configured: Option<string>): Result<Option<Bytes>> {
    if configured.None? || configured.value == "" then Ok(None)
    else if |configured.value| != 2 * KEY_BYTES then Err(BadKey)
    else Ok(Some(FromHex(configured.value)))
  }

  function Envelope(iv: Bytes, tag: Bytes, data: Bytes): string {
    VERSION + (ToHex(iv) + ":" + (ToHex(tag) + ":" + ToHex(data)))
  }

  function Encrypt(c: Crypto, key: Option<Bytes>, iv: Iv, plaintext: string): Result<string> {
    if key.None? || VERSION <= plaintext then Ok(plaintext)
    else if |key.value| != KEY_BYTES then Err(BadKey)
    else
      var sealed := c.seal(key.value, iv, c.encode(plaintext));
      Ok(Envelope(iv, sealed.tag, sealed.data))
  }

  function Decrypt(c: Crypto, key: Option<Bytes>, ciphertext: string): Result<string> {
    if key.None? || !(VERSION <= ciphertext) then Ok(ciphertext)
    else
      var parts := Split(ciphertext[|VERSION|..], ':');
      if |parts| != 3 then Err(BadFormat)
      else if |key.value| != KEY_BYTES then Err(BadKey)
      else match c.open(key.value, FromHex(parts[0]), FromHex(parts[1]), FromHex(parts[2]))
           case None => Err(NotAuthentic)
           case Some(m) => Ok(c.decode(m))
  }

  /**
   Start-up accepts every text of 64 characters, but the key it loads is usable exactly
   when all of them are hexadecimal digits.
  */
  lemma KeyUsableIff(configured: string)
    requires |configured| == 64
    ensures LoadKey(Some(configured)).Ok? && LoadKey(Some(configured)).value.Some?
    ensures |LoadKey(Some(configured)).value.value| == 32 <==> IsHex(configured)
  {
    HexLength(configured);
  }

  /** Without a text, or with an empty one, there is no key; any other length but 64 stops the start-up. */
  lemma KeyLoaded(configured: Option<string>)
    ensures LoadKey(configured) == Ok(None) <==> configured == None || configured == Some("")
    ensures LoadKey(configured).Err? <==> configured.Some? && configured.value != "" && |configured.value| != 64
  {
  }

  lemma EnvelopeParts(iv: Bytes, tag: Bytes, data: Bytes)
    ensures VERSION <= Envelope(iv, tag, data)
    ensures Split(Envelope(iv, tag, data)[|VERSION|..], ':') == [ToHex(iv), ToHex(tag), ToHex(data)]
  {
    HexIsPrinted(iv);
    HexIsPrinted(tag);
    HexIsPrinted(data);
    assert Envelope(iv, tag, data)[|VERSION|..] == ToHex(iv) + ":" + (ToHex(tag) + ":" + ToHex(data));
    SplitAtFirst(ToHex(iv), ToHex(tag) + ":" + ToHex(data), ':');
    SplitAtFirst(ToHex(tag), ToHex(data), ':');
    SplitNone(ToHex(data), ':');
  }

  /**
   With no key a text passes through, and so does one that carries the prefix; a key that
   has not 32 bytes is refused. Otherwise the result carries the prefix, and its three parts
   read back as the iv and the sealed pair.
  */
  lemma EncryptSeals(c: Crypto, key: Option<Bytes>, iv: Iv, plaintext: string)
    ensures var result := Encrypt(c, key, iv, plaintext);
      if key.None? || "enc:v1:" <= plaintext then result == Ok(plaintext)
      else if |key.value| != 32 then result == Err(BadKey)
      else
        && result.Ok? && "enc:v1:" <= result.value
        && var parts, sealed := Split(result.value[7..], ':'), c.seal(key.value, iv, c.encode(plaintext));
        |parts| == 3 && FromHex(parts[0]) == iv && FromHex(parts[1]) == sealed.tag && FromHex(parts[2]) == sealed.data
  {
    if key.Some? {
      var sealed := c.seal(key.value, iv, c.encode(plaintext));
      EnvelopeParts(iv, sealed.tag, sealed.data);
      HexRoundTrip(iv);
      HexRoundTrip(sealed.tag);
      HexRoundTrip(sealed.data);
    }
  }

  /** Encrypting what was encrypted, under any new iv, changes nothing. */
  lemma {:induction false} EncryptTwice(c: Crypto, key: Option<Bytes>, iv: Iv, again: Iv, plaintext: string)
    requires Encrypt(c, key, iv, plaintext).Ok?
    ensures Encrypt(c, key, again, Encrypt(c, key, iv, plaintext).value) == Encrypt(c, key, iv, plaintext)
  {
    if key.Some? && !(VERSION <= plaintext) {
      var sealed := c.seal(key.value, iv, c.encode(plaintext));
      EnvelopeParts(iv, sealed.tag, sealed.data);
    }
  }

  /** A text that carries the prefix never decrypts to itself: what comes out is shorter. */
  lemma DecryptShrinks(c: Crypto, key: Option<Bytes>, ciphertext: string)
    requires Lawful(c) && key.Some? && VERSION <= ciphertext
    ensures Decrypt(c, key, ciphertext).Ok? ==> |Decrypt(c, key, ciphertext).value| < |ciphertext|
  {
    var body := ciphertext[|VERSION|..];
    var parts := Split(body, ':');
    if |parts| == 3 {
      PartLength(body, ':', 2);
      HexLength(parts[2]);
    }
  }

  /**
   The round trip: a text comes back exactly when no key is configured, or the key has 32
   bytes and the text does not already carry the version prefix.
  */
  lemma RoundTripIff(c: Crypto, key: Option<Bytes>, iv: Iv, plaintext: string)
    requires Lawful(c)
    ensures var sealed := Encrypt(c, key, iv, plaintext);
      (sealed.Ok? && Decrypt(c, key, sealed.value) == Ok(plaintext))
      <==> (key.None? || (|key.value| == 32 && !("enc:v1:" <= plaintext)))
  {
    if key.Some? {
      if VERSION <= plaintext {
        DecryptShrinks(c, key, plaintext);
      } else if |key.value| == KEY_BYTES {
        var sealed := c.seal(key.value, iv, c.encode(plaintext));
        EnvelopeParts(iv, sealed.tag, sealed.data);
        HexRoundTrip(iv);
        HexRoundTrip(sealed.tag);
        HexRoundTrip(sealed.data);
      }
    }
  }

  /**
   Three parts after the prefix are opened with a key of 32 bytes, as the cipher decides: an
   envelope that it does not authenticate is an error, never a text.
  */
  lemma DecryptOpens(c: Crypto, key: Bytes, iv: Bytes, tag: Bytes, data: Bytes)
    ensures var text := "enc:v1:" + (ToHex(iv) + ":" + (ToHex(tag) + ":" + ToHex(data)));
      Decrypt(c, Some(key), text)
      == if |key| != 32 then Err(BadKey)
         else if c.open(key, iv, tag, data).None? then Err(NotAuthentic)
         else Ok(c.decode(c.open(key, iv, tag, data).value))
  {
    EnvelopeParts(iv, tag, data);
    HexRoundTrip(iv);
    HexRoundTrip(tag);
    HexRoundTrip(data);
  }

  /** The format error is raised exactly for a prefixed text without two more colons. */
  lemma FormatErrorIff(c: Crypto, key: Option<Bytes>, ciphertext: string)
    ensures Decrypt(c, key, ciphertext) == Err(BadFormat)
      <==> key.Some? && "enc:v1:" <= ciphertext && multiset(ciphertext)[':'] != 4
  {
    if VERSION <= ciphertext {
      hide Split, FromHex;
      SplitCount(ciphertext[|VERSION|..], ':');
      PrefixColons(ciphertext);
    }
  }

  lemma PrefixColons(ciphertext: string)
    requires VERSION <= ciphertext
    ensures multiset(ciphertext)[':'] == multiset(ciphertext[|VERSION|..])[':'] + 2
  {
    assert ciphertext == VERSION + ciphertext[|VERSION|..];
    assert multiset(VERSION)[':'] == 2;
  }
}
