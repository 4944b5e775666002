/**
 * The string logic of the QR helper module: the coupon-code generator, the
 * normalisation of the encryption key, and the "iv:ciphertext" envelope that
 * the encrypt and decrypt helpers write and read.  The AES-256-CBC cipher is
 * a foreign call and is passed in as a pair of functions; only the framing
 * around it is modelled.
 */
module QrCode {
  import opened Wrappers

  // ---------------------------------------------------------------------------
  // Coupon-code generator
  // ---------------------------------------------------------------------------

  /** The 36 symbols a coupon code is drawn from. */
  const Alphabet: string := "ABCDEFGHIJKLMNOPQRSTUVWXYZ0123456789"

  /** Every generated code has this many characters. */
  const CodeLength: nat := 9

  /** A value returned by Math.random: a real in [0, 1). */
  type Draw = r: real | 0.0 <= r < 1.0

  /** A well-formed coupon code: nine symbols of the alphabet. */
  predicate IsCouponCode(s: string) {
    |s| == CodeLength && forall i :: 0 <= i < |s| ==> s[i] in Alphabet
  }

  /** Math.floor(random * chars.length): always a valid position in the alphabet. */
  function CharIndex(r: Draw): (i: nat)
    ensures i < |Alphabet|
    ensures i as real <= r * |Alphabet| as real < i as real + 1.0
  {
    (r * |Alphabet| as real).Floor
  }

  /**
   * generateCouponCode: appends one alphabet symbol per draw, nine times.
   * The nine Math.random results are the parameter.
   */
  method GenerateCouponCode(draws: seq<Draw>) returns (code: string)
    requires |draws| == CodeLength
    ensures IsCouponCode(code)
    ensures forall i :: 0 <= i < CodeLength ==> code[i] == Alphabet[CharIndex(draws[i])]
  {
    code := "";
    var i := 0;
    while i < CodeLength
      invariant 0 <= i <= CodeLength
      invariant |code| == i
      invariant forall j :: 0 <= j < i ==> code[j] == Alphabet[CharIndex(draws[j])]
    {
      code := code + [Alphabet[CharIndex(draws[i])]];
      i := i + 1;
    }
  }

  /** The first position of c in s. */
  function IndexOf(s: string, c: char): (i: nat)
    requires c in s
    ensures i < |s| && s[i] == c
  {
    if s[0] == c then 0 else 1 + IndexOf(s[1..], c)
  }

  /** A draw that selects symbol c: its position divided by 36. */
  function DrawFor(c: char): (r: Draw)
    requires c in Alphabet
    ensures Alphabet[CharIndex(r)] == c
  {
    var k := IndexOf(Alphabet, c);
    assert |Alphabet| == 36;
    var r: Draw := k as real / 36.0;
    assert r * 36.0 == k as real;
    var i := CharIndex(r);
    assert i as real <= k as real < i as real + 1.0;
    assert i == k;
    r
  }

  /** Every well-formed code is produced by some sequence of draws: no symbol is unreachable. */
  lemma EveryCodeIsGenerable(code: string)
    requires IsCouponCode(code)
    ensures exists draws: seq<Draw> :: |draws| == CodeLength &&
              forall i :: 0 <= i < CodeLength ==> Alphabet[CharIndex(draws[i])] == code[i]
  {
    var draws: seq<Draw> := seq(CodeLength, i requires 0 <= i < CodeLength => DrawFor(code[i]));
    assert forall i :: 0 <= i < CodeLength ==> Alphabet[CharIndex(draws[i])] == code[i];
  }

  // ---------------------------------------------------------------------------
  // Encryption key
  // ---------------------------------------------------------------------------

  /** The key used when ENCRYPTION_KEY is unset or empty (34 characters). */
  const DefaultKey: string := "secret-key-12345678901234567890123"

  /** AES-256 takes a 32-byte key. */
  const KeyLength: nat := 32

  /** String.prototype.padEnd with a one-character pad string. */
  function PadEnd(s: string, target: int, fill: char): (r: string)
    ensures |s| >= target ==> r == s
    ensures |s| < target ==> |r| == target
    ensures r[..|s|] == s
    ensures forall i :: |s| <= i < |r| ==> r[i] == fill
  {
    if |s| >= target then s else s + seq(target - |s|, _ => fill)
  }

  /** A position clamped to [0, len], as String.prototype.substring does with its arguments. */
  function Clamp(x: int, len: nat): (c: nat)
    ensures c <= len
  {
    if x < 0 then 0 else if x > len then len else x
  }

  /** String.prototype.substring: clamps both ends and swaps them if they are out of order. */
  function Substring(s: string, start: int, end: int): (r: string)
    ensures 0 <= start <= end ==> r == s[..Clamp(end, |s|)][Clamp(start, |s|)..]
    ensures |r| <= |s|
  {
    var a, b := Clamp(start, |s|), Clamp(end, |s|);
    if a <= b then s[a..b] else s[b..a]
  }

  /** process.env.ENCRYPTION_KEY || default: an unset or empty variable falls back to the default. */
  function ConfiguredKey(env: Option<string>): (key: string)
    ensures key != ""
    ensures env.Some? && env.value != "" ==> key == env.value
    ensures !(env.Some? && env.value != "") ==> key == DefaultKey
  {
    if env.Some? && env.value != "" then env.value else DefaultKey
  }

  /** key.padEnd(32, '0').substring(0, 32) */
  function NormalizeKey(key: string): (k: string)
    ensures |k| == KeyLength
    ensures |key| <= KeyLength ==> k == key + seq(KeyLength - |key|, _ => '0')
    ensures |key| >= KeyLength ==> k == key[..KeyLength]
  {
    var padded := PadEnd(key, KeyLength, '0');
    assert |key| <= KeyLength ==> padded == key + seq(KeyLength - |key|, _ => '0');
    Substring(padded, 0, KeyLength)
  }

  /** The key both helpers derive, by the same expression, from the environment. */
  function EncryptionKey(env: Option<string>): (k: string)
    ensures |k| == KeyLength
  {
    NormalizeKey(ConfiguredKey(env))
  }

  /** The 34-character default key loses its last two characters. */
  lemma DefaultKeyIsTruncated()
    ensures |DefaultKey| == KeyLength + 2
    ensures EncryptionKey(None) == DefaultKey[..KeyLength]
    ensures EncryptionKey(Some("")) == EncryptionKey(None)
  {
  }

  // ---------------------------------------------------------------------------
  // Hex encoding (Buffer.toString('hex') and Buffer.from(s, 'hex'))
  // ---------------------------------------------------------------------------

  type Byte = b: int | 0 <= b < 256

  /** The lower-case digit Node writes for a nibble. */
  function HexDigit(v: int): (c: char)
    requires 0 <= v < 16
    ensures IsHexDigit(c) && HexValue(c) == v
  {
    if v < 10 then ('0' as int + v) as char else ('a' as int + v - 10) as char
  }

  predicate IsHexDigit(c: char) {
    ('0' <= c <= '9') || ('a' <= c <= 'f') || ('A' <= c <= 'F')
  }

  function HexValue(c: char): (v: nat)
    requires IsHexDigit(c)
    ensures v < 16
  {
    if '0' <= c <= '9' then c as int - '0' as int
    else if 'a' <= c <= 'f' then c as int - 'a' as int + 10
    else c as int - 'A' as int + 10
  }

  predicate IsHex(s: string) {
    forall i :: 0 <= i < |s| ==> IsHexDigit(s[i])
  }

  /** Two lower-case hex digits per byte, high nibble first. */
  function HexEncode(bytes: seq<Byte>): (h: string)
    ensures |h| == 2 * |bytes|
    ensures IsHex(h)
  {
    if bytes == [] then ""
    else [HexDigit(bytes[0] / 16), HexDigit(bytes[0] % 16)] + HexEncode(bytes[1..])
  }

  /**
   * Buffer.from(s, 'hex'): decodes digit pairs from the front and stops at the
   * first pair that is not two hex digits; a trailing odd digit is dropped.
   */
  function HexDecode(s: string): (bytes: seq<Byte>)
    ensures |bytes| <= |s| / 2
  {
    if |s| < 2 || !IsHexDigit(s[0]) || !IsHexDigit(s[1]) then []
    else [HexValue(s[0]) * 16 + HexValue(s[1])] + HexDecode(s[2..])
  }

  lemma {:induction false} HexRoundTrip(bytes: seq<Byte>)
    ensures HexDecode(HexEncode(bytes)) == bytes
  {
    if bytes != [] {
      var h := HexEncode(bytes);
      assert h[2..] == HexEncode(bytes[1..]);
      HexRoundTrip(bytes[1..]);
    }
  }

  // ---------------------------------------------------------------------------
  // The "iv:ciphertext" envelope
  // ---------------------------------------------------------------------------

  /** The separator between the IV and the ciphertext. */
  const Separator: char := ':'

  /** String.prototype.split with a one-character separator: always at least one part, none containing it. */
  function Split(s: string, sep: char): (parts: seq<string>)
    ensures |parts| >= 1
    ensures |parts| >= 2 <==> sep in s
    ensures forall i :: 0 <= i < |parts| ==> sep !in parts[i]
  {
    if s == [] then [""]
    else
      var rest := Split(s[1..], sep);
      if s[0] == sep then [""] + rest
      else [[s[0]] + rest[0]] + rest[1..]
  }

  /** Splitting text that begins with a separator-free field peels that field off. */
  lemma {:induction false} SplitAfterField(a: string, sep: char, b: string)
    requires sep !in a
    ensures Split(a + [sep] + b, sep) == [a] + Split(b, sep)
  {
    if a == [] {
      assert a + [sep] + b == [sep] + b;
      assert ([sep] + b)[1..] == b;
    } else {
      assert (a + [sep] + b)[1..] == a[1..] + [sep] + b;
      SplitAfterField(a[1..], sep, b);
      assert [a[0]] + a[1..] == a;
    }
  }

  /** Text without the separator is one part. */
  lemma {:induction false} SplitWhole(s: string, sep: char)
    requires sep !in s
    ensures Split(s, sep) == [s]
  {
    if s != [] {
      SplitWhole(s[1..], sep);
      assert [s[0]] + s[1..] == s;
    }
  }

  /** encryptQRData's result: ivHex + ':' + cipherHex. */
  function JoinEnvelope(ivHex: string, cipherHex: string): (data: string)
    ensures |data| == |ivHex| + 1 + |cipherHex|
    ensures data[..|ivHex|] == ivHex && data[|ivHex|] == Separator && data[|ivHex| + 1..] == cipherHex
  {
    ivHex + [Separator] + cipherHex
  }

  /** decryptQRData's parts[0] and parts[1]; None when parts[1] is undefined. */
  function SplitEnvelope(data: string): (fields: Option<(string, string)>)
    ensures fields.None? <==> Separator !in data
  {
    var parts := Split(data, Separator);
    if |parts| < 2 then None else Some((parts[0], parts[1]))
  }

  /** Hex text contains no ':', so the split recovers exactly the two fields that were joined. */
  lemma EnvelopeRoundTrip(ivHex: string, cipherHex: string)
    requires IsHex(ivHex) && IsHex(cipherHex)
    ensures Split(JoinEnvelope(ivHex, cipherHex), Separator) == [ivHex, cipherHex]
    ensures SplitEnvelope(JoinEnvelope(ivHex, cipherHex)) == Some((ivHex, cipherHex))
  {
    SplitAfterField(ivHex, Separator, cipherHex);
    SplitWhole(cipherHex, Separator);
  }

  /** Length of the random IV, crypto.randomBytes(16). */
  const IvLength: nat := 16

  /**
   * encryptQRData.  The cipher is the parameter encrypt(key, iv, plaintext),
   * giving the ciphertext bytes that update + final emit as hex.
   */
  function EncryptQRData(env: Option<string>, iv: seq<Byte>, couponCode: string,
                         encrypt: (string, seq<Byte>, string) -> seq<Byte>): (data: string)
    requires |iv| == IvLength
    ensures |data| > 2 * IvLength
    ensures data[..2 * IvLength] == HexEncode(iv) && data[2 * IvLength] == Separator
  {
    JoinEnvelope(HexEncode(iv), HexEncode(encrypt(EncryptionKey(env), iv, couponCode)))
  }

  /**
   * decryptQRData.  decrypt(key, iv, ciphertext) is the decipher, None where it
   * throws; a text without ':' also throws (parts[1] is undefined).
   */
  function DecryptQRData(env: Option<string>, data: string,
                         decrypt: (string, seq<Byte>, seq<Byte>) -> Option<string>): (plain: Option<string>)
    ensures Separator !in data ==> plain.None?
  {
    match SplitEnvelope(data)
    case None => None
    case Some((ivHex, cipherHex)) => decrypt(EncryptionKey(env), HexDecode(ivHex), HexDecode(cipherHex))
  }

  /**
   * Decrypting what encrypt produced gives back the coupon code, whenever the
   * cipher itself inverts under one key and IV: both helpers derive the same
   * key, and the envelope hands the same IV and ciphertext bytes across.
   */
  lemma QRDataRoundTrip(env: Option<string>, iv: seq<Byte>, couponCode: string,
                        encrypt: (string, seq<Byte>, string) -> seq<Byte>,
                        decrypt: (string, seq<Byte>, seq<Byte>) -> Option<string>)
    requires |iv| == IvLength
    requires decrypt(EncryptionKey(env), iv, encrypt(EncryptionKey(env), iv, couponCode)) == Some(couponCode)
    ensures DecryptQRData(env, EncryptQRData(env, iv, couponCode, encrypt), decrypt) == Some(couponCode)
  {
    var ct := encrypt(EncryptionKey(env), iv, couponCode);
    EnvelopeRoundTrip(HexEncode(iv), HexEncode(ct));
    HexRoundTrip(iv);
    HexRoundTrip(ct);
  }
}
