/** Timestamped webhook signatures: `crates/crypto/src/signing.rs`. The keyed hash
  * is a parameter; strings stand for byte strings. */
module Signing {
  import opened Prelude
  import opened Monetary

  type Byte = b: int | 0 <= b < 256

  /** HMAC: a secret and a message give some bytes. */
  type Mac = (string, string) -> seq<Byte>

  datatype SignatureError = MalformedHeader | Mismatch | TimestampOutOfRange(drift: int, max: int)

  // -------------------------------------------------------------------- numbers

  function DigitChar(d: nat): (c: char)
    requires d < 10
    ensures IsDigit(c) && DigitValue(c) == d
  {
    '0' + d as char
  }

  function Decimal(n: nat): (s: string)
    ensures |s| >= 1 && forall c :: c in s ==> IsDigit(c)
  {
    if n < 10 then [DigitChar(n)] else Decimal(n / 10) + [DigitChar(n % 10)]
  }

  /** `to_string` of a signed number. */
  function Show(t: i64): string {
    if t < 0 then "-" + Decimal(0 - t) else Decimal(t)
  }

  predicate AllDigits(s: string) {
    forall c :: c in s ==> IsDigit(c)
  }

  function ValueOf(s: string): nat
    requires AllDigits(s)
  {
    if s == [] then 0 else ValueOf(s[..|s| - 1]) * 10 + DigitValue(s[|s| - 1])
  }

  /** `parse::<i64>`: an optional sign, then digits, in range. */
  function ParseI64(s: string): Option<i64> {
    var negative := |s| > 0 && s[0] == '-';
    var digits := if |s| > 0 && (s[0] == '-' || s[0] == '+') then s[1..] else s;
    if digits == [] || !AllDigits(digits) then None
    else
      var value: int := if negative then 0 - ValueOf(digits) else ValueOf(digits);
      if FitsI64(value) then Some(value) else None
  }

  lemma {:induction false} ValueOfDecimal(n: nat)
    ensures ValueOf(Decimal(n)) == n
  {
    var s := Decimal(n);
    if n < 10 {
      assert s[..0] == [];
    } else {
      ValueOfDecimal(n / 10);
      assert s[..|s| - 1] == Decimal(n / 10);
    }
  }

  lemma ParseShow(t: i64)
    ensures ParseI64(Show(t)) == Some(t)
  {
    if t < 0 {
      ValueOfDecimal(0 - t);
      assert Show(t)[1..] == Decimal(0 - t);
    } else {
      ValueOfDecimal(t);
      assert IsDigit(Show(t)[0]);
    }
  }

  // ------------------------------------------------------------------------ hex

  function HexChar(d: nat): (c: char)
    requires d < 16
    ensures IsDigit(c) || 'a' <= c <= 'f'
  {
    if d < 10 then '0' + d as char else 'a' + (d - 10) as char
  }

  function HexValue(c: char): Option<nat> {
    if IsDigit(c) then Some(DigitValue(c))
    else if 'a' <= c <= 'f' then Some(c as int - 'a' as int + 10)
    else if 'A' <= c <= 'F' then Some(c as int - 'A' as int + 10)
    else None
  }

  predicate IsHexDigit(c: char) {
    IsDigit(c) || 'a' <= c <= 'f'
  }

  function Hex(bytes: seq<Byte>): (s: string)
    ensures |s| == 2 * |bytes| && forall c :: c in s ==> IsHexDigit(c)
  {
    if bytes == [] then "" else [HexChar(bytes[0] / 16), HexChar(bytes[0] % 16)] + Hex(bytes[1..])
  }

  /** `hex::decode`: pairs of digits of either case. */
  function Unhex(s: string): Option<seq<Byte>> {
    if s == [] then Some([])
    else if |s| == 1 then None
    else
      match (HexValue(s[0]), HexValue(s[1]), Unhex(s[2..]))
      case (Some(hi), Some(lo), Some(rest)) => if hi < 16 && lo < 16 then Some([16 * hi + lo] + rest) else None
      case _ => None
  }

  function LowerChar(c: char): char {
    if 'A' <= c <= 'F' then 'a' + (c - 'A') else c
  }

  function Lower(s: string): (r: string)
    ensures |r| == |s|
  {
    if s == [] then [] else [LowerChar(s[0])] + Lower(s[1..])
  }

  lemma HexDigits(c: char, d: nat)
    requires d < 16
    ensures HexValue(c) == Some(d) <==> LowerChar(c) == HexChar(d)
    ensures HexValue(c).Some? ==> HexValue(c).value < 16
  {
  }

  lemma ByteFromDigits(b: Byte, hi: nat, lo: nat)
    requires hi < 16 && lo < 16
    ensures 16 * hi + lo == b <==> hi == b / 16 && lo == b % 16
  {
  }

  lemma UnhexStep(s: string, b: Byte, rest: seq<Byte>)
    requires |s| >= 2
    ensures Unhex(s) == Some([b] + rest) <==>
              HexValue(s[0]) == Some(b / 16) && HexValue(s[1]) == Some(b % 16) && Unhex(s[2..]) == Some(rest)
  {
    hide HexValue;
    if HexValue(s[0]).Some? && HexValue(s[1]).Some? && Unhex(s[2..]).Some? {
      var hi, lo, tail := HexValue(s[0]).value, HexValue(s[1]).value, Unhex(s[2..]).value;
      if hi < 16 && lo < 16 {
        ByteFromDigits(b, hi, lo);
        assert ([16 * hi + lo] + tail)[0] == 16 * hi + lo && ([16 * hi + lo] + tail)[1..] == tail;
        assert ([b] + rest)[0] == b && ([b] + rest)[1..] == rest;
      }
    }
  }

  lemma PairsAgree<T>(a: T, b: T, tail: seq<T>, c: T, d: T, rest: seq<T>)
    ensures [a, b] + tail == [c, d] + rest <==> a == c && b == d && tail == rest
  {
    var l, r := [a, b] + tail, [c, d] + rest;
    assert l[0] == a && l[1] == b && l[2..] == tail && r[0] == c && r[1] == d && r[2..] == rest;
  }

  lemma LowerStep(s: string, b: Byte, rest: seq<Byte>)
    requires |s| >= 2
    ensures Lower(s) == Hex([b] + rest) <==>
              LowerChar(s[0]) == HexChar(b / 16) && LowerChar(s[1]) == HexChar(b % 16) && Lower(s[2..]) == Hex(rest)
  {
    hide LowerChar, HexChar;
    var bytes := [b] + rest;
    assert bytes[0] == b && bytes[1..] == rest && s[1..][1..] == s[2..];
    assert Lower(s) == [LowerChar(s[0]), LowerChar(s[1])] + Lower(s[2..]);
    assert Hex(bytes) == [HexChar(b / 16), HexChar(b % 16)] + Hex(rest);
    hide *;
    PairsAgree(LowerChar(s[0]), LowerChar(s[1]), Lower(s[2..]), HexChar(b / 16), HexChar(b % 16), Hex(rest));
  }

  /** What decodes to given bytes is their encoding, in either case of letters. */
  lemma {:induction false} UnhexIffHex(s: string, bytes: seq<Byte>)
    ensures Unhex(s) == Some(bytes) <==> Lower(s) == Hex(bytes)
    decreases |s|
  {
    if |s| >= 2 && bytes != [] {
      var b, rest := bytes[0], bytes[1..];
      assert bytes == [b] + rest;
      UnhexIffHex(s[2..], rest);
      HexDigits(s[0], b / 16);
      HexDigits(s[1], b % 16);
      hide *;
      UnhexStep(s, b, rest);
      LowerStep(s, b, rest);
    }
  }

  // ------------------------------------------------------------------- the header

  function SignedMessage(t: i64, payload: string): string {
    Show(t) + "." + payload
  }

  function Compute(mac: Mac, secret: string, t: i64, payload: string): string {
    Hex(mac(secret, SignedMessage(t, payload)))
  }

  function BuildHeader(mac: Mac, secret: string, t: i64, payload: string): string {
    "t=" + Show(t) + ",v1=" + Compute(mac, secret, t, payload)
  }

  function Split(s: string, sep: char): (parts: seq<string>)
    ensures |parts| >= 1
  {
    if s == [] then [[]]
    else
      var rest := Split(s[1..], sep);
      if s[0] == sep then [[]] + rest else [[s[0]] + rest[0]] + rest[1..]
  }

  function SplitOnce(s: string, sep: char): Option<(string, string)> {
    if s == [] then None
    else if s[0] == sep then Some(([], s[1..]))
    else
      match SplitOnce(s[1..], sep)
      case Some(pair) => Some(([s[0]] + pair.0, pair.1))
      case None => None
  }

  /** Unicode white space. */
  predicate IsSpace(c: char) {
    var n := c as int;
    || 9 <= n <= 13 || n == 0x20 || n == 0x85 || n == 0xA0 || n == 0x1680
    || 0x2000 <= n <= 0x200A || n == 0x2028 || n == 0x2029 || n == 0x202F || n == 0x205F || n == 0x3000
  }

  function TrimStart(s: string): string {
    if s != [] && IsSpace(s[0]) then TrimStart(s[1..]) else s
  }

  function TrimEnd(s: string): string {
    if s != [] && IsSpace(s[|s| - 1]) then TrimEnd(s[..|s| - 1]) else s
  }

  function Trim(s: string): string {
    TrimEnd(TrimStart(s))
  }

  function Field(part: string): Option<(string, string)> {
    SplitOnce(Trim(part), '=')
  }

  predicate AllFields(parts: seq<string>) {
    forall i :: 0 <= i < |parts| ==> Field(parts[i]).Some?
  }

  /** The value of the last part under a key. */
  function LastValue(parts: seq<string>, key: string): Option<string>
    requires AllFields(parts)
  {
    if parts == [] then None
    else
      var last := Field(parts[|parts| - 1]).value;
      if last.0 == key then Some(last.1) else LastValue(parts[..|parts| - 1], key)
  }

  function ParsedLast(parts: seq<string>): Option<i64>
    requires AllFields(parts)
  {
    match LastValue(parts, "t")
    case Some(v) => ParseI64(v)
    case None => None
  }

  /** What a header says: the last `t`, if it is a number, and the last `v1`. */
  function Meaning(header: string): Result<(i64, string), SignatureError> {
    var parts := Split(header, ',');
    if !AllFields(parts) then Err(MalformedHeader)
    else
      match (ParsedLast(parts), LastValue(parts, "v1"))
      case (Some(t), Some(s)) => Ok((t, s))
      case _ => Err(MalformedHeader)
  }

  /** `parse_header`: one pass that overwrites both fields as it goes. */
  method ParseHeader(header: string) returns (r: Result<(i64, string), SignatureError>)
    ensures r == Meaning(header)
  {
    hide Split, SplitOnce, Trim, ParseI64;
    var timestamp: Option<i64> := None;
    var signature: Option<string> := None;
    var parts := Split(header, ',');
    for i := 0 to |parts|
      invariant AllFields(parts[..i])
      invariant timestamp == ParsedLast(parts[..i]) && signature == LastValue(parts[..i], "v1")
    {
      var pair := SplitOnce(Trim(parts[i]), '=');
      if pair.None? {
        return Err(MalformedHeader);
      }
      assert parts[..i + 1][..i] == parts[..i];
      if pair.value.0 == "t" {
        timestamp := ParseI64(pair.value.1);
      } else if pair.value.0 == "v1" {
        signature := Some(pair.value.1);
      }
    }
    assert parts[..|parts|] == parts;
    if timestamp.Some? && signature.Some? {
      return Ok((timestamp.value, signature.value));
    }
    return Err(MalformedHeader);
  }

  // ------------------------------------------------------------------ round trip

  lemma {:induction false} SplitNone(s: string, sep: char)
    requires sep !in s
    ensures Split(s, sep) == [s]
  {
    if s != [] {
      SplitNone(s[1..], sep);
      assert [s[0]] + s[1..] == s;
    }
  }

  lemma {:induction false} SplitAppend(a: string, sep: char, b: string)
    requires sep !in b
    ensures Split(a + [sep] + b, sep) == Split(a, sep) + [b]
  {
    var all := a + [sep] + b;
    if a == [] {
      assert all[1..] == b;
      SplitNone(b, sep);
    } else {
      assert all[1..] == a[1..] + [sep] + b;
      SplitAppend(a[1..], sep, b);
    }
  }

  lemma {:induction false} SplitOnceAt(k: string, sep: char, v: string)
    requires sep !in k
    ensures SplitOnce(k + [sep] + v, sep) == Some((k, v))
  {
    var s := k + [sep] + v;
    if k == [] {
      assert s[1..] == v;
    } else {
      assert s[1..] == k[1..] + [sep] + v;
      SplitOnceAt(k[1..], sep, v);
      assert [k[0]] + k[1..] == k;
    }
  }

  lemma NothingToTrim(s: string)
    requires s != [] && !IsSpace(s[0]) && !IsSpace(s[|s| - 1])
    ensures Trim(s) == s
  {
  }

  /** Unknown fields are ignored: appending one never changes what a header says. */
  lemma UnknownFieldsAreIgnored(header: string, part: string)
    requires ',' !in part && Field(part).Some? && Field(part).value.0 !in {"t", "v1"}
    ensures Meaning(header + "," + part) == Meaning(header)
  {
    SplitAppend(header, ',', part);
    var parts := Split(header, ',');
    var all := parts + [part];
    assert header + "," + part == header + [','] + part;
    assert all[..|parts|] == parts && all[|parts|] == part;
    assert AllFields(all) <==> AllFields(parts) by {
      if AllFields(all) {
        forall i | 0 <= i < |parts| ensures Field(parts[i]).Some? { assert all[i] == parts[i]; }
      }
    }
  }

  lemma {:induction false} ShowIsPlain(t: i64)
    ensures Show(t) != [] && forall c :: c in Show(t) ==> IsDigit(c) || c == '-'
  {
  }

  lemma BuiltParts(t: i64, sig: string)
    requires forall c :: c in sig ==> IsHexDigit(c)
    ensures Split("t=" + Show(t) + ",v1=" + sig, ',') == ["t=" + Show(t), "v1=" + sig]
  {
    var first, second := "t=" + Show(t), "v1=" + sig;
    ShowIsPlain(t);
    assert "t=" + Show(t) + ",v1=" + sig == first + [','] + second;
    assert ',' !in first && ',' !in second;
    SplitAppend(first, ',', second);
    SplitNone(first, ',');
  }

  /** The header built for a timestamp and payload reads back as that timestamp
    * and their signature, for every 64-bit timestamp. */
  lemma BuiltHeaderReadsBack(mac: Mac, secret: string, t: i64, payload: string)
    ensures Meaning(BuildHeader(mac, secret, t, payload)) == Ok((t, Compute(mac, secret, t, payload)))
  {
    var sig := Compute(mac, secret, t, payload);
    BuiltParts(t, sig);
    FirstFields(t, sig);
    ParseShow(t);
    hide Split, Field, Show, ParseI64, Hex, Compute;
    var parts := ["t=" + Show(t), "v1=" + sig];
    assert parts[..1] == [parts[0]] && AllFields(parts) && AllFields(parts[..1]);
    assert LastValue(parts, "t") == LastValue(parts[..1], "t") == Some(Show(t));
  }

  lemma FieldIs(k: string, v: string)
    requires k != [] && '=' !in k && !IsSpace(k[0]) && (v != [] ==> !IsSpace(v[|v| - 1]))
    ensures Field(k + ['='] + v) == Some((k, v))
  {
    NothingToTrim(k + ['='] + v);
    SplitOnceAt(k, '=', v);
  }

  lemma FirstFields(t: i64, sig: string)
    requires forall c :: c in sig ==> IsHexDigit(c)
    ensures Field("t=" + Show(t)) == Some(("t", Show(t))) && Field("v1=" + sig) == Some(("v1", sig))
  {
    hide Field;
    ShowIsPlain(t);
    assert Show(t)[|Show(t)| - 1] in Show(t) && (sig != [] ==> sig[|sig| - 1] in sig);
    FieldIs("t", Show(t));
    FieldIs("v1", sig);
    assert "t=" + Show(t) == "t" + ['='] + Show(t) && "v1=" + sig == "v1" + ['='] + sig;
  }

  // ------------------------------------------------------------------ verification

  /** 64-bit wrap-around, as an unchecked subtraction and `abs` do it. */
  function Wrap(x: int): (r: i64)
    ensures FitsI64(x) ==> r == x
  {
    var m := (x + 0x8000_0000_0000_0000) % 0x1_0000_0000_0000_0000;
    m - 0x8000_0000_0000_0000
  }

  function Drift(now: i64, t: i64): i64 {
    var d := Wrap(now - t);
    if d < 0 then Wrap(0 - d) else d
  }

  method Verify(mac: Mac, secret: string, header: string, payload: string, now: i64, tolerance: i64)
    returns (r: Result<(), SignatureError>)
    ensures r == Verified(mac, secret, header, payload, now, tolerance)
  {
    var parsed :- ParseHeader(header);
    var (timestamp, provided) := parsed;
    var drift := Drift(now, timestamp);
    if drift > tolerance {
      return Err(TimestampOutOfRange(drift, tolerance));
    }
    var bytes := Unhex(provided);
    if bytes.None? {
      return Err(MalformedHeader);
    }
    if mac(secret, SignedMessage(timestamp, payload)) != bytes.value {
      return Err(Mismatch);
    }
    return Ok(());
  }

  function Verified(mac: Mac, secret: string, header: string, payload: string, now: i64, tolerance: i64): Result<(), SignatureError> {
    var parsed :- Meaning(header);
    var drift := Drift(now, parsed.0);
    if drift > tolerance then Err(TimestampOutOfRange(drift, tolerance))
    else
      match Unhex(parsed.1)
      case None => Err(MalformedHeader)
      case Some(bytes) => if mac(secret, SignedMessage(parsed.0, payload)) == bytes then Ok(()) else Err(Mismatch)
  }

  /** The distance is so large that the 64-bit arithmetic wraps back into range. */
  predicate WrapsIntoRange(now: i64, t: i64, tolerance: i64) {
    Abs(now - t) == 0x8000_0000_0000_0000 || Abs(now - t) >= 0x1_0000_0000_0000_0000 - tolerance
  }

  lemma DriftWithin(now: i64, t: i64, tolerance: i64)
    ensures Drift(now, t) <= tolerance <==> Abs(now - t) <= tolerance || WrapsIntoRange(now, t, tolerance)
  {
  }

  /** `verify` accepts a header exactly when it carries, in either case of letters,
    * the signature `compute` gives for its own timestamp and this payload, and
    * that timestamp is within tolerance (up to 64-bit wrap-around). */
  lemma AcceptedHeaders(mac: Mac, secret: string, header: string, payload: string, now: i64, tolerance: i64)
    ensures Verified(mac, secret, header, payload, now, tolerance).Ok? <==>
              && Meaning(header).Ok?
              && var (t, s) := Meaning(header).value;
                 && Lower(s) == Compute(mac, secret, t, payload)
                 && (Abs(now - t) <= tolerance || WrapsIntoRange(now, t, tolerance))
  {
    if Meaning(header).Ok? {
      var (t, s) := Meaning(header).value;
      DriftWithin(now, t, tolerance);
      UnhexIffHex(s, mac(secret, SignedMessage(t, payload)));
    }
  }

  /** What goes over the wire: the timestamp, and the keyed hash of timestamp, dot and
    * payload in lower-case hexadecimal. */
  lemma HeaderOnTheWire(mac: Mac, secret: string, t: i64, payload: string)
    ensures var header := BuildHeader(mac, secret, t, payload);
            exists digits :: header == "t=" + Show(t) + ",v1=" + digits && Lower(digits) == digits
                             && Unhex(digits) == Some(mac(secret, Show(t) + "." + payload))
  {
    var bytes := mac(secret, Show(t) + "." + payload);
    HexIsLower(bytes);
    UnhexHex(bytes);
    assert BuildHeader(mac, secret, t, payload) == "t=" + Show(t) + ",v1=" + Hex(bytes);
  }

  /** Why a header is refused: unreadable, too far from now, or signed otherwise. */
  lemma RefusedHeaders(mac: Mac, secret: string, header: string, payload: string, now: i64, tolerance: i64)
    requires Verified(mac, secret, header, payload, now, tolerance).Err?
    ensures var e := Verified(mac, secret, header, payload, now, tolerance).error;
            if Meaning(header).Err? then e == MalformedHeader
            else
              var (t, s) := Meaning(header).value;
              if Abs(now - t) > tolerance && !WrapsIntoRange(now, t, tolerance) then e.TimestampOutOfRange? && e.max == tolerance < e.drift
              else if Unhex(s).None? then e == MalformedHeader
              else e == Mismatch && Unhex(s).value != mac(secret, Show(t) + "." + payload)
  {
    if Meaning(header).Ok? {
      DriftWithin(now, Meaning(header).value.0, tolerance);
    } else {
      MalformedAlone(header);
    }
  }

  lemma MalformedAlone(header: string)
    requires Meaning(header).Err?
    ensures Meaning(header).error == MalformedHeader
  {
  }

  lemma {:induction false} HexIsLower(bytes: seq<Byte>)
    ensures Lower(Hex(bytes)) == Hex(bytes)
  {
    UnhexHex(bytes);
    UnhexIffHex(Hex(bytes), bytes);
  }

  lemma {:induction false} UnhexHex(bytes: seq<Byte>)
    ensures Unhex(Hex(bytes)) == Some(bytes)
  {
    if bytes != [] {
      UnhexHex(bytes[1..]);
      var s := Hex(bytes);
      assert s[2..] == Hex(bytes[1..]);
      HexDigits(s[0], bytes[0] / 16);
      HexDigits(s[1], bytes[0] % 16);
      assert s[0] == HexChar(bytes[0] / 16) && s[1] == HexChar(bytes[0] % 16);
      assert LowerChar(s[0]) == s[0] && LowerChar(s[1]) == s[1];
      assert [bytes[0]] + bytes[1..] == bytes;
    }
  }

  /** What was built verifies at every moment within tolerance. */
  lemma BuiltHeaderVerifies(mac: Mac, secret: string, t: i64, payload: string, now: i64, tolerance: i64)
    requires Abs(now - t) <= tolerance
    ensures Verified(mac, secret, BuildHeader(mac, secret, t, payload), payload, now, tolerance) == Ok(())
  {
    BuiltHeaderReadsBack(mac, secret, t, payload);
    HexIsLower(mac(secret, SignedMessage(t, payload)));
    AcceptedHeaders(mac, secret, BuildHeader(mac, secret, t, payload), payload, now, tolerance);
  }

  /** The signed bytes determine the timestamp and the payload. */
  lemma SignedMessageIsUnambiguous(t: i64, payload: string, u: i64, other: string)
    requires SignedMessage(t, payload) == SignedMessage(u, other)
    ensures t == u && payload == other
  {
    ShowIsPlain(t);
    ShowIsPlain(u);
    SplitOnceAt(Show(t), '.', payload);
    SplitOnceAt(Show(u), '.', other);
    assert SignedMessage(t, payload) == Show(t) + ['.'] + payload && SignedMessage(u, other) == Show(u) + ['.'] + other;
    ParseShow(t);
    ParseShow(u);
  }
}
