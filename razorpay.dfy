/**
  `RazorpayService`: the checkout signature check (HMAC-SHA256 of
  "orderId|paymentId", written as lower-case hex and compared with the
  supplied signature lower-cased) and the order request sent to the gateway
  (amount in paise, currency "INR", the receipt id, automatic capture).
  HMAC-SHA256 and Base64 are library calls and are passed in as functions; the
  hex rendering around them (`BitConverter.ToString`, dash removal, lower-casing)
  is modelled character by character.
 */
module Razorpay {
  import opened Entities

  type Byte = b: int | 0 <= b < 256

  /** An HMAC-SHA256 value: 32 bytes. */
  type Digest = s: seq<Byte> | |s| == 32 witness seq(32, _ => 0)

  /** The cryptographic and encoding library calls the store makes. */
  datatype Crypto = Crypto(
    /** HMAC-SHA256 keyed by the first string (UTF-8) over the second (UTF-8). */
    hmacSha256: (string, string) -> Digest,
    /** `Convert.ToBase64String`. */
    toBase64: seq<Byte> -> string)

  // ---------------------------------------------------------------------------
  // Hex rendering of a hash
  // ---------------------------------------------------------------------------

  /** Upper-case hex digit, as `BitConverter` writes it. */
  function UpperHexDigit(n: int): char
    requires 0 <= n < 16
  {
    if n < 10 then (48 + n) as char else (55 + n) as char
  }

  /** `BitConverter.ToString`: two upper-case hex digits per byte, separated by '-'. */
  function BitConverterToString(bytes: seq<Byte>): string {
    if |bytes| == 0 then ""
    else
      var pair := [UpperHexDigit(bytes[0] / 16), UpperHexDigit(bytes[0] % 16)];
      if |bytes| == 1 then pair else pair + "-" + BitConverterToString(bytes[1..])
  }

  /** `Replace("-", "")`. */
  function RemoveDashes(s: string): string {
    if s == [] then ""
    else (if s[0] == '-' then "" else [s[0]]) + RemoveDashes(s[1..])
  }

  function LowerChar(c: char): char {
    if 'A' <= c <= 'Z' then (c as int + 32) as char else c
  }

  /** `ToLower()` / `ToLowerInvariant()` on ASCII text. */
  function ToLowerAscii(s: string): (r: string)
    ensures |r| == |s|
    ensures forall i :: 0 <= i < |s| ==> r[i] == LowerChar(s[i])
  {
    if s == [] then "" else [LowerChar(s[0])] + ToLowerAscii(s[1..])
  }

  /** `BitConverter.ToString(hash).Replace("-", "").ToLower()`. */
  function DigestHex(hash: seq<Byte>): string {
    ToLowerAscii(RemoveDashes(BitConverterToString(hash)))
  }

  /** Lower-case hex digit. */
  function LowerHexDigit(n: int): char
    requires 0 <= n < 16
  {
    if n < 10 then (48 + n) as char else (87 + n) as char
  }

  /** Plain lower-case hex of a byte string: the meaning of `DigestHex`. */
  function LowerHex(bytes: seq<Byte>): string {
    if bytes == [] then ""
    else [LowerHexDigit(bytes[0] / 16), LowerHexDigit(bytes[0] % 16)] + LowerHex(bytes[1..])
  }

  predicate IsLowerHexChar(c: char) {
    '0' <= c <= '9' || 'a' <= c <= 'f'
  }

  lemma {:induction false} RemoveDashesConcat(a: string, b: string)
    ensures RemoveDashes(a + b) == RemoveDashes(a) + RemoveDashes(b)
  {
    if a == [] {
      assert a + b == b;
    } else {
      assert (a + b)[0] == a[0];
      assert (a + b)[1..] == a[1..] + b;
      RemoveDashesConcat(a[1..], b);
    }
  }

  lemma {:induction false} ToLowerAsciiConcat(a: string, b: string)
    ensures ToLowerAscii(a + b) == ToLowerAscii(a) + ToLowerAscii(b)
  {
  }

  /** Dropping the dashes and lower-casing `BitConverter`'s text gives the plain lower-case hex. */
  lemma {:induction false} DigestHexIsLowerHex(bytes: seq<Byte>)
    ensures DigestHex(bytes) == LowerHex(bytes)
  {
    if bytes != [] {
      var b := bytes[0];
      var pair := [UpperHexDigit(b / 16), UpperHexDigit(b % 16)];
      var lowPair := [LowerHexDigit(b / 16), LowerHexDigit(b % 16)];
      assert RemoveDashes(pair) == pair by {
        assert pair[1..] == [pair[1]];
        assert pair[1..][1..] == [];
        assert RemoveDashes([pair[1]]) == [pair[1]];
      }
      assert ToLowerAscii(pair) == lowPair;
      if |bytes| == 1 {
        assert bytes[1..] == [];
      } else {
        var rest := BitConverterToString(bytes[1..]);
        RemoveDashesConcat(pair + "-", rest);
        RemoveDashesConcat(pair, "-");
        assert RemoveDashes("-") == "";
        assert pair + "-" + rest == (pair + "-") + rest;
        DigestHexIsLowerHex(bytes[1..]);
      }
    }
  }

  lemma {:induction false} LowerHexShape(bytes: seq<Byte>)
    ensures |LowerHex(bytes)| == 2 * |bytes|
    ensures forall i :: 0 <= i < |LowerHex(bytes)| ==> IsLowerHexChar(LowerHex(bytes)[i])
  {
    if bytes != [] {
      LowerHexShape(bytes[1..]);
    }
  }

  /** The generated signature of a hash is 64 lower-case hex characters. */
  lemma DigestHexShape(hash: Digest)
    ensures |DigestHex(hash)| == 64
    ensures forall i :: 0 <= i < 64 ==> IsLowerHexChar(DigestHex(hash)[i])
  {
    DigestHexIsLowerHex(hash);
    LowerHexShape(hash);
  }

  /** Different hashes render as different hex strings. */
  lemma {:induction false} LowerHexInjective(a: seq<Byte>, b: seq<Byte>)
    requires |a| == |b| && LowerHex(a) == LowerHex(b)
    ensures a == b
  {
    if a != [] {
      var ha, hb := LowerHex(a), LowerHex(b);
      assert ha[0] == hb[0] && ha[1] == hb[1];
      assert a[0] / 16 == b[0] / 16 && a[0] % 16 == b[0] % 16;
      assert ha[2..] == LowerHex(a[1..]) && hb[2..] == LowerHex(b[1..]);
      LowerHexInjective(a[1..], b[1..]);
      assert a == [a[0]] + a[1..] && b == [b[0]] + b[1..];
    }
  }

  // ---------------------------------------------------------------------------
  // Checkout signature verification
  // ---------------------------------------------------------------------------

  /** The text signed for a checkout: `$"{orderId}|{paymentId}"`. */
  function SignedPayload(orderId: string, paymentId: string): (r: string)
    ensures |r| == |orderId| + 1 + |paymentId|
    ensures r[..|orderId|] == orderId && r[|orderId|] == '|' && r[|orderId| + 1..] == paymentId
  {
    orderId + "|" + paymentId
  }

  /** A gateway order id has no '|', so the signed text determines both ids. */
  lemma SignedPayloadInjective(o1: string, p1: string, o2: string, p2: string)
    requires '|' !in o1 && '|' !in o2
    requires SignedPayload(o1, p1) == SignedPayload(o2, p2)
    ensures o1 == o2 && p1 == p2
  {
  }

  /**
    `VerifySignature`: the lower-case hex HMAC of the signed payload, keyed
    with the API secret, equals the supplied signature lower-cased.
   */
  function VerifySignature(crypto: Crypto, secret: string, orderId: string, paymentId: string, signature: string): bool {
    DigestHex(crypto.hmacSha256(secret, SignedPayload(orderId, paymentId))) == ToLowerAscii(signature)
  }

  function ToUpperAscii(s: string): (r: string)
    ensures |r| == |s|
  {
    if s == [] then ""
    else [if 'a' <= s[0] <= 'z' then (s[0] as int - 32) as char else s[0]] + ToUpperAscii(s[1..])
  }

  lemma {:induction false} ToLowerAsciiIdempotent(s: string)
    ensures ToLowerAscii(ToLowerAscii(s)) == ToLowerAscii(s)
  {
    if s != [] {
      ToLowerAsciiIdempotent(s[1..]);
    }
  }

  lemma {:induction false} ToLowerOfUpper(s: string)
    ensures ToLowerAscii(ToUpperAscii(s)) == ToLowerAscii(s)
  {
    if s != [] {
      ToLowerOfUpper(s[1..]);
    }
  }

  /**
    The signature the gateway computes verifies, in lower case or upper case,
    and the verdict never depends on the signature's letter case.
   */
  lemma VerifySignatureAcceptsGenuine(crypto: Crypto, secret: string, orderId: string, paymentId: string, signature: string)
    ensures var genuine := DigestHex(crypto.hmacSha256(secret, SignedPayload(orderId, paymentId)));
      VerifySignature(crypto, secret, orderId, paymentId, genuine)
      && VerifySignature(crypto, secret, orderId, paymentId, ToUpperAscii(genuine))
    ensures VerifySignature(crypto, secret, orderId, paymentId, signature)
         == VerifySignature(crypto, secret, orderId, paymentId, ToUpperAscii(signature))
    ensures VerifySignature(crypto, secret, orderId, paymentId, signature)
         == VerifySignature(crypto, secret, orderId, paymentId, ToLowerAscii(signature))
  {
    var genuine := DigestHex(crypto.hmacSha256(secret, SignedPayload(orderId, paymentId)));
    DigestHexIsLowerHex(crypto.hmacSha256(secret, SignedPayload(orderId, paymentId)));
    LowerHexLower(crypto.hmacSha256(secret, SignedPayload(orderId, paymentId)));
    ToLowerOfUpper(genuine);
    ToLowerOfUpper(signature);
    ToLowerAsciiIdempotent(signature);
  }

  lemma {:induction false} LowerHexLower(bytes: seq<Byte>)
    ensures ToLowerAscii(LowerHex(bytes)) == LowerHex(bytes)
  {
    LowerHexShape(bytes);
  }

  /** A signature that is not 64 characters long never verifies. */
  lemma VerifySignatureRejectsLength(crypto: Crypto, secret: string, orderId: string, paymentId: string, signature: string)
    requires |signature| != 64
    ensures !VerifySignature(crypto, secret, orderId, paymentId, signature)
  {
    DigestHexShape(crypto.hmacSha256(secret, SignedPayload(orderId, paymentId)));
  }

  // ---------------------------------------------------------------------------
  // Order request
  // ---------------------------------------------------------------------------

  const Int32Min: int := -0x8000_0000
  const Int32Max: int := 0x7FFF_FFFF

  /** Truncation toward zero, as a `decimal` to `int` conversion rounds. */
  function TruncateTowardZero(x: real): (t: int)
    ensures 0.0 <= x ==> t as real <= x < t as real + 1.0
    ensures x < 0.0 ==> t as real - 1.0 < x <= t as real
  {
    if x >= 0.0 then x.Floor else -((-x).Floor)
  }

  /**
    `(int)(amount * 100)`: rupees to paise, truncated toward zero; the
    conversion throws `OverflowException` when the result does not fit in
    a 32-bit int.
   */
  function ToPaise(amount: real): (r: Result<int>)
    ensures r.Success? <==> Int32Min <= TruncateTowardZero(amount * 100.0) <= Int32Max
    ensures r.Success? ==> r.value == TruncateTowardZero(amount * 100.0)
  {
    var t := TruncateTowardZero(amount * 100.0);
    if Int32Min <= t <= Int32Max then Success(t) else Failure("OverflowException")
  }

  /** An amount with at most two decimals converts exactly. */
  lemma ToPaiseExact(amount: real, paise: int)
    requires amount * 100.0 == paise as real
    requires Int32Min <= paise <= Int32Max
    ensures ToPaise(amount) == Success(paise)
  {
  }

  /** Paise never exceed the amount × 100 in size and lose less than one paisa. */
  lemma ToPaiseBounds(amount: real)
    requires ToPaise(amount).Success?
    ensures var p := ToPaise(amount).value as real;
      (0.0 <= amount ==> 0.0 <= p <= amount * 100.0 < p + 1.0)
      && (amount < 0.0 ==> p - 1.0 < amount * 100.0 <= p <= 0.0)
  {
  }

  /** The body posted to create a gateway order. */
  datatype OrderRequest = OrderRequest(amount: int, currency: string, receipt: string, paymentCapture: int)

  /** The request `CreateOrder` builds; fails where the paise conversion throws. */
  function BuildOrderRequest(amount: real, receiptId: string): (r: Result<OrderRequest>)
    ensures r.Success? <==> ToPaise(amount).Success?
    ensures r.Success? ==>
      r.value.amount == ToPaise(amount).value && r.value.currency == "INR"
      && r.value.receipt == receiptId && r.value.paymentCapture == 1
  {
    match ToPaise(amount)
    case Success(paise) => Success(OrderRequest(paise, "INR", receiptId, 1))
    case Failure(e) => Failure(e)
  }
}
