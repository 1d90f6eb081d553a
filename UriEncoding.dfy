/** `encodeURIComponent`: percent-encoding (section 2.1 of RFC 3986) of the UTF-8
    bytes (RFC 3629) of every character outside ECMAScript's unescaped set, with
    upper-case hexadecimal digits; and a reference decoder, the reading of
    `decodeURIComponent`, that undoes it. */
module UriEncoding {
  import opened Wrappers

  /** The characters `encodeURIComponent` leaves as they are:
      `A-Z a-z 0-9 - _ . ! ~ * ' ( )`. */
  predicate IsUnreserved(c: char)
  {
    || ('A' <= c <= 'Z') || ('a' <= c <= 'z') || ('0' <= c <= '9')
    || c == '-' || c == '_' || c == '.' || c == '!' || c == '~' || c == '*'
    || c == '\'' || c == '(' || c == ')'
  }

  predicate IsUpperHex(c: char)
  {
    ('0' <= c <= '9') || ('A' <= c <= 'F')
  }

  predicate IsByte(b: nat) { b < 256 }

  predicate IsContinuation(b: nat) { 0x80 <= b < 0xC0 }

  /** The UTF-8 encoding of one Unicode scalar value. */
  function Utf8(c: char): (bytes: seq<nat>)
    ensures 1 <= |bytes| <= 4
    ensures forall i :: 0 <= i < |bytes| ==> IsByte(bytes[i])
    ensures forall i :: 1 <= i < |bytes| ==> IsContinuation(bytes[i])
  {
    var n := c as int;
    if n < 0x80 then [n]
    else if n < 0x800 then [0xC0 + n / 64, 0x80 + n % 64]
    else if n < 0x1_0000 then [0xE0 + n / 4096, 0x80 + (n / 64) % 64, 0x80 + n % 64]
    else [0xF0 + n / 262144, 0x80 + (n / 4096) % 64, 0x80 + (n / 64) % 64, 0x80 + n % 64]
  }

  function HexDigit(d: nat): (c: char)
    requires d < 16
    ensures IsUpperHex(c)
  {
    "0123456789ABCDEF"[d]
  }

  /** `%XY` for one byte. */
  function PercentByte(b: nat): (s: string)
    requires IsByte(b)
    ensures |s| == 3 && s[0] == '%' && IsUpperHex(s[1]) && IsUpperHex(s[2])
  {
    ['%', HexDigit(b / 16), HexDigit(b % 16)]
  }

  function PercentBytes(bs: seq<nat>): (s: string)
    requires forall i :: 0 <= i < |bs| ==> IsByte(bs[i])
    ensures |s| == 3 * |bs|
  {
    if bs == [] then [] else PercentByte(bs[0]) + PercentBytes(bs[1..])
  }

  function EncodeChar(c: char): (s: string)
    ensures IsUnreserved(c) ==> s == [c]
    ensures !IsUnreserved(c) ==> s == PercentBytes(Utf8(c))
  {
    if IsUnreserved(c) then [c] else PercentBytes(Utf8(c))
  }

  /** `encodeURIComponent(s)` */
  function EncodeUriComponent(s: string): (r: string)
  {
    if s == [] then [] else EncodeChar(s[0]) + EncodeUriComponent(s[1..])
  }

  /** The output holds only unescaped characters, `%` and hexadecimal digits, and
      a string made of unescaped characters is left unchanged. */
  predicate IsEncodedText(r: string)
  {
    forall i :: 0 <= i < |r| ==> IsUnreserved(r[i]) || r[i] == '%' || IsUpperHex(r[i])
  }

  predicate IsPercentText(r: string)
  {
    forall i :: 0 <= i < |r| ==> r[i] == '%' || IsUpperHex(r[i])
  }

  lemma {:induction false} EncodedAlphabet(s: string)
    ensures IsEncodedText(EncodeUriComponent(s))
  {
    if s != [] {
      EncodedAlphabet(s[1..]);
      if !IsUnreserved(s[0]) {
        PercentBytesAlphabet(Utf8(s[0]));
        PercentIsEncoded(EncodeChar(s[0]));
      }
      EncodedConcat(EncodeChar(s[0]), EncodeUriComponent(s[1..]));
    }
  }

  /** Text made of unescaped characters is left unchanged. */
  lemma {:induction false} EncodeUnreservedIdentity(s: string)
    requires forall i :: 0 <= i < |s| ==> IsUnreserved(s[i])
    ensures EncodeUriComponent(s) == s
  {
    if s != [] {
      assert forall i :: 0 <= i < |s[1..]| ==> s[1..][i] == s[i + 1];
      EncodeUnreservedIdentity(s[1..]);
      assert [s[0]] + s[1..] == s;
    }
  }

  lemma PercentIsEncoded(r: string)
    requires IsPercentText(r)
    ensures IsEncodedText(r)
  {
  }

  lemma EncodedConcat(a: string, b: string)
    requires IsEncodedText(a) && IsEncodedText(b)
    ensures IsEncodedText(a + b)
  {
    forall i | 0 <= i < |a + b|
      ensures IsUnreserved((a + b)[i]) || (a + b)[i] == '%' || IsUpperHex((a + b)[i])
    {
      if i < |a| {
        assert (a + b)[i] == a[i];
      } else {
        assert (a + b)[i] == b[i - |a|];
      }
    }
  }

  lemma {:induction false} PercentBytesAlphabet(bs: seq<nat>)
    requires forall i :: 0 <= i < |bs| ==> IsByte(bs[i])
    ensures IsPercentText(PercentBytes(bs))
  {
    if bs != [] {
      PercentBytesAlphabet(bs[1..]);
      var tail := PercentBytes(bs[1..]);
      var r := PercentByte(bs[0]) + tail;
      forall i | 0 <= i < |r|
        ensures r[i] == '%' || IsUpperHex(r[i])
      {
        if i >= 3 {
          assert r[i] == tail[i - 3];
        } else {
          var p := PercentByte(bs[0]);
          assert r[i] == p[i];
          assert i == 0 || i == 1 || i == 2;
        }
      }
    }
  }

  // ---------------------------------------------------------------------------
  // Reference decoder

  function HexValue(c: char): (d: nat)
    requires IsUpperHex(c) || ('a' <= c <= 'f')
    ensures d < 16
  {
    if '0' <= c <= '9' then c as int - '0' as int
    else if 'A' <= c <= 'F' then c as int - 'A' as int + 10
    else c as int - 'a' as int + 10
  }

  predicate IsHex(c: char) { IsUpperHex(c) || ('a' <= c <= 'f') }

  /** The byte written as `%XY` at the front of `s`, if there is one. */
  function ByteAt(s: string): (r: Option<nat>)
    ensures r.Some? ==> |s| >= 3 && IsByte(r.value)
  {
    if |s| >= 3 && s[0] == '%' && IsHex(s[1]) && IsHex(s[2])
    then Some(HexValue(s[1]) * 16 + HexValue(s[2]))
    else None
  }

  /** Number of bytes in the UTF-8 sequence that starts with `b`; 0 if `b` cannot start one. */
  function SequenceLength(b: nat): nat
  {
    if b < 0x80 then 1
    else if 0xC0 <= b < 0xE0 then 2
    else if 0xE0 <= b < 0xF0 then 3
    else if 0xF0 <= b < 0xF8 then 4
    else 0
  }

  /** The payload bits of a lead byte. */
  function LeadBits(b: nat, n: nat): int
  {
    if n == 1 then b else if n == 2 then b - 0xC0 else if n == 3 then b - 0xE0 else b - 0xF0
  }

  /** The smallest scalar value that needs `n` bytes (shorter forms are rejected). */
  function MinScalar(n: nat): nat
  {
    if n <= 1 then 0 else if n == 2 then 0x80 else if n == 3 then 0x800 else 0x1_0000
  }

  predicate IsScalar(n: int)
  {
    (0 <= n < 0xD800) || (0xE000 <= n < 0x11_0000)
  }

  /** Reads `k` continuation bytes written as `%XY`, folding their payload into `acc`. */
  function Continue(s: string, k: nat, acc: int): Option<int>
    decreases k
  {
    if k == 0 then Some(acc)
    else match ByteAt(s)
      case Some(b) =>
        if IsContinuation(b) then Continue(s[3..], k - 1, acc * 64 + (b as int - 0x80)) else None
      case None => None
  }

  /** `decodeURIComponent(s)`, `None` where it throws a URIError. */
  function DecodeUriComponent(s: string): Option<string>
    decreases |s|
  {
    if s == [] then Some([])
    else if s[0] != '%' then
      match DecodeUriComponent(s[1..])
      case Some(t) => Some([s[0]] + t)
      case None => None
    else match ByteAt(s)
      case None => None
      case Some(b) =>
        var n := SequenceLength(b);
        if n == 0 || |s| < 3 * n then None
        else match Continue(s[3..], n - 1, LeadBits(b, n))
          case None => None
          case Some(v) =>
            if !IsScalar(v) || v < MinScalar(n) then None
            else match DecodeUriComponent(s[3 * n..])
              case Some(t) => Some([v as char] + t)
              case None => None
  }

  // ---------------------------------------------------------------------------
  // Round trip

  lemma HexRoundTrip(d: nat)
    requires d < 16
    ensures HexValue(HexDigit(d)) == d
  {
  }

  lemma ByteAtPercentByte(b: nat, rest: string)
    requires IsByte(b)
    ensures ByteAt(PercentByte(b) + rest) == Some(b)
    ensures (PercentByte(b) + rest)[3..] == rest
  {
    HexRoundTrip(b / 16);
    HexRoundTrip(b % 16);
  }

  function FoldPayload(acc: int, bs: seq<nat>): int
    decreases |bs|
  {
    if bs == [] then acc else FoldPayload(acc * 64 + (bs[0] as int - 0x80), bs[1..])
  }

  lemma {:induction false} ContinueOverPercentBytes(bs: seq<nat>, rest: string, acc: int)
    requires forall i :: 0 <= i < |bs| ==> IsByte(bs[i]) && IsContinuation(bs[i])
    ensures Continue(PercentBytes(bs) + rest, |bs|, acc) == Some(FoldPayload(acc, bs))
    decreases |bs|
  {
    if bs != [] {
      var s := PercentBytes(bs) + rest;
      assert s == PercentByte(bs[0]) + (PercentBytes(bs[1..]) + rest);
      ByteAtPercentByte(bs[0], PercentBytes(bs[1..]) + rest);
      ContinueOverPercentBytes(bs[1..], rest, acc * 64 + (bs[0] as int - 0x80));
    }
  }

  /** The payload of the UTF-8 bytes of `c` is `c`, and no shorter form exists. */
  lemma Utf8Payload(c: char)
    ensures var bs := Utf8(c);
            SequenceLength(bs[0]) == |bs|
            && FoldPayload(LeadBits(bs[0], |bs|), bs[1..]) == c as int
            && c as int >= MinScalar(|bs|)
  {
    var n := c as int;
    var bs := Utf8(c);
    if n < 0x80 {
    } else if n < 0x800 {
      assert bs[1..] == [0x80 + n % 64];
      FoldOne(n / 64, 0x80 + n % 64);
    } else if n < 0x1_0000 {
      var q := n / 64;
      DivDiv64(n);
      assert bs[1..] == [0x80 + q % 64, 0x80 + n % 64];
      FoldTwo(n / 4096, 0x80 + q % 64, 0x80 + n % 64);
      assert (n / 4096) * 64 + q % 64 == q;
    } else {
      var q := n / 64;
      var p := q / 64;
      DivDiv64(n);
      DivDiv64(q);
      assert n / 4096 == p;
      assert n / 262144 == p / 64 by {
        DivDiv4096(n);
      }
      assert bs[1..] == [0x80 + p % 64, 0x80 + q % 64, 0x80 + n % 64];
      FoldThree(p / 64, 0x80 + p % 64, 0x80 + q % 64, 0x80 + n % 64);
      assert (p / 64) * 64 + p % 64 == p;
      assert p * 64 + q % 64 == q;
    }
  }

  lemma DivDiv64(n: nat)
    ensures n / 4096 == (n / 64) / 64
  {
  }

  lemma DivDiv4096(n: nat)
    ensures n / 262144 == ((n / 64) / 64) / 64
  {
  }

  lemma FoldOne(acc: int, b1: nat)
    ensures FoldPayload(acc, [b1]) == acc * 64 + b1 - 0x80
  {
    assert [b1][1..] == [];
  }

  lemma FoldTwo(acc: int, b1: nat, b2: nat)
    ensures FoldPayload(acc, [b1, b2]) == (acc * 64 + b1 - 0x80) * 64 + b2 - 0x80
  {
    assert [b1, b2][1..] == [b2];
    FoldOne(acc * 64 + b1 - 0x80, b2);
  }

  lemma FoldThree(acc: int, b1: nat, b2: nat, b3: nat)
    ensures FoldPayload(acc, [b1, b2, b3])
         == ((acc * 64 + b1 - 0x80) * 64 + b2 - 0x80) * 64 + b3 - 0x80
  {
    assert [b1, b2, b3][1..] == [b2, b3];
    FoldTwo(acc * 64 + b1 - 0x80, b2, b3);
  }

  /** One step of the decoder over a well-formed percent-encoded sequence. */
  lemma DecodePercentStep(s: string, b: nat, v: int)
    requires s != [] && s[0] == '%' && ByteAt(s) == Some(b)
    requires SequenceLength(b) != 0 && |s| >= 3 * SequenceLength(b)
    requires Continue(s[3..], SequenceLength(b) - 1, LeadBits(b, SequenceLength(b))) == Some(v)
    requires IsScalar(v) && v >= MinScalar(SequenceLength(b))
    ensures DecodeUriComponent(s)
         == match DecodeUriComponent(s[3 * SequenceLength(b)..])
            case Some(t) => Some([v as char] + t)
            case None => None
  {
  }

  /** Decoding the encoding of one character yields that character, then whatever follows. */
  lemma DecodeEncodedChar(c: char, rest: string)
    ensures DecodeUriComponent(EncodeChar(c) + rest)
         == match DecodeUriComponent(rest)
            case Some(t) => Some([c] + t)
            case None => None
  {
    var s := EncodeChar(c) + rest;
    if IsUnreserved(c) {
      assert s[1..] == rest;
    } else {
      var bs := Utf8(c);
      var n := |bs|;
      assert s == PercentByte(bs[0]) + (PercentBytes(bs[1..]) + rest);
      ByteAtPercentByte(bs[0], PercentBytes(bs[1..]) + rest);
      Utf8Payload(c);
      ContinueOverPercentBytes(bs[1..], rest, LeadBits(bs[0], n));
      assert s[3 * n..] == rest;
      DecodePercentStep(s, bs[0], c as int);
      assert (c as int) as char == c;
    }
  }

  /** `decodeURIComponent(encodeURIComponent(s)) == s` */
  lemma {:induction false} DecodeEncode(s: string)
    ensures DecodeUriComponent(EncodeUriComponent(s)) == Some(s)
  {
    if s != [] {
      DecodeEncodedChar(s[0], EncodeUriComponent(s[1..]));
      DecodeEncode(s[1..]);
      assert [s[0]] + s[1..] == s;
    }
  }
}
