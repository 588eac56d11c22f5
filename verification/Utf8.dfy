/** UTF-8 as section 3 of RFC 3629 defines it, with Python's "ignore" error handling for decoding. */
module Utf8 {
  import opened Prelude

  type Byte = i: int | 0 <= i < 256

  predicate IsContinuation(b: Byte) {
    0x80 <= b < 0xC0
  }

  function EncodeChar(c: char): (bytes: seq<Byte>)
    ensures 1 <= |bytes| <= 4
  {
    var n := c as int;
    if n < 0x80 then [n]
    else if n < 0x800 then [0xC0 + n / 0x40, 0x80 + n % 0x40]
    else if n < 0x10000 then [0xE0 + n / 0x1000, 0x80 + n / 0x40 % 0x40, 0x80 + n % 0x40]
    else [0xF0 + n / 0x40000, 0x80 + n / 0x1000 % 0x40, 0x80 + n / 0x40 % 0x40, 0x80 + n % 0x40]
  }

  function Encode(s: string): seq<Byte> {
    if s == "" then [] else EncodeChar(s[0]) + Encode(s[1..])
  }

  /** The character encoded at the front of the bytes, if a well-formed sequence starts there. */
  function DecodeOne(b: seq<Byte>): (r: Option<(char, nat)>)
    ensures r.Some? ==> 1 <= r.value.1 <= |b|
  {
    if b == [] then None
    else if b[0] < 0x80 then Some((b[0] as char, 1))
    else if 0xC2 <= b[0] < 0xE0 && |b| >= 2 && IsContinuation(b[1]) then
      Some((((b[0] as int - 0xC0) * 0x40 + (b[1] as int - 0x80)) as char, 2))
    else if 0xE0 <= b[0] < 0xF0 && |b| >= 3 && IsContinuation(b[1]) && IsContinuation(b[2]) then
      var n: int := (b[0] as int - 0xE0) * 0x1000 + (b[1] as int - 0x80) * 0x40 + (b[2] as int - 0x80);
      if n >= 0x800 && !(0xD800 <= n < 0xE000) then Some((n as char, 3)) else None
    else if 0xF0 <= b[0] < 0xF5 && |b| >= 4 && IsContinuation(b[1]) && IsContinuation(b[2]) && IsContinuation(b[3]) then
      var n: int := (b[0] as int - 0xF0) * 0x40000 + (b[1] as int - 0x80) * 0x1000 + (b[2] as int - 0x80) * 0x40 + (b[3] as int - 0x80);
      if 0x10000 <= n < 0x110000 then Some((n as char, 4)) else None
    else None
  }

  /** bytes.decode("utf-8", errors="ignore"): bytes that start no well-formed sequence are skipped. */
  function DecodeIgnore(b: seq<Byte>): string
    decreases |b|
  {
    if b == [] then ""
    else match DecodeOne(b)
      case Some((c, n)) => [c] + DecodeIgnore(b[n..])
      case None => DecodeIgnore(b[1..])
  }

  lemma DecodeEncodedChar(c: char, rest: seq<Byte>)
    ensures DecodeOne(EncodeChar(c) + rest) == Some((c, |EncodeChar(c)|))
  {
    var n := c as int;
    var b := EncodeChar(c) + rest;
    assert forall i | 0 <= i < |EncodeChar(c)| :: b[i] == EncodeChar(c)[i];
    assert n / 0x40 * 0x40 + n % 0x40 == n;
    assert n / 0x40 / 0x40 == n / 0x1000 && n / 0x1000 / 0x40 == n / 0x40000;
  }

  /** The table of section 3 of RFC 3629: the length by range, and the bytes at the end of each range. */
  lemma EncodedAsInTable(c: char)
    ensures |EncodeChar(c)| == if c <= '\U{7F}' then 1 else if c <= '\U{7FF}' then 2 else if c <= '\U{FFFF}' then 3 else 4
    ensures Encode([c]) == EncodeChar(c)
    ensures EncodeChar('\U{0}') == [0x00] && EncodeChar('\U{7F}') == [0x7F]
    ensures EncodeChar('\U{80}') == [0xC2, 0x80] && EncodeChar('\U{7FF}') == [0xDF, 0xBF]
    ensures EncodeChar('\U{800}') == [0xE0, 0xA0, 0x80] && EncodeChar('\U{FFFF}') == [0xEF, 0xBF, 0xBF]
    ensures EncodeChar('\U{10000}') == [0xF0, 0x90, 0x80, 0x80] && EncodeChar('\U{10FFFF}') == [0xF4, 0x8F, 0xBF, 0xBF]
  {
    assert [c][1..] == "";
    assert EncodeChar(c) + [] == EncodeChar(c);
  }

  /** Every byte of an encoded character but the first is a continuation byte. */
  lemma OnlyFirstByteLeads(c: char, i: nat)
    requires 0 < i < |EncodeChar(c)|
    ensures IsContinuation(EncodeChar(c)[i])
  {
  }

  lemma {:induction false} SkipContinuations(lead: seq<Byte>, rest: seq<Byte>)
    requires forall b | b in lead :: IsContinuation(b)
    ensures DecodeIgnore(lead + rest) == DecodeIgnore(rest)
  {
    if lead == [] {
      assert lead + rest == rest;
    } else {
      assert (lead + rest)[0] == lead[0] && lead[0] in lead;
      assert DecodeOne(lead + rest) == None;
      assert (lead + rest)[1..] == lead[1..] + rest;
      SkipContinuations(lead[1..], rest);
    }
  }

  /** Decoding undoes encoding: nothing is dropped or invented. */
  lemma {:induction false} DecodeOfEncode(s: string)
    ensures DecodeIgnore(Encode(s)) == s
  {
    if s != "" {
      DecodeEncodedChar(s[0], Encode(s[1..]));
      DecodeOfEncode(s[1..]);
      assert Encode(s)[|EncodeChar(s[0])|..] == Encode(s[1..]);
    }
  }

  lemma {:induction false} EncodeAppend(a: string, b: string)
    ensures Encode(a + b) == Encode(a) + Encode(b)
  {
    if a == "" {
      assert a + b == b;
    } else {
      EncodeAppend(a[1..], b);
      assert (a + b)[0] == a[0] && (a + b)[1..] == a[1..] + b;
      Assoc(EncodeChar(a[0]), Encode(a[1..]), Encode(b));
    }
  }

  /** The longest suffix of whole characters that fits the byte budget. */
  function LongestFit(s: string, max: nat): string {
    if |Encode(s)| <= max then s else LongestFit(s[1..], max)
  }

  lemma {:induction false} LongestFitIsLongest(s: string, max: nat)
    ensures var k := |s| - |LongestFit(s, max)|;
            && 0 <= k <= |s| && LongestFit(s, max) == s[k..]
            && |Encode(LongestFit(s, max))| <= max
            && forall j | 0 <= j < k :: |Encode(s[j..])| > max
  {
    if |Encode(s)| > max {
      LongestFitIsLongest(s[1..], max);
      var k := |s| - |LongestFit(s, max)|;
      forall j | 0 <= j < k ensures |Encode(s[j..])| > max {
        if j > 0 {
          assert s[j..] == s[1..][j - 1..];
        } else {
          assert s[0..] == s;
        }
      }
    }
  }

  /** Self-synchronisation: cutting anywhere and ignoring errors keeps exactly the whole characters after the cut. */
  lemma {:induction false} CutKeepsWholeCharacters(s: string, max: nat)
    requires max <= |Encode(s)|
    ensures DecodeIgnore(Encode(s)[|Encode(s)| - max..]) == LongestFit(s, max)
  {
    var all := Encode(s);
    var cut := |all| - max;
    if cut == 0 {
      assert all[0..] == all;
      DecodeOfEncode(s);
    } else {
      var first, rest := EncodeChar(s[0]), Encode(s[1..]);
      CutPoint(first, rest, cut);
      if cut >= |first| {
        CutKeepsWholeCharacters(s[1..], max);
      } else {
        CutInside(s[0], cut, rest);
        DecodeOfEncode(s[1..]);
        assert |rest| <= max && LongestFit(s[1..], max) == s[1..];
      }
    }
  }

  lemma CutPoint(first: seq<Byte>, rest: seq<Byte>, cut: nat)
    requires cut <= |first| + |rest|
    ensures (first + rest)[cut..] == if cut >= |first| then rest[cut - |first|..] else first[cut..] + rest
  {
  }

  /** The bytes left of a character that is cut in two decode to nothing. */
  lemma CutInside(c: char, cut: nat, rest: seq<Byte>)
    requires 0 < cut < |EncodeChar(c)|
    ensures DecodeIgnore(EncodeChar(c)[cut..] + rest) == DecodeIgnore(rest)
  {
    var lead := EncodeChar(c)[cut..];
    forall i | 0 <= i < |lead| ensures IsContinuation(lead[i]) {
      OnlyFirstByteLeads(c, cut + i);
    }
    SkipContinuations(lead, rest);
  }
}
