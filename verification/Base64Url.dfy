/** URL-safe base64 without padding (RFC 4648, section 5): aamp_Base64_URL_Encode and
    aamp_Base64_URL_Decode. */
module Base64Url {
  import opened Common
  import opened Base64

  function ToUrl(c: byte): byte {
    if c == 43 then 45 else if c == 47 then 95 else c
  }

  function FromUrl(c: byte): byte {
    if c == 45 then 43 else if c == 95 then 47 else c
  }

  /** The string up to the first NUL. */
  function CString(a: seq<byte>): seq<byte> {
    if a == [] || a[0] == 0 then [] else [a[0]] + CString(a[1..])
  }

  /** How many padding characters an encoding ends with. */
  function Padding(x: seq<byte>): nat { (3 - |x| % 3) % 3 }

  /** The encoding in the URL alphabet, without padding. */
  function UrlEncoding(x: seq<byte>): seq<byte> {
    seq(|Encoding(x)| - Padding(x), i requires 0 <= i < |Encoding(x)| - Padding(x) => ToUrl(Encoding(x)[i]))
  }

  /** The text handed to the base64 decoder, without its final NUL. It is always longer than src, ends
      in two padding characters unless src reaches them, and up to two places between are left as they
      were allocated: they hold unset0 and unset1. */
  function Padded(src: seq<byte>, unset0: byte, unset1: byte): seq<byte> {
    var n := (|src| / 4 + 1) * 4;
    seq(n, i requires 0 <= i < n =>
      if i < |src| then FromUrl(src[i]) else if i >= n - 2 then PAD else if i == n - 4 then unset0 else unset1)
  }

  /** What decoding gives; nothing when the text is cut inside a group, where the decoder reads on past
      its end. */
  function UrlDecoding(src: seq<byte>, unset0: byte, unset1: byte): Option<seq<byte>> {
    var text := CString(Padded(src, unset0, unset1));
    if Whole(text) then Some(Decoding(text)) else None
  }

  lemma {:induction false} CStringIs(a: seq<byte>, n: nat)
    requires n <= |a| && (forall i :: 0 <= i < n ==> a[i] != 0) && (n < |a| ==> a[n] == 0)
    ensures CString(a) == a[..n]
    decreases n
  {
    if n > 0 {
      CStringIs(a[1..], n - 1);
    }
  }

  lemma {:induction false} CharInUrl(i: byte)
    requires i < 64
    ensures FromUrl(ToUrl(IndexToChar(i))) == IndexToChar(i) && ToUrl(IndexToChar(i)) != 0
  {
  }

  /** The alphabet of RFC 4648, section 5: '-' and '_' stand for the last two characters. */
  lemma {:induction false} UrlAlphabet(i: byte)
    requires i < 64
    ensures ToUrl(IndexToChar(i)) as int ==
            if i == 62 then '-' as int else if i == 63 then '_' as int else Letter(i as int)
  {
    TablesAreAlphabet(i, 0);
  }

  /** Each character of an encoding survives the change of alphabet and back. */
  lemma {:induction false} AlphabetInverts(x: seq<byte>, i: nat)
    requires i < |Encoding(x)|
    ensures FromUrl(ToUrl(Encoding(x)[i])) == Encoding(x)[i]
  {
    hide Group, Sextet, IndexToChar, ToUrl, FromUrl;
    if i >= 4 {
      AlphabetInverts(x[3..], i - 4);
    } else {
      var g := Group(x[0], if |x| > 1 then x[1] else 0, if |x| > 2 then x[2] else 0);
      CharInUrl(Sextet(g, i));
      PadInUrl();
    }
  }

  lemma {:induction false} PadInUrl()
    ensures FromUrl(ToUrl(PAD)) == PAD
  {
  }

  lemma {:induction false} WholeAppend(x: seq<byte>, t: seq<byte>)
    requires Whole(t)
    ensures Whole(Encoding(x) + t)
  {
    hide Encoding;
  }

  lemma {:induction false} FirstQuadDecodes(x: seq<byte>, t: seq<byte>)
    requires |x| >= 3
    ensures var s := Encoding(x) + t;
            |s| >= 4 && QuadAt(s, 0) == [x[0], x[1], x[2]] && s[4..] == Encoding(x[3..]) + t
  {
    hide DecodeQuad, Char, Group, Encoding;
    FirstGroup(x);
    QuadInverts(x[0], x[1], x[2]);
    assert (Encoding(x) + t)[4..] == Encoding(x)[4..] + t;
  }

  /** Whatever follows the encoding of whole groups is decoded after them. */
  lemma {:induction false} DecodingAppend(x: seq<byte>, t: seq<byte>)
    requires |x| % 3 == 0 && Whole(t)
    ensures Whole(Encoding(x) + t) && Decoding(Encoding(x) + t) == x + Decoding(t)
  {
    hide QuadAt, Encoding, Decoding, ReportedLen, Whole;
    WholeAppend(x, t);
    if |x| > 0 {
      FirstQuadDecodes(x, t);
      DecodingAppend(x[3..], t);
      DecodingStep(Encoding(x) + t);
      assert [x[0], x[1], x[2]] + (x[3..] + Decoding(t)) == x + Decoding(t);
    } else {
      assert Encoding(x) + t == t;
    }
  }

  /** The length of an encoding, and of the text restored from it without its padding. */
  lemma {:induction false} RestoredLength(n: nat)
    requires n % 3 != 0
    ensures var e := (n + 2) / 3 * 4; var u := e - (3 - n % 3) % 3;
            0 <= u < e <= u + 2 && (u / 4 + 1) * 4 == e
  {
    var q := n / 3;
    assert n == 3 * q + n % 3 && (n + 2) / 3 == q + 1;
  }

  /** Length not a multiple of three: the padding is restored exactly. */
  lemma {:induction false} PaddedRestores(x: seq<byte>, unset0: byte, unset1: byte)
    requires |x| % 3 != 0
    ensures Padded(UrlEncoding(x), unset0, unset1) == Encoding(x)
  {
    hide Encoding, ToUrl, FromUrl;
    RestoredLength(|x|);
    var u, e := UrlEncoding(x), Encoding(x);
    forall i | 0 <= i < |e| ensures Padded(u, unset0, unset1)[i] == e[i] {
      PaddingIs(x, i);
      AlphabetInverts(x, i);
    }
  }

  /** Length a multiple of three: a whole further group follows, two unset characters and padding. */
  lemma {:induction false} PaddedAppends(x: seq<byte>, unset0: byte, unset1: byte)
    requires |x| % 3 == 0
    ensures Padded(UrlEncoding(x), unset0, unset1) == Encoding(x) + [unset0, unset1, PAD, PAD]
  {
    hide Encoding;
    var u, e := UrlEncoding(x), Encoding(x);
    assert |u| == |e| == |x| / 3 * 4;
    forall i | 0 <= i < |e| ensures FromUrl(u[i]) == e[i] {
      AlphabetInverts(x, i);
    }
  }

  lemma {:induction false} EncodingText(x: seq<byte>, t: seq<byte>)
    requires t == [] || t[0] == 0
    ensures CString(Encoding(x) + t) == Encoding(x)
  {
    hide Encoding;
    forall i | 0 <= i < |Encoding(x)| ensures Encoding(x)[i] != 0 {
      PaddingIs(x, i);
    }
    CStringIs(Encoding(x) + t, |Encoding(x)|);
  }

  /** With a whole group of padding behind the encoding one more byte is decoded, or nothing at all. */
  lemma {:induction false} ExtraGroup(x: seq<byte>, unset0: byte, unset1: byte)
    requires |x| % 3 == 0 && unset0 != 0
    ensures UrlDecoding(UrlEncoding(x), unset0, unset1) != Some(x)
  {
    hide Encoding, Decoding, Padded, UrlEncoding, CString;
    var e, t := Encoding(x), [unset0, unset1, PAD, PAD];
    PaddedAppends(x, unset0, unset1);
    forall i | 0 <= i < |e| ensures e[i] != 0 {
      PaddingIs(x, i);
    }
    if unset1 == 0 {
      CStringIs(e + t, |e| + 1);
    } else {
      CStringIs(e + t, |e| + 4);
      assert (e + t)[..|e| + 4] == e + t;
      DecodingAppend(x, t);
      OneByte(unset0, unset1);
    }
  }

  /** Round trip: a byte string comes back if and only if its length is not a multiple of three or the
      first unset byte happens to be NUL. */
  lemma {:induction false} UrlRoundTrip(x: seq<byte>, unset0: byte, unset1: byte)
    ensures UrlDecoding(UrlEncoding(x), unset0, unset1) == Some(x) <==> |x| % 3 != 0 || unset0 == 0
  {
    hide Encoding, Decoding, Padded, UrlEncoding, CString;
    RoundTrip(x);
    var e := Encoding(x);
    if |x| % 3 != 0 {
      PaddedRestores(x, unset0, unset1);
      EncodingText(x, []);
      assert e + [] == e;
    } else if unset0 == 0 {
      PaddedAppends(x, unset0, unset1);
      EncodingText(x, [unset0, unset1, PAD, PAD]);
    } else {
      ExtraGroup(x, unset0, unset1);
    }
  }

  lemma {:induction false} OneByte(c0: byte, c1: byte)
    ensures |Decoding([c0, c1, PAD, PAD])| == 1
  {
  }

  /** So the round trip holds whatever the allocator left behind exactly for the lengths not divisible
      by three. */
  lemma {:induction false} UrlRoundTripAlways(x: seq<byte>)
    ensures (forall unset0, unset1 :: UrlDecoding(UrlEncoding(x), unset0, unset1) == Some(x)) <==> |x| % 3 != 0
  {
    forall unset0, unset1
      ensures UrlDecoding(UrlEncoding(x), unset0, unset1) == Some(x) <==> |x| % 3 != 0 || unset0 == 0
    {
      UrlRoundTrip(x, unset0, unset1);
    }
    UrlRoundTrip(x, 1, 1);
  }

  // ----- The loops -----------------------------------------------------------------------------

  method Strlen(a: array<byte>) returns (n: nat)
    requires exists i :: 0 <= i < a.Length && a[i] == 0
    ensures n < a.Length && a[n] == 0 && forall i :: 0 <= i < n ==> a[i] != 0
    ensures CString(a[..]) == a[..n]
  {
    n := 0;
    while a[n] != 0
      invariant n < a.Length && forall i :: 0 <= i < n ==> a[i] != 0
      decreases a.Length - n
    {
      n := n + 1;
    }
    CStringIs(a[..], n);
  }

  lemma {:induction false} UrlChars(x: seq<byte>)
    ensures Padding(x) <= |Encoding(x)|
    ensures forall i :: 0 <= i < |Encoding(x)| ==>
              Encoding(x)[i] != 0 && (Encoding(x)[i] == PAD <==> i >= |Encoding(x)| - Padding(x)) &&
                ToUrl(Encoding(x)[i]) != 0
  {
    hide Encoding;
    forall i | 0 <= i < |Encoding(x)|
      ensures Encoding(x)[i] != 0 && (Encoding(x)[i] == PAD <==> i >= |Encoding(x)| - Padding(x)) &&
                ToUrl(Encoding(x)[i]) != 0
    {
      PaddingIs(x, i);
    }
  }

  /** aamp_Base64_URL_Encode: a NUL-terminated string. */
  method UrlEncode(src: seq<byte>) returns (urlEncodedSrc: array<byte>)
    ensures fresh(urlEncodedSrc) && 0 in urlEncodedSrc[..] && CString(urlEncodedSrc[..]) == UrlEncoding(src)
  {
    hide Encoding, CString, UrlEncoding, Padding;
    var b64Src := Encode(src);
    ghost var e := Encoding(src);
    UrlChars(src);
    assert b64Src[|e|] == 0 && forall i :: 0 <= i < |e| ==> b64Src[i] == e[i];
    var encodedLen := Strlen(b64Src);
    urlEncodedSrc := new byte[encodedLen + 1];
    var iter := 0;
    while iter < encodedLen && b64Src[iter] != PAD
      invariant 0 <= iter <= encodedLen == |e| && iter <= |e| - Padding(src)
      invariant forall i :: 0 <= i < |e| ==> b64Src[i] == e[i]
      invariant forall i :: 0 <= i < iter ==> urlEncodedSrc[i] == ToUrl(e[i])
    {
      if b64Src[iter] == 43 {
        urlEncodedSrc[iter] := 45;
      } else if b64Src[iter] == 47 {
        urlEncodedSrc[iter] := 95;
      } else {
        urlEncodedSrc[iter] := b64Src[iter];
      }
      iter := iter + 1;
    }
    if iter < encodedLen {
      urlEncodedSrc[iter] := 0;
    }
    urlEncodedSrc[encodedLen] := 0;
    UrlText(src, urlEncodedSrc[..], iter);
  }

  lemma {:induction false} UrlText(x: seq<byte>, a: seq<byte>, n: nat)
    requires n == |Encoding(x)| - Padding(x) && n < |a| && a[n] == 0
    requires forall i :: 0 <= i < n ==> a[i] == ToUrl(Encoding(x)[i]) != 0
    ensures 0 in a && CString(a) == UrlEncoding(x)
  {
    hide Encoding, ToUrl;
    CStringIs(a, n);
  }

  /** The text that the filled buffer holds. */
  lemma {:induction false} PaddedText(src: seq<byte>, unset0: byte, unset1: byte, a: seq<byte>, n: nat)
    requires |a| == (|src| / 4 + 1) * 4 + 1 && a[|a| - 1] == 0 && forall i :: 0 <= i < |src| ==> a[i] == FromUrl(src[i])
    requires forall i :: |src| <= i < |a| - 1 ==>
               a[i] == if i >= |a| - 3 then PAD else if i == |a| - 5 then unset0 else unset1
    requires n < |a| && a[n] == 0 && forall i :: 0 <= i < n ==> a[i] != 0
    ensures a[..n] == CString(Padded(src, unset0, unset1))
  {
    hide CString, FromUrl;
    assert a[..|a| - 1] == Padded(src, unset0, unset1);
    CStringIs(a[..|a| - 1], n);
    assert a[..n] == a[..|a| - 1][..n];
  }

  /** aamp_Base64_URL_Decode; unset0 and unset1 stand for what the allocated buffer holds before it is
      filled. */
  method UrlDecode(src: seq<byte>, unset0: byte, unset1: byte) returns (decodedStr: array<byte>, len: nat)
    requires 0 !in src && UrlDecoding(src, unset0, unset1).Some?
    ensures var text := CString(Padded(src, unset0, unset1));
            && Whole(text) && len == ReportedLen(text) && len <= decodedStr.Length
            && |Decoding(text)| <= len && decodedStr[..|Decoding(text)|] == UrlDecoding(src, unset0, unset1).value
  {
    hide Whole, Decoding, ReportedLen, Room, Padded, CString;
    var b64Len := (|src| / 4 + 1) * 4 + 1;
    var b64Src := new byte[b64Len];
    b64Src[b64Len - 5], b64Src[b64Len - 4] := unset0, unset1;
    b64Src[b64Len - 1] := 0;
    b64Src[b64Len - 2] := PAD;
    b64Src[b64Len - 3] := PAD;
    for iter := 0 to |src|
      invariant forall i :: 0 <= i < iter ==> b64Src[i] == FromUrl(src[i])
      invariant b64Src[b64Len - 1] == 0
      invariant forall i :: iter <= i < b64Len - 1 && i >= b64Len - 5 ==>
                  b64Src[i] == if i >= b64Len - 3 then PAD else if i == b64Len - 5 then unset0 else unset1
    {
      if src[iter] == 45 {
        b64Src[iter] := 43;
      } else if src[iter] == 95 {
        b64Src[iter] := 47;
      } else {
        b64Src[iter] := src[iter];
      }
    }
    var n := Strlen(b64Src);
    PaddedText(src, unset0, unset1, b64Src[..], n);
    assert b64Src[..n] == b64Src[..][..n];
    decodedStr, len := Decode(b64Src[..n]);
  }
}
