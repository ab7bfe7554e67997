/** The pairing descriptor: a header, four letters of the application, one of the transport, and the parameters with their CRC. */
module Descriptor {
  import opened Options
  import opened Codec
  import opened Crc

  const HEADER_LEN: nat := 8
  const APP_ID_LEN: nat := 4
  const PARAMS_MAX: nat := 48
  const DESCRIPTOR_MAX: nat := 128

  datatype Error = InvalidArg | InvalidSize | InvalidVersion | InvalidCrc

  datatype Parsed = Accepted(transport: char, params: seq<bv8>) | Rejected(error: Error)

  // ---- the text -----------------------------------------------------------------

  predicate PrintableChar(c: char) {
    0x21 <= c as int <= 0x7e
  }

  predicate Printable(appId: seq<char>) {
    forall c <- appId :: PrintableChar(c)
  }

  function Body(params: seq<bv8>): seq<bv8> {
    params + [Crc8(params)]
  }

  function Text(transport: char, appId: seq<char>, params: seq<bv8>): (t: seq<char>)
    requires |appId| == APP_ID_LEN
    ensures |t| == HEADER_LEN + EncodedLen(|params| + 1)
  {
    "DK1" + appId + [transport] + Base64Url(Body(params))
  }

  /** A known answer: one parameter byte, zero, over Wi-Fi. */
  lemma KnownDescriptor()
    ensures Text('W', "NCKN", [0]) == "DK1NCKNWAAA"
  {
    assert Crc8([0]) == 0 by { ZeroChecksItself(); }
    assert [0] + [0 as bv8] == [0, 0];
    ZerosAsText();
  }

  lemma ZeroChecksItself()
    ensures Crc8([0]) == 0
  {
    Takes(0, 0, 0, []);
    CrcOfNone(0);
    assert [0 as bv8] + [] == [0];
  }

  lemma ZerosAsText()
    ensures Base64Url([0, 0]) == "AAA"
  {
    AlphabetIs(0);
    assert Quad(0, 0, 0) == "AAAA";
  }

  /** A C string: what precedes the first NUL. */
  function CString(buf: seq<char>): (s: seq<char>)
    requires '\0' in buf
    ensures |s| < |buf| && s == buf[..|s|] && buf[|s|] == '\0' && '\0' !in s
  {
    if buf[0] == '\0' then []
    else
      var s := CString(buf[1..]);
      assert buf[0] !in s ==> '\0' !in [buf[0]] + s;
      [buf[0]] + s
  }

  lemma {:induction false} CStringOf(s: seq<char>, rest: seq<char>)
    requires '\0' !in s
    ensures '\0' in s + ['\0'] + rest && CString(s + ['\0'] + rest) == s
  {
    var buf := s + ['\0'] + rest;
    assert buf[|s|] == '\0';
    if s != [] {
      assert buf[1..] == s[1..] + ['\0'] + rest;
      CStringOf(s[1..], rest);
    }
  }

  // ---- encoding -------------------------------------------------------------------

  method AppIdPrintable(appId: seq<char>) returns (ok: bool)
    ensures ok <==> Printable(appId)
  {
    for i := 0 to |appId|
      invariant forall k :: 0 <= k < i ==> PrintableChar(appId[k])
    {
      if appId[i] as int < 0x21 || appId[i] as int > 0x7e {
        assert !PrintableChar(appId[i]);
        return false;
      }
    }
    return true;
  }

  /** dokan_descriptor_encode; `out` has room for `out.Length` characters, the terminating NUL among them. */
  method Encode(transport: char, appId: seq<char>, params: seq<bv8>, out: array<char>) returns (error: Option<Error>)
    requires |appId| == APP_ID_LEN
    modifies out
    ensures error == if !Printable(appId) then Some(InvalidArg)
                     else if |params| == 0 || |params| > PARAMS_MAX then Some(InvalidSize)
                     else if out.Length < HEADER_LEN + EncodedLen(|params| + 1) + 1 then Some(InvalidSize)
                     else None
    ensures error.Some? ==> out[..] == old(out[..])
    ensures error.None? ==>
      var n := |Text(transport, appId, params)|;
      out[..n] == Text(transport, appId, params) && out[n] == '\0' && out[n + 1..] == old(out[n + 1..])
  {
    hide Base64Url, Crc8;
    var printable := AppIdPrintable(appId);
    if !printable {
      return Some(InvalidArg);
    }
    if |params| == 0 || |params| > PARAMS_MAX {
      return Some(InvalidSize);
    }
    var crc := ComputeCrc8(params);
    var b64 := new char[(PARAMS_MAX + 1 + 2) / 3 * 4 + 1];
    var n := EncodeBase64Url(params + [crc], b64);
    var total := HEADER_LEN + n;
    if out.Length < total + 1 {
      return Some(InvalidSize);
    }
    Assemble(transport, appId, b64[..n], out);
    error := None;
  }

  method Assemble(transport: char, appId: seq<char>, b64: seq<char>, out: array<char>)
    requires |appId| == APP_ID_LEN && HEADER_LEN + |b64| < out.Length
    modifies out
    ensures var n := HEADER_LEN + |b64|;
      out[..n] == "DK1" + appId + [transport] + b64 && out[n] == '\0' && out[n + 1..] == old(out[n + 1..])
  {
    out[0], out[1], out[2] := 'D', 'K', '1';
    forall i | 0 <= i < APP_ID_LEN {
      out[3 + i] := appId[i];
    }
    out[7] := transport;
    forall i | 0 <= i < |b64| {
      out[HEADER_LEN + i] := b64[i];
    }
    out[HEADER_LEN + |b64|] := '\0';
    ghost var n := HEADER_LEN + |b64|;
    assert out[..3] == "DK1" && out[3..7] == appId && out[HEADER_LEN..n] == b64;
    assert out[..n] == out[..3] + out[3..7] + [out[7]] + out[HEADER_LEN..n];
    assert forall k :: n < k < out.Length ==> out[k] == old(out[k]);
  }

  // ---- parsing --------------------------------------------------------------------

  /** What is made of a descriptor text by an application that has room for `cap` bytes of parameters. */
  function Parse(text: seq<char>, appId: seq<char>, cap: nat): Parsed
    requires |appId| == APP_ID_LEN
  {
    if |text| < HEADER_LEN || |text| > DESCRIPTOR_MAX then Rejected(InvalidSize)
    else if text[..3] != "DK1" then Rejected(InvalidVersion)
    else if text[3..7] != appId then Rejected(InvalidArg)
    else ParseBody(text[7], Decoded(text[HEADER_LEN..]), cap)
  }

  function ParseBody(transport: char, body: Option<seq<bv8>>, cap: nat): Parsed {
    if body.None? || |body.value| > PARAMS_MAX + 1 then Rejected(InvalidArg)
    else if |body.value| < 1 then Rejected(InvalidSize)
    else
      var n := |body.value| - 1;
      if Crc8(body.value[..n]) != body.value[n] then Rejected(InvalidCrc)
      else if n > cap then Rejected(InvalidSize)
      else Accepted(transport, body.value[..n])
  }

  /** The header is that of the application, and the text has a length a descriptor may have. */
  predicate HeaderFits(text: seq<char>, appId: seq<char>) {
    8 <= |text| <= 128 && text[..7] == "DK1" + appId
  }

  /** Which error a text is refused with: lengths first, then the version, the application, the spelling, the CRC, the room. */
  lemma RejectedExactly(text: seq<char>, appId: seq<char>, cap: nat)
    requires |appId| == APP_ID_LEN
    ensures var r := Parse(text, appId, cap);
      && (r == Rejected(InvalidVersion) <==> 8 <= |text| <= 128 && text[..3] != "DK1")
      && (r == Rejected(InvalidArg) <==>
            8 <= |text| <= 128 && text[..3] == "DK1" &&
            (text[3..7] != appId || Decoded(text[8..]).None? || |Decoded(text[8..]).value| > 49))
      && (HeaderFits(text, appId) && Decoded(text[8..]).Some? ==>
            var body := Decoded(text[8..]).value;
            && (r == Rejected(InvalidSize) <==> body == [] || (|body| <= 49 && Crc8(body) == 0 && |body| > cap + 1))
            && (r == Rejected(InvalidCrc) <==> 1 <= |body| <= 49 && Crc8(body) != 0)
            && (r.Accepted? <==> 1 <= |body| <= 49 && Crc8(body) == 0 && |body| <= cap + 1)
            && (r.Accepted? ==> r == Accepted(text[7], body[..|body| - 1])))
      && (r == Rejected(InvalidSize) ==> |text| < 8 || |text| > 128 || HeaderFits(text, appId))
      && (|text| < 8 || |text| > 128 ==> r == Rejected(InvalidSize))
  {
    hide Decoded, Crc8;
    if 8 <= |text| <= 128 {
      assert text[..7] == text[..3] + text[3..7];
      if Decoded(text[8..]).Some? && Decoded(text[8..]).value != [] {
        var body := Decoded(text[8..]).value;
        var n := |body| - 1;
        assert body == body[..n] + [body[n]];
        CheckByte(body[..n], body[n]);
      }
    }
  }

  method StrLen(buf: seq<char>) returns (n: nat)
    requires '\0' in buf
    ensures n == |CString(buf)|
  {
    hide CString;
    n := 0;
    while buf[n] != '\0'
      invariant n <= |CString(buf)|
      decreases |buf| - n
    {
      n := n + 1;
    }
  }

  /** dokan_descriptor_parse. */
  method ParseDescriptor(buf: seq<char>, appId: seq<char>, paramsOut: array<bv8>)
    returns (error: Option<Error>, transport: char, n: nat)
    requires |appId| == APP_ID_LEN && '\0' in buf
    modifies paramsOut
    ensures var r := Parse(CString(buf), appId, paramsOut.Length);
      && error == (if r.Rejected? then Some(r.error) else None)
      && (r.Accepted? ==> transport == r.transport && n == |r.params| <= paramsOut.Length && paramsOut[..n] == r.params)
      && (r.Rejected? ==> paramsOut[..] == old(paramsOut[..]))
  {
    hide CString, Decoded, Crc8;
    transport, n := '\0', 0;
    var len := StrLen(buf);
    if len < HEADER_LEN || len > DESCRIPTOR_MAX {
      return Some(InvalidSize), transport, n;
    }
    if buf[0] != 'D' || buf[1] != 'K' {
      return Some(InvalidVersion), transport, n;
    }
    if buf[2] != '1' {
      return Some(InvalidVersion), transport, n;
    }
    assert CString(buf) == buf[..len];
    assert buf[..len][3..7] == buf[3..7] && buf[..len][..3] == [buf[0], buf[1], buf[2]];
    if buf[3..7] != appId {
      return Some(InvalidArg), transport, n;
    }
    var body := new bv8[PARAMS_MAX + 1];
    assert buf[..len][HEADER_LEN..] == buf[HEADER_LEN..len];
    var ok, bodyLen := DecodeBase64Url(buf[HEADER_LEN..len], body);
    if !ok {
      return Some(InvalidArg), transport, n;
    }
    if bodyLen < 1 {
      return Some(InvalidSize), transport, n;
    }
    var plen := bodyLen - 1;
    ghost var d := Decoded(buf[HEADER_LEN..len]).value;
    assert d[..plen] == body[..plen] && d[plen] == body[plen];
    var crc := ComputeCrc8(body[..plen]);
    if crc != body[plen] {
      return Some(InvalidCrc), transport, n;
    }
    if plen > paramsOut.Length {
      return Some(InvalidSize), transport, n;
    }
    forall i | 0 <= i < plen {
      paramsOut[i] := body[i];
    }
    assert paramsOut[..plen] == body[..plen];
    return None, buf[7], plen;
  }

  // ---- round trip -----------------------------------------------------------------

  lemma TextHasNoNul(transport: char, appId: seq<char>, params: seq<bv8>)
    requires |appId| == APP_ID_LEN && Printable(appId)
    ensures '\0' in Text(transport, appId, params) <==> transport == '\0'
  {
    hide Base64Url, Body, Decoded, Printable;
    var b := Base64Url(Body(params));
    DecodeInvertsEncode(Body(params));
    DecodesExactly(b);
    NoNul(b, appId);
    assert Text(transport, appId, params)[7] == transport;
  }

  lemma NoNul(b: seq<char>, appId: seq<char>)
    requires Valid(b) && Printable(appId)
    ensures '\0' !in b && '\0' !in appId
  {
  }

  /** Parsing takes back exactly what was encoded, if and only if the transport is not the NUL that would end the string. */
  lemma ParseInvertsEncode(transport: char, appId: seq<char>, params: seq<bv8>, rest: seq<char>, cap: nat)
    requires |appId| == APP_ID_LEN && Printable(appId) && 0 < |params| <= PARAMS_MAX && |params| <= cap
    ensures var buf := Text(transport, appId, params) + ['\0'] + rest;
      && '\0' in buf
      && (Parse(CString(buf), appId, cap) == Accepted(transport, params) <==> transport != '\0')
      && (transport == '\0' ==> Parse(CString(buf), appId, cap) == Rejected(InvalidSize))
  {
    hide Base64Url, Crc8, Decoded, CString, Printable;
    var text := Text(transport, appId, params);
    TextHasNoNul(transport, appId, params);
    assert (text + ['\0'] + rest)[|text|] == '\0';
    if transport != '\0' {
      CStringOf(text, rest);
      DecodeInvertsEncode(Body(params));
      assert text[..3] == "DK1" && text[3..7] == appId && text[7] == transport && text[HEADER_LEN..] == Base64Url(Body(params));
      assert Body(params)[..|params|] == params;
    } else {
      var head, b := "DK1" + appId, Base64Url(Body(params));
      assert text + ['\0'] + rest == head + ['\0'] + (b + ['\0'] + rest);
      NoNul([], appId);
      CStringOf(head, b + ['\0'] + rest);
    }
  }

  /** What is accepted, exactly. */
  lemma AcceptedExactly(text: seq<char>, appId: seq<char>, cap: nat, transport: char, params: seq<bv8>)
    requires |appId| == APP_ID_LEN
    ensures Parse(text, appId, cap) == Accepted(transport, params) <==>
      (HEADER_LEN <= |text| <= DESCRIPTOR_MAX && text[..HEADER_LEN] == "DK1" + appId + [transport]
       && Decoded(text[HEADER_LEN..]) == Some(Body(params)) && |params| <= PARAMS_MAX && |params| <= cap)
  {
    hide Decoded, Crc8;
    if HEADER_LEN <= |text| <= DESCRIPTOR_MAX {
      var h := text[..HEADER_LEN];
      assert h[..3] == text[..3] && h[3..7] == text[3..7] && h[7] == text[7];
      assert h == h[..3] + h[3..7] + [h[7]];
      var body := Decoded(text[HEADER_LEN..]);
      if body.Some? && |body.value| > 0 {
        var n := |body.value| - 1;
        assert body.value == body.value[..n] + [body.value[n]];
      }
      assert Body(params)[..|params|] == params;
    }
  }

  // ---- one wrong character ----------------------------------------------------------

  /** The bodies differ in one byte, or in two neighbouring ones whose errors the CRC cannot confuse. */
  ghost predicate Near(d: seq<bv8>, e: seq<bv8>, i: nat) {
    && |d| == |e| && i < |d| && d[..i] == e[..i]
    && ((d[i] != e[i] && d[i + 1..] == e[i + 1..])
        || (i + 2 <= |d| && d[i + 2..] == e[i + 2..] && Step(Xor(d[i], e[i])) != Xor(d[i + 1], e[i + 1])))
  }

  lemma NearIsNoticed(d: seq<bv8>, e: seq<bv8>, i: nat)
    requires Near(d, e, i)
    ensures Crc8(d) != Crc8(e)
  {
    hide Step, Xor, Crc8;
    if d[i] != e[i] && d[i + 1..] == e[i + 1..] {
      OneByteIsNoticed(d, e, i);
    } else {
      BurstIsNoticed(d, e, i);
    }
  }

  lemma NearLater(head: seq<bv8>, d: seq<bv8>, e: seq<bv8>, i: nat)
    requires Near(d, e, i)
    ensures Near(head + d, head + e, |head| + i)
  {
    hide Step, Xor;
    var d1, e1, n := head + d, head + e, |head|;
    assert d1[..n + i] == head + d[..i] && e1[..n + i] == head + e[..i];
    assert d1[n + i + 1..] == d[i + 1..] && e1[n + i + 1..] == e[i + 1..];
    if i + 2 <= |d| {
      assert d1[n + i + 2..] == d[i + 2..] && e1[n + i + 2..] == e[i + 2..];
    }
  }

  /** A wrong second or third sextet of a group spoils two bytes, in ways one step of the CRC does not map to each other. */
  lemma SecondSextet(d: bv8)
    requires 0 < d < 64
    ensures Step(d >> 4) != d << 4
  {
    hide Step;
    StepUnrolled(d >> 4);
  }

  lemma ThirdSextet(d: bv8)
    requires 0 < d < 64
    ensures Step(d >> 2) != d << 6
  {
    hide Step;
    StepUnrolled(d >> 2);
  }

  // The three bytes of a group, each from two neighbouring sextets.

  function FirstByte(w: bv8, x: bv8): bv8 { (w << 2) | (x >> 4) }

  function SecondByte(x: bv8, y: bv8): bv8 { (x << 4) | (y >> 2) }

  function ThirdByte(y: bv8, z: bv8): bv8 { (y << 6) | z }

  lemma JoinIs(w: bv8, x: bv8, y: bv8, z: bv8)
    requires w < 64 && x < 64 && y < 64 && z < 64
    ensures Join(w, x, y, z) == (FirstByte(w, x), SecondByte(x, y), ThirdByte(y, z))
    ensures LastOne(w, x) == FirstByte(w, x) && LastTwo(w, x, y) == (FirstByte(w, x), SecondByte(x, y))
  {
  }

  lemma SecondChanges(w: bv8, x: bv8, x1: bv8, y: bv8)
    requires w < 64 && x < 64 && x1 < 64 && y < 64 && x != x1
    ensures Xor(FirstByte(w, x), FirstByte(w, x1)) == Xor(x, x1) >> 4
    ensures Xor(SecondByte(x, y), SecondByte(x1, y)) == Xor(x, x1) << 4
    ensures 0 < Xor(x, x1) < 64
  {
  }

  lemma ThirdChanges(x: bv8, y: bv8, y1: bv8, z: bv8)
    requires x < 64 && y < 64 && y1 < 64 && z < 64 && y != y1
    ensures Xor(SecondByte(x, y), SecondByte(x, y1)) == Xor(y, y1) >> 2
    ensures Xor(ThirdByte(y, z), ThirdByte(y1, z)) == Xor(y, y1) << 6
    ensures 0 < Xor(y, y1) < 64
  {
  }

  /** What one wrong symbol does to a decoded body: nothing, or an error that is `Near`. */
  ghost predicate Spoilt(d: seq<bv8>, e: seq<bv8>) {
    d == e || exists i :: Near(d, e, i)
  }

  lemma OneByteSpoilt(d: seq<bv8>, e: seq<bv8>, i: nat)
    requires |d| == |e| && i < |d| && d[..i] == e[..i] && d[i + 1..] == e[i + 1..]
    ensures Spoilt(d, e)
  {
    hide Step, Xor;
    if d[i] == e[i] {
      assert d == d[..i] + [d[i]] + d[i + 1..] && e == e[..i] + [e[i]] + e[i + 1..];
    } else {
      assert Near(d, e, i);
    }
  }

  lemma TwoBytesSpoilt(d: seq<bv8>, e: seq<bv8>, i: nat)
    requires |d| == |e| && i + 2 <= |d| && d[..i] == e[..i] && d[i + 2..] == e[i + 2..]
    requires Step(Xor(d[i], e[i])) != Xor(d[i + 1], e[i + 1])
    ensures Spoilt(d, e)
  {
    hide Step, Xor;
    assert Near(d, e, i);
  }

  lemma SextetsDiffer(c: char, c1: char)
    requires SymbolIndex(c) >= 0 && SymbolIndex(c1) >= 0 && c != c1
    ensures Sextet(c) < 64 && Sextet(c1) < 64 && Sextet(c) != Sextet(c1)
  {
    hide SymbolIndex, Symbol, Sextet;
    SymbolOfSextet(c);
    SymbolOfSextet(c1);
  }

  lemma SextetSmall(c: char)
    requires SymbolIndex(c) >= 0
    ensures Sextet(c) < 64
  {
    SymbolOfSextet(c);
  }

  /** The bytes of the first group, when that group is a whole one. */
  lemma GroupSpoilt(t: seq<char>, k: nat, c: char, rest: seq<bv8>)
    requires k < 4 <= |t| && Valid(t[..4]) && Valid(t[k := c][..4]) && c != t[k]
    ensures var a, b := Triple(t), Triple(t[k := c]);
      Spoilt([a.0, a.1, a.2] + rest, [b.0, b.1, b.2] + rest)
  {
    hide SymbolIndex, Sextet, Step, Xor, FirstByte, SecondByte, ThirdByte, Join, LastOne, LastTwo, Spoilt;
    var u := t[k := c];
    forall i | 0 <= i < 4 ensures SymbolIndex(t[i]) >= 0 && SymbolIndex(u[i]) >= 0 && Sextet(t[i]) < 64 && Sextet(u[i]) < 64 {
      assert t[..4][i] == t[i] && u[..4][i] == u[i];
      SextetSmall(t[i]);
      SextetSmall(u[i]);
    }
    JoinIs(Sextet(t[0]), Sextet(t[1]), Sextet(t[2]), Sextet(t[3]));
    JoinIs(Sextet(u[0]), Sextet(u[1]), Sextet(u[2]), Sextet(u[3]));
    SextetsDiffer(t[k], c);
    var a, b := Triple(t), Triple(u);
    if k == 0 {
      FirstSpoilt(a.0, b.0, a.1, a.2, rest);
    } else if k == 1 {
      var x, y := Sextet(t[1]), Sextet(c);
      SecondChanges(Sextet(t[0]), x, y, Sextet(t[2]));
      SecondSextet(Xor(x, y));
      FirstTwoSpoilt(a.0, b.0, a.1, b.1, a.2, rest);
    } else if k == 2 {
      var x, y := Sextet(t[2]), Sextet(c);
      ThirdChanges(Sextet(t[1]), x, y, Sextet(t[3]));
      ThirdSextet(Xor(x, y));
      LastTwoSpoilt(a.0, a.1, b.1, a.2, b.2, rest);
    } else {
      ThirdSpoilt(a.0, a.1, a.2, b.2, rest);
    }
  }

  lemma FirstSpoilt(x: bv8, x1: bv8, y: bv8, z: bv8, rest: seq<bv8>)
    ensures Spoilt([x, y, z] + rest, [x1, y, z] + rest)
  {
    var d, e := [x, y, z] + rest, [x1, y, z] + rest;
    assert d[1..] == [y, z] + rest == e[1..];
    OneByteSpoilt(d, e, 0);
  }

  lemma FirstTwoSpoilt(x: bv8, x1: bv8, y: bv8, y1: bv8, z: bv8, rest: seq<bv8>)
    requires Step(Xor(x, x1)) != Xor(y, y1)
    ensures Spoilt([x, y, z] + rest, [x1, y1, z] + rest)
  {
    hide Step, Xor;
    var d, e := [x, y, z] + rest, [x1, y1, z] + rest;
    assert d[2..] == [z] + rest == e[2..];
    TwoBytesSpoilt(d, e, 0);
  }

  lemma LastTwoSpoilt(x: bv8, y: bv8, y1: bv8, z: bv8, z1: bv8, rest: seq<bv8>)
    requires Step(Xor(y, y1)) != Xor(z, z1)
    ensures Spoilt([x, y, z] + rest, [x, y1, z1] + rest)
  {
    hide Step, Xor;
    var d, e := [x, y, z] + rest, [x, y1, z1] + rest;
    assert d[..1] == [x] == e[..1] && d[3..] == rest == e[3..];
    TwoBytesSpoilt(d, e, 1);
  }

  lemma ThirdSpoilt(x: bv8, y: bv8, z: bv8, z1: bv8, rest: seq<bv8>)
    ensures Spoilt([x, y, z] + rest, [x, y, z1] + rest)
  {
    var d, e := [x, y, z] + rest, [x, y, z1] + rest;
    assert d[..2] == [x, y] == e[..2] && d[3..] == rest == e[3..];
    OneByteSpoilt(d, e, 2);
  }

  lemma RestSpoilt(t: seq<char>, k: nat, c: char)
    requires 2 <= |t| < 4 && k < |t| && Valid(t) && Valid(t[k := c]) && c != t[k]
    ensures Spoilt(Rest(t), Rest(t[k := c]))
  {
    hide SymbolIndex, Sextet, Step, Xor, FirstByte, SecondByte, ThirdByte, LastOne, LastTwo, Spoilt;
    var u := t[k := c];
    forall i | 0 <= i < |t| ensures SymbolIndex(t[i]) >= 0 && SymbolIndex(u[i]) >= 0 && Sextet(t[i]) < 64 && Sextet(u[i]) < 64 {
      SextetSmall(t[i]);
      SextetSmall(u[i]);
    }
    SextetsDiffer(t[k], c);
    var d, e := Rest(t), Rest(u);
    if |t| == 2 {
      OneByteSpoilt(d, e, 0);
    } else {
      JoinIs(Sextet(t[0]), Sextet(t[1]), Sextet(t[2]), 0);
      JoinIs(Sextet(u[0]), Sextet(u[1]), Sextet(u[2]), 0);
      if k == 0 {
        OneByteSpoilt(d, e, 0);
      } else if k == 1 {
        SecondChanges(Sextet(t[0]), Sextet(t[1]), Sextet(c), Sextet(t[2]));
        SecondSextet(Xor(Sextet(t[1]), Sextet(c)));
        TwoBytesSpoilt(d, e, 0);
      } else {
        OneByteSpoilt(d, e, 1);
      }
    }
  }

  lemma {:induction false} SubstitutionSpoils(t: seq<char>, k: nat, c: char)
    requires k < |t| && c != t[k] && Decoded(t).Some? && Decoded(t[k := c]).Some?
    ensures Spoilt(Decoded(t).value, Decoded(t[k := c]).value)
  {
    hide SymbolIndex, Sextet, Triple, Rest, Spoilt;
    var u := t[k := c];
    if |t| < 4 {
      RestSpoilt(t, k, c);
    } else if k < 4 {
      assert u[4..] == t[4..];
      GroupSpoilt(t, k, c, Decoded(t[4..]).value);
    } else {
      assert u[..4] == t[..4] && u[4..] == t[4..][k - 4 := c];
      SubstitutionSpoils(t[4..], k - 4, c);
      SameTriple(t, u);
      SpoiltLater([Triple(t).0, Triple(t).1, Triple(t).2], Decoded(t[4..]).value, Decoded(u[4..]).value);
    }
  }

  lemma SameTriple(t: seq<char>, u: seq<char>)
    requires |t| >= 4 && |u| >= 4 && t[..4] == u[..4] && Valid(t[..4])
    ensures Triple(t) == Triple(u)
  {
    hide SymbolIndex, Sextet, Join;
    assert t[0] == t[..4][0] == u[0] && t[1] == t[..4][1] == u[1] && t[2] == t[..4][2] == u[2] && t[3] == t[..4][3] == u[3];
  }

  lemma SpoiltLater(head: seq<bv8>, d: seq<bv8>, e: seq<bv8>)
    requires Spoilt(d, e)
    ensures Spoilt(head + d, head + e)
  {
    hide Near;
    if d != e {
      var i :| Near(d, e, i);
      NearLater(head, d, e, i);
    }
  }

  /** The text with one character replaced by another that does not end the string. */
  lemma OneWrongSymbol(text: seq<char>, appId: seq<char>, cap: nat, k: nat, c: char)
    requires |appId| == APP_ID_LEN && HEADER_LEN <= k < |text| && c != text[k]
    requires Parse(text, appId, cap).Accepted?
    ensures var r := Parse(text[k := c], appId, cap);
      && (r == Parse(text, appId, cap) || r == Rejected(InvalidArg) || r == Rejected(InvalidCrc))
      && (r.Accepted? <==> Decoded(text[k := c][HEADER_LEN..]) == Decoded(text[HEADER_LEN..]))
  {
    hide Decoded, Crc8, Spoilt;
    var t, u := text[HEADER_LEN..], text[k := c][HEADER_LEN..];
    assert text[k := c][..3] == text[..3] && text[k := c][3..7] == text[3..7] && text[k := c][7] == text[7];
    assert u == t[k - HEADER_LEN := c];
    DecodesExactly(t);
    DecodesExactly(u);
    if Decoded(u).Some? {
      SubstitutionSpoils(t, k - HEADER_LEN, c);
      var d, e := Decoded(t).value, Decoded(u).value;
      BodyChecks(d);
      BodyChecks(e);
      if d != e {
        SpoiltIsNoticed(d, e);
      }
    }
  }

  /** A text that the decoder takes, whose bytes are their own check. */
  predicate ChecksItself(t: seq<char>) {
    Decoded(t).Some? && Decoded(t).value != [] && Crc8(Decoded(t).value) == 0
  }

  /** An accepted text that is cut short is accepted exactly when what is left of its body checks itself. */
  lemma CutShort(text: seq<char>, appId: seq<char>, cap: nat, k: nat)
    requires |appId| == APP_ID_LEN && HEADER_LEN <= k < |text| && Parse(text, appId, cap).Accepted?
    ensures var r, whole := Parse(text[..k], appId, cap), Parse(text, appId, cap);
      && (r.Accepted? <==> ChecksItself(text[HEADER_LEN..k]))
      && (r.Accepted? ==>
            var d := Decoded(text[HEADER_LEN..k]).value;
            r == Accepted(whole.transport, d[..|d| - 1]) && |r.params| < |whole.params|)
  {
    hide Decoded, Crc8;
    var cut := text[..k];
    assert cut[..3] == text[..3] && cut[3..7] == text[3..7] && cut[7] == text[7] && cut[HEADER_LEN..] == text[HEADER_LEN..k];
    DecodesExactly(text[HEADER_LEN..]);
    DecodesExactly(text[HEADER_LEN..k]);
    if Decoded(text[HEADER_LEN..k]).Some? {
      BodyChecks(Decoded(text[HEADER_LEN..k]).value);
      ShorterDecodes(k - HEADER_LEN, |text| - HEADER_LEN);
    }
  }

  lemma ShorterDecodes(m: nat, n: nat)
    requires m < n && m % 4 != 1 && n % 4 != 1
    ensures DecodedLen(m) < DecodedLen(n)
  {
  }

  /**
   One wrong character in the base64url part of an accepted descriptor. It is noticed, or the body decodes as before,
   unless the character is the NUL that cuts the C string short: that is accepted, with fewer parameters, exactly when
   what is left of the body happens to check itself.
   */
  lemma OneWrongCharacter(text: seq<char>, rest: seq<char>, appId: seq<char>, cap: nat, k: nat, c: char)
    requires |appId| == APP_ID_LEN && '\0' !in text && HEADER_LEN <= k < |text| && c != text[k]
    requires Parse(text, appId, cap).Accepted?
    ensures var buf := (text + ['\0'] + rest)[k := c];
      && '\0' in buf
      && var r, whole := Parse(CString(buf), appId, cap), Parse(text, appId, cap);
      && (c != '\0' ==>
            && (r == whole || r == Rejected(InvalidArg) || r == Rejected(InvalidCrc))
            && (r.Accepted? <==> Decoded(text[k := c][HEADER_LEN..]) == Decoded(text[HEADER_LEN..])))
      && (c == '\0' ==>
            && (r.Accepted? <==> ChecksItself(text[HEADER_LEN..k]))
            && (r.Accepted? ==> r.transport == whole.transport && |r.params| < |whole.params|))
  {
    hide Parse, CString, ChecksItself, Decoded;
    var buf := (text + ['\0'] + rest)[k := c];
    if c != '\0' {
      assert buf == text[k := c] + ['\0'] + rest;
      assert '\0' !in text[k := c];
      CStringOf(text[k := c], rest);
      OneWrongSymbol(text, appId, cap, k, c);
    } else {
      assert buf == text[..k] + ['\0'] + (text[k + 1..] + ['\0'] + rest);
      CStringOf(text[..k], text[k + 1..] + ['\0'] + rest);
      CutShort(text, appId, cap, k);
    }
  }

  /** So it can go wrong: the parameters 0 and p < 16, cut after two symbols, are accepted as no parameters at all. */
  lemma NulGoesUnnoticed(transport: char, appId: seq<char>, p: bv8, rest: seq<char>, cap: nat)
    requires |appId| == APP_ID_LEN && Printable(appId) && transport != '\0' && p & 0xf0 == 0 && cap >= 2
    ensures var buf := Text(transport, appId, [0, p]) + ['\0'] + rest;
      && |buf| > 10 && '\0' in buf && '\0' in buf[10 := '\0']
      && Parse(CString(buf), appId, cap) == Accepted(transport, [0, p])
      && Parse(CString(buf[10 := '\0']), appId, cap) == Accepted(transport, [])
  {
    hide Crc8, CString, Printable, Base64Url;
    var params: seq<bv8> := [0, p];
    var text := Text(transport, appId, params);
    ParseInvertsEncode(transport, appId, params, rest, cap);
    TextHasNoNul(transport, appId, params);
    CStringOf(text, rest);
    TwoSymbols(p, Crc8(params));
    assert Body(params) == [0, p, Crc8(params)];
    assert text[HEADER_LEN..10] == Base64Url(Body(params))[..2];
    CrcOfZero();
    OneWrongCharacter(text, rest, appId, cap, 10, '\0');
    assert (text + ['\0'] + rest)[10 := '\0'] == text[..10] + ['\0'] + (text[11..] + ['\0'] + rest);
    CStringOf(text[..10], text[11..] + ['\0'] + rest);
    CutShort(text, appId, cap, 10);
  }

  lemma CrcOfZero()
    ensures Crc8([0]) == 0
  {
    hide Step, Xor;
    CrcOne(0, 0);
    XorIsZero(0, 0);
    StepOfZero();
  }

  lemma TwoSymbols(p: bv8, crc: bv8)
    requires p & 0xf0 == 0
    ensures |Base64Url([0, p, crc])| == 4 && Decoded(Base64Url([0, p, crc])[..2]) == Some([0])
  {
    hide Symbol, Sextet, SymbolIndex;
    var d := [0, p, crc];
    var (w, x, y, z) := Split(0, p, crc);
    LeadingZeros(p, crc);
    assert d[3..] == [];
    assert Base64Url(d)[..2] == [Symbol(0), Symbol(0)];
    SextetOfSymbol(0);
  }

  lemma LeadingZeros(p: bv8, crc: bv8)
    requires p & 0xf0 == 0
    ensures Split(0, p, crc).0 == 0 && Split(0, p, crc).1 == 0 && LastOne(0, 0) == 0
  {
  }

  lemma SpoiltIsNoticed(d: seq<bv8>, e: seq<bv8>)
    requires Spoilt(d, e) && d != e
    ensures Crc8(d) != Crc8(e)
  {
    hide Near, Crc8;
    var i :| Near(d, e, i);
    NearIsNoticed(d, e, i);
  }

  lemma BodyChecks(d: seq<bv8>)
    ensures d != [] ==> (Crc8(d[..|d| - 1]) == d[|d| - 1] <==> Crc8(d) == 0)
  {
    hide Crc8;
    if d != [] {
      CheckByte(d[..|d| - 1], d[|d| - 1]);
      assert d[..|d| - 1] + [d[|d| - 1]] == d;
    }
  }
}
