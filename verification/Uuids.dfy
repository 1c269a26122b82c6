/** The spellings of a UUID that gofrs/uuid v4.0.0 reads, and the canonical one it prints. */
module Uuids {
  import opened Base

  const DASH: Byte := 45
  const URN: Text := [117, 114, 110, 58, 117, 117, 105, 100, 58]          // "urn:uuid:"

  function DigitOf(c: Byte): Option<Digit> {
    if 48 <= c <= 57 then Some(c - 48)
    else if 97 <= c <= 102 then Some(c - 87)
    else if 65 <= c <= 70 then Some(c - 55)
    else None
  }

  const LOWER := "0123456789abcdef"
  const UPPER := "0123456789ABCDEF"

  /** A character is a digit in either case. */
  lemma DigitExact(c: Byte, d: Digit)
    ensures DigitOf(c) == Some(d) <==> c == LOWER[d] as nat || c == UPPER[d] as nat
  {}

  function DigitsOf(t: Text): Option<seq<Digit>> {
    if t == [] then Some([])
    else
      var d :- DigitOf(t[0]);
      var ds :- DigitsOf(t[1..]);
      Some([d] + ds)
  }

  /** 32 digits. */
  function ReadHash(t: Text): Option<Uuid> {
    if |t| != 32 then None
    else
      var ds :- DigitsOf(t);
      if |ds| == 32 then Some(Uuid(ds)) else None
  }

  /** Digits in groups of 8, 4, 4, 4 and 12 with dashes between. */
  function ReadDashed(t: Text): Option<Uuid> {
    if |t| != 36 || t[8] != DASH || t[13] != DASH || t[18] != DASH || t[23] != DASH then None
    else ReadHash(t[..8] + t[9..13] + t[14..18] + t[19..23] + t[24..])
  }

  function ReadPlain(t: Text): Option<Uuid> {
    if |t| == 32 then ReadHash(t) else ReadDashed(t)
  }

  function ParseUuid(t: Text): Option<Uuid> {
    if |t| == 32 || |t| == 36 then ReadPlain(t)
    else if |t| == 34 || |t| == 38 then
      if t[0] == 123 && t[|t| - 1] == 125 then ReadPlain(t[1..|t| - 1]) else None
    else if |t| == 41 || |t| == 45 then
      if t[..9] == URN then ReadPlain(t[9..]) else None
    else None
  }

  function DigitChar(d: Digit): (c: Byte)
    ensures c == LOWER[d] as nat
  {
    if d < 10 then 48 + d else 87 + d
  }

  function HashText(u: Uuid): Text {
    seq(32, i requires 0 <= i < 32 => DigitChar(u.digits[i]))
  }

  function Dashed(h: Text): Text
    requires |h| == 32
  {
    h[..8] + [DASH] + h[8..12] + [DASH] + h[12..16] + [DASH] + h[16..20] + [DASH] + h[20..]
  }

  /** The canonical spelling, which the service puts into comments. */
  function PrintUuid(u: Uuid): Text { Dashed(HashText(u)) }

  // ---- Round trip and all spellings ----

  lemma {:induction false} DigitsAt(t: Text)
    ensures DigitsOf(t).Some? <==> forall i :: 0 <= i < |t| ==> DigitOf(t[i]).Some?
    ensures DigitsOf(t).Some? ==>
      |DigitsOf(t).value| == |t| && forall i :: 0 <= i < |t| ==> DigitOf(t[i]) == Some(DigitsOf(t).value[i])
  {
    hide DigitOf;
    if t != [] {
      DigitsAt(t[1..]);
      assert forall i :: 0 < i < |t| ==> t[i] == t[1..][i - 1];
      assert t == [t[0]] + t[1..];
    }
  }

  /** What 32 characters spell, in either case. */
  predicate Spells(h: Text, u: Uuid) {
    |h| == 32 && forall i :: 0 <= i < 32 ==> DigitOf(h[i]) == Some(u.digits[i])
  }

  lemma ReadHashExact(h: Text, u: Uuid)
    ensures ReadHash(h) == Some(u) <==> Spells(h, u)
  {
    hide DigitOf, DigitsOf;
    DigitsAt(h);
    if Spells(h, u) { assert DigitsOf(h).value == u.digits; }
  }

  lemma DashedParts(h: Text)
    requires |h| == 32
    ensures |Dashed(h)| == 36 && ReadDashed(Dashed(h)) == ReadHash(h)
  {
    hide ReadHash;
    var t := Dashed(h);
    assert t[..8] == h[..8] && t[9..13] == h[8..12] && t[14..18] == h[12..16] && t[19..23] == h[16..20];
    assert t[24..] == h[20..];
    assert h == h[..8] + h[8..12] + h[12..16] + h[16..20] + h[20..];
  }

  function Undashed(t: Text): Text
    requires |t| == 36
  {
    t[..8] + t[9..13] + t[14..18] + t[19..23] + t[24..]
  }

  lemma UndashedParts(t: Text)
    requires |t| == 36 && t[8] == t[13] == t[18] == t[23] == DASH
    ensures |Undashed(t)| == 32 && Dashed(Undashed(t)) == t
  {
    var h := Undashed(t);
    assert h[..8] == t[..8] && h[8..12] == t[9..13] && h[12..16] == t[14..18] && h[16..20] == t[19..23];
    assert h[20..] == t[24..];
    assert t == t[..8] + [t[8]] + t[9..13] + [t[13]] + t[14..18] + [t[18]] + t[19..23] + [t[23]] + t[24..];
  }

  /** Digits alone, or with dashes. */
  ghost predicate PlainSpelling(t: Text, u: Uuid) {
    exists h :: Spells(h, u) && (t == h || t == Dashed(h))
  }

  lemma ReadPlainExact(t: Text, u: Uuid)
    ensures ReadPlain(t) == Some(u) <==> PlainSpelling(t, u)
  {
    hide ReadHash, DigitOf, Dashed;
    if h :| Spells(h, u) && (t == h || t == Dashed(h)) {
      DashedParts(h);
      ReadHashExact(h, u);
    }
    if ReadPlain(t) == Some(u) {
      if |t| == 32 {
        ReadHashExact(t, u);
      } else {
        UndashedParts(t);
        ReadHashExact(Undashed(t), u);
      }
    }
  }

  /** A text is read as a UUID if and only if it spells it plainly, in braces, or as a URN. */
  lemma ParseUuidExact(t: Text, u: Uuid)
    ensures ParseUuid(t) == Some(u) <==>
      exists p :: PlainSpelling(p, u) && (t == p || t == [123] + p + [125] || t == URN + p)
  {
    hide ReadPlain, PlainSpelling;
    if p :| PlainSpelling(p, u) && (t == p || t == [123] + p + [125] || t == URN + p) {
      PlainLength(p, u);
      ReadPlainExact(p, u);
      if t == [123] + p + [125] { assert t[1..|t| - 1] == p; }
      if t == URN + p { assert t[..9] == URN && t[9..] == p; }
    }
    if ParseUuid(t) == Some(u) {
      var p := if |t| == 32 || |t| == 36 then t else if |t| == 34 || |t| == 38 then t[1..|t| - 1] else t[9..];
      ReadPlainExact(p, u);
      if |t| == 34 || |t| == 38 { assert t == [123] + p + [125]; }
      if |t| == 41 || |t| == 45 { assert t == t[..9] + t[9..]; }
    }
  }

  lemma PlainLength(p: Text, u: Uuid)
    requires PlainSpelling(p, u)
    ensures |p| == 32 || |p| == 36
  {}

  /** The spelling the service prints reads back. */
  lemma UuidRoundTrip(u: Uuid)
    ensures ParseUuid(PrintUuid(u)) == Some(u)
  {
    hide ReadHash, Dashed;
    var h := HashText(u);
    assert Spells(h, u);
    ReadHashExact(h, u);
    DashedParts(h);
  }

  /** So different UUIDs are printed differently. */
  lemma PrintsApart(u: Uuid, v: Uuid)
    ensures PrintUuid(u) == PrintUuid(v) ==> u == v
  {
    hide PrintUuid, ParseUuid;
    UuidRoundTrip(u);
    UuidRoundTrip(v);
  }
}
