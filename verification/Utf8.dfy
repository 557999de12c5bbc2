/** The UTF-8 codec, against the grammar of RFC 3629. */
module Utf8 {
  import opened Values

  type Octet = bv8
  type CodePoint = bv32

  datatype Error = NotEnoughRoom | InvalidLead | IncompleteSequence | OverlongSequence | InvalidCodePoint

  /** The code point at a position and the position behind it, or why there is none. */
  datatype Result = Ok(cp: CodePoint, next: nat) | Err(error: Error)

  predicate IsTrail(b: Octet) {
    b >> 6 == 2
  }

  predicate IsSurrogate(cp: CodePoint) {
    0xd800 <= cp <= 0xdfff
  }

  predicate IsCodePointValid(cp: CodePoint) {
    cp <= 0x10ffff && !IsSurrogate(cp)
  }

  function SequenceLength(lead: Octet): nat {
    if lead < 0x80 then 1
    else if lead >> 5 == 0x6 then 2
    else if lead >> 4 == 0xe then 3
    else if lead >> 3 == 0x1e then 4
    else 0
  }

  predicate IsOverlongSequence(cp: CodePoint, length: nat) {
    if cp < 0x80 then length != 1
    else if cp < 0x800 then length != 2
    else if cp < 0x10000 then length != 3
    else false
  }

  function Wide(b: Octet): CodePoint {
    b as bv32
  }

  /** The bits of a two, three and four octet sequence put together. */
  function Bits2(a: Octet, b: Octet): CodePoint {
    ((Wide(a) << 6) & 0x7ff) + (Wide(b) & 0x3f)
  }

  function Bits3(a: Octet, b: Octet, c: Octet): CodePoint {
    ((Wide(a) << 12) & 0xffff) + ((Wide(b) << 6) & 0xfff) + (Wide(c) & 0x3f)
  }

  function Bits4(a: Octet, b: Octet, c: Octet, d: Octet): CodePoint {
    ((Wide(a) << 18) & 0x1fffff) + ((Wide(b) << 12) & 0x3ffff) + ((Wide(c) << 6) & 0xfff) + (Wide(d) & 0x3f)
  }

  /** The error of stepping from octet `i - 1` to octet `i`, if any. */
  function Increase(s: seq<Octet>, i: nat, end: nat): Option<Error>
    requires end <= |s|
  {
    if i >= end then Some(NotEnoughRoom) else if !IsTrail(s[i]) then Some(IncompleteSequence) else None
  }

  /** Reads a sequence of the given length starting at `it`, without checking what it stands for. */
  function GetSequence(s: seq<Octet>, it: nat, end: nat, length: nat): Result
    requires it < end <= |s| && 1 <= length <= 4
  {
    if length == 1 then Ok(Wide(s[it]), it + 1)
    else if Increase(s, it + 1, end).Some? then Err(Increase(s, it + 1, end).value)
    else if length == 2 then Ok(Bits2(s[it], s[it + 1]), it + 2)
    else if Increase(s, it + 2, end).Some? then Err(Increase(s, it + 2, end).value)
    else if length == 3 then Ok(Bits3(s[it], s[it + 1], s[it + 2]), it + 3)
    else if Increase(s, it + 3, end).Some? then Err(Increase(s, it + 3, end).value)
    else Ok(Bits4(s[it], s[it + 1], s[it + 2], s[it + 3]), it + 4)
  }

  function ValidateNext(s: seq<Octet>, it: nat, end: nat): (r: Result)
    requires it < end <= |s|
    ensures r.Ok? ==> it < r.next <= end
  {
    var length := SequenceLength(s[it]);
    if length == 0 then Err(InvalidLead)
    else
      match GetSequence(s, it, end, length)
      case Err(e) => Err(e)
      case Ok(cp, next) =>
        if !IsCodePointValid(cp) then Err(InvalidCodePoint)
        else if IsOverlongSequence(cp, length) then Err(OverlongSequence)
        else Ok(cp, next)
  }

  /** The octets of a valid code point. */
  function Encode(cp: CodePoint): seq<Octet>
    requires IsCodePointValid(cp)
  {
    if cp < 0x80 then [cp as bv8]
    else if cp < 0x800 then [((cp >> 6) | 0xc0) as bv8, ((cp & 0x3f) | 0x80) as bv8]
    else if cp < 0x10000 then
      [((cp >> 12) | 0xe0) as bv8, (((cp >> 6) & 0x3f) | 0x80) as bv8, ((cp & 0x3f) | 0x80) as bv8]
    else
      [((cp >> 18) | 0xf0) as bv8, (((cp >> 12) & 0x3f) | 0x80) as bv8, (((cp >> 6) & 0x3f) | 0x80) as bv8,
       ((cp & 0x3f) | 0x80) as bv8]
  }

  // ----- the grammar of section 4 of RFC 3629 -----

  predicate Tail(b: Octet) {
    0x80 <= b <= 0xbf
  }

  predicate OneOctet(s: seq<Octet>) {
    |s| == 1 && s[0] <= 0x7f
  }

  predicate TwoOctets(s: seq<Octet>) {
    |s| == 2 && 0xc2 <= s[0] <= 0xdf && Tail(s[1])
  }

  predicate ThreeOctets(s: seq<Octet>) {
    |s| == 3 && Tail(s[2]) &&
    ((s[0] == 0xe0 && 0xa0 <= s[1] <= 0xbf) || (0xe1 <= s[0] <= 0xec && Tail(s[1])) ||
     (s[0] == 0xed && 0x80 <= s[1] <= 0x9f) || (0xee <= s[0] <= 0xef && Tail(s[1])))
  }

  predicate FourOctets(s: seq<Octet>) {
    |s| == 4 && Tail(s[2]) && Tail(s[3]) &&
    ((s[0] == 0xf0 && 0x90 <= s[1] <= 0xbf) || (0xf1 <= s[0] <= 0xf3 && Tail(s[1])) ||
     (s[0] == 0xf4 && 0x80 <= s[1] <= 0x8f))
  }

  /** One character of the grammar. */
  predicate Character(s: seq<Octet>) {
    OneOctet(s) || TwoOctets(s) || ThreeOctets(s) || FourOctets(s)
  }

  // ----- one character -----

  lemma Accept2(a: Octet, b: Octet)
    requires a >> 5 == 0x6 && IsTrail(b)
    ensures var cp := Bits2(a, b);
      IsCodePointValid(cp) && (!IsOverlongSequence(cp, 2) <==> 0xc2 <= a <= 0xdf && Tail(b)) &&
      (!IsOverlongSequence(cp, 2) ==> Encode(cp) == [a, b])
  {
  }

  lemma Accept3(a: Octet, b: Octet, c: Octet)
    requires a >> 4 == 0xe && IsTrail(b) && IsTrail(c)
    ensures var cp := Bits3(a, b, c);
      (IsCodePointValid(cp) && !IsOverlongSequence(cp, 3) <==> ThreeOctets([a, b, c])) &&
      (IsCodePointValid(cp) && !IsOverlongSequence(cp, 3) ==> Encode(cp) == [a, b, c])
  {
  }

  function Or4(a: CodePoint, b: CodePoint, c: CodePoint, d: CodePoint): CodePoint {
    a | b | c | d
  }

  /** The four parts do not overlap, so adding them is or-ing them. */
  lemma Bits4Or(a: Octet, b: Octet, c: Octet, d: Octet)
    ensures Bits4(a, b, c, d) ==
      Or4((Wide(a) << 18) & 0x1c0000, (Wide(b) & 0x3f) << 12, (Wide(c) & 0x3f) << 6, Wide(d) & 0x3f)
  {
  }

  lemma Accept4Valid(a: Octet, b: Octet, c: Octet, d: Octet, cp: CodePoint)
    requires a >> 3 == 0x1e && IsTrail(b) && IsTrail(c) && IsTrail(d)
    requires cp == Or4((Wide(a) << 18) & 0x1c0000, (Wide(b) & 0x3f) << 12, (Wide(c) & 0x3f) << 6, Wide(d) & 0x3f)
    ensures IsCodePointValid(cp) && !IsOverlongSequence(cp, 4) <==> FourOctets([a, b, c, d])
  {
  }

  lemma Parts4(x: CodePoint, y: CodePoint, z: CodePoint, w: CodePoint)
    requires x <= 7 && y <= 0x3f && z <= 0x3f && w <= 0x3f
    ensures var cp := (x << 18) | (y << 12) | (z << 6) | w;
      cp >> 18 == x && (cp >> 12) & 0x3f == y && (cp >> 6) & 0x3f == z && cp & 0x3f == w
  {
  }

  lemma LeadAgain(a: Octet)
    requires a >> 3 == 0x1e
    ensures (Wide(a) << 18) & 0x1c0000 == (Wide(a) & 7) << 18 && Wide(a) & 7 <= 7
    ensures ((Wide(a) & 7) | 0xf0) <= 0xff && ((Wide(a) & 7) | 0xf0) as bv8 == a
  {
  }

  lemma TrailAgain(b: Octet)
    requires IsTrail(b)
    ensures Wide(b) & 0x3f <= 0x3f && ((Wide(b) & 0x3f) | 0x80) <= 0xff && ((Wide(b) & 0x3f) | 0x80) as bv8 == b
  {
  }

  lemma Accept4Encode(a: Octet, b: Octet, c: Octet, d: Octet, cp: CodePoint)
    requires a >> 3 == 0x1e && IsTrail(b) && IsTrail(c) && IsTrail(d)
    requires cp == ((Wide(a) << 18) & 0x1c0000) | ((Wide(b) & 0x3f) << 12) | ((Wide(c) & 0x3f) << 6) | (Wide(d) & 0x3f)
    requires IsCodePointValid(cp) && cp >= 0x10000
    ensures Encode(cp) == [a, b, c, d]
  {
    hide IsTrail, Wide;
    LeadAgain(a);
    TrailAgain(b);
    TrailAgain(c);
    TrailAgain(d);
    Parts4(Wide(a) & 7, Wide(b) & 0x3f, Wide(c) & 0x3f, Wide(d) & 0x3f);
  }

  lemma Accept4(a: Octet, b: Octet, c: Octet, d: Octet)
    requires a >> 3 == 0x1e && IsTrail(b) && IsTrail(c) && IsTrail(d)
    ensures var cp := Bits4(a, b, c, d);
      (IsCodePointValid(cp) && !IsOverlongSequence(cp, 4) <==> FourOctets([a, b, c, d])) &&
      (IsCodePointValid(cp) && !IsOverlongSequence(cp, 4) ==> Encode(cp) == [a, b, c, d])
  {
    hide Bits4, FourOctets, IsCodePointValid, IsTrail, Encode;
    var cp := Bits4(a, b, c, d);
    Bits4Or(a, b, c, d);
    Accept4Valid(a, b, c, d, cp);
    if IsCodePointValid(cp) && cp >= 0x10000 {
      Accept4Encode(a, b, c, d, cp);
    }
  }

  lemma Length2(a: Octet, b: Octet, cp: CodePoint)
    requires 0x80 <= cp < 0x800 && a == ((cp >> 6) | 0xc0) as bv8 && b == ((cp & 0x3f) | 0x80) as bv8
    ensures SequenceLength(a) == 2 && IsTrail(b) && Bits2(a, b) == cp
  {
  }

  lemma Length3(a: Octet, b: Octet, c: Octet, cp: CodePoint)
    requires 0x800 <= cp < 0x10000 && a == ((cp >> 12) | 0xe0) as bv8
    requires b == (((cp >> 6) & 0x3f) | 0x80) as bv8 && c == ((cp & 0x3f) | 0x80) as bv8
    ensures SequenceLength(a) == 3 && IsTrail(b) && IsTrail(c) && Bits3(a, b, c) == cp
  {
  }

  lemma LeadBits(x: CodePoint)
    requires x <= 7
    ensures (x | 0xf0) <= 0xff
    ensures var a := (x | 0xf0) as bv8; SequenceLength(a) == 4 && (Wide(a) << 18) & 0x1c0000 == x << 18
  {
  }

  lemma TrailBits(y: CodePoint)
    requires y <= 0x3f
    ensures (y | 0x80) <= 0xff
    ensures var b := (y | 0x80) as bv8; IsTrail(b) && Wide(b) & 0x3f == y
  {
  }

  lemma Reassemble(cp: CodePoint)
    requires cp <= 0x10ffff
    ensures cp >> 18 <= 7 && (cp >> 12) & 0x3f <= 0x3f && (cp >> 6) & 0x3f <= 0x3f && cp & 0x3f <= 0x3f
    ensures Or4((cp >> 18) << 18, ((cp >> 12) & 0x3f) << 12, ((cp >> 6) & 0x3f) << 6, cp & 0x3f) == cp
  {
  }

  lemma Length4(x: CodePoint, y: CodePoint, z: CodePoint, w: CodePoint)
    requires x <= 7 && y <= 0x3f && z <= 0x3f && w <= 0x3f
    ensures (x | 0xf0) <= 0xff && (y | 0x80) <= 0xff && (z | 0x80) <= 0xff && (w | 0x80) <= 0xff
    ensures var a, b, c, d := (x | 0xf0) as bv8, (y | 0x80) as bv8, (z | 0x80) as bv8, (w | 0x80) as bv8;
      SequenceLength(a) == 4 && IsTrail(b) && IsTrail(c) && IsTrail(d) && Bits4(a, b, c, d) ==
          Or4(x << 18, y << 12, z << 6, w)
  {
    hide Bits4, IsTrail, SequenceLength, Wide, Or4;
    LeadBits(x);
    TrailBits(y);
    TrailBits(z);
    TrailBits(w);
    Bits4Or((x | 0xf0) as bv8, (y | 0x80) as bv8, (z | 0x80) as bv8, (w | 0x80) as bv8);
  }

  /** The octets announce their number, and their bits are the code point. */
  predicate Spells(e: seq<Octet>, cp: CodePoint) {
    1 <= |e| <= 4 && SequenceLength(e[0]) == |e| && (forall k :: 1 <= k < |e| ==> IsTrail(e[k])) &&
    cp == if |e| == 1 then Wide(e[0])
          else if |e| == 2 then Bits2(e[0], e[1])
          else if |e| == 3 then Bits3(e[0], e[1], e[2])
          else Bits4(e[0], e[1], e[2], e[3])
  }

  lemma SpellsShort(cp: CodePoint)
    requires IsCodePointValid(cp) && cp < 0x800
    ensures Spells(Encode(cp), cp) && !IsOverlongSequence(cp, |Encode(cp)|)
  {
    hide Bits2, Bits3, Bits4, IsTrail;
    var e := Encode(cp);
    if cp < 0x80 {
      assert e[0] == cp as bv8;
      OneAgain(cp);
    } else {
      Length2(e[0], e[1], cp);
    }
  }

  lemma SpellsThree(cp: CodePoint)
    requires IsCodePointValid(cp) && 0x800 <= cp < 0x10000
    ensures Spells(Encode(cp), cp) && !IsOverlongSequence(cp, |Encode(cp)|)
  {
    hide Bits2, Bits3, Bits4, IsTrail;
    var e := Encode(cp);
    Length3(e[0], e[1], e[2], cp);
  }

  function Octets4(x: CodePoint, y: CodePoint, z: CodePoint, w: CodePoint): seq<Octet>
    requires x <= 7 && y <= 0x3f && z <= 0x3f && w <= 0x3f
  {
    [(x | 0xf0) as bv8, (y | 0x80) as bv8, (z | 0x80) as bv8, (w | 0x80) as bv8]
  }

  lemma SpellsParts(x: CodePoint, y: CodePoint, z: CodePoint, w: CodePoint)
    requires x <= 7 && y <= 0x3f && z <= 0x3f && w <= 0x3f
    ensures Spells(Octets4(x, y, z, w), Or4(x << 18, y << 12, z << 6, w))
  {
    hide Bits4, IsTrail, Or4, SequenceLength;
    Length4(x, y, z, w);
  }

  /** The four groups of bits of a code point. */
  lemma FourParts(cp: CodePoint) returns (x: CodePoint, y: CodePoint, z: CodePoint, w: CodePoint)
    requires IsCodePointValid(cp) && cp >= 0x10000
    ensures x <= 7 && y <= 0x3f && z <= 0x3f && w <= 0x3f
    ensures Encode(cp) == Octets4(x, y, z, w) && |Encode(cp)| == 4 && Or4(x << 18, y << 12, z << 6, w) == cp
  {
    x, y, z, w := cp >> 18, (cp >> 12) & 0x3f, (cp >> 6) & 0x3f, cp & 0x3f;
    Reassemble(cp);
  }

  lemma SpellsGlue(e: seq<Octet>, o: seq<Octet>, cp: CodePoint, v: CodePoint)
    requires e == o && cp == v && Spells(o, v)
    ensures Spells(e, cp)
  {
  }

  lemma SpellsWhole(cp: CodePoint, x: CodePoint, y: CodePoint, z: CodePoint, w: CodePoint)
    requires x <= 7 && y <= 0x3f && z <= 0x3f && w <= 0x3f
    requires IsCodePointValid(cp) && Encode(cp) == Octets4(x, y, z, w) && Or4(x << 18, y << 12, z << 6, w) == cp
    ensures Spells(Encode(cp), cp)
  {
    hide *;
    SpellsParts(x, y, z, w);
    SpellsGlue(Encode(cp), Octets4(x, y, z, w), cp, Or4(x << 18, y << 12, z << 6, w));
  }

  lemma SpellsFour(cp: CodePoint)
    requires IsCodePointValid(cp) && cp >= 0x10000
    ensures Spells(Encode(cp), cp) && !IsOverlongSequence(cp, |Encode(cp)|)
  {
    hide *;
    var x, y, z, w := FourParts(cp);
    SpellsWhole(cp, x, y, z, w);
    NotOverlong(cp);
  }

  lemma NotOverlong(cp: CodePoint)
    requires cp >= 0x10000
    ensures !IsOverlongSequence(cp, 4)
  {
  }

  lemma EncodeSpells(cp: CodePoint)
    requires IsCodePointValid(cp)
    ensures Spells(Encode(cp), cp) && !IsOverlongSequence(cp, |Encode(cp)|)
  {
    hide Spells, Encode, IsOverlongSequence;
    if cp < 0x800 {
      SpellsShort(cp);
    } else if cp < 0x10000 {
      SpellsThree(cp);
    } else {
      SpellsFour(cp);
    }
  }

  /** Decoding what was encoded. */
  lemma DecodeEncoded(s: seq<Octet>, it: nat, end: nat, cp: CodePoint)
    requires IsCodePointValid(cp) && end <= |s| && it + |Encode(cp)| <= end && s[it..it + |Encode(cp)|] == Encode(cp)
    ensures |Encode(cp)| >= 1 && ValidateNext(s, it, end) == Ok(cp, it + |Encode(cp)|)
  {
    hide Bits2, Bits3, Bits4, IsTrail, Encode, SequenceLength, Wide, IsOverlongSequence, IsCodePointValid;
    var e := Encode(cp);
    EncodeSpells(cp);
    forall k | 0 <= k < |e| ensures s[it + k] == e[k] {
      assert s[it..it + |e|][k] == s[it + k];
    }
    assert s[it] == e[0] && (|e| > 1 ==> s[it + 1] == e[1]) && (|e| > 2 ==> s[it + 2] == e[2]) &&
        (|e| > 3 ==> s[it + 3] == e[3]);
  }

  lemma OneAgain(cp: CodePoint)
    requires cp < 0x80
    ensures SequenceLength(cp as bv8) == 1 && Wide(cp as bv8) == cp
  {
  }

  lemma LeadKinds(a: Octet)
    ensures SequenceLength(a) == 1 <==> a <= 0x7f
    ensures SequenceLength(a) == 2 ==> a >> 5 == 0x6
    ensures SequenceLength(a) == 3 ==> a >> 4 == 0xe
    ensures SequenceLength(a) == 4 ==> a >> 3 == 0x1e
    ensures 0xc2 <= a <= 0xdf ==> SequenceLength(a) == 2
    ensures 0xe0 <= a <= 0xef ==> SequenceLength(a) == 3
    ensures 0xf0 <= a <= 0xf4 ==> SequenceLength(a) == 4
    ensures IsTrail(a) <==> Tail(a)
  {
  }

  lemma OneOctetValue(a: Octet)
    requires a <= 0x7f
    ensures IsCodePointValid(Wide(a)) && !IsOverlongSequence(Wide(a), 1) && Encode(Wide(a)) == [a]
  {
  }

  /** What is accepted is one character of the grammar, and it is the encoding of the code point. */
  lemma AcceptedIsCharacter(s: seq<Octet>, it: nat, end: nat)
    requires it < end <= |s| && ValidateNext(s, it, end).Ok?
    ensures var r := ValidateNext(s, it, end);
      IsCodePointValid(r.cp) && Character(s[it..r.next]) && Encode(r.cp) == s[it..r.next]
  {
    hide Bits2, Bits3, Bits4, Wide, IsCodePointValid, IsOverlongSequence, Encode, IsTrail;
    LeadKinds(s[it]);
    var r := ValidateNext(s, it, end);
    var w := s[it..r.next];
    if SequenceLength(s[it]) == 1 {
      OneOctetValue(s[it]);
      assert w == [s[it]];
    } else if SequenceLength(s[it]) == 2 {
      Accept2(s[it], s[it + 1]);
      assert w == [s[it], s[it + 1]];
    } else if SequenceLength(s[it]) == 3 {
      Accept3(s[it], s[it + 1], s[it + 2]);
      assert w == [s[it], s[it + 1], s[it + 2]];
    } else {
      Accept4(s[it], s[it + 1], s[it + 2], s[it + 3]);
      assert w == [s[it], s[it + 1], s[it + 2], s[it + 3]];
    }
  }

  /** Every character of the grammar is accepted, as a whole. */
  lemma CharacterIsAccepted(s: seq<Octet>, it: nat, n: nat, end: nat)
    requires it < n <= end <= |s| && Character(s[it..n])
    ensures ValidateNext(s, it, end).Ok? && ValidateNext(s, it, end).next == n
  {
    hide Bits2, Bits3, Bits4, Wide, IsCodePointValid, IsOverlongSequence, Encode, IsTrail;
    var w := s[it..n];
    forall k | 0 <= k < |w| ensures w[k] == s[it + k] {
    }
    LeadKinds(s[it]);
    if |w| == 1 {
      OneOctetValue(s[it]);
    } else if |w| == 2 {
      LeadKinds(s[it + 1]);
      Accept2(s[it], s[it + 1]);
    } else if |w| == 3 {
      LeadKinds(s[it + 1]);
      LeadKinds(s[it + 2]);
      assert w == [s[it], s[it + 1], s[it + 2]];
      Accept3(s[it], s[it + 1], s[it + 2]);
    } else {
      LeadKinds(s[it + 1]);
      LeadKinds(s[it + 2]);
      LeadKinds(s[it + 3]);
      assert w == [s[it], s[it + 1], s[it + 2], s[it + 3]];
      Accept4(s[it], s[it + 1], s[it + 2], s[it + 3]);
    }
  }

  // ----- why a position is not valid -----

  /** How many octets the first one announces; 0 if no sequence begins with it. */
  function Announced(lead: Octet): nat {
    if lead <= 0x7f then 1
    else if 0xc0 <= lead <= 0xdf then 2
    else if 0xe0 <= lead <= 0xef then 3
    else if 0xf0 <= lead <= 0xf7 then 4
    else 0
  }

  /** The octet at `it` and the `n - 1` behind it are there, and those continue the sequence. */
  predicate Continues(s: seq<Octet>, it: nat, end: nat, n: nat)
    requires end <= |s|
  {
    (n > 0 ==> it + n <= end) && forall j :: it < j < it + n ==> Tail(s[j])
  }

  /** The octets of a surrogate, or of more than 0x10ffff. */
  predicate NoCharacter(w: seq<Octet>) {
    |w| >= 3 &&
    ((w[0] == 0xed && w[1] >= 0xa0) || (w[0] == 0xf0 && w[1] == 0x8d && w[2] >= 0xa0) ||
     (w[0] == 0xf4 && w[1] >= 0x90) || w[0] > 0xf4)
  }

  /** More octets than the code point needs. */
  predicate Overlong(w: seq<Octet>) {
    |w| >= 2 && (w[0] <= 0xc1 || (w[0] == 0xe0 && w[1] < 0xa0) || (w[0] == 0xf0 && w[1] < 0x90))
  }

  lemma LeadAnnounces(a: Octet)
    ensures SequenceLength(a) == Announced(a)
    ensures IsTrail(a) <==> Tail(a)
  {
  }

  lemma Reason2(a: Octet, b: Octet)
    requires Announced(a) == 2 && Tail(b)
    ensures var cp := Bits2(a, b); IsCodePointValid(cp) && (IsOverlongSequence(cp, 2) <==> Overlong([a, b]))
  {
  }

  lemma Reason3(a: Octet, b: Octet, c: Octet)
    requires Announced(a) == 3 && Tail(b) && Tail(c)
    ensures var cp := Bits3(a, b, c);
      (IsCodePointValid(cp) <==> !NoCharacter([a, b, c])) && (IsOverlongSequence(cp, 3) <==> Overlong([a, b, c]))
  {
  }

  lemma Reason4(a: Octet, b: Octet, c: Octet, d: Octet)
    requires Announced(a) == 4 && Tail(b) && Tail(c) && Tail(d)
    ensures var cp := Bits4(a, b, c, d);
      (IsCodePointValid(cp) <==> !NoCharacter([a, b, c, d])) && (IsOverlongSequence(cp, 4) <==> Overlong([a, b, c, d]))
  {
    Bits4Or(a, b, c, d);
  }

  /**
   * Why there is no character at a position, read off the octets: a first octet that announces nothing; the end
   * or a foreign octet where the sequence should go on; or a whole sequence that stands for no character, or
   * is too long for the one it stands for.
   */
  lemma Reasons(s: seq<Octet>, it: nat, end: nat)
    requires it < end <= |s|
    ensures var r, n := ValidateNext(s, it, end), Announced(s[it]);
      && (r == Err(InvalidLead) <==> n == 0)
      && (r == Err(NotEnoughRoom) <==> end < it + n && Continues(s, it, end, end - it))
      && (r == Err(IncompleteSequence) <==>
            exists k :: 0 < k < n && it + k < end && !Tail(s[it + k]) && Continues(s, it, end, k))
      && (r == Err(InvalidCodePoint) <==>
            n > 0 && Continues(s, it, end, n) && NoCharacter(s[it..it + n]))
      && (r == Err(OverlongSequence) <==>
            n > 0 && Continues(s, it, end, n) && !NoCharacter(s[it..it + n]) &&
            Overlong(s[it..it + n]))
  {
    hide Bits2, Bits3, Bits4, Wide, IsCodePointValid, IsOverlongSequence, IsTrail, SequenceLength, NoCharacter,
      Overlong;
    LeadAnnounces(s[it]);
    TrailIsTail();
    var n := Announced(s[it]);
    var k := Reaches(s, it, end, n);
    Stops(s, it, end, n, k);
    if k < n {
    } else if n == 1 {
      OneOctetValue(s[it]);
      NotLong(s[it..it + 1]);
    } else if n == 2 {
      Reason2(s[it], s[it + 1]);
      NotLong(s[it..it + 2]);
      assert s[it..it + 2] == [s[it], s[it + 1]];
    } else if n == 3 {
      Reason3(s[it], s[it + 1], s[it + 2]);
      assert s[it..it + 3] == [s[it], s[it + 1], s[it + 2]];
    } else if n == 4 {
      Reason4(s[it], s[it + 1], s[it + 2], s[it + 3]);
      assert s[it..it + 4] == [s[it], s[it + 1], s[it + 2], s[it + 3]];
    }
  }

  /** Exactly one place is the first where the sequence does not go on. */
  lemma Stops(s: seq<Octet>, it: nat, end: nat, n: nat, k: nat)
    requires it < end <= |s| && k <= n && Continues(s, it, end, k) && (n > 0 ==> k > 0)
    requires k < n ==> it + k >= end || !Tail(s[it + k])
    ensures Continues(s, it, end, n) <==> k == n
    ensures end < it + n && Continues(s, it, end, end - it) <==> k < n && it + k >= end
    ensures (exists i :: 0 < i < n && it + i < end && !Tail(s[it + i]) && Continues(s, it, end, i)) <==>
            k < n && it + k < end
  {
    if k < n {
      if i :| 0 < i < n && it + i < end && !Tail(s[it + i]) && Continues(s, it, end, i) {
        assert i == k;
      }
    }
  }

  lemma TrailIsTail()
    ensures forall b :: IsTrail(b) <==> Tail(b)
  {
  }

  lemma NotLong(w: seq<Octet>)
    requires 0 < |w| <= 2
    ensures !NoCharacter(w) && (|w| == 1 ==> !Overlong(w))
  {
  }

  /** How far the sequence goes on. */
  function Reaches(s: seq<Octet>, it: nat, end: nat, n: nat): (k: nat)
    requires it < end <= |s| && n <= 4
    ensures k <= n && Continues(s, it, end, k)
    ensures 0 < k < n ==> it + k >= end || !Tail(s[it + k])
    ensures n > 0 ==> k > 0
  {
    if n == 0 then 0
    else if n == 1 || it + 1 >= end || !Tail(s[it + 1]) then 1
    else if n == 2 || it + 2 >= end || !Tail(s[it + 2]) then 2
    else if n == 3 || it + 3 >= end || !Tail(s[it + 3]) then 3
    else 4
  }

  // ----- strings -----

  predicate AllValid(cps: seq<CodePoint>) {
    forall i :: 0 <= i < |cps| ==> IsCodePointValid(cps[i])
  }

  function EncodeAll(cps: seq<CodePoint>): seq<Octet>
    requires AllValid(cps)
  {
    if |cps| == 0 then [] else Encode(cps[0]) + EncodeAll(cps[1..])
  }

  /** Decodes from `it` to the end, or None at the first position that is not valid. */
  function DecodeFrom(s: seq<Octet>, it: nat): Option<seq<CodePoint>>
    requires it <= |s|
    decreases |s| - it
  {
    if it == |s| then Some([])
    else
      match ValidateNext(s, it, |s|)
      case Err(_) => None
      case Ok(cp, next) =>
        match DecodeFrom(s, next)
        case None => None
        case Some(rest) => Some([cp] + rest)
  }

  /** The first position at or after `it` where decoding fails; the end if there is none. */
  function InvalidFrom(s: seq<Octet>, it: nat): (r: nat)
    requires it <= |s|
    ensures it <= r <= |s|
    decreases |s| - it
  {
    if it == |s| then it
    else if ValidateNext(s, it, |s|).Err? then it
    else InvalidFrom(s, ValidateNext(s, it, |s|).next)
  }

  lemma EncodeShort(cp: CodePoint)
    requires IsCodePointValid(cp)
    ensures 1 <= |Encode(cp)| <= 4
  {
  }

  lemma {:induction false} DecodeEncodedFrom(pre: seq<Octet>, cps: seq<CodePoint>)
    requires AllValid(cps)
    ensures var s := pre + EncodeAll(cps); DecodeFrom(s, |pre|) == Some(cps)
    decreases |cps|
  {
    hide Encode, ValidateNext, IsCodePointValid;
    var s := pre + EncodeAll(cps);
    if |cps| > 0 {
      var e := Encode(cps[0]);
      EncodeShort(cps[0]);
      var rest := EncodeAll(cps[1..]);
      assert s == pre + e + rest && s[|pre|..|pre| + |e|] == e;
      DecodeEncoded(s, |pre|, |s|, cps[0]);
      DecodeEncodedFrom(pre + e, cps[1..]);
      assert [cps[0]] + cps[1..] == cps;
    } else {
      assert s == pre;
    }
  }

  /** Decoding the encoding of any sequence of valid code points gives the sequence back. */
  lemma DecodeEncode(cps: seq<CodePoint>)
    requires AllValid(cps)
    ensures DecodeFrom(EncodeAll(cps), 0) == Some(cps)
  {
    hide Encode, ValidateNext, DecodeFrom;
    DecodeEncodedFrom([], cps);
    assert [] + EncodeAll(cps) == EncodeAll(cps);
  }

  /** What decodes is the encoding of what it decodes to. */
  lemma {:induction false} EncodeDecodedFrom(s: seq<Octet>, it: nat)
    requires it <= |s| && DecodeFrom(s, it).Some?
    ensures AllValid(DecodeFrom(s, it).value) && EncodeAll(DecodeFrom(s, it).value) == s[it..]
    decreases |s| - it
  {
    hide Encode, ValidateNext, IsCodePointValid;
    if it < |s| {
      AcceptedIsCharacter(s, it, |s|);
      var r := ValidateNext(s, it, |s|);
      EncodeDecodedFrom(s, r.next);
      var rest := DecodeFrom(s, r.next).value;
      assert ([r.cp] + rest)[1..] == rest;
      assert s[it..] == s[it..r.next] + s[r.next..];
    } else {
      assert s[it..] == [];
    }
  }

  lemma {:induction false} ValidDecodes(s: seq<Octet>, it: nat)
    requires it <= |s|
    ensures InvalidFrom(s, it) == |s| <==> DecodeFrom(s, it).Some?
    decreases |s| - it
  {
    hide ValidateNext;
    if it < |s| && ValidateNext(s, it, |s|).Ok? {
      ValidDecodes(s, ValidateNext(s, it, |s|).next);
    }
  }

  predicate IsValid(s: seq<Octet>) {
    InvalidFrom(s, 0) == |s|
  }

  /** A string is valid exactly if it is the encoding of some code points, and then of just one sequence. */
  lemma ValidIsEncoding(s: seq<Octet>)
    ensures IsValid(s) <==> exists cps :: AllValid(cps) && EncodeAll(cps) == s
    ensures forall cps, cps' :: AllValid(cps) && AllValid(cps') && EncodeAll(cps) == s && EncodeAll(cps') == s ==>
        cps == cps'
  {
    hide Encode, DecodeFrom, EncodeAll, InvalidFrom, AllValid;
    ValidDecodes(s, 0);
    if IsValid(s) {
      EncodeDecodedFrom(s, 0);
      assert s[0..] == s;
    }
    forall cps | AllValid(cps) && EncodeAll(cps) == s ensures DecodeFrom(s, 0) == Some(cps) {
      DecodeEncode(cps);
    }
  }

  /** Splits into characters of the grammar. */
  predicate Characters(s: seq<Octet>, cuts: seq<nat>) {
    |cuts| > 0 && cuts[0] == 0 && cuts[|cuts| - 1] == |s| &&
    forall i :: 0 <= i < |cuts| - 1 ==> Cut(s, cuts[i], cuts[i + 1])
  }

  predicate Cut(s: seq<Octet>, a: nat, b: nat) {
    a < b <= |s| && Character(s[a..b])
  }

  lemma {:induction false} CutsDecode(s: seq<Octet>, cuts: seq<nat>, i: nat)
    requires Characters(s, cuts) && i < |cuts|
    ensures cuts[i] <= |s| && InvalidFrom(s, cuts[i]) == |s|
    decreases |cuts| - i
  {
    hide Character, ValidateNext;
    if i < |cuts| - 1 {
      assert Cut(s, cuts[i], cuts[i + 1]);
      CharacterIsAccepted(s, cuts[i], cuts[i + 1], |s|);
      CutsDecode(s, cuts, i + 1);
    }
  }

  lemma {:induction false} DecodeCuts(s: seq<Octet>, it: nat) returns (cuts: seq<nat>)
    requires it <= |s| && InvalidFrom(s, it) == |s|
    ensures |cuts| > 0 && cuts[0] == it && cuts[|cuts| - 1] == |s|
    ensures forall i :: 0 <= i < |cuts| - 1 ==> Cut(s, cuts[i], cuts[i + 1])
    decreases |s| - it
  {
    hide Character, ValidateNext, Encode;
    if it == |s| {
      cuts := [it];
    } else {
      AcceptedIsCharacter(s, it, |s|);
      var rest := DecodeCuts(s, ValidateNext(s, it, |s|).next);
      cuts := [it] + rest;
    }
  }

  /** A string is accepted exactly if the grammar of RFC 3629 derives it. */
  lemma ValidIsGrammatical(s: seq<Octet>)
    ensures IsValid(s) <==> exists cuts :: Characters(s, cuts)
  {
    hide Character, InvalidFrom;
    if IsValid(s) {
      var cuts := DecodeCuts(s, 0);
      assert Characters(s, cuts);
    }
    if cuts :| Characters(s, cuts) {
      CutsDecode(s, cuts, 0);
    }
  }

  // ----- where the first invalid sequence is -----

  ghost predicate Grammatical(s: seq<Octet>) {
    exists cuts :: Characters(s, cuts)
  }

  ghost predicate DerivedUpTo(s: seq<Octet>, n: nat) {
    n <= |s| && Grammatical(s[..n])
  }

  /** The grammar derives the first `n` octets, and no longer prefix. */
  ghost predicate LongestValid(s: seq<Octet>, n: nat) {
    DerivedUpTo(s, n) && forall k :: n < k ==> !DerivedUpTo(s, k)
  }

  lemma {:induction false} CutsUpTo(s: seq<Octet>, it: nat) returns (cuts: seq<nat>)
    requires it <= |s|
    ensures |cuts| > 0 && cuts[0] == it && cuts[|cuts| - 1] == InvalidFrom(s, it)
    ensures forall i :: 0 <= i < |cuts| - 1 ==> Cut(s, cuts[i], cuts[i + 1])
    ensures forall i :: 0 <= i < |cuts| ==> cuts[i] <= InvalidFrom(s, it)
    decreases |s| - it
  {
    hide Character, ValidateNext, Encode;
    if it == |s| || ValidateNext(s, it, |s|).Err? {
      cuts := [it];
    } else {
      AcceptedIsCharacter(s, it, |s|);
      var rest := CutsUpTo(s, ValidateNext(s, it, |s|).next);
      cuts := [it] + rest;
    }
  }

  lemma {:induction false} CutsReach(s: seq<Octet>, n: nat, cuts: seq<nat>, i: nat)
    requires n <= |s| && Characters(s[..n], cuts) && i < |cuts|
    ensures cuts[i] <= n <= InvalidFrom(s, cuts[i])
    decreases |cuts| - i
  {
    hide Character, ValidateNext;
    if i < |cuts| - 1 {
      var a, b := cuts[i], cuts[i + 1];
      assert Cut(s[..n], a, b);
      assert s[..n][a..b] == s[a..b];
      CharacterIsAccepted(s, a, b, |s|);
      CutsReach(s, n, cuts, i + 1);
    }
  }

  /** The first invalid position is the end of the longest prefix that the grammar derives. */
  lemma InvalidIsLongest(s: seq<Octet>)
    ensures LongestValid(s, InvalidFrom(s, 0))
  {
    hide Character, InvalidFrom;
    var n := InvalidFrom(s, 0);
    var cuts := CutsUpTo(s, 0);
    forall i | 0 <= i < |cuts| - 1 ensures Cut(s[..n], cuts[i], cuts[i + 1]) {
      var a, b := cuts[i], cuts[i + 1];
      assert Cut(s, a, b);
      assert s[..n][a..b] == s[a..b];
    }
    assert Characters(s[..n], cuts);
    forall k | n < k ensures !DerivedUpTo(s, k) {
      if DerivedUpTo(s, k) {
        var other :| Characters(s[..k], other);
        CutsReach(s, k, other, 0);
      }
    }
  }

  // ----- the loops -----

  /** Writes the encoding of a code point, or refuses an invalid one. */
  method Append(cp: CodePoint, out: seq<Octet>) returns (r: Option<seq<Octet>>)
    ensures r == if IsCodePointValid(cp) then Some(out + Encode(cp)) else None
  {
    if !IsCodePointValid(cp) {
      return None;
    }
    var result := out;
    if cp < 0x80 {
      result := result + [cp as bv8];
    } else if cp < 0x800 {
      result := result + [((cp >> 6) | 0xc0) as bv8];
      result := result + [((cp & 0x3f) | 0x80) as bv8];
    } else if cp < 0x10000 {
      result := result + [((cp >> 12) | 0xe0) as bv8];
      result := result + [(((cp >> 6) & 0x3f) | 0x80) as bv8];
      result := result + [((cp & 0x3f) | 0x80) as bv8];
    } else {
      result := result + [((cp >> 18) | 0xf0) as bv8];
      result := result + [(((cp >> 12) & 0x3f) | 0x80) as bv8];
      result := result + [(((cp >> 6) & 0x3f) | 0x80) as bv8];
      result := result + [((cp & 0x3f) | 0x80) as bv8];
    }
    assert result == out + Encode(cp);
    r := Some(result);
  }

  method FindInvalid(s: seq<Octet>) returns (result: nat)
    ensures result == InvalidFrom(s, 0) && LongestValid(s, result)
  {
    hide ValidateNext;
    InvalidIsLongest(s);
    result := 0;
    while result != |s|
      invariant result <= |s| && InvalidFrom(s, result) == InvalidFrom(s, 0)
      decreases |s| - result
    {
      match ValidateNext(s, result, |s|) {
        case Err(_) => return;
        case Ok(_, next) => result := next;
      }
    }
  }

  /** All code points; refuses the first invalid one. */
  method Utf32To8(cps: seq<CodePoint>) returns (r: Option<seq<Octet>>)
    ensures r.Some? <==> AllValid(cps)
    ensures r.Some? ==> r.value == EncodeAll(cps)
  {
    hide Encode, IsCodePointValid;
    var out := [];
    var i := 0;
    assert EncodeAll([]) == [];
    while i < |cps|
      invariant i <= |cps| && AllValid(cps[..i]) && out == EncodeAll(cps[..i])
    {
      var next := Append(cps[i], out);
      if next.None? {
        return None;
      }
      EncodeSnoc(cps[..i], cps[i]);
      assert cps[..i] + [cps[i]] == cps[..i + 1];
      out := next.value;
      i := i + 1;
    }
    assert cps[..i] == cps;
    r := Some(out);
  }

  lemma {:induction false} EncodeSnoc(cps: seq<CodePoint>, cp: CodePoint)
    requires AllValid(cps) && IsCodePointValid(cp)
    ensures AllValid(cps + [cp]) && EncodeAll(cps + [cp]) == EncodeAll(cps) + Encode(cp)
    decreases |cps|
  {
    hide Encode, IsCodePointValid;
    if |cps| == 0 {
      assert cps + [cp] == [cp];
      assert EncodeAll([cp]) == Encode(cp) + EncodeAll([cp][1..]);
    } else {
      EncodeSnoc(cps[1..], cp);
      assert (cps + [cp])[1..] == cps[1..] + [cp];
      assert Encode(cps[0]) + (EncodeAll(cps[1..]) + Encode(cp)) == Encode(cps[0]) + EncodeAll(cps[1..]) + Encode(cp);
    }
  }

  /** Decodes a whole string; fails where `next` throws. */
  method Utf8To32(s: seq<Octet>) returns (r: Option<seq<CodePoint>>)
    ensures r == DecodeFrom(s, 0)
  {
    hide ValidateNext;
    var out: seq<CodePoint>, it := [], 0;
    assert forall rest: seq<CodePoint> :: [] + rest == rest;
    while it != |s|
      invariant it <= |s|
      invariant DecodeFrom(s, 0) == match DecodeFrom(s, it) case None => None case Some(rest) => Some(out + rest)
      decreases |s| - it
    {
      match ValidateNext(s, it, |s|) {
        case Err(_) => return None;
        case Ok(cp, next) =>
          assert forall rest: seq<CodePoint> :: out + ([cp] + rest) == out + [cp] + rest;
          out, it := out + [cp], next;
      }
    }
    assert out + [] == out;
    r := Some(out);
  }

  /** How many code points a string holds; fails where `next` throws. */
  method Distance(s: seq<Octet>) returns (dist: Option<nat>)
    ensures dist.Some? <==> IsValid(s)
    ensures dist.Some? ==> forall cps :: AllValid(cps) && EncodeAll(cps) == s ==> dist.value == |cps|
  {
    hide ValidateNext, Encode, EncodeAll, AllValid;
    var n, first := 0, 0;
    while first < |s|
      invariant first <= |s|
      invariant match DecodeFrom(s, first)
                case None => DecodeFrom(s, 0).None?
                case Some(rest) => DecodeFrom(s, 0).Some? && |DecodeFrom(s, 0).value| == n + |rest|
      decreases |s| - first
    {
      match ValidateNext(s, first, |s|) {
        case Err(_) =>
          ValidDecodes(s, 0);
          return None;
        case Ok(_, next) => first, n := next, n + 1;
      }
    }
    ValidDecodes(s, 0);
    forall cps | AllValid(cps) && EncodeAll(cps) == s ensures n == |cps| {
      DecodeEncode(cps);
    }
    dist := Some(n);
  }

  /** The last octet before `it` that is not a trail octet is at `i`. */
  predicate LastLead(s: seq<Octet>, it: nat, i: nat) {
    i < it <= |s| && !IsTrail(s[i]) && forall k :: i < k < it ==> IsTrail(s[k])
  }

  /** The code point that ends at `it` and where it begins; fails where `prior` throws. */
  method Prior(s: seq<Octet>, it: nat) returns (r: Option<(CodePoint, nat)>)
    requires it <= |s|
    ensures r.Some? ==> LastLead(s, it, r.value.1) && ValidateNext(s, r.value.1, it).Ok? &&
                        ValidateNext(s, r.value.1, it).cp == r.value.0
    ensures r.None? ==> forall i :: LastLead(s, it, i) ==> ValidateNext(s, i, it).Err?
  {
    hide ValidateNext, IsTrail;
    if it == 0 {
      return None;
    }
    var i := it - 1;
    while IsTrail(s[i])
      invariant 0 <= i < it && forall k :: i < k < it ==> IsTrail(s[k])
      decreases i
    {
      if i == 0 {
        return None;
      }
      i := i - 1;
    }
    match ValidateNext(s, i, it) {
      case Err(_) =>
        forall j | LastLead(s, it, j) ensures j == i {
        }
        return None;
      case Ok(cp, _) => r := Some((cp, i));
    }
  }

  lemma LeadNotTrail(a: Octet)
    ensures SequenceLength(a) >= 1 ==> !IsTrail(a)
  {
  }

  /** Behind an encoded string, the last lead octet begins the last code point. */
  lemma PriorOfEncoding(cps: seq<CodePoint>, cp: CodePoint)
    requires AllValid(cps) && IsCodePointValid(cp)
    ensures var s := EncodeAll(cps) + Encode(cp); var i := |EncodeAll(cps)|;
      LastLead(s, |s|, i) && ValidateNext(s, i, |s|) == Ok(cp, |s|) && forall j :: LastLead(s, |s|, j) ==> j == i
  {
    hide ValidateNext, Encode, IsTrail, EncodeAll, Bits2, Bits3, Bits4, Wide, IsOverlongSequence, SequenceLength;
    var pre, e := EncodeAll(cps), Encode(cp);
    var s := pre + e;
    EncodeSpells(cp);
    LeadNotTrail(e[0]);
    assert s[|pre|..|pre| + |e|] == e;
    DecodeEncoded(s, |pre|, |s|, cp);
    forall k | |pre| < k < |s| ensures IsTrail(s[k]) {
      assert s[k] == e[k - |pre|];
    }
  }
}
