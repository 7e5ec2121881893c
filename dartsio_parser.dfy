/**
 * The Dartsio code decoder of src/utils/dartsioParser.ts: a device string such as
 * "S03", "D12", "T10", "B25", "B50" or "S00" becomes a hit record, anything else
 * becomes None (the source's `null`).
 */
module Dartsio {
  import opened Wrappers
  import Text

  datatype HitKind = Single | Double | Triple | Bull | Miss

  /** The `DartHit` record of the parser. */
  datatype DartHit = DartHit(section: int, multiplier: int, points: int, kind: HitKind, displayText: string)

  // ---------------------------------------------------------------------------
  // Normalisation: String.prototype.trim followed by toUpperCase
  // ---------------------------------------------------------------------------

  /** The characters `trim` removes: ECMAScript WhiteSpace and LineTerminator. */
  predicate IsWhiteSpace(c: char) {
    c == '\t' || c == '\U{000B}' || c == '\U{000C}' || c == ' ' || c == '\U{00A0}' || c == '\U{FEFF}'
    || c == '\U{1680}' || ('\U{2000}' <= c <= '\U{200A}') || c == '\U{202F}' || c == '\U{205F}'
    || c == '\U{3000}'
    || c == '\n' || c == '\r' || c == '\U{2028}' || c == '\U{2029}'
  }

  predicate AllWhiteSpace(s: string) {
    forall i :: 0 <= i < |s| ==> IsWhiteSpace(s[i])
  }

  function TrimStart(s: string): string {
    if s != [] && IsWhiteSpace(s[0]) then TrimStart(s[1..]) else s
  }

  function TrimEnd(s: string): string {
    if s != [] && IsWhiteSpace(s[|s| - 1]) then TrimEnd(s[..|s| - 1]) else s
  }

  function Trim(s: string): string {
    TrimEnd(TrimStart(s))
  }

  /**
   * Upper case of one character. ASCII letters are mapped exactly; so are the
   * non-ASCII characters whose upper case consists of ASCII letters (dotless i,
   * long s, sharp s and the Latin ligatures U+FB00..U+FB06). Every other
   * character is kept: its true upper case contains a non-ASCII character, and
   * the code grammar rejects any string holding one, so this cannot change a
   * decoding result.
   */
  function UpperChar(c: char): string {
    if 'a' <= c <= 'z' then [(c as int - 32) as char]
    else if c == '\U{0131}' then "I"
    else if c == '\U{017F}' then "S"
    else if c == '\U{00DF}' then "SS"
    else if c == '\U{FB00}' then "FF"
    else if c == '\U{FB01}' then "FI"
    else if c == '\U{FB02}' then "FL"
    else if c == '\U{FB03}' then "FFI"
    else if c == '\U{FB04}' then "FFL"
    else if c == '\U{FB05}' || c == '\U{FB06}' then "ST"
    else [c]
  }

  function Upper(s: string): string {
    if s == [] then [] else UpperChar(s[0]) + Upper(s[1..])
  }

  /** `rawData.trim().toUpperCase()` */
  function Normalise(raw: string): string {
    Upper(Trim(raw))
  }

  // ---------------------------------------------------------------------------
  // The decoder
  // ---------------------------------------------------------------------------

  const MissHit := DartHit(0, 1, 0, Miss, "ミス")
  const OuterBull := DartHit(25, 1, 25, Bull, "Outer Bull (25)")
  const InnerBull := DartHit(50, 1, 50, Bull, "Inner Bull (50)")

  /** The ring letter for a multiplier, as used in codes and display texts. */
  function RingLetter(multiplier: int): char {
    if multiplier == 1 then 'S' else if multiplier == 2 then 'D' else 'T'
  }

  function RingKind(multiplier: int): HitKind {
    if multiplier == 1 then Single else if multiplier == 2 then Double else Triple
  }

  /** The record for a numbered section hit in one of the three rings. */
  function SectorHit(section: nat, multiplier: int): DartHit {
    DartHit(section, multiplier, section * multiplier, RingKind(multiplier),
            [RingLetter(multiplier)] + Text.NatToString(section))
  }

  /** True iff `data` is a letter followed by exactly two ASCII digits (`/^X(\d{2})$/`). */
  predicate IsTwoDigitCode(data: string) {
    |data| == 3 && Text.IsDigit(data[1]) && Text.IsDigit(data[2])
  }

  /** `parseInt` of the two digits. */
  function CodeNumber(data: string): nat
    requires IsTwoDigitCode(data)
  {
    10 * Text.DigitValue(data[1]) + Text.DigitValue(data[2])
  }

  /** The decoder on an already normalised string. */
  function ParseNormalised(data: string): Option<DartHit> {
    if data == "S00" || data == "MISS" || data == "0" then Some(MissHit)
    else if IsTwoDigitCode(data) then
      var n := CodeNumber(data);
      if data[0] == 'S' && 1 <= n <= 20 then Some(SectorHit(n, 1))
      else if data[0] == 'D' && 1 <= n <= 20 then Some(SectorHit(n, 2))
      else if data[0] == 'T' && 1 <= n <= 20 then Some(SectorHit(n, 3))
      else if data[0] == 'B' && n == 25 then Some(OuterBull)
      else if data[0] == 'B' && n == 50 then Some(InnerBull)
      else None
    else None
  }

  /** `parseDartsioData` */
  function Parse(raw: string): Option<DartHit> {
    ParseNormalised(Normalise(raw))
  }

  /** `isValidFinish` */
  predicate IsValidFinish(hit: DartHit) {
    hit.points > 0
  }

  // ---------------------------------------------------------------------------
  // The hit records the decoder can produce, and their canonical codes
  // ---------------------------------------------------------------------------

  /** A hit record of the shape the decoder promises. */
  predicate ValidHit(h: DartHit) {
    h == MissHit || h == OuterBull || h == InnerBull
    || (1 <= h.section <= 20 && h.multiplier in {1, 2, 3} && h == SectorHit(h.section, h.multiplier))
  }

  function TwoDigits(n: nat): string
    requires n < 100
  {
    [Text.DigitChar(n / 10), Text.DigitChar(n % 10)]
  }

  /** The canonical device code of a valid hit. */
  function Encode(h: DartHit): string
    requires ValidHit(h)
  {
    if h == MissHit then "S00"
    else if h == OuterBull then "B25"
    else if h == InnerBull then "B50"
    else [RingLetter(h.multiplier)] + TwoDigits(h.section)
  }

  // ---------------------------------------------------------------------------
  // Lemmas about normalisation
  // ---------------------------------------------------------------------------

  lemma {:induction false} UpperAppend(a: string, b: string)
    ensures Upper(a + b) == Upper(a) + Upper(b)
  {
    if a != [] {
      assert (a + b)[0] == a[0];
      assert (a + b)[1..] == a[1..] + b;
      UpperAppend(a[1..], b);
    } else {
      assert a + b == b;
    }
  }

  lemma UpperCharFixed(c: char)
    ensures Upper(UpperChar(c)) == UpperChar(c)
  {
    var u := UpperChar(c);
    if |u| == 1 {
      assert Upper(u) == UpperChar(u[0]) + Upper([]);
    } else if |u| == 2 {
      assert Upper(u) == UpperChar(u[0]) + Upper(u[1..]);
      assert Upper(u[1..]) == UpperChar(u[1]) + Upper([]);
    } else {
      assert Upper(u) == UpperChar(u[0]) + Upper(u[1..]);
      assert Upper(u[1..]) == UpperChar(u[1]) + Upper(u[2..]);
      assert Upper(u[2..]) == UpperChar(u[2]) + Upper([]);
    }
  }

  /** Upper-casing twice is upper-casing once. */
  lemma {:induction false} UpperIdempotent(s: string)
    ensures Upper(Upper(s)) == Upper(s)
  {
    if s != [] {
      UpperAppend(UpperChar(s[0]), Upper(s[1..]));
      UpperCharFixed(s[0]);
      UpperIdempotent(s[1..]);
    }
  }

  lemma UpperCharShape(c: char)
    ensures |UpperChar(c)| >= 1
    ensures IsWhiteSpace(c) ==> UpperChar(c) == [c]
    ensures !IsWhiteSpace(c) ==> forall k :: 0 <= k < |UpperChar(c)| ==> !IsWhiteSpace(UpperChar(c)[k])
  {
  }

  lemma {:induction false} UpperEnds(s: string)
    requires s != []
    ensures Upper(s) != []
    ensures Upper(s)[0] == UpperChar(s[0])[0]
    ensures Upper(s)[|Upper(s)| - 1] == UpperChar(s[|s| - 1])[|UpperChar(s[|s| - 1])| - 1]
  {
    UpperCharShape(s[0]);
    UpperCharShape(s[|s| - 1]);
    assert s == s[..|s| - 1] + [s[|s| - 1]];
    UpperAppend(s[..|s| - 1], [s[|s| - 1]]);
    assert Upper([s[|s| - 1]]) == UpperChar(s[|s| - 1]) + Upper([]);
  }

  lemma {:induction false} TrimStartShape(s: string)
    ensures TrimStart(s) == [] || !IsWhiteSpace(TrimStart(s)[0])
    ensures TrimEnd(TrimStart(s)) == [] || !IsWhiteSpace(TrimEnd(TrimStart(s))[0])
    ensures |TrimStart(s)| <= |s| && TrimStart(s) == s[|s| - |TrimStart(s)|..]
  {
    if s != [] && IsWhiteSpace(s[0]) {
      TrimStartShape(s[1..]);
    } else {
      TrimEndPrefix(s);
    }
  }

  lemma {:induction false} TrimEndPrefix(s: string)
    ensures |TrimEnd(s)| <= |s| && TrimEnd(s) == s[..|TrimEnd(s)|]
    ensures TrimEnd(s) == [] || !IsWhiteSpace(TrimEnd(s)[|TrimEnd(s)| - 1])
  {
    if s != [] && IsWhiteSpace(s[|s| - 1]) {
      TrimEndPrefix(s[..|s| - 1]);
    }
  }

  lemma TrimShape(s: string)
    ensures Trim(s) == [] || (!IsWhiteSpace(Trim(s)[0]) && !IsWhiteSpace(Trim(s)[|Trim(s)| - 1]))
  {
    TrimStartShape(s);
    TrimEndPrefix(TrimStart(s));
  }

  lemma TrimFixed(s: string)
    requires s == [] || (!IsWhiteSpace(s[0]) && !IsWhiteSpace(s[|s| - 1]))
    ensures Trim(s) == s
  {
  }

  /** Normalising a normalised string changes nothing. */
  lemma NormaliseIdempotent(raw: string)
    ensures Normalise(Normalise(raw)) == Normalise(raw)
  {
    var t := Trim(raw);
    TrimShape(raw);
    if t != [] {
      UpperEnds(t);
      UpperCharShape(t[0]);
      UpperCharShape(t[|t| - 1]);
    }
    TrimFixed(Upper(t));
    UpperIdempotent(t);
  }

  /** The decoder gives the same answer on an input and on its normalised form. */
  lemma ParseOfNormalised(raw: string)
    ensures Parse(Normalise(raw)) == Parse(raw)
  {
    NormaliseIdempotent(raw);
  }

  lemma {:induction false} TrimStartAppend(s: string, t: string)
    ensures TrimStart(s + t) == if AllWhiteSpace(s) then TrimStart(t) else TrimStart(s) + t
  {
    if s != [] {
      assert (s + t)[0] == s[0];
      assert (s + t)[1..] == s[1..] + t;
      TrimStartAppend(s[1..], t);
    } else {
      assert s + t == t;
    }
  }

  lemma {:induction false} TrimEndAppendWhiteSpace(s: string, w: string)
    requires AllWhiteSpace(w)
    ensures TrimEnd(s + w) == TrimEnd(s)
  {
    if w != [] {
      var sw := s + w;
      assert sw[|sw| - 1] == w[|w| - 1];
      assert sw[..|sw| - 1] == s + w[..|w| - 1];
      TrimEndAppendWhiteSpace(s, w[..|w| - 1]);
    } else {
      assert s + w == s;
    }
  }

  lemma {:induction false} TrimStartAllWhiteSpace(s: string)
    requires AllWhiteSpace(s)
    ensures TrimStart(s) == []
  {
    if s != [] {
      TrimStartAllWhiteSpace(s[1..]);
    }
  }

  /** Surrounding whitespace of any kind `trim` removes does not change the decoding. */
  lemma PaddingIgnored(w1: string, s: string, w2: string)
    requires AllWhiteSpace(w1) && AllWhiteSpace(w2)
    ensures Parse(w1 + s + w2) == Parse(s)
  {
    assert w1 + s + w2 == w1 + (s + w2);
    TrimStartAppend(w1, s + w2);
    TrimStartAppend(s, w2);
    if AllWhiteSpace(s) {
      TrimStartAllWhiteSpace(w2);
      TrimStartAllWhiteSpace(s);
    } else {
      TrimEndAppendWhiteSpace(TrimStart(s), w2);
    }
  }

  // ---------------------------------------------------------------------------
  // Case insensitivity
  // ---------------------------------------------------------------------------

  function LowerAsciiChar(c: char): char {
    if 'A' <= c <= 'Z' then (c as int + 32) as char else c
  }

  function LowerAscii(s: string): string {
    if s == [] then [] else [LowerAsciiChar(s[0])] + LowerAscii(s[1..])
  }

  lemma {:induction false} UpperOfLower(s: string)
    ensures Upper(LowerAscii(s)) == Upper(s)
  {
    if s != [] {
      UpperAppend([LowerAsciiChar(s[0])], LowerAscii(s[1..]));
      assert Upper([LowerAsciiChar(s[0])]) == UpperChar(LowerAsciiChar(s[0])) + Upper([]);
      UpperOfLower(s[1..]);
    }
  }

  lemma {:induction false} LowerAsciiLength(s: string)
    ensures |LowerAscii(s)| == |s|
    ensures forall i :: 0 <= i < |s| ==> LowerAscii(s)[i] == LowerAsciiChar(s[i])
  {
    if s != [] {
      LowerAsciiLength(s[1..]);
    }
  }

  lemma {:induction false} TrimStartLower(s: string)
    ensures TrimStart(LowerAscii(s)) == LowerAscii(TrimStart(s))
  {
    if s != [] {
      assert LowerAscii(s)[0] == LowerAsciiChar(s[0]);
      assert LowerAscii(s)[1..] == LowerAscii(s[1..]);
      TrimStartLower(s[1..]);
    }
  }

  lemma {:induction false} LowerAsciiSplit(s: string)
    requires s != []
    ensures LowerAscii(s) == LowerAscii(s[..|s| - 1]) + [LowerAsciiChar(s[|s| - 1])]
  {
    if |s| > 1 {
      LowerAsciiSplit(s[1..]);
      assert s[1..][..|s[1..]| - 1] == s[..|s| - 1][1..];
      assert s[1..][|s[1..]| - 1] == s[|s| - 1];
    } else {
      assert s[..|s| - 1] == [];
    }
  }

  lemma {:induction false} TrimEndLower(s: string)
    ensures TrimEnd(LowerAscii(s)) == LowerAscii(TrimEnd(s))
  {
    if s != [] {
      LowerAsciiSplit(s);
      var l := LowerAscii(s);
      assert l[|l| - 1] == LowerAsciiChar(s[|s| - 1]);
      assert l[..|l| - 1] == LowerAscii(s[..|s| - 1]);
      TrimEndLower(s[..|s| - 1]);
    }
  }

  /** Lower-case ASCII input decodes exactly like its upper-case form. */
  lemma CaseIgnored(s: string)
    ensures Parse(LowerAscii(s)) == Parse(s)
  {
    TrimStartLower(s);
    TrimEndLower(TrimStart(s));
    UpperOfLower(Trim(s));
  }

  // ---------------------------------------------------------------------------
  // Soundness and completeness of the decoder
  // ---------------------------------------------------------------------------

  lemma SectorHitFacts(n: nat, m: int)
    requires 1 <= n <= 20 && m in {1, 2, 3}
    ensures ValidHit(SectorHit(n, m))
  {
  }

  /** Every decoded hit is of the promised shape: points = section x multiplier, between 0 and 60. */
  lemma ParseSound(raw: string)
    requires Parse(raw).Some?
    ensures ValidHit(Parse(raw).value)
    ensures var h := Parse(raw).value;
      h.points == h.section * h.multiplier && 0 <= h.points <= 60 && h.multiplier in {1, 2, 3}
  {
    var d := Normalise(raw);
    if IsTwoDigitCode(d) && d != "S00" && d != "MISS" && d != "0" {
      var n := CodeNumber(d);
      if d[0] in {'S', 'D', 'T'} && 1 <= n <= 20 {
        SectorHitFacts(n, if d[0] == 'S' then 1 else if d[0] == 'D' then 2 else 3);
      }
    }
  }

  lemma TwoDigitsRoundTrip(n: nat)
    requires n < 100
    ensures IsTwoDigitCode(['X'] + TwoDigits(n)) && CodeNumber(['X'] + TwoDigits(n)) == n
  {
    Text.DigitRoundTrip(n / 10);
    Text.DigitRoundTrip(n % 10);
  }

  lemma PlainChar(c: char)
    requires 'A' <= c <= 'Z' || Text.IsDigit(c)
    ensures UpperChar(c) == [c] && !IsWhiteSpace(c)
  {
  }

  lemma EncodeCharsPlain(h: DartHit)
    requires ValidHit(h)
    ensures |Encode(h)| == 3
    ensures forall k :: 0 <= k < 3 ==> UpperChar(Encode(h)[k]) == [Encode(h)[k]] && !IsWhiteSpace(Encode(h)[k])
  {
    var e := Encode(h);
    assert 'A' <= e[0] <= 'Z';
    PlainChar(e[0]);
    PlainChar(e[1]);
    PlainChar(e[2]);
  }

  lemma UpperOfThree(s: string)
    requires |s| == 3
    requires forall k :: 0 <= k < 3 ==> UpperChar(s[k]) == [s[k]]
    ensures Upper(s) == s
  {
    assert Upper(s) == UpperChar(s[0]) + Upper(s[1..]);
    assert Upper(s[1..]) == UpperChar(s[1]) + Upper(s[2..]);
    assert Upper(s[2..]) == UpperChar(s[2]) + Upper([]);
  }

  /** The canonical code of every valid hit decodes back to that hit. */
  lemma EncodeRoundTrip(h: DartHit)
    requires ValidHit(h)
    ensures Parse(Encode(h)) == Some(h)
  {
    var e := Encode(h);
    EncodeCharsPlain(h);
    TrimFixed(e);
    UpperOfThree(e);
    assert Normalise(e) == e;
    if h != MissHit && h != OuterBull && h != InnerBull {
      TwoDigitsRoundTrip(h.section);
      assert e == [RingLetter(h.multiplier)] + TwoDigits(h.section);
      assert e[1..] == TwoDigits(h.section);
      assert IsTwoDigitCode(e) && CodeNumber(e) == h.section by {
        assert (['X'] + TwoDigits(h.section))[1..] == e[1..];
      }
    }
  }

  /**
   * The decoder accepts exactly the canonical codes and the two extra spellings
   * of a miss: a decoded input normalises to the code of its hit, or to "MISS" or "0".
   */
  lemma ParseComplete(raw: string)
    requires Parse(raw).Some?
    ensures var h := Parse(raw).value;
      Normalise(raw) == Encode(h) || (h == MissHit && Normalise(raw) in {"MISS", "0"})
  {
    ParseSound(raw);
    var d := Normalise(raw);
    var h := Parse(raw).value;
    if d != "S00" && d != "MISS" && d != "0" {
      assert IsTwoDigitCode(d);
      CodeSplits(d);
    }
  }

  /** A letter and two digits is the letter followed by the two-digit numeral of its number. */
  lemma CodeSplits(d: string)
    requires IsTwoDigitCode(d)
    ensures CodeNumber(d) < 100 && d == [d[0]] + TwoDigits(CodeNumber(d))
  {
    var n := CodeNumber(d);
    Text.DigitRoundTrip(n / 10);
    Text.DigitRoundTrip(n % 10);
    assert d[1] == Text.DigitChar(n / 10) by {
      assert Text.DigitValue(d[1]) == n / 10;
    }
    assert d[2] == Text.DigitChar(n % 10) by {
      assert Text.DigitValue(d[2]) == n % 10;
    }
  }

  /** Among decoded hits, `isValidFinish` holds exactly for the ones that are not a miss. */
  lemma ValidFinishIffNotMiss(raw: string)
    requires Parse(raw).Some?
    ensures IsValidFinish(Parse(raw).value) <==> Parse(raw).value.kind != Miss
  {
    ParseSound(raw);
  }

  // ---------------------------------------------------------------------------
  // Worked examples
  // ---------------------------------------------------------------------------

  lemma UpperOfFour(s: string)
    requires |s| == 4
    requires forall k :: 0 <= k < 4 ==> UpperChar(s[k]) == [s[k]]
    ensures Upper(s) == s
  {
    assert Upper(s) == UpperChar(s[0]) + Upper(s[1..]);
    UpperOfThree(s[1..]);
  }

  /** A three-character code already in normal form is decoded as it stands. */
  lemma PlainCode(s: string)
    requires |s| == 3
    requires forall k :: 0 <= k < 3 ==> 'A' <= s[k] <= 'Z' || Text.IsDigit(s[k])
    ensures Parse(s) == ParseNormalised(s)
  {
    PlainChar(s[0]);
    PlainChar(s[1]);
    PlainChar(s[2]);
    TrimFixed(s);
    UpperOfThree(s);
  }

  lemma ExamplePadded()
    ensures Parse(" s20 ") == Parse("S20") == Some(SectorHit(20, 1))
  {
    PaddingIgnored(" ", "s20", " ");
    assert " s20 " == " " + "s20" + " ";
    CaseIgnored("S20");
    assert LowerAscii("S20") == "s20" by {
      assert LowerAscii("S20") == [LowerAsciiChar('S')] + LowerAscii("20");
      assert LowerAscii("20") == [LowerAsciiChar('2')] + LowerAscii("0");
      assert LowerAscii("0") == [LowerAsciiChar('0')] + LowerAscii([]);
    }
    ExampleSingle();
  }

  /**
   * A ring letter and two digits decode to that ring's hit when the number is
   * a section 1 to 20 and to nothing otherwise (`S00` aside, the miss).
   */
  lemma RingCode(m: int, d1: char, d2: char)
    requires (m == 1 || m == 2 || m == 3) && Text.IsDigit(d1) && Text.IsDigit(d2)
    requires !(m == 1 && d1 == '0' && d2 == '0')
    ensures var n := 10 * Text.DigitValue(d1) + Text.DigitValue(d2);
      Parse([RingLetter(m), d1, d2]) == if 1 <= n <= 20 then Some(SectorHit(n, m)) else None
  {
    var s := [RingLetter(m), d1, d2];
    PlainCode(s);
    assert s != "MISS" && s != "0";
    assert s != "S00" by {
      if m == 1 { assert !(s[1] == '0' && s[2] == '0'); }
    }
    assert IsTwoDigitCode(s);
  }

  /** A letter other than S, D, T and B followed by two digits decodes to nothing. */
  lemma OtherLetterCode(c: char, d1: char, d2: char)
    requires 'A' <= c <= 'Z' && c != 'S' && c != 'D' && c != 'T' && c != 'B'
    requires Text.IsDigit(d1) && Text.IsDigit(d2)
    ensures Parse([c, d1, d2]) == None
  {
    var s := [c, d1, d2];
    PlainCode(s);
    assert s != "S00" && s != "MISS" && s != "0" by { assert s[0] == c; }
  }

  lemma ExampleSingle()
    ensures Parse("S20") == Some(SectorHit(20, 1))
  {
    RingCode(1, '2', '0');
  }

  lemma ExampleMiss()
    ensures Parse("S00") == Parse("MISS") == Parse("0") == Some(MissHit)
  {
    PlainCode("S00");
    MissWord();
    ZeroWord();
  }

  lemma MissWord()
    ensures Parse("MISS") == Some(MissHit)
  {
    var s := "MISS";
    PlainChar(s[0]);
    PlainChar(s[1]);
    PlainChar(s[2]);
    PlainChar(s[3]);
    TrimFixed(s);
    UpperOfFour(s);
  }

  lemma ZeroWord()
    ensures Parse("0") == Some(MissHit)
  {
    PlainChar('0');
    TrimFixed("0");
    assert Upper("0") == UpperChar('0') + Upper([]);
  }

  lemma ExampleDisplayText()
    ensures Parse("S03").Some? && Parse("S03").value.displayText == "S3"
  {
    RingCode(1, '0', '3');
    assert Text.NatToString(3) == "3";
  }

  lemma ExampleTriple()
    ensures Parse("T20").Some? && Parse("T20").value.points == 60
  {
    RingCode(3, '2', '0');
  }

  lemma ExampleDouble()
    ensures Parse("D01").Some? && Parse("D01").value.points == 2
  {
    RingCode(2, '0', '1');
  }

  /** A bull code `B` and two digits is decoded by its number alone. */
  lemma BullCode(d1: char, d2: char)
    requires Text.IsDigit(d1) && Text.IsDigit(d2)
    ensures var n := 10 * Text.DigitValue(d1) + Text.DigitValue(d2);
      Parse(['B', d1, d2]) == if n == 25 then Some(OuterBull) else if n == 50 then Some(InnerBull) else None
  {
    var s := ['B', d1, d2];
    PlainCode(s);
    assert s != "S00" && s != "MISS" && s != "0" by { assert s[0] == 'B'; }
    assert IsTwoDigitCode(s);
  }

  lemma ExampleBulls()
    ensures Parse("B25") == Some(OuterBull) && Parse("B50") == Some(InnerBull) && Parse("B30") == None
  {
    BullCode('2', '5');
    BullCode('5', '0');
    BullCode('3', '0');
  }

  lemma ExampleRejectedSection()
    ensures Parse("S21") == None && Parse("D00") == None
  {
    RingCode(1, '2', '1');
    RingCode(2, '0', '0');
  }

  lemma ExampleRejectedShape()
    ensures Parse("S5") == None && Parse("X10") == None
  {
    OtherLetterCode('X', '1', '0');
    var s := "S5";
    assert Upper(s) == UpperChar(s[0]) + Upper(s[1..]);
    assert Upper(s[1..]) == UpperChar(s[1]) + Upper([]);
  }
}
