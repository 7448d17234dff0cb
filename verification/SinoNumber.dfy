/** Sino-Korean numerals up to the ten-thousands section, and the parser that reads them. */
module SinoNumber {
  import opened Common

  function DigitOf(c: char): Option<nat> {
    match c
    case '영' => Some(0)
    case '공' => Some(0)
    case '일' => Some(1)
    case '이' => Some(2)
    case '삼' => Some(3)
    case '사' => Some(4)
    case '오' => Some(5)
    case '육' => Some(6)
    case '칠' => Some(7)
    case '팔' => Some(8)
    case '구' => Some(9)
    case _ => None
  }

  function UnitOf(c: char): Option<nat> {
    match c
    case '십' => Some(10)
    case '백' => Some(100)
    case '천' => Some(1000)
    case _ => None
  }

  // ----- the parser -----

  /** The loop's variables: the sections closed so far, the open section, and a digit waiting for its unit. */
  datatype Reading = Reading(total: nat, section: nat, digit: Option<nat>)
  {
    function Value(): nat { total + section + Waiting() }

    function Waiting(): nat { if digit.Some? then digit.value else 0 }
  }

  const START := Reading(0, 0, None)

  function Read(r: Reading, c: char): Option<Reading> {
    if DigitOf(c).Some? then Some(r.(digit := DigitOf(c)))
    else if UnitOf(c).Some? then
      Some(Reading(r.total, r.section + (if r.digit.Some? then r.digit.value else 1) * UnitOf(c).value, None))
    else if c == '만' then
      var section := r.section + r.Waiting();
      Some(Reading(r.total + (if section == 0 then 1 else section) * 10000, 0, None))
    else None
  }

  function ReadAll(r: Reading, word: string): Option<Reading>
    decreases |word|
  {
    if word == [] then Some(r)
    else
      match Read(r, word[0])
      case None => None
      case Some(next) => ReadAll(next, word[1..])
  }

  /** The number a word reads as, if it reads at all. */
  function NumberOf(word: string): Option<nat> {
    match ReadAll(START, word)
    case Some(r) => Some(r.Value())
    case None => None
  }

  /** `_parse_sino_number_v2` */
  method Parse(word: string) returns (n: Option<nat>)
    ensures n == NumberOf(word)
  {
    var total: nat, section: nat := 0, 0;
    var digit: Option<nat> := None;
    for i := 0 to |word|
      invariant ReadAll(START, word) == ReadAll(Reading(total, section, digit), word[i..])
    {
      var c := word[i];
      assert word[i..][0] == c && word[i..][1..] == word[i + 1..];
      if DigitOf(c).Some? {
        digit := DigitOf(c);
      } else if UnitOf(c).Some? {
        section := section + (if digit.Some? then digit.value else 1) * UnitOf(c).value;
        digit := None;
      } else if c == '만' {
        section := section + if digit.Some? then digit.value else 0;
        total := total + (if section == 0 then 1 else section) * 10000;
        section := 0;
        digit := None;
      } else {
        return None;
      }
    }
    return Some(total + section + if digit.Some? then digit.value else 0);
  }

  lemma {:induction false} ReadAppend(r: Reading, a: string, b: string)
    ensures ReadAll(r, a + b) == match ReadAll(r, a) case Some(m) => ReadAll(m, b) case None => None
    decreases |a|
  {
    if a == [] {
      assert a + b == b;
    } else {
      assert (a + b)[0] == a[0] && (a + b)[1..] == a[1..] + b;
      match Read(r, a[0]) {
        case Some(next) => ReadAppend(next, a[1..], b);
        case None =>
      }
    }
  }

  predicate Known(c: char) { DigitOf(c).Some? || UnitOf(c).Some? || c == '만' }

  lemma {:induction false} ReadFailsIffForeign(r: Reading, word: string)
    ensures ReadAll(r, word).None? <==> exists c | c in word :: !Known(c)
    decreases |word|
  {
    if word != [] {
      assert word == [word[0]] + word[1..];
      if Known(word[0]) {
        ReadFailsIffForeign(Read(r, word[0]).value, word[1..]);
      } else {
        assert word[0] in word;
      }
    }
  }

  /** A word has a number iff every character is a numeral: order and repetition never matter to that. */
  lemma NumberIffKnown(word: string)
    ensures NumberOf(word).Some? <==> forall c | c in word :: Known(c)
  {
    ReadFailsIffForeign(START, word);
  }

  // ----- standard numerals -----

  function DigitWord(d: nat): string
    requires 1 <= d <= 9
  {
    ["일이삼사오육칠팔구"[d - 1]]
  }

  /** `d` of a unit; the 일 of a single unit is said or left out. */
  function UnitWord(d: nat, unit: char, sayOne: bool): string
    requires d <= 9
  {
    if d == 0 then "" else if d == 1 && !sayOne then [unit] else DigitWord(d) + [unit]
  }

  datatype Style = Style(thousand: bool, hundred: bool, ten: bool)

  /** The word of a section with the given thousands, hundreds, tens and ones. */
  function PartsWord(th: nat, h: nat, t: nat, o: nat, style: Style): string
    requires th <= 9 && h <= 9 && t <= 9 && o <= 9
  {
    UnitWord(th, '천', style.thousand) + UnitWord(h, '백', style.hundred) + UnitWord(t, '십', style.ten)
    + if o == 0 then "" else DigitWord(o)
  }

  function SectionWord(s: nat, style: Style): string
    requires s < 10000
  {
    PartsWord(s / 1000, s / 100 % 10, s / 10 % 10, s % 10, style)
  }

  function ManWord(h: nat, l: nat, high: Style, low: Style, sayOneMan: bool): string
    requires 1 <= h < 10000 && l < 10000
  {
    (if h == 1 && !sayOneMan then "" else SectionWord(h, high)) + "만" + SectionWord(l, low)
  }

  /** A standard numeral of `n`: zero has two words, and 일 before 만 may be left out. */
  function Numeral(n: nat, high: Style, low: Style, sayOneMan: bool, gong: bool): string
    requires n < 100000000
  {
    if n == 0 then (if gong then "공" else "영")
    else if n < 10000 then SectionWord(n, low)
    else ManWord(n / 10000, n % 10000, high, low, sayOneMan)
  }

  lemma ReadOne(r: Reading, c: char)
    ensures ReadAll(r, [c]) == Read(r, c)
  {}

  lemma ReadUnit(r: Reading, d: nat, unit: char, sayOne: bool)
    requires d <= 9 && UnitOf(unit).Some? && r.digit.None?
    ensures ReadAll(r, UnitWord(d, unit, sayOne)) == Some(Reading(r.total, r.section + d * UnitOf(unit).value, None))
  {
    if d > 0 {
      if d > 1 || sayOne {
        ReadAppend(r, DigitWord(d), [unit]);
        ReadOne(r, DigitWord(d)[0]);
        ReadOne(r.(digit := Some(d)), unit);
      } else {
        ReadOne(r, unit);
      }
    }
  }

  lemma ReadParts(total: nat, th: nat, h: nat, t: nat, o: nat, style: Style)
    requires th <= 9 && h <= 9 && t <= 9 && o <= 9
    ensures ReadAll(Reading(total, 0, None), PartsWord(th, h, t, o, style))
         == Some(Reading(total, th * 1000 + h * 100 + t * 10, if o == 0 then None else Some(o)))
    ensures th + h + t + o > 0 ==> PartsWord(th, h, t, o, style) != ""
  {
    hide ReadAll, Read;
    var r := Reading(total, 0, None);
    var a, b := UnitWord(th, '천', style.thousand), UnitWord(h, '백', style.hundred);
    var c := UnitWord(t, '십', style.ten);
    var d := if o == 0 then "" else DigitWord(o);
    ReadAppend(r, a + b + c, d);
    ReadAppend(r, a + b, c);
    ReadAppend(r, a, b);
    ReadUnit(r, th, '천', style.thousand);
    ReadUnit(Reading(total, th * 1000, None), h, '백', style.hundred);
    ReadUnit(Reading(total, th * 1000 + h * 100, None), t, '십', style.ten);
    ReadOnes(Reading(total, th * 1000 + h * 100 + t * 10, None), o);
  }

  lemma ReadOnes(r: Reading, o: nat)
    requires o <= 9 && r.digit.None?
    ensures ReadAll(r, if o == 0 then "" else DigitWord(o)) == Some(r.(digit := if o == 0 then None else Some(o)))
  {}

  lemma PartsAddUp(s: nat)
    requires s < 10000
    ensures s / 1000 <= 9
    ensures s / 1000 * 1000 + s / 100 % 10 * 100 + s / 10 % 10 * 10 + s % 10 == s
  {}

  /** Reading a section's word leaves its value open, behind the sections already closed. */
  lemma ReadSection(total: nat, s: nat, style: Style) returns (r: Reading)
    requires s < 10000
    ensures ReadAll(Reading(total, 0, None), SectionWord(s, style)) == Some(r)
    ensures r.total == total && r.section + r.Waiting() == s
    ensures s > 0 ==> SectionWord(s, style) != ""
  {
    hide ReadAll, PartsWord;
    PartsAddUp(s);
    var th, h, t, o := s / 1000, s / 100 % 10, s / 10 % 10, s % 10;
    r := ReadDigits(total, th, h, t, o, style);
  }

  lemma ReadDigits(total: nat, th: nat, h: nat, t: nat, o: nat, style: Style) returns (r: Reading)
    requires th <= 9 && h <= 9 && t <= 9 && o <= 9
    ensures ReadAll(Reading(total, 0, None), PartsWord(th, h, t, o, style)) == Some(r)
    ensures r.total == total && r.section + r.Waiting() == th * 1000 + h * 100 + t * 10 + o
    ensures th + h + t + o > 0 ==> PartsWord(th, h, t, o, style) != ""
  {
    hide ReadAll, PartsWord;
    ReadParts(total, th, h, t, o, style);
    r := Reading(total, th * 1000 + h * 100 + t * 10, if o == 0 then None else Some(o));
  }

  lemma CloseMan(r: Reading)
    ensures var section := r.section + r.Waiting();
            ReadAll(r, "만") == Some(Reading(r.total + (if section == 0 then 1 else section) * 10000, 0, None))
  {}

  lemma ReadMan(h: nat, l: nat, high: Style, low: Style, sayOneMan: bool)
    requires 1 <= h < 10000 && l < 10000
    ensures var r := ReadAll(START, ManWord(h, l, high, low, sayOneMan)); r.Some? && r.value.Value() == h * 10000 + l
  {
    hide SectionWord, Read;
    var bare := h == 1 && !sayOneMan;
    var front := if bare then "" else SectionWord(h, high);
    var closed := ReadSection(0, h, high);
    var open := if bare then START else closed;
    assert ReadAll(START, front) == Some(open);
    hide ReadAll;
    ReadAppend(START, front + "만", SectionWord(l, low));
    ReadAppend(START, front, "만");
    CloseMan(open);
    var _ := ReadSection(h * 10000, l, low);
  }

  /** Every standard numeral below a hundred million is read as its number. */
  lemma NumeralsRoundTrip(n: nat, high: Style, low: Style, sayOneMan: bool, gong: bool)
    requires n < 100000000
    ensures NumberOf(Numeral(n, high, low, sayOneMan, gong)) == Some(n)
  {
    hide ReadAll, SectionWord, ManWord;
    if n == 0 {
      ReadZero(gong);
    } else {
      if n < 10000 {
        var _ := ReadSection(0, n, low);
      } else {
        ReadMan(n / 10000, n % 10000, high, low, sayOneMan);
      }
    }
  }

  lemma ReadZero(gong: bool)
    ensures NumberOf(if gong then "공" else "영") == Some(0)
  {
    ReadOne(START, '공');
    ReadOne(START, '영');
  }
}
