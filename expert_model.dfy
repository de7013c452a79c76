/** The Expert record: the expert-type enumeration, the phone-number pattern and
    what the schema requires, trims and defaults on create and on a validated
    update (server/src/models/expert.model.ts). */
module ExpertModel {
  import opened Wrappers
  import opened Mongoose
  import Text

  /** The kind of professional an expert is. */
  datatype ExpertType =
    | Realtor | Lender | Inspector | Appraiser | Attorney | InsuranceAgent | Other

  /** The string stored for each type. */
  function TypeText(t: ExpertType): string {
    match t
    case Realtor => "realtor"
    case Lender => "lender"
    case Inspector => "inspector"
    case Appraiser => "appraiser"
    case Attorney => "attorney"
    case InsuranceAgent => "insurance_agent"
    case Other => "other"
  }

  /** `Object.values(ExpertType)`, in declaration order. */
  const AllTypes: seq<ExpertType> :=
    [Realtor, Lender, Inspector, Appraiser, Attorney, InsuranceAgent, Other]

  /** The `enum` check of the schema: the type whose string is `t`, if any. */
  function ParseType(t: string): (r: Option<ExpertType>)
    ensures r.Some? ==> TypeText(r.value) == t
    ensures r.None? ==> forall x :: TypeText(x) != t
  {
    if t == "realtor" then Some(Realtor)
    else if t == "lender" then Some(Lender)
    else if t == "inspector" then Some(Inspector)
    else if t == "appraiser" then Some(Appraiser)
    else if t == "attorney" then Some(Attorney)
    else if t == "insurance_agent" then Some(InsuranceAgent)
    else if t == "other" then Some(Other)
    else None
  }

  /** There are exactly seven types, listed once each, with seven distinct strings,
      and parsing a type's string gives that type back. */
  lemma TypeEnumeration()
    ensures |AllTypes| == 7
    ensures forall t :: t in AllTypes
    ensures forall i, j :: 0 <= i < j < |AllTypes| ==> TypeText(AllTypes[i]) != TypeText(AllTypes[j])
    ensures forall t :: ParseType(TypeText(t)) == Some(t)
  {
    forall t ensures t in AllTypes && ParseType(TypeText(t)) == Some(t) {
      match t
      case Realtor => assert AllTypes[0] == t;
      case Lender => assert AllTypes[1] == t;
      case Inspector => assert AllTypes[2] == t;
      case Appraiser => assert AllTypes[3] == t;
      case Attorney => assert AllTypes[4] == t;
      case InsuranceAgent => assert AllTypes[5] == t;
      case Other => assert AllTypes[6] == t;
    }
  }

  // ---------------------------------------------------------------------------
  // The phone-number pattern
  //   ^ [+]? [(]? [0-9]{3} [)]? [-\s.]? [0-9]{3} [-\s.]? [0-9]{4,6} $
  // ---------------------------------------------------------------------------

  /** The class `[-\s.]`. */
  predicate IsSeparator(c: char) {
    c == '-' || c == '.' || Text.IsSpace(c)
  }

  /** One way of reading a string against the pattern: which optional characters
      are present and what the three digit groups are. */
  datatype PhoneParts = PhoneParts(
    plus: bool, open: bool, area: string, close: bool,
    sep1: Option<char>, exchange: string, sep2: Option<char>, line: string)

  /** The parts fit the pattern's items. */
  predicate WellFormed(p: PhoneParts) {
    && |p.area| == 3 && Text.AllDigits(p.area)
    && |p.exchange| == 3 && Text.AllDigits(p.exchange)
    && 4 <= |p.line| <= 6 && Text.AllDigits(p.line)
    && (p.sep1.Some? ==> IsSeparator(p.sep1.value))
    && (p.sep2.Some? ==> IsSeparator(p.sep2.value))
  }

  function OptMark(present: bool, c: char): string {
    if present then [c] else []
  }

  function OptChar(o: Option<char>): string {
    if o.Some? then [o.value] else []
  }

  /** The text after the exchange group. */
  function AfterExchange(p: PhoneParts): string { OptChar(p.sep2) + p.line }
  /** The text after the first separator. */
  function AfterSep1(p: PhoneParts): string { p.exchange + AfterExchange(p) }
  /** The text after the closing parenthesis. */
  function AfterClose(p: PhoneParts): string { OptChar(p.sep1) + AfterSep1(p) }
  /** The text after the area group. */
  function AfterArea(p: PhoneParts): string { OptMark(p.close, ')') + AfterClose(p) }
  /** The text after the opening parenthesis. */
  function AfterOpen(p: PhoneParts): string { p.area + AfterArea(p) }
  /** The text after the plus sign. */
  function AfterPlus(p: PhoneParts): string { OptMark(p.open, '(') + AfterOpen(p) }

  /** The string a reading spells out. */
  function Assemble(p: PhoneParts): string {
    OptMark(p.plus, '+') + AfterPlus(p)
  }

  /** Reads an optional `c` at the front of `s`. */
  function TakeMark(s: string, c: char): (r: (bool, string))
    ensures OptMark(r.0, c) + r.1 == s
    ensures r.0 <==> s != [] && s[0] == c
  {
    if s != [] && s[0] == c then (true, s[1..]) else (false, s)
  }

  /** Reads an optional separator at the front of `s`. */
  function TakeSeparator(s: string): (r: (Option<char>, string))
    ensures OptChar(r.0) + r.1 == s
    ensures r.0.Some? <==> s != [] && IsSeparator(s[0])
    ensures r.0.Some? ==> IsSeparator(r.0.value)
  {
    if s != [] && IsSeparator(s[0]) then (Some(s[0]), s[1..]) else (None, s)
  }

  /** Reads three digits at the front of `s`. */
  function TakeThreeDigits(s: string): (r: Option<(string, string)>)
    ensures r.Some? ==> |r.value.0| == 3 && Text.AllDigits(r.value.0) && r.value.0 + r.value.1 == s
    ensures r.None? <==> |s| < 3 || !Text.AllDigits(s[..3])
  {
    if |s| < 3 || !Text.AllDigits(s[..3]) then None
    else
      assert s == s[..3] + s[3..];
      Some((s[..3], s[3..]))
  }

  /** Reads `s` against the pattern from left to right. Every optional item is a
      single non-digit character that the following item cannot start with, so
      the reading is forced and no backtracking is needed. */
  function SplitPhone(s: string): (r: Option<PhoneParts>)
    ensures r.Some? ==> WellFormed(r.value) && Assemble(r.value) == s
  {
    var (plus, s1) := TakeMark(s, '+');
    var (open, s2) := TakeMark(s1, '(');
    var r := ReadFromArea(plus, open, s2);
    assert r.Some? ==> OptMark(open, '(') + AfterOpen(r.value) == s1;
    r
  }

  /** The reading from the area group on, after the optional plus sign and
      opening parenthesis. */
  function ReadFromArea(plus: bool, open: bool, s: string): (r: Option<PhoneParts>)
    ensures r.Some? ==> WellFormed(r.value) && r.value.plus == plus && r.value.open == open && AfterOpen(r.value) == s
  {
    match TakeThreeDigits(s)
    case None => None
    case Some((area, s3)) => ReadAfterArea(plus, open, area, s3)
  }

  /** The reading from the optional closing parenthesis on. */
  function ReadAfterArea(plus: bool, open: bool, area: string, s: string): (r: Option<PhoneParts>)
    requires |area| == 3 && Text.AllDigits(area)
    ensures r.Some? ==>
      && WellFormed(r.value) && AfterArea(r.value) == s
      && r.value.plus == plus && r.value.open == open && r.value.area == area
  {
    var (close, s4) := TakeMark(s, ')');
    var (sep1, s5) := TakeSeparator(s4);
    var r := ReadFromExchange(plus, open, area, close, sep1, s5);
    assert r.Some? ==> AfterClose(r.value) == s4;
    r
  }

  /** The reading from the exchange group on. */
  function ReadFromExchange(plus: bool, open: bool, area: string, close: bool, sep1: Option<char>, s: string)
    : (r: Option<PhoneParts>)
    requires |area| == 3 && Text.AllDigits(area) && (sep1.Some? ==> IsSeparator(sep1.value))
    ensures r.Some? ==>
      && WellFormed(r.value) && AfterSep1(r.value) == s
      && r.value.plus == plus && r.value.open == open && r.value.area == area
      && r.value.close == close && r.value.sep1 == sep1
  {
    match TakeThreeDigits(s)
    case None => None
    case Some((exchange, s6)) =>
      var (sep2, line) := TakeSeparator(s6);
      if 4 <= |line| <= 6 && Text.AllDigits(line) then
        Some(PhoneParts(plus, open, area, close, sep1, exchange, sep2, line))
      else None
  }

  /** An item of the pattern: an optional character, an optional separator, or a
      group of `min` to `max` digits. */
  datatype Item = Optional(c: char) | OptionalSeparator | DigitGroup(min: nat, max: nat)

  /** The items of the pattern, in order. */
  const PhonePattern: seq<Item> := [
    Optional('+'), Optional('('), DigitGroup(3, 3), Optional(')'),
    OptionalSeparator, DigitGroup(3, 3), OptionalSeparator, DigitGroup(4, 6)]

  /** Reads `s` against `items` from left to right and asks that the whole string be
      used: an optional item takes its character when it is there, a digit group
      takes as many digits as it may. */
  predicate Matches(items: seq<Item>, s: string)
    decreases |items|
  {
    if items == [] then s == []
    else
      match items[0]
      case Optional(c) => Matches(items[1..], if s != [] && s[0] == c then s[1..] else s)
      case OptionalSeparator => Matches(items[1..], if s != [] && IsSeparator(s[0]) then s[1..] else s)
      case DigitGroup(min, max) =>
        var n := if |Text.LeadingDigits(s)| < max then |Text.LeadingDigits(s)| else max;
        min <= n && Matches(items[1..], s[n..])
  }

  /** The `match` validator of `phoneNumber`. */
  predicate IsPhoneNumber(s: string): (r: bool)
    ensures r <==> SplitPhone(s).Some?
  {
    MatchesIsSplit(s);
    Matches(PhonePattern, s)
  }

  /** A digit group of exactly three reads what `TakeThreeDigits` reads. */
  lemma GroupOfThree(rest: seq<Item>, t: string)
    ensures Matches([DigitGroup(3, 3)] + rest, t) ==
      (TakeThreeDigits(t).Some? && Matches(rest, TakeThreeDigits(t).value.1))
  {
    var items := [DigitGroup(3, 3)] + rest;
    assert items[0] == DigitGroup(3, 3) && items[1..] == rest;
    var d := Text.LeadingDigits(t);
    if |d| >= 3 {
      assert t[..3] == d[..3];
    }
  }

  /** The last group: four to six digits and nothing after them. */
  lemma LastGroup(t: string)
    ensures Matches([DigitGroup(4, 6)], t) == (4 <= |t| <= 6 && Text.AllDigits(t))
  {
    var items := [DigitGroup(4, 6)];
    assert items[0] == DigitGroup(4, 6) && items[1..] == [];
    var d := Text.LeadingDigits(t);
    var n := if |d| < 6 then |d| else 6;
    assert Matches(items, t) == (4 <= n && t[n..] == []);
    if Text.AllDigits(t) {
      Text.LeadingDigitsOfDigits(t);
    }
    if 4 <= n && t[n..] == [] {
      assert |t| == n && d == t;
    }
  }

  lemma OptionalMark(c: char, rest: seq<Item>, t: string)
    ensures Matches([Optional(c)] + rest, t) == Matches(rest, TakeMark(t, c).1)
  {
    assert ([Optional(c)] + rest)[0] == Optional(c) && ([Optional(c)] + rest)[1..] == rest;
  }

  lemma OptionalSep(rest: seq<Item>, t: string)
    ensures Matches([OptionalSeparator] + rest, t) == Matches(rest, TakeSeparator(t).1)
  {
    assert ([OptionalSeparator] + rest)[0] == OptionalSeparator && ([OptionalSeparator] + rest)[1..] == rest;
  }

  /** The pattern accepts exactly the strings the stage-by-stage reader reads. */
  lemma MatchesIsSplit(s: string)
    ensures Matches(PhonePattern, s) == SplitPhone(s).Some?
  {
    var fromArea := [DigitGroup(3, 3), Optional(')'), OptionalSeparator, DigitGroup(3, 3), OptionalSeparator, DigitGroup(4, 6)];
    var fromOpen := [Optional('(')] + fromArea;
    assert PhonePattern == [Optional('+')] + fromOpen;
    var (plus, s1) := TakeMark(s, '+');
    var (open, s2) := TakeMark(s1, '(');
    OptionalMark('+', fromOpen, s);
    OptionalMark('(', fromArea, s1);
    MatchesFromArea(plus, open, s2);
  }

  lemma MatchesFromArea(plus: bool, open: bool, t: string)
    ensures Matches([DigitGroup(3, 3), Optional(')'), OptionalSeparator, DigitGroup(3, 3), OptionalSeparator, DigitGroup(4, 6)], t)
      == ReadFromArea(plus, open, t).Some?
  {
    var afterArea := [Optional(')'), OptionalSeparator, DigitGroup(3, 3), OptionalSeparator, DigitGroup(4, 6)];
    assert [DigitGroup(3, 3), Optional(')'), OptionalSeparator, DigitGroup(3, 3), OptionalSeparator, DigitGroup(4, 6)]
      == [DigitGroup(3, 3)] + afterArea;
    GroupOfThree(afterArea, t);
    if TakeThreeDigits(t).Some? {
      MatchesAfterArea(plus, open, TakeThreeDigits(t).value.0, TakeThreeDigits(t).value.1);
    }
  }

  lemma MatchesAfterArea(plus: bool, open: bool, area: string, t: string)
    requires |area| == 3 && Text.AllDigits(area)
    ensures Matches([Optional(')'), OptionalSeparator, DigitGroup(3, 3), OptionalSeparator, DigitGroup(4, 6)], t)
      == ReadAfterArea(plus, open, area, t).Some?
  {
    var fromExchange := [DigitGroup(3, 3), OptionalSeparator, DigitGroup(4, 6)];
    assert [Optional(')'), OptionalSeparator, DigitGroup(3, 3), OptionalSeparator, DigitGroup(4, 6)]
      == [Optional(')')] + ([OptionalSeparator] + fromExchange);
    var (close, s4) := TakeMark(t, ')');
    var (sep1, s5) := TakeSeparator(s4);
    OptionalMark(')', [OptionalSeparator] + fromExchange, t);
    OptionalSep(fromExchange, s4);
    MatchesFromExchange(plus, open, area, close, sep1, s5);
  }

  lemma MatchesFromExchange(plus: bool, open: bool, area: string, close: bool, sep1: Option<char>, t: string)
    requires |area| == 3 && Text.AllDigits(area) && (sep1.Some? ==> IsSeparator(sep1.value))
    ensures Matches([DigitGroup(3, 3), OptionalSeparator, DigitGroup(4, 6)], t)
      == ReadFromExchange(plus, open, area, close, sep1, t).Some?
  {
    var last := [DigitGroup(4, 6)];
    assert [DigitGroup(3, 3), OptionalSeparator, DigitGroup(4, 6)] == [DigitGroup(3, 3)] + ([OptionalSeparator] + last);
    GroupOfThree([OptionalSeparator] + last, t);
    if TakeThreeDigits(t).Some? {
      var (exchange, s6) := TakeThreeDigits(t).value;
      OptionalSep(last, s6);
      LastGroup(TakeSeparator(s6).1);
    }
  }

  /** What the recogniser reads is a well-formed reading of the whole string. */
  lemma SplitPhoneSound(s: string)
    requires IsPhoneNumber(s)
    ensures SplitPhone(s).Some?
    ensures WellFormed(SplitPhone(s).value) && Assemble(SplitPhone(s).value) == s
  {
    MatchesIsSplit(s);
  }

  lemma TakeMarkOf(present: bool, c: char, rest: string)
    requires rest == [] || rest[0] != c
    ensures TakeMark(OptMark(present, c) + rest, c) == (present, rest)
  {
    if present {
      assert (OptMark(present, c) + rest)[1..] == rest;
    } else {
      assert OptMark(present, c) + rest == rest;
    }
  }

  lemma TakeSeparatorOf(sep: Option<char>, rest: string)
    requires sep.Some? ==> IsSeparator(sep.value)
    requires rest == [] || !IsSeparator(rest[0])
    ensures TakeSeparator(OptChar(sep) + rest) == (sep, rest)
  {
    if sep.Some? {
      assert (OptChar(sep) + rest)[1..] == rest;
    } else {
      assert OptChar(sep) + rest == rest;
    }
  }

  lemma TakeThreeDigitsOf(d: string, rest: string)
    requires |d| == 3 && Text.AllDigits(d)
    ensures TakeThreeDigits(d + rest) == Some((d, rest))
  {
    assert (d + rest)[..3] == d && (d + rest)[3..] == rest;
  }

  /** A digit group does not start with any of the optional characters. */
  lemma GroupStart(d: string, rest: string)
    requires |d| >= 1 && Text.AllDigits(d)
    ensures var t := d + rest; t != [] && t[0] != '+' && t[0] != '(' && t[0] != ')' && !IsSeparator(t[0])
  {
    assert (d + rest)[0] == d[0];
  }

  /** Every well-formed reading is the one the recogniser finds in its string: the
      pattern matches exactly the strings that some reading spells out. */
  lemma SplitPhoneComplete(p: PhoneParts)
    requires WellFormed(p)
    ensures SplitPhone(Assemble(p)) == Some(p)
  {
    InnerStages(p);
    OuterStages(p);
  }

  /** The recogniser's steps after the area group read back the reading's parts. */
  lemma InnerStages(p: PhoneParts)
    requires WellFormed(p)
    ensures TakeSeparator(AfterExchange(p)) == (p.sep2, p.line)
    ensures TakeThreeDigits(AfterSep1(p)) == Some((p.exchange, AfterExchange(p)))
    ensures TakeSeparator(AfterClose(p)) == (p.sep1, AfterSep1(p))
    ensures TakeMark(AfterArea(p), ')') == (p.close, AfterClose(p))
  {
    GroupStart(p.line, []);
    assert p.line + [] == p.line;
    TakeSeparatorOf(p.sep2, p.line);
    TakeThreeDigitsOf(p.exchange, AfterExchange(p));
    GroupStart(p.exchange, AfterExchange(p));
    TakeSeparatorOf(p.sep1, AfterSep1(p));
    assert AfterClose(p)[0] != ')' by {
      if p.sep1.Some? { assert AfterClose(p)[0] == p.sep1.value; }
    }
    TakeMarkOf(p.close, ')', AfterClose(p));
  }

  /** The recogniser's steps up to the area group read back the reading's parts. */
  lemma OuterStages(p: PhoneParts)
    requires WellFormed(p)
    ensures TakeThreeDigits(AfterOpen(p)) == Some((p.area, AfterArea(p)))
    ensures TakeMark(AfterPlus(p), '(') == (p.open, AfterOpen(p))
    ensures TakeMark(Assemble(p), '+') == (p.plus, AfterPlus(p))
  {
    TakeThreeDigitsOf(p.area, AfterArea(p));
    GroupStart(p.area, AfterArea(p));
    TakeMarkOf(p.open, '(', AfterOpen(p));
    assert AfterPlus(p)[0] != '+' by {
      if p.open { assert AfterPlus(p)[0] == '('; }
    }
    TakeMarkOf(p.plus, '+', AfterPlus(p));
  }

  /** The regular expression's meaning: a string is accepted exactly when some
      well-formed reading spells it out. */
  lemma PhonePatternMeaning(s: string)
    ensures IsPhoneNumber(s) <==> exists p :: WellFormed(p) && Assemble(p) == s
  {
    MatchesIsSplit(s);
    if SplitPhone(s).Some? {
      SplitPhoneSound(s);
    }
    if exists p :: WellFormed(p) && Assemble(p) == s {
      var p :| WellFormed(p) && Assemble(p) == s;
      SplitPhoneComplete(p);
    }
  }

  lemma DigitsOfMark(present: bool, c: char)
    requires !Text.IsDigit(c)
    ensures Text.Digits(OptMark(present, c)) == []
  {
  }

  lemma DigitsOfSeparator(sep: Option<char>)
    requires sep.Some? ==> IsSeparator(sep.value)
    ensures Text.Digits(OptChar(sep)) == []
  {
  }

  /** The digits of a spelled-out reading are its three groups, in order. */
  lemma AssembledDigits(p: PhoneParts)
    requires WellFormed(p)
    ensures Text.Digits(Assemble(p)) == p.area + p.exchange + p.line
  {
    DigitsOfSeparator(p.sep2);
    DigitsSkip(OptChar(p.sep2), p.line);
    Text.DigitsOfDigits(p.line);
    DigitsKeep(p.exchange, AfterExchange(p));
    DigitsOfSeparator(p.sep1);
    DigitsSkip(OptChar(p.sep1), AfterSep1(p));
    DigitsOfMark(p.close, ')');
    DigitsSkip(OptMark(p.close, ')'), AfterClose(p));
    DigitsKeep(p.area, AfterArea(p));
    DigitsOfMark(p.open, '(');
    DigitsSkip(OptMark(p.open, '('), AfterOpen(p));
    DigitsOfMark(p.plus, '+');
    DigitsSkip(OptMark(p.plus, '+'), AfterPlus(p));
  }

  lemma DigitsSkip(x: string, rest: string)
    requires Text.Digits(x) == []
    ensures Text.Digits(x + rest) == Text.Digits(rest)
  {
    Text.DigitsAppend(x, rest);
  }

  lemma DigitsKeep(d: string, rest: string)
    requires Text.AllDigits(d)
    ensures Text.Digits(d + rest) == d + Text.Digits(rest)
  {
    Text.DigitsOfDigits(d);
    Text.DigitsAppend(d, rest);
  }

  /** An accepted phone number holds between ten and twelve digits: its three
      groups, in order, and no other digit. */
  lemma PhoneDigitCount(s: string)
    requires IsPhoneNumber(s)
    ensures var p := SplitPhone(s); p.Some? && Text.Digits(s) == p.value.area + p.value.exchange + p.value.line
    ensures 10 <= |Text.Digits(s)| <= 12
  {
    SplitPhoneSound(s);
    AssembledDigits(SplitPhone(s).value);
  }

  /** The spelling the expert form starts from is accepted. */
  lemma PhoneAcceptsExample()
    ensures IsPhoneNumber("(555) 123-4567")
  {
    var p := PhoneParts(false, true, "555", true, Some(' '), "123", Some('-'), "4567");
    assert Assemble(p) == "(555) 123-4567";
    SplitPhoneComplete(p);
    MatchesIsSplit("(555) 123-4567");
  }

  /** A country code written apart from the number is rejected: after the plus
      sign the pattern wants three digits. */
  lemma PhoneRejectsSpacedCountryCode()
    ensures !IsPhoneNumber("+1 555 123 4567")
  {
    var t := "+1 555 123 4567";
    assert TakeMark(t, '+') == (true, t[1..]);
    assert TakeMark(t[1..], '(') == (false, t[1..]);
    assert t[1..][1] == ' ';
    assert TakeThreeDigits(t[1..]).None?;
    MatchesIsSplit(t);
  }

  /** A character that may appear in an accepted phone number. */
  predicate PhoneChar(c: char) {
    Text.IsDigit(c) || c == '+' || c == '(' || c == ')' || IsSeparator(c)
  }

  /** Every character of `s` may appear in a phone number, but not as a plus sign. */
  predicate PhoneCharsNoPlus(s: string) {
    forall i :: 0 <= i < |s| ==> PhoneChar(s[i]) && s[i] != '+'
  }

  lemma PhoneCharsAppend(a: string, b: string)
    requires PhoneCharsNoPlus(a) && PhoneCharsNoPlus(b)
    ensures PhoneCharsNoPlus(a + b)
  {
    forall i | 0 <= i < |a + b| ensures PhoneChar((a + b)[i]) && (a + b)[i] != '+' {
      if i >= |a| { assert (a + b)[i] == b[i - |a|]; }
    }
  }

  /** Everything after the optional plus sign of a reading is made of digits, the
      parentheses and separators. */
  lemma AfterPlusChars(p: PhoneParts)
    requires WellFormed(p)
    ensures PhoneCharsNoPlus(AfterPlus(p))
  {
    PhoneCharsAppend(OptChar(p.sep2), p.line);
    PhoneCharsAppend(p.exchange, AfterExchange(p));
    PhoneCharsAppend(OptChar(p.sep1), AfterSep1(p));
    PhoneCharsAppend(OptMark(p.close, ')'), AfterClose(p));
    PhoneCharsAppend(p.area, AfterArea(p));
    PhoneCharsAppend(OptMark(p.open, '('), AfterOpen(p));
  }

  /** An accepted phone number holds no letter or other punctuation, and a `+` only
      as its first character. */
  lemma PhoneCharacters(s: string)
    requires IsPhoneNumber(s)
    ensures forall i :: 0 <= i < |s| ==> PhoneChar(s[i])
    ensures forall i :: 0 < i < |s| ==> s[i] != '+'
  {
    SplitPhoneSound(s);
    var p := SplitPhone(s).value;
    AfterPlusChars(p);
    var ap := AfterPlus(p);
    forall i | 0 <= i < |s| ensures PhoneChar(s[i]) && (i > 0 ==> s[i] != '+') {
      if p.plus && i == 0 {
      } else if p.plus {
        assert s[i] == ap[i - 1];
      } else {
        assert s[i] == ap[i];
      }
    }
  }

  // ---------------------------------------------------------------------------
  // The stored record and its validation
  // ---------------------------------------------------------------------------

  /** A stored Expert document; `company` and `notes` are `None` when unset. */
  datatype Expert = Expert(
    id: Id,
    name: string,
    phoneNumber: string,
    expertType: ExpertType,
    company: Option<string>,
    notes: Option<string>,
    userId: Id,
    createdAt: int,
    updatedAt: int)

  /** The fields of a create or update request body; `None` is an absent field. */
  datatype ExpertInput = ExpertInput(
    name: Option<string>,
    phoneNumber: Option<string>,
    expertType: Option<string>,
    company: Option<string>,
    notes: Option<string>)

  /** What every stored expert satisfies: a name without surrounding white space and
      a phone number the pattern accepts. */
  predicate ValidExpert(e: Expert) {
    TrimmedName(e.name) && IsPhoneNumber(e.phoneNumber)
  }

  /** The `trim` setter applied to an optional value. */
  function TrimField(o: Option<string>): Option<string> {
    if o.Some? then Some(Text.Trim(o.value)) else None
  }

  /** The `name` validators on a value that is set (`None`: set to undefined). */
  function NameErrors(name: Option<string>): seq<FieldError> {
    if name.None? || Text.Trim(name.value) == "" then [FieldError("name", "Name is required")] else []
  }

  /** The `phoneNumber` validators: `required` first, then the pattern. */
  function PhoneErrors(phone: Option<string>): seq<FieldError> {
    if phone.None? || Text.Trim(phone.value) == "" then [FieldError("phoneNumber", "Phone number is required")]
    else if !IsPhoneNumber(Text.Trim(phone.value)) then [FieldError("phoneNumber", "Please provide a valid phone number")]
    else []
  }

  /** The `expertType` validators; an absent type takes the default and passes. */
  function TypeErrors(t: Option<string>): seq<FieldError> {
    if t.None? then []
    else if t.value == "" then [FieldError("expertType", "Expert type is required")]
    else if ParseType(t.value).None? then [FieldError("expertType", EnumMessage(t.value, "expertType"))]
    else []
  }

  /** The validators that fail on create, in schema order. */
  function CreateErrors(input: ExpertInput): seq<FieldError> {
    NameErrors(input.name) + PhoneErrors(input.phoneNumber) + TypeErrors(input.expertType)
  }

  /** The validators that fail on an update run with `runValidators`: only the
      paths the update sets are validated. */
  function UpdateErrors(input: ExpertInput): seq<FieldError> {
    (if input.name.Some? then NameErrors(input.name) else [])
    + (if input.phoneNumber.Some? then PhoneErrors(input.phoneNumber) else [])
    + TypeErrors(input.expertType)
  }

  /** A new expert passes validation exactly when it has a name that is not blank, an
      accepted phone number and, if any, a known type. */
  lemma CreateErrorsNone(input: ExpertInput)
    ensures CreateErrors(input) == [] <==>
      && input.name.Some? && !Text.AllSpace(input.name.value)
      && input.phoneNumber.Some? && IsPhoneNumber(Text.Trim(input.phoneNumber.value))
      && (input.expertType.None? || ParseType(input.expertType.value).Some?)
  {
  }

  /** An update passes validation exactly when every field it sets is acceptable. */
  lemma UpdateErrorsNone(input: ExpertInput)
    ensures UpdateErrors(input) == [] <==>
      && (input.name.None? || !Text.AllSpace(input.name.value))
      && (input.phoneNumber.None? || IsPhoneNumber(Text.Trim(input.phoneNumber.value)))
      && (input.expertType.None? || ParseType(input.expertType.value).Some?)
  {
  }

  /** `Expert.create({...input, userId})` with the identifier `id` at time `now`. */
  function CreateExpert(input: ExpertInput, userId: Id, id: Id, now: int): (r: Result<Expert>)
    ensures r.Success? <==>
      && input.name.Some? && !Text.AllSpace(input.name.value)
      && input.phoneNumber.Some? && IsPhoneNumber(Text.Trim(input.phoneNumber.value))
      && (input.expertType.None? || ParseType(input.expertType.value).Some?)
    ensures r.Failure? ==> r.error == DocumentValidationMessage("Expert", CreateErrors(input))
    ensures r.Success? ==>
      var e := r.value;
      && ValidExpert(e)
      && e.id == id && e.userId == userId
      && e.name == Text.Trim(input.name.value)
      && e.phoneNumber == Text.Trim(input.phoneNumber.value)
      && TypeText(e.expertType) == input.expertType.GetOr(TypeText(Other))
      && e.company == TrimField(input.company) && e.notes == input.notes
      && e.createdAt == now && e.updatedAt == now
  {
    CreateErrorsNone(input);
    var errs := CreateErrors(input);
    if errs != [] then Failure(DocumentValidationMessage("Expert", errs))
    else
      Success(Expert(
        id, Text.Trim(input.name.value), Text.Trim(input.phoneNumber.value),
        if input.expertType.Some? then ParseType(input.expertType.value).value else Other,
        TrimField(input.company), input.notes, userId, now, now))
  }

  /** `findByIdAndUpdate(id, input, { new: true, runValidators: true })` on the stored
      expert `e` at time `now`. Absent fields are dropped from the update and keep
      their stored value. */
  function UpdateExpert(e: Expert, input: ExpertInput, now: int): (r: Result<Expert>)
    ensures r.Success? <==>
      && (input.name.None? || !Text.AllSpace(input.name.value))
      && (input.phoneNumber.None? || IsPhoneNumber(Text.Trim(input.phoneNumber.value)))
      && (input.expertType.None? || ParseType(input.expertType.value).Some?)
    ensures r.Failure? ==> r.error == UpdateValidationMessage(UpdateErrors(input))
    ensures r.Success? ==>
      var u := r.value;
      && u.id == e.id && u.userId == e.userId && u.createdAt == e.createdAt && u.updatedAt == now
      && u.name == (if input.name.Some? then Text.Trim(input.name.value) else e.name)
      && u.phoneNumber == (if input.phoneNumber.Some? then Text.Trim(input.phoneNumber.value) else e.phoneNumber)
      && TypeText(u.expertType) == input.expertType.GetOr(TypeText(e.expertType))
      && u.company == (if input.company.Some? then TrimField(input.company) else e.company)
      && u.notes == (if input.notes.Some? then input.notes else e.notes)
  {
    UpdateErrorsNone(input);
    var errs := UpdateErrors(input);
    if errs != [] then Failure(UpdateValidationMessage(errs))
    else
      Success(e.(
        name := if input.name.Some? then Text.Trim(input.name.value) else e.name,
        phoneNumber := if input.phoneNumber.Some? then Text.Trim(input.phoneNumber.value) else e.phoneNumber,
        expertType := if input.expertType.Some? then ParseType(input.expertType.value).value else e.expertType,
        company := if input.company.Some? then TrimField(input.company) else e.company,
        notes := if input.notes.Some? then input.notes else e.notes,
        updatedAt := now))
  }

  /** A name without surrounding white space. */
  predicate TrimmedName(n: string) {
    n != [] && !Text.IsSpace(n[0]) && !Text.IsSpace(n[|n| - 1])
  }

  lemma NameAfterUpdate(old_name: string, name: Option<string>)
    requires TrimmedName(old_name)
    requires name.None? || !Text.AllSpace(name.value)
    ensures TrimmedName(if name.Some? then Text.Trim(name.value) else old_name)
  {
  }

  /** A validated update keeps a valid expert valid. */
  lemma UpdateKeepsValid(e: Expert, input: ExpertInput, now: int)
    requires ValidExpert(e)
    ensures UpdateExpert(e, input, now).Success? ==> ValidExpert(UpdateExpert(e, input, now).value)
  {
    var r := UpdateExpert(e, input, now);
    if r.Success? {
      NameAfterUpdate(e.name, input.name);
    }
  }

  /** An update that sets no field changes nothing but the update time. */
  lemma EmptyUpdate(e: Expert, now: int)
    ensures UpdateExpert(e, ExpertInput(None, None, None, None, None), now) == Success(e.(updatedAt := now))
  {
  }
}
