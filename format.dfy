/** The display label the pages compute for an enumeration value,
    `value.replace(/_/g, ' ').replace(/\b\w/g, char => char.toUpperCase())`: every
    underscore becomes a space, then the first word character of each word is put in
    upper case. Without the `u` flag `\w` is `[A-Za-z0-9_]`, so only ASCII letters
    ever change. */
module Format {

  /** `\w`. */
  predicate IsWordChar(c: char) {
    ('a' <= c <= 'z') || ('A' <= c <= 'Z') || ('0' <= c <= '9') || c == '_'
  }

  /** `toUpperCase` on a character `\w` matched. */
  function Upper(c: char): (u: char)
    ensures IsWordChar(c) ==> IsWordChar(u)
    ensures !('a' <= u <= 'z')
  {
    if 'a' <= c <= 'z' then (c as int - 32) as char else c
  }

  /** `replace(/_/g, ' ')`. */
  function UnderscoresToSpaces(s: string): (r: string)
    ensures |r| == |s|
    ensures forall i :: 0 <= i < |s| ==> r[i] == if s[i] == '_' then ' ' else s[i]
  {
    if s == [] then [] else [if s[0] == '_' then ' ' else s[0]] + UnderscoresToSpaces(s[1..])
  }

  /** `\b\w` matches at `i`: a word character with no word character before it. */
  predicate StartsWord(s: string, i: int)
    requires 0 <= i < |s|
  {
    IsWordChar(s[i]) && (i == 0 || !IsWordChar(s[i - 1]))
  }

  /** Whether the character before index `i` of `s` is a word character, where
      `afterWord` says whether the text before `s` ends in one. */
  predicate WordBefore(s: string, i: int, afterWord: bool)
    requires 0 <= i <= |s|
  {
    if i == 0 then afterWord else IsWordChar(s[i - 1])
  }

  /** `replace(/\b\w/g, upper)` on `s` when `afterWord` says whether the text before
      `s` ends in a word character. */
  function CapitalizeFrom(s: string, afterWord: bool): (r: string)
    ensures |r| == |s|
    ensures forall i :: 0 <= i < |s| ==>
      r[i] == if IsWordChar(s[i]) && !WordBefore(s, i, afterWord) then Upper(s[i]) else s[i]
  {
    if s == [] then []
    else
      var c := if IsWordChar(s[0]) && !afterWord then Upper(s[0]) else s[0];
      var rest := CapitalizeFrom(s[1..], IsWordChar(s[0]));
      var r := [c] + rest;
      forall i | 0 <= i < |s|
        ensures r[i] == if IsWordChar(s[i]) && !WordBefore(s, i, afterWord) then Upper(s[i]) else s[i]
      {
        if i > 0 {
          assert s[1..][i - 1] == s[i] && r[i] == rest[i - 1];
          assert WordBefore(s[1..], i - 1, IsWordChar(s[0])) == WordBefore(s, i, afterWord);
        }
      }
      r
  }

  /** `replace(/\b\w/g, upper)`: the characters that start a word are put in upper
      case, every other character is kept. */
  function Capitalize(s: string): (r: string)
    ensures |r| == |s|
    ensures forall i :: 0 <= i < |s| ==> r[i] == if StartsWord(s, i) then Upper(s[i]) else s[i]
  {
    var r := CapitalizeFrom(s, false);
    assert forall i :: 0 <= i < |s| ==> StartsWord(s, i) == (IsWordChar(s[i]) && !WordBefore(s, i, false));
    r
  }

  /** The label of an enumeration value. */
  function TitleCase(value: string): (r: string)
    ensures |r| == |value|
    ensures forall i :: 0 <= i < |r| ==> r[i] != '_'
    ensures forall i :: 0 <= i < |value| && value[i] != '_' && !IsWordChar(value[i]) ==> r[i] == value[i]
    ensures forall i :: 0 <= i < |value| && value[i] == '_' ==> r[i] == ' '
  {
    var spaced := UnderscoresToSpaces(value);
    var r := Capitalize(spaced);
    assert forall i :: 0 <= i < |r| ==> r[i] != '_' by {
      forall i | 0 <= i < |r| ensures r[i] != '_' {
        assert spaced[i] != '_';
      }
    }
    r
  }

  /** Each word of the label starts in upper case and keeps the rest of its letters. */
  lemma TitleCaseWords(value: string, i: int)
    requires 0 <= i < |value| && value[i] != '_'
    ensures var r := TitleCase(value);
      if i == 0 || value[i - 1] == '_' || !IsWordChar(value[i - 1]) then r[i] == Upper(value[i])
      else r[i] == value[i]
  {
    var spaced := UnderscoresToSpaces(value);
    assert spaced[i] == value[i];
    if i > 0 {
      assert spaced[i - 1] == if value[i - 1] == '_' then ' ' else value[i - 1];
    }
  }

  /** A label is its own label. */
  lemma TitleCaseIdempotent(value: string)
    ensures TitleCase(TitleCase(value)) == TitleCase(value)
  {
    var r := TitleCase(value);
    var spaced := UnderscoresToSpaces(value);
    var rr := TitleCase(r);
    assert UnderscoresToSpaces(r) == r;
    forall i | 0 <= i < |r| ensures rr[i] == r[i] {
      assert IsWordChar(r[i]) <==> IsWordChar(spaced[i]);
      if i > 0 {
        assert IsWordChar(r[i - 1]) <==> IsWordChar(spaced[i - 1]);
      }
    }
  }

  /** Lower-case ASCII letters, which is what the enumeration values are made of
      besides their underscores. */
  predicate LowerWord(w: string) {
    w != [] && forall i :: 0 <= i < |w| ==> 'a' <= w[i] <= 'z'
  }

  /** A one-word value gets its first letter in upper case. */
  lemma TitleCaseOneWord(w: string)
    requires LowerWord(w)
    ensures TitleCase(w) == [Upper(w[0])] + w[1..]
  {
    var r := TitleCase(w);
    forall i | 0 <= i < |w| ensures r[i] == ([Upper(w[0])] + w[1..])[i] {
      TitleCaseWords(w, i);
    }
  }

  /** A two-word value such as `in_progress` reads "In Progress". */
  lemma TitleCaseTwoWords(a: string, b: string)
    requires LowerWord(a) && LowerWord(b)
    ensures TitleCase(a + "_" + b) == [Upper(a[0])] + a[1..] + " " + [Upper(b[0])] + b[1..]
  {
    var v := a + "_" + b;
    var r := TitleCase(v);
    var e := [Upper(a[0])] + a[1..] + " " + [Upper(b[0])] + b[1..];
    forall i | 0 <= i < |v| ensures r[i] == e[i] {
      if i != |a| {
        TitleCaseWords(v, i);
        if i < |a| {
          assert v[i] == a[i];
        } else {
          assert v[i] == b[i - |a| - 1];
        }
      }
    }
  }
}
