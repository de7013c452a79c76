/** The experts page (src/pages/Experts/ExpertsList.tsx): the type label and phone
    shown on each expert's card, and the choice between the empty state and the grid
    of cards. */
module ExpertsList {
  import opened Wrappers
  import opened ExpertModel
  import Text

  /** An expert as the page holds it (src/pages/Experts/types.ts). */
  datatype ListedExpert = ListedExpert(
    id: string,
    name: string,
    phoneNumber: string,
    expertType: ExpertType,
    company: Option<string>,
    notes: Option<string>)

  /** The index of the first `c` in `s`. */
  function FirstIndex(s: string, c: char): (r: Option<nat>)
    ensures r.Some? ==> r.value < |s| && s[r.value] == c && forall i :: 0 <= i < r.value ==> s[i] != c
    ensures r.None? ==> forall i :: 0 <= i < |s| ==> s[i] != c
  {
    if s == [] then None
    else if s[0] == c then Some(0)
    else match FirstIndex(s[1..], c)
      case None => None
      case Some(k) => Some(k + 1)
  }

  /** `s.replace(from, to)` with a one-character string pattern: only the first
      occurrence is replaced. */
  function ReplaceFirst(s: string, from: char, to: char): (r: string)
    ensures |r| == |s|
    ensures match FirstIndex(s, from)
      case None => r == s
      case Some(k) => r == s[..k] + [to] + s[k + 1..]
  {
    if s == [] then []
    else if s[0] == from then [to] + s[1..]
    else
      var rest := ReplaceFirst(s[1..], from, to);
      match FirstIndex(s[1..], from)
      case None => [s[0]] + rest
      case Some(k) =>
        assert s[..k + 1] == [s[0]] + s[1..][..k];
        assert s[k + 2..] == s[1..][k + 1..];
        [s[0]] + rest
  }

  /** `formatExpertType(type)`: `type.replace('_', ' ')`. */
  function FormatExpertType(t: string): (r: string)
    ensures |r| == |t|
    ensures forall i :: 0 <= i < |t| ==> r[i] == (if FirstIndex(t, '_') == Some(i) then ' ' else t[i])
  {
    ReplaceFirst(t, '_', ' ')
  }

  /** `formatPhone(phone)`: the number as stored; no formatting is applied. */
  function FormatPhone(phone: string): (r: string)
    ensures r == phone
  {
    phone
  }

  /** The label has the value's length, changes only its first underscore, and a
      value with at most one underscore shows none. */
  lemma FormatExpertTypeSpaces(t: string)
    ensures |FormatExpertType(t)| == |t|
    ensures (forall i :: 0 <= i < |t| ==> t[i] != '_') ==> FormatExpertType(t) == t
    ensures (forall i, j :: 0 <= i < j < |t| ==> t[i] != '_' || t[j] != '_') ==>
      forall i :: 0 <= i < |t| ==> FormatExpertType(t)[i] != '_'
  {
    var r := FormatExpertType(t);
    if FirstIndex(t, '_').Some? {
      var k := FirstIndex(t, '_').value;
      assert forall i :: 0 <= i < |t| && i != k ==> r[i] == t[i];
    }
  }

  /** Each type value holds at most one underscore, so every type is shown without
      one; `insurance_agent` reads "insurance agent". */
  lemma TypeLabelsHaveNoUnderscore(t: ExpertType)
    ensures forall i :: 0 <= i < |TypeText(t)| ==> FormatExpertType(TypeText(t))[i] != '_'
    ensures t != InsuranceAgent ==> FormatExpertType(TypeText(t)) == TypeText(t)
  {
    var s := TypeText(t);
    if t == InsuranceAgent {
      assert forall i :: 0 <= i < |s| && i != 9 ==> s[i] != '_';
    } else {
      assert forall i :: 0 <= i < |s| ==> s[i] != '_';
    }
    FormatExpertTypeSpaces(s);
  }

  /** What one card shows; a company or notes line appears only when set and non-empty. */
  datatype Card = Card(
    name: string,
    typeLabel: string,
    phone: string,
    company: Option<string>,
    notes: Option<string>,
    editLink: string,
    callLink: string)

  function CardOf(e: ListedExpert): Card {
    Card(e.name, FormatExpertType(TypeText(e.expertType)), FormatPhone(e.phoneNumber),
         if Text.Truthy(e.company) then e.company else None,
         if Text.Truthy(e.notes) then e.notes else None,
         "/experts/" + e.id, "/initiate-call?expert=" + e.id)
  }

  datatype View = EmptyState | Grid(cards: seq<Card>)

  /** The page once loaded: the empty state exactly when there are no experts,
      otherwise one card per expert in list order, each showing the phone number as
      stored and a type label free of underscores. */
  function Render(experts: seq<ListedExpert>): (v: View)
    ensures v.EmptyState? <==> experts == []
    ensures v.Grid? ==> |v.cards| == |experts|
    ensures v.Grid? ==> forall i :: 0 <= i < |experts| ==>
      && v.cards[i].name == experts[i].name
      && v.cards[i].phone == experts[i].phoneNumber
      && |v.cards[i].typeLabel| == |TypeText(experts[i].expertType)|
      && (forall k :: 0 <= k < |v.cards[i].typeLabel| ==> v.cards[i].typeLabel[k] != '_')
      && (v.cards[i].company.Some? <==> Text.Truthy(experts[i].company))
      && (v.cards[i].notes.Some? <==> Text.Truthy(experts[i].notes))
  {
    if experts == [] then EmptyState
    else
      var cards := seq(|experts|, i requires 0 <= i < |experts| => CardOf(experts[i]));
      assert forall i :: 0 <= i < |experts| ==> forall k :: 0 <= k < |cards[i].typeLabel| ==> cards[i].typeLabel[k] != '_' by {
        forall i | 0 <= i < |experts| {
          TypeLabelsHaveNoUnderscore(experts[i].expertType);
        }
      }
      Grid(cards)
  }
}
