/**
 * The city picker: a fixed catalogue of six airports, a search box that narrows the list as
 * the user types, and a row tap that reports the chosen row's title.
 */
module CitySelection {
  import opened Wrappers
  import opened Ascii

  datatype CityOption = CityOption(title: string, subtitle: string, countryCode: string)

  /** The hard-coded catalogue, in display order; two rows share the title "Lagos, Nigeria". */
  const AllCities: seq<CityOption> := [
    CityOption("Laghouat Algeria", "Laghouat", "DZ"),
    CityOption("Lagos, Nigeria", "Muritala Muhammed", "NG"),
    CityOption("Doha, Qatar", "Doha", "QA"),
    CityOption("Lagos, Nigeria", "Murtala Mohammed International", "NG"),
    CityOption("Lahore, Pakistan", "Lahore", "PK"),
    CityOption("Larnaca, Cyprus", "Larnaca", "CY")
  ]

  /** The controller's list state: the catalogue and the rows the table shows. */
  datatype Screen = Screen(all: seq<CityOption>, filtered: seq<CityOption>)

  /** `xs` is `ys` with some elements dropped and the rest kept in order. */
  ghost predicate SubsequenceOf<T>(xs: seq<T>, ys: seq<T>)
    decreases |ys|
  {
    if xs == [] then true
    else if ys == [] then false
    else if xs[0] == ys[0] then SubsequenceOf(xs[1..], ys[1..])
    else SubsequenceOf(xs, ys[1..])
  }

  /** The screen shows some of its catalogue's rows, in catalogue order. */
  ghost predicate Valid(s: Screen) {
    SubsequenceOf(s.filtered, s.all)
  }

  lemma {:induction false} SubsequenceOfSelf<T>(xs: seq<T>)
    ensures SubsequenceOf(xs, xs)
    decreases |xs|
  {
    if xs != [] {
      SubsequenceOfSelf(xs[1..]);
    }
  }

  /** `viewDidLoad`: every catalogue row is on display, in catalogue order. */
  function Load(): (s: Screen)
    ensures s.all == AllCities && s.filtered == s.all
    ensures Valid(s)
    ensures |s.filtered| == |AllCities| == 6
    ensures forall c :: c in AllCities ==> c in s.filtered
  {
    SubsequenceOfSelf(AllCities);
    Screen(AllCities, AllCities)
  }

  /** The search text as the controller uses it: a missing text counts as empty, surrounding
      blanks are dropped and letters are lower-cased. */
  function Query(text: Option<string>): (q: string)
    ensures NoBlankEnds(q)
    ensures forall k :: 0 <= k < |q| ==> !('A' <= q[k] <= 'Z')
    ensures exists i :: PaddedAt(Lower(text.GetOr("")), q, i)
  {
    var q := Lower(Trim(text.GetOr("")));
    LowerTrimCommute(text.GetOr(""));
    assert NoBlankEnds(q) by {
      if q != [] {
        LowerKeepsBlanks(Trim(text.GetOr(""))[0]);
        LowerKeepsBlanks(Trim(text.GetOr(""))[|q| - 1]);
      }
    }
    q
  }

  /** A row matches when the query occurs in its lower-cased title, subtitle or country code. */
  predicate Matches(c: CityOption, q: string) {
    Contains(Lower(c.title), q) || Contains(Lower(c.subtitle), q) || Contains(Lower(c.countryCode), q)
  }

  /** `filter`: the matching rows of `xs`, each as often as in `xs`, in their original order. */
  function Filter(xs: seq<CityOption>, q: string): (r: seq<CityOption>)
    ensures forall c :: c in r <==> c in xs && Matches(c, q)
    ensures forall c :: multiset(r)[c] == if Matches(c, q) then multiset(xs)[c] else 0
    ensures SubsequenceOf(r, xs)
    decreases |xs|
  {
    if xs == [] then []
    else
      var rest := Filter(xs[1..], q);
      assert xs == [xs[0]] + xs[1..];
      if Matches(xs[0], q) then
        assert ([xs[0]] + rest)[1..] == rest;
        [xs[0]] + rest
      else
        assert rest != [] ==> rest[0] != xs[0];
        rest
  }

  /** `searchDidChange`: an empty query shows the whole catalogue again, any other query shows
      exactly the matching catalogue rows. The catalogue itself never changes. */
  function SearchDidChange(s: Screen, text: Option<string>): (r: Screen)
    ensures r.all == s.all
    ensures Valid(r)
    ensures Query(text) == [] ==> r.filtered == s.all
    ensures Query(text) != [] ==>
      forall c :: multiset(r.filtered)[c] == if Matches(c, Query(text)) then multiset(s.all)[c] else 0
  {
    var q := Query(text);
    if q == [] then
      SubsequenceOfSelf(s.all);
      s.(filtered := s.all)
    else
      s.(filtered := Filter(s.all, q))
  }

  /** The number of rows the table shows. */
  function RowCount(s: Screen): (n: nat)
    ensures n == |s.filtered|
  {
    |s.filtered|
  }

  /** `didSelectRowAt`: the title of the tapped row is what `onSelect` reports. */
  function SelectRow(s: Screen, row: nat): (title: string)
    requires row < RowCount(s)
    ensures title == s.filtered[row].title
    ensures exists c :: c in s.filtered && c.title == title
  {
    assert s.filtered[row] in s.filtered;
    s.filtered[row].title
  }

  lemma {:induction false} SubsequenceMembers<T>(xs: seq<T>, ys: seq<T>, x: T)
    requires SubsequenceOf(xs, ys) && x in xs
    ensures x in ys
    decreases |ys|
  {
    if xs[0] == ys[0] {
      if x != xs[0] {
        SubsequenceMembers(xs[1..], ys[1..], x);
      }
    } else {
      SubsequenceMembers(xs, ys[1..], x);
    }
  }

  /** Whatever was typed, a tapped row reports the title of a catalogue city. */
  lemma SelectionIsCatalogued(s: Screen, text: Option<string>, row: nat)
    requires Valid(s) && s.all == AllCities
    requires row < RowCount(SearchDidChange(s, text))
    ensures exists c :: c in AllCities && c.title == SelectRow(SearchDidChange(s, text), row)
  {
    var r := SearchDidChange(s, text);
    SubsequenceMembers(r.filtered, r.all, r.filtered[row]);
  }

  lemma LowerCharIdempotent(ch: char)
    ensures LowerChar(LowerChar(ch)) == LowerChar(ch)
  {
  }

  /** The search ignores blanks around what was typed, and the case of what was typed. */
  lemma QueryIgnoresPaddingAndCase(text: string, before: string, after: string)
    requires AllBlank(before) && AllBlank(after)
    ensures Query(Some(before + text + after)) == Query(Some(text))
    ensures Query(Some(Lower(text))) == Query(Some(text))
    ensures forall s :: SearchDidChange(s, Some(before + text + after)) == SearchDidChange(s, Some(text))
    ensures forall s :: SearchDidChange(s, Some(Lower(text))) == SearchDidChange(s, Some(text))
  {
    TrimIgnoresPadding(text, before, after);
    LowerTrimCommute(text);
    var t := Trim(text);
    forall k | 0 <= k < |t|
      ensures Lower(Lower(t))[k] == Lower(t)[k]
    {
      LowerCharIdempotent(t[k]);
    }
  }

  /** A blank-only search, or none at all, brings back the full catalogue. */
  lemma BlankSearchResets(s: Screen, text: string)
    requires AllBlank(text)
    ensures SearchDidChange(s, Some(text)).filtered == s.all
    ensures SearchDidChange(s, None).filtered == s.all
  {
    TrimEmptyIffAllBlank(text);
  }

  /** The query " NG " is the text "ng". */
  lemma NgQuery()
    ensures Query(Some(" NG ")) == "ng"
  {
    assert PaddedAt(" NG ", "NG", 1);
    TrimUnique(" NG ", "NG", 1);
  }

  /** A row whose country code is "NG" matches the query "ng". */
  lemma NigerianCodeMatches(c: CityOption)
    requires c.countryCode == "NG"
    ensures Matches(c, "ng")
  {
    assert Lower("NG") == "ng";
    assert OccursAt("ng", "ng", 0);
  }

  /** Searching for " NG " keeps every row whose country code is "NG". */
  lemma NigerianRowsKept(s: Screen, c: CityOption)
    requires c in s.all && c.countryCode == "NG"
    ensures c in SearchDidChange(s, Some(" NG ")).filtered
  {
    NgQuery();
    NigerianCodeMatches(c);
    assert multiset(SearchDidChange(s, Some(" NG ")).filtered)[c] == multiset(s.all)[c];
  }

  /** Both Lagos rows survive a search for " NG ", duplicates included. */
  lemma LagosRowsBothMatch()
    ensures AllCities[1] in SearchDidChange(Load(), Some(" NG ")).filtered
    ensures AllCities[3] in SearchDidChange(Load(), Some(" NG ")).filtered
  {
    NigerianRowsKept(Load(), AllCities[1]);
    NigerianRowsKept(Load(), AllCities[3]);
  }

  /** The two Lagos rows report the same title, so the caller cannot tell which was tapped. */
  lemma LagosRowsIndistinguishable()
    ensures AllCities[1] != AllCities[3]
    ensures SelectRow(Load(), 1) == SelectRow(Load(), 3)
  {
  }
}
