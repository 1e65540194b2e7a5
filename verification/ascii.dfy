/**
 * The few Foundation string operations the app relies on, restricted to ASCII text:
 * `trimmingCharacters(in: .whitespaces)`, `lowercased()`, `contains(_:)` and `Int(_:)`.
 */
module Ascii {
  import opened Wrappers

  /** Within ASCII, `CharacterSet.whitespaces` holds exactly space and horizontal tab
      (unlike `.whitespacesAndNewlines`, it does not hold line breaks). */
  predicate IsBlank(ch: char) {
    ch == ' ' || ch == '\t'
  }

  ghost predicate AllBlank(s: string) {
    forall k :: 0 <= k < |s| ==> IsBlank(s[k])
  }

  /** `r` sits at offset `i` of `s` with nothing but blanks before and after it. */
  ghost predicate PaddedAt(s: string, r: string, i: int) {
    && 0 <= i && i + |r| <= |s|
    && (forall k :: 0 <= k < |r| ==> s[i + k] == r[k])
    && (forall k :: 0 <= k < i ==> IsBlank(s[k]))
    && (forall k :: i + |r| <= k < |s| ==> IsBlank(s[k]))
  }

  /** Neither end of `r` is a blank. */
  predicate NoBlankEnds(r: string) {
    r == [] || (!IsBlank(r[0]) && !IsBlank(r[|r| - 1]))
  }

  /** The index of the first non-blank at or after `i`, or `|s|` when there is none. */
  function SkipBlanks(s: string, i: nat): (j: nat)
    requires i <= |s|
    ensures i <= j <= |s|
    ensures forall k :: i <= k < j ==> IsBlank(s[k])
    ensures j == |s| || !IsBlank(s[j])
    decreases |s| - i
  {
    if i < |s| && IsBlank(s[i]) then SkipBlanks(s, i + 1) else i
  }

  /** The end of `s[lo..hi]` once its trailing blanks are dropped. */
  function SkipBlanksBack(s: string, lo: nat, hi: nat): (e: nat)
    requires lo <= hi <= |s|
    ensures lo <= e <= hi
    ensures forall k :: e <= k < hi ==> IsBlank(s[k])
    ensures e == lo || !IsBlank(s[e - 1])
    decreases hi
  {
    if lo < hi && IsBlank(s[hi - 1]) then SkipBlanksBack(s, lo, hi - 1) else hi
  }

  /** `trimmingCharacters(in: .whitespaces)`: `s` with its leading and trailing blanks removed. */
  function Trim(s: string): (r: string)
    ensures NoBlankEnds(r)
    ensures exists i :: PaddedAt(s, r, i)
  {
    var i := SkipBlanks(s, 0);
    var e := SkipBlanksBack(s, i, |s|);
    assert PaddedAt(s, s[i..e], i);
    s[i..e]
  }

  /** Two blank-free-ended texts that the same text pads are equal. */
  lemma PaddedUnique(s: string, r: string, i: int, t: string, j: int)
    requires PaddedAt(s, r, i) && NoBlankEnds(r)
    requires PaddedAt(s, t, j) && NoBlankEnds(t)
    ensures r == t
  {
    if r != [] {
      assert !IsBlank(s[i]) && !IsBlank(s[i + |r| - 1]);
    }
    if t != [] {
      assert !IsBlank(s[j]) && !IsBlank(s[j + |t| - 1]);
    }
    assert |r| == |t| && (r != [] ==> i == j);
    forall k | 0 <= k < |r|
      ensures r[k] == t[k]
    {
      assert s[i + k] == r[k] && s[j + k] == t[k];
    }
  }

  /** The trimmed text is the only text with blank-free ends that `s` pads. */
  lemma TrimUnique(s: string, r: string, i: int)
    requires PaddedAt(s, r, i) && NoBlankEnds(r)
    ensures Trim(s) == r
  {
    var t := Trim(s);
    var j :| PaddedAt(s, t, j);
    PaddedUnique(s, r, i, t, j);
  }

  /** Trimming leaves nothing exactly when the text is all blanks. */
  lemma TrimEmptyIffAllBlank(s: string)
    ensures Trim(s) == [] <==> AllBlank(s)
  {
    if AllBlank(s) {
      TrimUnique(s, [], 0);
    }
  }

  /** Trimming twice is trimming once. */
  lemma TrimIdempotent(s: string)
    ensures Trim(Trim(s)) == Trim(s)
  {
    var t := Trim(s);
    assert PaddedAt(t, t, 0);
    TrimUnique(t, t, 0);
  }

  /** Padding a padded text with more blanks keeps it padded, at a shifted offset. */
  lemma PaddedInside(s: string, t: string, j: int, before: string, after: string)
    requires PaddedAt(s, t, j) && AllBlank(before) && AllBlank(after)
    ensures PaddedAt(before + s + after, t, |before| + j)
  {
    var p := before + s + after;
    var n := |before|;
    forall k | 0 <= k < |p|
      ensures k < n ==> p[k] == before[k]
      ensures n <= k < n + |s| ==> p[k] == s[k - n]
      ensures n + |s| <= k ==> p[k] == after[k - n - |s|]
    {
    }
    forall k | 0 <= k < |t|
      ensures p[n + j + k] == t[k]
    {
      assert s[j + k] == t[k];
    }
    forall k | 0 <= k < n + j
      ensures IsBlank(p[k])
    {
      if k >= n {
        assert IsBlank(s[k - n]);
      }
    }
    forall k | n + j + |t| <= k < |p|
      ensures IsBlank(p[k])
    {
      if k < n + |s| {
        assert IsBlank(s[k - n]);
      }
    }
  }

  /** Blank padding added on either side does not change the trimmed text. */
  lemma TrimIgnoresPadding(s: string, before: string, after: string)
    requires AllBlank(before) && AllBlank(after)
    ensures Trim(before + s + after) == Trim(s)
  {
    var t := Trim(s);
    var j :| PaddedAt(s, t, j);
    PaddedInside(s, t, j, before, after);
    TrimUnique(before + s + after, t, |before| + j);
  }

  /** `Character.lowercased()` on ASCII: upper-case letters map to lower case, all else is kept. */
  function LowerChar(ch: char): char {
    if 'A' <= ch <= 'Z' then (ch as int + 32) as char else ch
  }

  /** `lowercased()`, character by character. */
  function Lower(s: string): (r: string)
    ensures |r| == |s|
    ensures forall k :: 0 <= k < |s| ==> r[k] == LowerChar(s[k])
  {
    if s == [] then [] else [LowerChar(s[0])] + Lower(s[1..])
  }

  /** Lower-casing maps blanks to blanks and nothing else to a blank. */
  lemma LowerKeepsBlanks(ch: char)
    ensures IsBlank(LowerChar(ch)) <==> IsBlank(ch)
  {
  }

  /** Trimming and lower-casing commute, so the order the app applies them in does not matter. */
  lemma LowerTrimCommute(s: string)
    ensures Lower(Trim(s)) == Trim(Lower(s))
  {
    var t := Trim(s);
    var j :| PaddedAt(s, t, j);
    var ls := Lower(s);
    var lt := Lower(t);
    forall k | 0 <= k < |lt|
      ensures ls[j + k] == lt[k]
    {
      assert s[j + k] == t[k];
    }
    forall k | 0 <= k < j
      ensures IsBlank(ls[k])
    {
      LowerKeepsBlanks(s[k]);
    }
    forall k | j + |lt| <= k < |ls|
      ensures IsBlank(ls[k])
    {
      LowerKeepsBlanks(s[k]);
    }
    assert PaddedAt(ls, lt, j);
    if lt != [] {
      LowerKeepsBlanks(t[0]);
      LowerKeepsBlanks(t[|t| - 1]);
    }
    TrimUnique(ls, lt, j);
  }

  /** `q` occurs in `s` starting at index `i`. */
  predicate OccursAt(s: string, q: string, i: int) {
    0 <= i && i + |q| <= |s| && s[i..i + |q|] == q
  }

  /** `String.contains(_:)` for a non-empty needle: some window of `s` equals `q`. */
  function Contains(s: string, q: string): (b: bool)
    ensures b <==> exists i :: OccursAt(s, q, i)
    decreases |s|
  {
    if |q| <= |s| && s[..|q|] == q then
      assert OccursAt(s, q, 0);
      true
    else if |s| == 0 then
      false
    else
      ShiftOccurrence(s, q);
      Contains(s[1..], q)
  }

  lemma ShiftOccurrence(s: string, q: string)
    requires |s| > 0
    ensures (exists i :: OccursAt(s, q, i)) <==> (OccursAt(s, q, 0) || exists i :: OccursAt(s[1..], q, i))
  {
    forall i | OccursAt(s[1..], q, i)
      ensures OccursAt(s, q, i + 1)
    {
      assert s[1..][i..i + |q|] == s[i + 1..i + 1 + |q|];
    }
    forall i | OccursAt(s, q, i) && i > 0
      ensures OccursAt(s[1..], q, i - 1)
    {
      assert s[1..][i - 1..i - 1 + |q|] == s[i..i + |q|];
    }
  }

  predicate IsDigit(ch: char) {
    '0' <= ch <= '9'
  }

  predicate AllDigits(s: string) {
    forall k :: 0 <= k < |s| ==> IsDigit(s[k])
  }

  /** The value of a run of decimal digits, most significant first. */
  function DigitsValue(s: string): nat
    requires AllDigits(s)
  {
    if s == [] then 0 else DigitsValue(s[..|s| - 1]) * 10 + (s[|s| - 1] as int - '0' as int)
  }

  const IntMin: int := -0x8000_0000_0000_0000
  const IntMax: int := 0x7FFF_FFFF_FFFF_FFFF

  /** `Int(_: String)`: an optional `+` or `-` and one or more decimal digits, whose value fits
      a 64-bit `Int`; anything else (empty text, stray characters, overflow) gives `nil`. */
  function ParseInt(s: string): (r: Option<int>)
    ensures r.Some? ==> IntMin <= r.value <= IntMax
    ensures r.Some? ==> |s| > 0 && (IsDigit(s[0]) || s[0] == '+' || s[0] == '-')
    ensures s == [] ==> r.None?
  {
    var signed := |s| > 0 && (s[0] == '+' || s[0] == '-');
    var digits := if signed then s[1..] else s;
    if digits == [] || !AllDigits(digits) then None
    else
      var v: int := if signed && s[0] == '-' then -(DigitsValue(digits) as int) else DigitsValue(digits);
      if IntMin <= v <= IntMax then Some(v) else None
  }

  /** The decimal text of `n` with no sign and no leading zeros, as `String(n)` writes it. */
  function Decimal(n: nat): string {
    var d := ['0', '1', '2', '3', '4', '5', '6', '7', '8', '9'];
    if n < 10 then [d[n]] else Decimal(n / 10) + [d[n % 10]]
  }

  lemma {:induction false} DecimalDigits(n: nat)
    ensures |Decimal(n)| > 0
    ensures AllDigits(Decimal(n)) && DigitsValue(Decimal(n)) == n
  {
    var s := Decimal(n);
    if n >= 10 {
      DecimalDigits(n / 10);
      assert s[..|s| - 1] == Decimal(n / 10);
    }
  }

  /** `Int(String(n))` gives back `n` for every non-negative `Int`. */
  lemma ParseDecimal(n: nat)
    requires n <= IntMax
    ensures ParseInt(Decimal(n)) == Some(n)
  {
    DecimalDigits(n);
  }
}
