/** Text helpers with Rust's standard-library meaning: decimal printing and
    parsing of unsigned integers, `trim`, `split`, `contains`, `starts_with`.
    Strings are sequences of Unicode scalar values. */
module Strings {
  import opened Wrappers

  predicate IsDigit(c: char) { '0' <= c <= '9' }

  predicate AllDigits(s: string) { forall i :: 0 <= i < |s| ==> IsDigit(s[i]) }

  function DigitChar(d: nat): (c: char)
    requires d < 10
    ensures IsDigit(c) && c as int - '0' as int == d
  {
    ['0', '1', '2', '3', '4', '5', '6', '7', '8', '9'][d]
  }

  /** `n.to_string()` for an unsigned integer: shortest decimal numeral. */
  function NatToString(n: nat): (s: string)
    ensures |s| > 0 && AllDigits(s)
    ensures n > 0 ==> s[0] != '0'
    decreases n
  {
    if n < 10 then [DigitChar(n)] else NatToString(n / 10) + [DigitChar(n % 10)]
  }

  /** Value of a non-empty digit string, most significant digit first. */
  function DigitsValue(s: string): nat
    requires AllDigits(s)
  {
    if s == [] then 0
    else DigitsValue(s[..|s| - 1]) * 10 + (s[|s| - 1] as int - '0' as int)
  }

  /** `s.parse::<uN>()` where `limit` is 2^N: an optional '+' sign followed by at
      least one decimal digit, and a value below `limit`. */
  function ParseUnsigned(s: string, limit: nat): (r: Option<nat>)
    ensures r.Some? ==> r.value < limit
  {
    var digits := if |s| > 0 && s[0] == '+' then s[1..] else s;
    if |digits| > 0 && AllDigits(digits) && DigitsValue(digits) < limit then Some(DigitsValue(digits))
    else None
  }

  lemma {:induction false} DigitsValueOfNatToString(n: nat)
    ensures DigitsValue(NatToString(n)) == n
    decreases n
  {
    if n >= 10 {
      var s := NatToString(n);
      assert s[..|s| - 1] == NatToString(n / 10);
      DigitsValueOfNatToString(n / 10);
    }
  }

  /** Printing then parsing an in-range unsigned integer gives it back. */
  lemma ParseOfNatToString(n: nat, limit: nat)
    requires n < limit
    ensures ParseUnsigned(NatToString(n), limit) == Some(n)
  {
    DigitsValueOfNatToString(n);
  }

  /** `char::is_whitespace`: the Unicode White_Space property, the set
      `trim` strips. */
  predicate IsWhitespace(c: char) {
    ('\t' <= c <= '\r') || c == ' ' || c == '\U{85}' || c == '\U{A0}' || c == '\U{1680}'
    || ('\U{2000}' <= c <= '\U{200A}') || c == '\U{2028}' || c == '\U{2029}' || c == '\U{202F}'
    || c == '\U{205F}' || c == '\U{3000}'
  }

  /** `str::trim_start`: leading whitespace removed. */
  function TrimStart(s: string): (r: string)
    ensures |r| <= |s|
  {
    if |s| > 0 && IsWhitespace(s[0]) then TrimStart(s[1..]) else s
  }

  /** `str::trim_end`: trailing whitespace removed. */
  function TrimEnd(s: string): (r: string)
    ensures |r| <= |s|
  {
    if |s| > 0 && IsWhitespace(s[|s| - 1]) then TrimEnd(s[..|s| - 1]) else s
  }

  /** `str::trim`: leading and trailing whitespace removed. */
  function Trim(s: string): string {
    TrimEnd(TrimStart(s))
  }

  /** `trim_start` removes a whitespace prefix and keeps the rest. */
  lemma {:induction false} TrimStartShape(s: string)
    ensures TrimStart(s) == s[|s| - |TrimStart(s)|..]
    ensures TrimStart(s) == [] || !IsWhitespace(TrimStart(s)[0])
    ensures forall i :: 0 <= i < |s| - |TrimStart(s)| ==> IsWhitespace(s[i])
    decreases |s|
  {
    if |s| > 0 && IsWhitespace(s[0]) {
      TrimStartShape(s[1..]);
    }
  }

  /** `trim_end` removes a whitespace suffix and keeps the rest. */
  lemma {:induction false} TrimEndShape(s: string)
    ensures TrimEnd(s) == s[..|TrimEnd(s)|]
    ensures TrimEnd(s) == [] || !IsWhitespace(TrimEnd(s)[|TrimEnd(s)| - 1])
    ensures forall i :: |TrimEnd(s)| <= i < |s| ==> IsWhitespace(s[i])
    decreases |s|
  {
    if |s| > 0 && IsWhitespace(s[|s| - 1]) {
      TrimEndShape(s[..|s| - 1]);
    }
  }

  function StartsWith(s: string, prefix: string): bool {
    |prefix| <= |s| && s[..|prefix|] == prefix
  }

  function EndsWith(s: string, suffix: string): bool {
    |suffix| <= |s| && s[|s| - |suffix|..] == suffix
  }

  predicate OccursAt(s: string, pat: string, i: nat) {
    i + |pat| <= |s| && s[i..i + |pat|] == pat
  }

  /** `str::find`: index of the first occurrence of `pat`. */
  function Find(s: string, pat: string, from: nat := 0): (r: Option<nat>)
    requires from <= |s|
    ensures r.Some? ==> from <= r.value && OccursAt(s, pat, r.value)
    ensures r.Some? ==> forall i :: from <= i < r.value ==> !OccursAt(s, pat, i)
    ensures r.None? ==> forall i :: from <= i <= |s| ==> !OccursAt(s, pat, i)
    decreases |s| - from
  {
    if OccursAt(s, pat, from) then Some(from)
    else if from == |s| then None
    else Find(s, pat, from + 1)
  }

  /** `str::contains` */
  function Contains(s: string, pat: string): bool {
    Find(s, pat).Some?
  }

  /** Index of the first occurrence of the character `c`. */
  function IndexOf(s: string, c: char): (r: Option<nat>)
    ensures r.Some? ==> r.value < |s| && s[r.value] == c && c !in s[..r.value]
    ensures r.Some? ==> forall k :: 0 <= k < r.value ==> s[k] != c
    ensures r.None? ==> c !in s
  {
    if |s| == 0 then None
    else if s[0] == c then Some(0)
    else match IndexOf(s[1..], c)
      case Some(i) => Some(i + 1)
      case None => None
  }

  /** Index of the last occurrence of the character `c`. */
  function LastIndexOf(s: string, c: char): (r: Option<nat>)
    ensures r.Some? ==> r.value < |s| && s[r.value] == c && c !in s[r.value + 1..]
    ensures r.None? ==> c !in s
  {
    if |s| == 0 then None
    else if s[|s| - 1] == c then Some(|s| - 1)
    else LastIndexOf(s[..|s| - 1], c)
  }

  /** `str::split(c)`: the pieces between occurrences of `c`; never empty. */
  function Split(s: string, c: char): (pieces: seq<string>)
    ensures |pieces| > 0
    ensures c !in s ==> pieces == [s]
    decreases |s|
  {
    match IndexOf(s, c)
    case None => [s]
    case Some(i) => [s[..i]] + Split(s[i + 1..], c)
  }

  /** A character of a slice is a character of the whole. */
  lemma SliceChar(s: string, a: nat, b: nat, ch: char)
    requires a <= b <= |s| && ch in s[a..b]
    ensures ch in s
  {
    var k :| 0 <= k < b - a && s[a..b][k] == ch;
    assert s[a + k] == ch;
  }

  /** A character of a suffix is a character of the whole. */
  lemma DropChar(s: string, a: nat, ch: char)
    requires a <= |s| && ch in s[a..]
    ensures ch in s
  {
    var k :| 0 <= k < |s| - a && s[a..][k] == ch;
    assert s[a + k] == ch;
  }

  /** Splitting at a first separator `i`: the piece before it, then the
      pieces of the rest. */
  lemma SplitAtFirst(s: string, c: char, i: nat)
    requires IndexOf(s, c) == Some(i)
    ensures Split(s, c) == [s[..i]] + Split(s[i + 1..], c)
  {
  }

  /** Every character of every piece comes from the split string. */
  lemma {:induction false} SplitPieceChars(s: string, c: char, j: nat, ch: char)
    requires j < |Split(s, c)| && ch in Split(s, c)[j]
    ensures ch in s
    decreases |s|
  {
    match IndexOf(s, c)
    case None =>
    case Some(i) =>
      SplitAtFirst(s, c, i);
      var rest := Split(s[i + 1..], c);
      ConsPiece(s[..i], rest, Split(s, c), j);
      if j == 0 {
        SliceChar(s, 0, i, ch);
      } else {
        SplitPieceChars(s[i + 1..], c, j - 1, ch);
        DropChar(s, i + 1, ch);
      }
  }

  lemma ConsPiece(first: string, rest: seq<string>, whole: seq<string>, j: nat)
    requires whole == [first] + rest && j < |whole|
    ensures j == 0 ==> whole[j] == first
    ensures j > 0 ==> j - 1 < |rest| && whole[j] == rest[j - 1]
  {
  }


  /** No piece contains the separator. */
  lemma {:induction false} SplitPieceFree(s: string, c: char, j: nat)
    requires j < |Split(s, c)|
    ensures c !in Split(s, c)[j]
    decreases |s|
  {
    match IndexOf(s, c)
    case None =>
    case Some(i) =>
      SplitAtFirst(s, c, i);
      if j > 0 {
        SplitPieceFree(s[i + 1..], c, j - 1);
      }
  }

  /** The text after the last `c`, or all of `s` when `c` does not occur:
      a `c`-free suffix that is the whole of `s` or follows a `c`. */
  function LastSegment(s: string, c: char): (r: string)
    ensures |r| <= |s| && r == s[|s| - |r|..] && c !in r
    ensures |r| < |s| ==> s[|s| - |r| - 1] == c
  {
    match LastIndexOf(s, c)
    case Some(i) => s[i + 1..]
    case None => s
  }

  /** The last piece of `split(c)` is a `c`-free suffix that is the whole
      string or follows a `c`. */
  lemma {:induction false} SplitLastSuffix(s: string, c: char)
    ensures var last := Split(s, c)[|Split(s, c)| - 1];
      |last| <= |s| && last == s[|s| - |last|..]
      && (|last| < |s| ==> s[|s| - |last| - 1] == c)
    decreases |s|
  {
    match IndexOf(s, c)
    case None =>
    case Some(i) =>
      var rest := s[i + 1..];
      SplitAtFirst(s, c, i);
      SplitLastSuffix(rest, c);
      var last := Split(rest, c)[|Split(rest, c)| - 1];
      assert Split(s, c)[|Split(s, c)| - 1] == last;
      assert rest[|rest| - |last|..] == s[|s| - |last|..];
      if |last| < |rest| {
        assert s[|s| - |last| - 1] == rest[|rest| - |last| - 1];
      }
  }

  /** Only one suffix has the shape of `LastSegment`. */
  lemma LastSegmentUnique(s: string, c: char, r: string)
    requires |r| <= |s| && r == s[|s| - |r|..] && c !in r
    requires |r| < |s| ==> s[|s| - |r| - 1] == c
    ensures r == LastSegment(s, c)
  {
  }

  /** The last piece of `split(c)` is the text after the last `c`. */
  lemma SplitLastIsLastSegment(s: string, c: char)
    ensures Split(s, c)[|Split(s, c)| - 1] == LastSegment(s, c)
  {
    SplitLastSuffix(s, c);
    SplitPieceFree(s, c, |Split(s, c)| - 1);
    LastSegmentUnique(s, c, Split(s, c)[|Split(s, c)| - 1]);
  }

  /** There is a single piece exactly when the separator does not occur. */
  lemma SplitSingle(s: string, c: char)
    ensures |Split(s, c)| == 1 <==> c !in s
  {
    match IndexOf(s, c)
    case None =>
    case Some(i) =>
      SplitAtFirst(s, c, i);
  }

  /** Concatenation of `pieces` with `sep` between consecutive pieces. */
  function Join(pieces: seq<string>, sep: string): string {
    if |pieces| == 0 then ""
    else if |pieces| == 1 then pieces[0]
    else pieces[0] + sep + Join(pieces[1..], sep)
  }

  lemma JoinStep(s: string, c: char, i: nat, rest: seq<string>)
    requires i < |s| && s[i] == c && |rest| > 0 && Join(rest, [c]) == s[i + 1..]
    ensures Join([s[..i]] + rest, [c]) == s
  {
    assert ([s[..i]] + rest)[1..] == rest;
    assert s == s[..i] + [c] + s[i + 1..];
  }

  /** Splitting loses nothing: joining the pieces with the separator rebuilds `s`. */
  lemma {:induction false} JoinSplit(s: string, c: char)
    ensures Join(Split(s, c), [c]) == s
    decreases |s|
  {
    match IndexOf(s, c)
    case None =>
    case Some(i) =>
      SplitAtFirst(s, c, i);
      JoinSplit(s[i + 1..], c);
      JoinStep(s, c, i, Split(s[i + 1..], c));
  }

  /** The first occurrence is the only index that IndexOf can return. */
  lemma {:induction false} IndexOfFirst(s: string, c: char, i: nat)
    requires i < |s| && s[i] == c
    requires forall k :: 0 <= k < i ==> s[k] != c
    ensures IndexOf(s, c) == Some(i)
  {
    if i > 0 {
      IndexOfFirst(s[1..], c, i - 1);
    }
  }

  /** The first separator of `x + t` is that of `x` when `x` has one. */
  lemma IndexOfPrefix(x: string, t: string, c: char, i: nat)
    requires IndexOf(x, c) == Some(i)
    ensures IndexOf(x + t, c) == Some(i)
  {
    var s := x + t;
    forall k | 0 <= k < i
      ensures s[k] != c
    {
      assert s[k] == x[k];
    }
    assert s[i] == x[i];
    IndexOfFirst(s, c, i);
  }

  /** The separator placed right after a separator-free `x` is the first. */
  lemma IndexOfAfter(x: string, c: char, y: string)
    requires c !in x
    ensures IndexOf(x + [c] + y, c) == Some(|x|)
  {
    var s := x + [c] + y;
    forall k | 0 <= k < |x|
      ensures s[k] != c
    {
      assert s[k] == x[k];
    }
    IndexOfFirst(s, c, |x|);
  }

  /** Splitting at a separator occurrence splits the two sides independently. */
  lemma {:induction false} SplitAround(x: string, c: char, y: string)
    ensures Split(x + [c] + y, c) == Split(x, c) + Split(y, c)
    decreases |x|
  {
    var s := x + [c] + y;
    match IndexOf(x, c)
    case None =>
      IndexOfAfter(x, c, y);
      SplitAroundFirst(x, c, y);
    case Some(i) =>
      IndexOfPrefix(x, [c] + y, c, i);
      assert x + ([c] + y) == s;
      SplitAround(x[i + 1..], c, y);
      SplitAroundLater(x, c, y, i);
  }

  lemma SplitAroundFirst(x: string, c: char, y: string)
    requires c !in x && IndexOf(x + [c] + y, c) == Some(|x|)
    ensures Split(x + [c] + y, c) == Split(x, c) + Split(y, c)
  {
    var s := x + [c] + y;
    SplitAtFirst(s, c, |x|);
    assert s[..|x|] == x;
    assert s[|x| + 1..] == y;
  }

  lemma SplitAroundLater(x: string, c: char, y: string, i: nat)
    requires IndexOf(x, c) == Some(i) && IndexOf(x + [c] + y, c) == Some(i)
    requires Split(x[i + 1..] + [c] + y, c) == Split(x[i + 1..], c) + Split(y, c)
    ensures Split(x + [c] + y, c) == Split(x, c) + Split(y, c)
  {
    var s := x + [c] + y;
    SplitAtFirst(s, c, i);
    SplitAtFirst(x, c, i);
    AroundSlices(x, c, y, i);
    GlueFirst(x[..i], Split(x[i + 1..], c), Split(y, c), Split(s, c), Split(x, c));
  }

  lemma AroundSlices(x: string, c: char, y: string, i: nat)
    requires i < |x|
    ensures (x + [c] + y)[..i] == x[..i]
    ensures (x + [c] + y)[i + 1..] == x[i + 1..] + [c] + y
  {
  }

  lemma GlueFirst(a: string, rx: seq<string>, ry: seq<string>, whole: seq<string>, left: seq<string>)
    requires whole == [a] + (rx + ry) && left == [a] + rx
    ensures whole == left + ry
  {
  }




  /** Concatenation of a sequence of strings. */
  function Concat(parts: seq<string>): string {
    if |parts| == 0 then "" else Concat(parts[..|parts| - 1]) + parts[|parts| - 1]
  }

  /** Rust's `Ord` on strings: lexicographic by character, a proper prefix first. */
  predicate StrLe(a: string, b: string)
    decreases |a|
  {
    |a| == 0 || (|b| > 0 && (a[0] < b[0] || (a[0] == b[0] && StrLe(a[1..], b[1..]))))
  }

  lemma {:induction false} StrLeTotal(a: string, b: string)
    ensures StrLe(a, b) || StrLe(b, a)
    decreases |a|
  {
    if |a| > 0 && |b| > 0 && a[0] == b[0] {
      StrLeTotal(a[1..], b[1..]);
    }
  }

  lemma {:induction false} StrLeAntisymmetric(a: string, b: string)
    requires StrLe(a, b) && StrLe(b, a)
    ensures a == b
    decreases |a|
  {
    if |a| > 0 {
      StrLeAntisymmetric(a[1..], b[1..]);
      assert a == [a[0]] + a[1..] && b == [b[0]] + b[1..];
    }
  }

  lemma {:induction false} StrLeTransitive(a: string, b: string, c: string)
    requires StrLe(a, b) && StrLe(b, c)
    ensures StrLe(a, c)
    decreases |a|
  {
    if |a| > 0 && a[0] == b[0] && b[0] == c[0] {
      StrLeTransitive(a[1..], b[1..], c[1..]);
    }
  }

  /** Neighbours in order. */
  predicate SortedStrings(s: seq<string>) {
    forall i :: 0 < i < |s| ==> StrLe(s[i - 1], s[i])
  }

  /** Inserts `x` ahead of the first element not below it. */
  function InsertString(x: string, s: seq<string>): (r: seq<string>)
    ensures multiset(r) == multiset(s) + multiset{x} && |r| == |s| + 1
    ensures r[0] == x || (|s| > 0 && r[0] == s[0])
  {
    if |s| == 0 || StrLe(x, s[0]) then [x] + s
    else
      assert s == [s[0]] + s[1..];
      [s[0]] + InsertString(x, s[1..])
  }

  lemma {:induction false} InsertStringSorted(x: string, s: seq<string>)
    requires SortedStrings(s)
    ensures SortedStrings(InsertString(x, s))
  {
    if |s| > 0 && !StrLe(x, s[0]) {
      StrLeTotal(x, s[0]);
      var rest := InsertString(x, s[1..]);
      InsertStringSorted(x, s[1..]);
      var r := [s[0]] + rest;
      assert r == InsertString(x, s);
      forall i | 0 < i < |r|
        ensures StrLe(r[i - 1], r[i])
      {
        if i > 1 {
          assert r[i - 1] == rest[i - 2] && r[i] == rest[i - 1];
        }
      }
    }
  }

  /** `sort()` on a vector of strings, as an insertion sort. */
  function SortStrings(s: seq<string>): (r: seq<string>)
    ensures multiset(r) == multiset(s) && |r| == |s|
    ensures SortedStrings(r)
  {
    if |s| == 0 then []
    else
      assert s == [s[0]] + s[1..];
      InsertStringSorted(s[0], SortStrings(s[1..]));
      InsertString(s[0], SortStrings(s[1..]))
  }

  /** No element occurs twice. */
  predicate Distinct<T(==)>(s: seq<T>) {
    forall i, j :: 0 <= i < j < |s| ==> s[i] != s[j]
  }

  lemma {:induction false} DistinctCountsOnce<T>(s: seq<T>, x: T)
    requires Distinct(s)
    ensures multiset(s)[x] <= 1
  {
    if |s| > 0 {
      var init := s[..|s| - 1];
      assert s == init + [s[|s| - 1]];
      assert Distinct(init);
      DistinctCountsOnce(init, x);
      if x == s[|s| - 1] {
        assert x !in init;
      }
    }
  }

  /** A permutation of a sequence without duplicates has none either. */
  lemma DistinctPermutation<T>(s: seq<T>, t: seq<T>)
    requires multiset(s) == multiset(t) && Distinct(t)
    ensures Distinct(s)
  {
    forall i, j | 0 <= i < j < |s|
      ensures s[i] != s[j]
    {
      DistinctCountsOnce(t, s[i]);
      assert s == s[..j] + [s[j]] + s[j + 1..];
      assert s[i] in s[..j];
    }
  }
}
