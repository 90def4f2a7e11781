/**
 * The string operations the pipeline relies on, written out with the
 * semantics of the Python built-ins it calls: `str.split(',')`,
 * `str.split()`, `str.lower()`, `in` on strings, `str(n)`, `f"{n:,}"`
 * and `f"{n:02d}"`.
 */
module Text {

  // ---------------------------------------------------------------------
  // Characters
  // ---------------------------------------------------------------------

  /** Python's `str.isspace()`: the characters `str.split()` splits on. */
  predicate IsSpace(c: char) {
    c == ' ' || ('\U{9}' <= c <= '\U{D}') || ('\U{1C}' <= c <= '\U{1F}')
    || c == '\U{85}' || c == '\U{A0}' || c == '\U{1680}'
    || ('\U{2000}' <= c <= '\U{200A}') || c == '\U{2028}' || c == '\U{2029}'
    || c == '\U{202F}' || c == '\U{205F}' || c == '\U{3000}'
  }

  predicate IsDigit(c: char) {
    '0' <= c <= '9'
  }

  function DigitChar(d: nat): (c: char)
    requires d < 10
    ensures IsDigit(c) && DigitOf(c) == d
  {
    ('0' as int + d) as char
  }

  function DigitOf(c: char): int {
    c as int - '0' as int
  }

  /** `str.lower()` restricted to ASCII letters. */
  function LowerChar(c: char): (l: char)
    ensures 'A' <= c <= 'Z' ==> l as int == c as int + 32
    ensures !('A' <= c <= 'Z') ==> l == c
  {
    if 'A' <= c <= 'Z' then (c as int + 32) as char else c
  }

  function Lower(s: string): (l: string)
    ensures |l| == |s|
    ensures forall i :: 0 <= i < |s| ==> l[i] == LowerChar(s[i])
  {
    if s == [] then [] else [LowerChar(s[0])] + Lower(s[1..])
  }

  /** Lower-casing cannot introduce a lower-case letter whose two cases are both absent. */
  lemma LowerAvoids(s: string, c: char)
    requires 'a' <= c <= 'z'
    requires c !in s && (c as int - 32) as char !in s
    ensures c !in Lower(s)
  {
  }

  /**
   * Python's `needle in haystack` on strings: the needle starts the
   * haystack, or occurs in what follows its first character.
   */
  predicate Contains(haystack: string, needle: string)
    decreases |haystack|
  {
    |needle| <= |haystack|
    && (haystack[..|needle|] == needle || (|haystack| > 0 && Contains(haystack[1..], needle)))
  }

  /** The needle occurs in the haystack starting at position `i`. */
  predicate OccursAt(haystack: string, needle: string, i: int) {
    0 <= i <= |haystack| - |needle| && haystack[i..i + |needle|] == needle
  }

  /** `needle in haystack` holds exactly when the needle occurs at some position. */
  lemma {:induction false} ContainsOccurs(haystack: string, needle: string)
    ensures Contains(haystack, needle) <==> exists i :: OccursAt(haystack, needle, i)
    decreases |haystack|
  {
    if |needle| <= |haystack| && haystack[..|needle|] != needle && |haystack| > 0 {
      var rest := haystack[1..];
      ContainsOccurs(rest, needle);
      if i :| OccursAt(rest, needle, i) {
        assert haystack[i + 1..i + 1 + |needle|] == rest[i..i + |needle|];
        assert OccursAt(haystack, needle, i + 1);
      }
      if i :| OccursAt(haystack, needle, i) {
        assert i != 0 by { assert haystack[..|needle|] == haystack[0..|needle|]; }
        forall k | 0 <= k < |needle|
          ensures rest[i - 1 + k] == needle[k]
        {
          assert haystack[i..i + |needle|][k] == haystack[i + k];
        }
        assert rest[i - 1..i - 1 + |needle|] == needle;
        assert OccursAt(rest, needle, i - 1);
      }
    } else if |needle| <= |haystack| && haystack[..|needle|] == needle {
      assert OccursAt(haystack, needle, 0);
    }
  }

  /** A needle with a character the haystack lacks does not occur in it. */
  lemma ContainsNeeds(haystack: string, needle: string, c: char)
    requires c in needle && c !in haystack
    ensures !Contains(haystack, needle)
  {
    ContainsOccurs(haystack, needle);
  }

  /** Python's `any(w in text for w in words)`. */
  predicate ContainsAny(text: string, words: seq<string>) {
    |words| > 0 && (Contains(text, words[0]) || ContainsAny(text, words[1..]))
  }

  // ---------------------------------------------------------------------
  // str.split(sep): every separator cuts, empty pieces are kept
  // ---------------------------------------------------------------------

  function Split(s: string, sep: char): (parts: seq<string>)
    ensures |parts| >= 1
    ensures forall k :: 0 <= k < |parts| ==> sep !in parts[k]
  {
    if s == [] then [[]]
    else
      var rest := Split(s[1..], sep);
      if s[0] == sep then [[]] + rest
      else [[s[0]] + rest[0]] + rest[1..]
  }

  /** `sep.join(parts)`, the inverse of `Split`. */
  function Join(parts: seq<string>, sep: char): string
    requires |parts| >= 1
  {
    if |parts| == 1 then parts[0] else parts[0] + [sep] + Join(parts[1..], sep)
  }

  /** Splitting on a character gives one more piece than it has occurrences. */
  lemma {:induction false} SplitCount(s: string, sep: char)
    ensures |Split(s, sep)| == multiset(s)[sep] + 1
  {
    if s != [] {
      SplitCount(s[1..], sep);
      assert s == [s[0]] + s[1..];
      assert multiset(s) == multiset{s[0]} + multiset(s[1..]);
    }
  }

  /** Joining the pieces back with the separator restores the text. */
  lemma {:induction false} JoinSplit(s: string, sep: char)
    ensures Join(Split(s, sep), sep) == s
  {
    if s != [] {
      JoinSplit(s[1..], sep);
      var rest := Split(s[1..], sep);
      if s[0] == sep {
        assert Split(s, sep) == [[]] + rest;
        assert ([[]] + rest)[1..] == rest;
      } else {
        var parts := Split(s, sep);
        assert parts == [[s[0]] + rest[0]] + rest[1..];
        if |rest| == 1 {
          assert rest == [rest[0]];
        } else {
          assert parts[1..] == rest[1..];
          assert Join(rest, sep) == rest[0] + [sep] + Join(rest[1..], sep);
        }
      }
    }
  }

  /** Text without the separator is one piece. */
  lemma {:induction false} SplitNone(s: string, sep: char)
    requires sep !in s
    ensures Split(s, sep) == [s]
  {
    if s != [] {
      SplitNone(s[1..], sep);
      assert [s[0]] + s[1..] == s;
    }
  }

  /** One separator between two pieces without it cuts the text into exactly those pieces. */
  lemma {:induction false} SplitAround(a: string, sep: char, b: string)
    requires sep !in a && sep !in b
    ensures Split(a + [sep] + b, sep) == [a, b]
  {
    var s := a + [sep] + b;
    if a == [] {
      assert s[1..] == b;
      SplitNone(b, sep);
    } else {
      assert s[1..] == a[1..] + [sep] + b;
      SplitAround(a[1..], sep, b);
      assert [a[0]] + a[1..] == a;
    }
  }

  /** A character outside the alphabet a text is written in does not occur in it. */
  lemma OutsideAlphabet(s: string, alphabet: set<char>, c: char)
    requires forall i :: 0 <= i < |s| ==> s[i] in alphabet
    requires c !in alphabet
    ensures c !in s
  {
  }

  /** A first piece without the separator, then the separator, comes off as the first piece. */
  lemma {:induction false} SplitFirst(a: string, sep: char, b: string)
    requires sep !in a
    ensures Split(a + [sep] + b, sep) == [a] + Split(b, sep)
  {
    var s := a + [sep] + b;
    if a == [] {
      assert s[1..] == b;
    } else {
      assert s[1..] == a[1..] + [sep] + b;
      SplitFirst(a[1..], sep, b);
      assert [a[0]] + a[1..] == a;
    }
  }

  /** Splitting pieces joined with a separator none of them contains gives the pieces back. */
  lemma {:induction false} SplitJoin(parts: seq<string>, sep: char)
    requires |parts| >= 1
    requires forall k :: 0 <= k < |parts| ==> sep !in parts[k]
    ensures Split(Join(parts, sep), sep) == parts
  {
    if |parts| == 1 {
      SplitNone(parts[0], sep);
    } else {
      SplitJoin(parts[1..], sep);
      SplitFirst(parts[0], sep, Join(parts[1..], sep));
      assert [parts[0]] + parts[1..] == parts;
    }
  }

  // ---------------------------------------------------------------------
  // str.split(): maximal runs of non-whitespace
  // ---------------------------------------------------------------------

  /** Length of the leading run of non-whitespace characters. */
  function TokenLength(s: string): (n: nat)
    ensures n <= |s|
    ensures forall j :: 0 <= j < n ==> !IsSpace(s[j])
    ensures n == |s| || IsSpace(s[n])
  {
    if s == [] || IsSpace(s[0]) then 0 else 1 + TokenLength(s[1..])
  }

  function Words(s: string): (ws: seq<string>)
    ensures forall k :: 0 <= k < |ws| ==> ws[k] != []
    ensures forall k, j :: 0 <= k < |ws| && 0 <= j < |ws[k]| ==> !IsSpace(ws[k][j])
    decreases |s|
  {
    if s == [] then []
    else if IsSpace(s[0]) then Words(s[1..])
    else
      var n := TokenLength(s);
      [s[..n]] + Words(s[n..])
  }

  /**
   * The number of positions where a run of non-whitespace begins, scanning
   * left to right; `afterSpace` says whether the text before `s` ended in
   * whitespace (or there was none).
   */
  function RunStarts(s: string, afterSpace: bool): nat {
    if s == [] then 0
    else (if afterSpace && !IsSpace(s[0]) then 1 else 0) + RunStarts(s[1..], IsSpace(s[0]))
  }

  lemma {:induction false} RunStartsSkipToken(t: string, k: nat)
    requires k <= |t|
    requires forall j :: 0 <= j < k ==> !IsSpace(t[j])
    requires k == |t| || IsSpace(t[k])
    ensures RunStarts(t, false) == RunStarts(t[k..], true)
  {
    if k == 0 {
      assert t[k..] == t;
    } else {
      RunStartsSkipToken(t[1..], k - 1);
      assert t[1..][k - 1..] == t[k..];
    }
  }

  /** `len(s.split())` counts the maximal runs of non-whitespace. */
  lemma {:induction false} WordsCountRuns(s: string)
    ensures |Words(s)| == RunStarts(s, true)
    decreases |s|
  {
    if s != [] {
      if IsSpace(s[0]) {
        WordsCountRuns(s[1..]);
      } else {
        var n := TokenLength(s);
        WordsCountRuns(s[n..]);
        RunStartsSkipToken(s[1..], n - 1);
        assert s[1..][n - 1..] == s[n..];
      }
    }
  }

  /** `s.split()` is empty exactly when `s` is empty or all whitespace. */
  lemma {:induction false} WordsEmpty(s: string)
    ensures Words(s) == [] <==> forall i :: 0 <= i < |s| ==> IsSpace(s[i])
    decreases |s|
  {
    if s != [] {
      if IsSpace(s[0]) {
        WordsEmpty(s[1..]);
        assert forall i :: 1 <= i < |s| ==> s[i] == s[1..][i - 1];
      }
    }
  }

  // ---------------------------------------------------------------------
  // Integer rendering: str(n), f"{n:,}", f"{n:02d}"
  // ---------------------------------------------------------------------

  /** `str(n)` for a natural number. */
  function Decimal(n: nat): (s: string)
    ensures |s| >= 1
  {
    if n < 10 then [DigitChar(n)] else Decimal(n / 10) + [DigitChar(n % 10)]
  }

  /** `str(i)` for any integer. */
  function IntText(i: int): string {
    if i < 0 then "-" + Decimal(-i) else Decimal(i)
  }

  /** `f"{r:02d}"` for 0 <= r < 100. */
  function Pad2(r: nat): (s: string)
    requires r < 100
    ensures |s| == 2
  {
    [DigitChar(r / 10), DigitChar(r % 10)]
  }

  /** Reading the two padded digits back gives the number. */
  lemma Pad2Value(r: nat)
    requires r < 100
    ensures DigitsValue(Pad2(r)) == r
  {
    var s := Pad2(r);
    var first := [DigitChar(r / 10)];
    assert s[..|s| - 1] == first;
    assert first[..|first| - 1] == [];
    assert DigitsValue(first) == r / 10;
    assert DigitsValue(s) == (r / 10) * 10 + r % 10;
  }

  /** `str(i)` is made of digits and a leading sign only. */
  lemma IntTextChars(i: int)
    ensures forall k :: 0 <= k < |IntText(i)| ==> IsDigit(IntText(i)[k]) || IntText(i)[k] == '-'
  {
    if i < 0 {
      DecimalDigits(-i);
      assert forall k :: 1 <= k < |IntText(i)| ==> IntText(i)[k] == Decimal(-i)[k - 1];
    } else {
      DecimalDigits(i);
    }
  }

  /** Three zero-padded digits, one thousands group. */
  function Pad3(r: nat): (s: string)
    requires r < 1000
    ensures |s| == 3
  {
    [DigitChar(r / 100), DigitChar(r / 10 % 10), DigitChar(r % 10)]
  }

  /** `f"{n:,}"` for a natural number. */
  function Grouped(n: nat): (s: string)
    ensures |s| >= 1
  {
    if n < 1000 then Decimal(n) else Grouped(n / 1000) + [','] + Pad3(n % 1000)
  }

  /** `f"{i:,}"` for any integer. */
  function GroupedInt(i: int): string {
    if i < 0 then "-" + Grouped(-i) else Grouped(i)
  }

  /** Reads the digits of `s` as a decimal number, skipping thousands separators. */
  function DigitsValue(s: string): int {
    if s == [] then 0
    else if s[|s| - 1] == ',' then DigitsValue(s[..|s| - 1])
    else DigitsValue(s[..|s| - 1]) * 10 + DigitOf(s[|s| - 1])
  }

  /** Reads an optionally signed decimal number. */
  function IntValue(s: string): int {
    if |s| > 0 && s[0] == '-' then -DigitsValue(s[1..]) else DigitsValue(s)
  }

  lemma {:induction false} DecimalValue(n: nat)
    ensures DigitsValue(Decimal(n)) == n
  {
    if n >= 10 {
      DecimalValue(n / 10);
      var s := Decimal(n);
      assert s[..|s| - 1] == Decimal(n / 10);
    }
  }

  /** `int(str(i)) == i`. */
  lemma IntTextValue(i: int)
    ensures IntValue(IntText(i)) == i
  {
    if i < 0 {
      DecimalValue(-i);
      assert IntText(i)[1..] == Decimal(-i);
    } else {
      DecimalValue(i);
      DecimalDigits(i);
    }
  }

  /** Appending one thousands group multiplies what came before by 1000. */
  lemma GroupStepValue(a: string, r: nat)
    requires r < 1000
    ensures DigitsValue(a + [','] + Pad3(r)) == DigitsValue(a) * 1000 + r
  {
    var p := Pad3(r);
    var s := a + [','] + p;
    var s2, s1, s0 := a + [','] + [p[0], p[1]], a + [','] + [p[0]], a + [','];
    var x := DigitsValue(a);
    assert s0[..|s0| - 1] == a;
    assert s1[..|s1| - 1] == s0;
    assert DigitsValue(s1) == x * 10 + r / 100;
    assert s2[..|s2| - 1] == s1;
    assert DigitsValue(s2) == (x * 10 + r / 100) * 10 + r / 10 % 10;
    assert s[..|s| - 1] == s2;
    assert DigitsValue(s) == ((x * 10 + r / 100) * 10 + r / 10 % 10) * 10 + r % 10;
    ThreeDigits(x, r);
  }

  /** Three decimal digits appended one by one shift by 1000. */
  lemma ThreeDigits(x: int, r: nat)
    requires r < 1000
    ensures ((x * 10 + r / 100) * 10 + r / 10 % 10) * 10 + r % 10 == x * 1000 + r
  {
    assert (r / 100) * 100 + (r / 10 % 10) * 10 + r % 10 == r;
  }

  /** Reading `f"{n:,}"` back, ignoring the separators, gives `n`. */
  lemma {:induction false} GroupedValue(n: nat)
    ensures DigitsValue(Grouped(n)) == n
  {
    if n < 1000 {
      DecimalValue(n);
    } else {
      GroupedValue(n / 1000);
      GroupStepValue(Grouped(n / 1000), n % 1000);
    }
  }

  /** `int(f"{i:,}".replace(',', '')) == i`, the sign included. */
  lemma GroupedIntValue(i: int)
    ensures IntValue(GroupedInt(i)) == i
  {
    if i < 0 {
      GroupedValue(-i);
      assert GroupedInt(i)[1..] == Grouped(-i);
    } else {
      GroupedValue(i);
      GroupedLayout(i);
    }
  }

  lemma {:induction false} DecimalDigits(n: nat)
    ensures forall i :: 0 <= i < |Decimal(n)| ==> IsDigit(Decimal(n)[i])
    ensures n > 0 ==> Decimal(n)[0] != '0'
  {
    if n >= 10 {
      DecimalDigits(n / 10);
    }
  }

  /**
   * The layout of `f"{n:,}"`: a separator stands exactly at the positions
   * that are a multiple of four from the end, every other character is a
   * digit, the first group is never empty and there is no leading zero.
   */
  predicate WellGrouped(s: string) {
    && |s| >= 1
    && |s| % 4 != 0
    && (forall i :: 0 <= i < |s| ==> (s[i] == ',' <==> (|s| - i) % 4 == 0))
    && (forall i :: 0 <= i < |s| && s[i] != ',' ==> IsDigit(s[i]))
    && (s[0] == '0' ==> s == "0")
  }

  lemma {:induction false} GroupedLayout(n: nat)
    ensures WellGrouped(Grouped(n))
  {
    if n < 1000 {
      DecimalDigits(n);
      var s := Decimal(n);
      assert |s| <= 3 by { DecimalLength(n); }
      assert n == 0 ==> s == "0";
    } else {
      var q, r := n / 1000, n % 1000;
      GroupedLayout(q);
      var a := Grouped(q);
      var p := Pad3(r);
      var s := a + [','] + p;
      assert s == Grouped(n);
      assert |s| == |a| + 4;
      forall i | 0 <= i < |s|
        ensures (s[i] == ',' <==> (|s| - i) % 4 == 0)
        ensures s[i] != ',' ==> IsDigit(s[i])
      {
        if i < |a| {
          assert s[i] == a[i];
          ModFourShift(|a| - i);
        }
      }
      assert s[0] == a[0];
      assert a != "0" by { GroupedValue(q); }
    }
  }

  /** Four more characters to the end leave a position's place in its group unchanged. */
  lemma ModFourShift(k: int)
    ensures (k + 4) % 4 == k % 4
  {
  }

  lemma {:induction false} DecimalLength(n: nat)
    ensures n < 10 ==> |Decimal(n)| == 1
    ensures 10 <= n < 100 ==> |Decimal(n)| == 2
    ensures 100 <= n < 1000 ==> |Decimal(n)| == 3
  {
    if n >= 10 {
      DecimalLength(n / 10);
    }
  }
}
