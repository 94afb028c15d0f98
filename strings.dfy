/** Option, the stand-in for Swift's optional types. */
module Optional {
  datatype Option<+T> = None | Some(value: T)
}

/**
 * The two Foundation string services the app relies on:
 * `trimmingCharacters(in: .whitespacesAndNewlines)` and a case-insensitive
 * comparison standing in for `localizedCaseInsensitiveCompare`.
 */
module Strings {

  /** Foundation's `whitespacesAndNewlines`: the characters of general
      category Z*, U+0009 through U+000D, and U+0085. */
  predicate IsWhitespace(c: char) {
    || ('\t' <= c <= '\r')
    || c == ' '
    || c == '\U{85}'
    || c == '\U{A0}'
    || c == '\U{1680}'
    || ('\U{2000}' <= c <= '\U{200A}')
    || c == '\U{2028}'
    || c == '\U{2029}'
    || c == '\U{202F}'
    || c == '\U{205F}'
    || c == '\U{3000}'
  }

  /** Every character of `s` is whitespace (the empty string included). */
  predicate IsBlank(s: string) {
    forall i :: 0 <= i < |s| ==> IsWhitespace(s[i])
  }

  /** `s` without its leading whitespace: empty or starting with a
      non-whitespace character. */
  function DropLeadingWhitespace(s: string): (r: string)
    ensures |r| <= |s|
    ensures r != [] ==> !IsWhitespace(r[0])
  {
    if s != [] && IsWhitespace(s[0]) then DropLeadingWhitespace(s[1..]) else s
  }

  /** What `DropLeadingWhitespace` drops is a blank prefix; it keeps the
      rest. */
  lemma {:induction false} DropLeadingSplits(s: string)
    ensures var r := DropLeadingWhitespace(s); r == s[|s| - |r|..] && IsBlank(s[..|s| - |r|])
  {
    if s != [] && IsWhitespace(s[0]) {
      DropLeadingSplits(s[1..]);
      var r := DropLeadingWhitespace(s);
      assert s[..|s| - |r|] == [s[0]] + s[1..][..|s| - 1 - |r|];
    }
  }

  /** `s` without its trailing whitespace: empty or ending with a
      non-whitespace character. */
  function DropTrailingWhitespace(s: string): (r: string)
    ensures |r| <= |s|
    ensures r != [] ==> !IsWhitespace(r[|r| - 1])
  {
    if s != [] && IsWhitespace(s[|s| - 1]) then DropTrailingWhitespace(s[..|s| - 1]) else s
  }

  /** What `DropTrailingWhitespace` drops is a blank suffix; it keeps the
      rest. */
  lemma {:induction false} DropTrailingSplits(s: string)
    ensures var r := DropTrailingWhitespace(s); r == s[..|r|] && IsBlank(s[|r|..])
  {
    if s != [] && IsWhitespace(s[|s| - 1]) {
      DropTrailingSplits(s[..|s| - 1]);
      var r := DropTrailingWhitespace(s);
      assert s[|r|..] == s[..|s| - 1][|r|..] + [s[|s| - 1]];
    }
  }

  /** `s.trimmingCharacters(in: .whitespacesAndNewlines)`. */
  function Trim(s: string): (r: string)
    ensures |r| <= |s|
    ensures r == [] <==> IsBlank(s)
    ensures r != [] ==> !IsWhitespace(r[0]) && !IsWhitespace(r[|r| - 1])
  {
    var head := DropLeadingWhitespace(s);
    var r := DropTrailingWhitespace(head);
    DropLeadingSplits(s);
    DropTrailingSplits(head);
    if r == [] then
      assert IsBlank(head) by {
        assert head[|r|..] == head;
      }
      assert s == s[..|s| - |head|] + head;
      r
    else
      assert r[0] == head[0] == s[|s| - |head|];
      assert !IsWhitespace(s[|s| - |head|]);
      r
  }

  /** Trimming keeps a contiguous piece of the input and drops only
      whitespace on either side of it. */
  lemma TrimIsInfix(s: string)
    ensures exists i, j :: 0 <= i <= j <= |s| && Trim(s) == s[i..j] && IsBlank(s[..i]) && IsBlank(s[j..])
  {
    var head := DropLeadingWhitespace(s);
    var r := DropTrailingWhitespace(head);
    DropLeadingSplits(s);
    DropTrailingSplits(head);
    var i := |s| - |head|;
    var j := i + |r|;
    assert s[i..j] == head[..|r|];
    assert s[j..] == head[|r|..];
    assert Trim(s) == s[i..j] && IsBlank(s[..i]) && IsBlank(s[j..]);
  }

  /** A string without whitespace at either end is its own trimmed form. */
  lemma {:induction false} TrimOfTrimmed(s: string)
    requires s != [] ==> !IsWhitespace(s[0]) && !IsWhitespace(s[|s| - 1])
    ensures Trim(s) == s
  {
    assert DropLeadingWhitespace(s) == s;
    assert DropTrailingWhitespace(s) == s;
  }

  /** Trimming twice is trimming once. */
  lemma TrimIdempotent(s: string)
    ensures Trim(Trim(s)) == Trim(s)
  {
    TrimOfTrimmed(Trim(s));
  }

  /** ASCII case folding: upper-case letters map to lower case. */
  function FoldCase(c: char): (d: char)
    ensures 'A' <= c <= 'Z' ==> 'a' <= d <= 'z' && d as int - c as int == 32
    ensures !('A' <= c <= 'Z') ==> d == c
  {
    if 'A' <= c <= 'Z' then (c as int + 32) as char else c
  }

  function Folded(s: string): (r: string)
    ensures |r| == |s|
    ensures forall i :: 0 <= i < |s| ==> r[i] == FoldCase(s[i])
  {
    if s == [] then [] else [FoldCase(s[0])] + Folded(s[1..])
  }

  /** Strict lexicographic order on code points. */
  predicate LexLess(a: string, b: string) {
    if a == [] then b != []
    else b != [] && (a[0] < b[0] || (a[0] == b[0] && LexLess(a[1..], b[1..])))
  }

  lemma {:induction false} LexLessIrreflexive(a: string)
    ensures !LexLess(a, a)
  {
    if a != [] {
      LexLessIrreflexive(a[1..]);
    }
  }

  lemma {:induction false} LexLessTransitive(a: string, b: string, c: string)
    requires LexLess(a, b) && LexLess(b, c)
    ensures LexLess(a, c)
  {
    if a != [] && a[0] == b[0] && b[0] == c[0] {
      LexLessTransitive(a[1..], b[1..], c[1..]);
    }
  }

  lemma {:induction false} LexLessTotal(a: string, b: string)
    ensures a == b || LexLess(a, b) || LexLess(b, a)
  {
    if a != [] && b != [] && a[0] == b[0] {
      LexLessTotal(a[1..], b[1..]);
      if a[1..] == b[1..] {
        assert a == [a[0]] + a[1..] && b == [b[0]] + b[1..];
      }
    }
  }

  /** `a.localizedCaseInsensitiveCompare(b) == .orderedAscending`, with
      locale-aware folding replaced by ASCII folding. */
  predicate CaseInsensitiveLess(a: string, b: string) {
    LexLess(Folded(a), Folded(b))
  }

  predicate IsDigit(c: char) {
    '0' <= c <= '9'
  }

  /** No character of `s` is a decimal digit. */
  predicate NoDigits(s: string) {
    forall i :: 0 <= i < |s| ==> !IsDigit(s[i])
  }

  /** The length of the run of digits `s` starts with. */
  function DigitRun(s: string): (n: nat)
    ensures n <= |s|
    ensures forall i :: 0 <= i < n ==> IsDigit(s[i])
    ensures n < |s| ==> !IsDigit(s[n])
  {
    if s != [] && IsDigit(s[0]) then 1 + DigitRun(s[1..]) else 0
  }

  /** The number a run of decimal digits spells. */
  function DigitsValue(s: string): nat {
    if s == [] then 0
    else
      var last := s[|s| - 1];
      DigitsValue(s[..|s| - 1]) * 10 + (if IsDigit(last) then last as int - '0' as int else 0)
  }

  /** `a` goes before `b` under `.localizedStandard`, Foundation's default
      comparator for a `String` key in a `SortDescriptor`: names compare as
      the Finder sorts them, case-blind, and a run of digits in both names
      compares by the number it spells. Locale rules are replaced by ASCII
      folding. */
  predicate StandardLess(a: string, b: string)
    decreases |a| + |b|
  {
    if a == [] || b == [] then a == [] && b != []
    else if IsDigit(a[0]) && IsDigit(b[0]) then
      var i, j := DigitRun(a), DigitRun(b);
      var x, y := DigitsValue(a[..i]), DigitsValue(b[..j]);
      x < y || (x == y && StandardLess(a[i..], b[j..]))
    else
      FoldCase(a[0]) < FoldCase(b[0]) || (FoldCase(a[0]) == FoldCase(b[0]) && StandardLess(a[1..], b[1..]))
  }

  /** On names without digits the two comparators agree. */
  lemma {:induction false} StandardLessWithoutDigits(a: string, b: string)
    requires NoDigits(a) && NoDigits(b)
    ensures StandardLess(a, b) == CaseInsensitiveLess(a, b)
  {
    if a != [] && b != [] {
      assert !IsDigit(a[0]);
      StandardLessWithoutDigits(a[1..], b[1..]);
    }
  }

  /** `.localizedStandard` compares runs of digits by their value:
      "Item 9" goes before "Item 10". */
  lemma StandardOrdersNumbersByValue()
    ensures StandardLess("Item 9", "Item 10")
  {
    assert DigitRun("10") == 2 by {
      assert DigitRun("0") == 1 by { assert DigitRun("") == 0; }
    }
    assert DigitsValue("10") == 10 by { assert DigitsValue("1") == 1; }
    assert DigitRun("9") == 1 && DigitsValue("9") == 9;
    assert StandardLess("9", "10");
    assert StandardLess(" 9", " 10");
    assert StandardLess("m 9", "m 10");
    assert StandardLess("em 9", "em 10");
    assert StandardLess("tem 9", "tem 10");
  }

  /** The case-insensitive comparison compares digits as characters:
      "Item 10" goes before "Item 9". */
  lemma CaseInsensitiveOrdersNumbersByDigit()
    ensures CaseInsensitiveLess("Item 10", "Item 9")
  {
    assert Folded("Item 10") == "item 10";
    assert Folded("Item 9") == "item 9";
    assert LexLess("10", "9");
    assert LexLess(" 10", " 9");
    assert LexLess("m 10", "m 9");
    assert LexLess("em 10", "em 9");
    assert LexLess("tem 10", "tem 9");
  }

  /** Titles that differ only in ASCII case compare equal: neither sorts
      before the other. */
  lemma {:induction false} CaseDoesNotOrder(a: string, b: string)
    requires Folded(a) == Folded(b)
    ensures !CaseInsensitiveLess(a, b) && !CaseInsensitiveLess(b, a)
  {
    LexLessIrreflexive(Folded(a));
  }
}
