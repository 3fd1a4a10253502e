/** `formatNumber` of the server-listing scripts: the text of the number is
    cut at its decimal points, a comma is put into the part before the first
    one wherever the regular expression `\B(?=(\d{3})+(?!\d))` matches, and
    the parts are joined back. Both scripts carry the same definition. The
    conversion of a JavaScript number to its text is not part of this model:
    the input is that text. */
module NumberFormat {

  predicate IsDigit(c: char) { '0' <= c <= '9' }

  /** The characters of the class `\w`. */
  predicate IsWordChar(c: char) { IsDigit(c) || 'a' <= c <= 'z' || 'A' <= c <= 'Z' || c == '_' }

  predicate AllDigits(s: string) { forall j :: 0 <= j < |s| ==> IsDigit(s[j]) }

  /** The length of the run of digits that starts at position `p`. */
  function DigitRun(s: string, p: nat): nat
    requires p <= |s|
    decreases |s| - p
  {
    if p < |s| && IsDigit(s[p]) then 1 + DigitRun(s, p + 1) else 0
  }

  /** `\B` at position `p`: the characters on both sides of it are both word
      characters or both not (the ends of the text count as non-word). */
  predicate NotBoundary(s: string, p: nat)
    requires p <= |s|
  {
    (p > 0 && IsWordChar(s[p - 1])) == (p < |s| && IsWordChar(s[p]))
  }

  /** The pattern matches at position `p`: not at a word boundary, and
      followed by a whole number of groups of three digits and then no
      digit, that is, by a run of digits whose length is a positive multiple
      of 3. */
  predicate CommaAt(s: string, p: nat)
    requires p <= |s|
  {
    NotBoundary(s, p) && DigitRun(s, p) >= 3 && DigitRun(s, p) % 3 == 0
  }

  /** The replacement of every match by ",", over the positions `lo` to
      `hi`: each character is preceded by a comma exactly where the pattern
      matches before it. */
  function Emit(s: string, lo: nat, hi: nat): string
    requires lo <= hi <= |s|
    decreases hi - lo
  {
    if hi == lo then ""
    else Emit(s, lo, hi - 1) + (if CommaAt(s, hi - 1) then "," else "") + [s[hi - 1]]
  }

  /** `s.replace(/\B(?=(\d{3})+(?!\d))/g, ",")`. */
  function InsertCommas(s: string): string
  {
    Emit(s, 0, |s|)
  }

  /** The index of the first `c` in `s`, or `|s|` when there is none. */
  function IndexOf(s: string, c: char): (i: nat)
    ensures i <= |s|
  {
    if s == [] then 0 else if s[0] == c then 0 else 1 + IndexOf(s[1..], c)
  }

  /** `IndexOf` finds the first `c`: none comes before it, and it is a `c`
      unless there is none at all. */
  lemma {:induction false} IndexOfFinds(s: string, c: char)
    ensures var i := IndexOf(s, c);
      (forall j :: 0 <= j < i ==> s[j] != c) && (i < |s| ==> s[i] == c)
  {
    if s != [] && s[0] != c {
      IndexOfFinds(s[1..], c);
    }
  }

  /** The position of the first `c` is the index `IndexOf` gives. */
  lemma {:induction false} IndexOfAt(s: string, c: char, k: nat)
    requires k <= |s| && (forall j :: 0 <= j < k ==> s[j] != c) && (k < |s| ==> s[k] == c)
    ensures IndexOf(s, c) == k
  {
    if k > 0 {
      IndexOfAt(s[1..], c, k - 1);
    }
  }

  /** `s.split(sep)` for a one-character separator. */
  function Split(s: string, sep: char): (parts: seq<string>)
    ensures |parts| >= 1
    ensures forall k :: 0 <= k < |parts| ==> sep !in parts[k]
    decreases |s|
  {
    var i := IndexOf(s, sep);
    IndexOfFinds(s, sep);
    if i == |s| then [s] else [s[..i]] + Split(s[i + 1..], sep)
  }

  /** `parts.join(sep)`. */
  function Join(parts: seq<string>, sep: char): string
    requires |parts| >= 1
  {
    if |parts| == 1 then parts[0] else parts[0] + [sep] + Join(parts[1..], sep)
  }

  lemma {:induction false} JoinCons(first: string, more: seq<string>, sep: char)
    requires |more| >= 1
    ensures Join([first] + more, sep) == first + [sep] + Join(more, sep)
  {
    assert ([first] + more)[1..] == more;
  }

  /** Joining the parts of a split gives the text back. */
  lemma {:induction false} JoinSplit(s: string, sep: char)
    ensures Join(Split(s, sep), sep) == s
    decreases |s|
  {
    var i := IndexOf(s, sep);
    IndexOfFinds(s, sep);
    if i < |s| {
      calc {
        Join(Split(s, sep), sep);
        Join([s[..i]] + Split(s[i + 1..], sep), sep);
        { JoinCons(s[..i], Split(s[i + 1..], sep), sep); }
        s[..i] + [sep] + Join(Split(s[i + 1..], sep), sep);
        { JoinSplit(s[i + 1..], sep); }
        s[..i] + [sep] + s[i + 1..];
        { assert s[i] == sep; }
        s;
      }
    }
  }

  /** `formatNumber`, applied to the text of the number. */
  function FormatNumber(num: string): string
  {
    var parts := Split(num, '.');
    Join(parts[0 := InsertCommas(parts[0])], '.')
  }

  /** Only the text before the first decimal point changes; the rest,
      decimal point included, is kept as it is. */
  lemma {:induction false} FormatNumberKeepsFraction(num: string)
    ensures var i := IndexOf(num, '.');
      FormatNumber(num) == InsertCommas(num[..i]) + num[i..]
  {
    var i := IndexOf(num, '.');
    assert Split(num, '.')[0] == num[..i];
    ReplaceHead(num, '.', InsertCommas(num[..i]));
  }

  /** Replacing the first part of a split and joining again replaces the
      text before the first separator. */
  lemma {:induction false} ReplaceHead(s: string, sep: char, h: string)
    ensures var i := IndexOf(s, sep);
      Join(Split(s, sep)[0 := h], sep) == h + s[i..]
  {
    var i := IndexOf(s, sep);
    IndexOfFinds(s, sep);
    if i < |s| {
      var tail := s[i + 1..];
      var rest := Split(tail, sep);
      UpdateFirst(s[..i], h, rest);
      JoinCons(h, rest, sep);
      JoinSplit(tail, sep);
      assert s[i..] == [sep] + tail;
    } else {
      assert s[i..] == [];
    }
  }

  lemma {:induction false} UpdateFirst<T>(a: T, h: T, rest: seq<T>)
    ensures ([a] + rest)[0 := h] == [h] + rest
  {
  }

  /** `s` with its commas removed. */
  function Strip(s: string): string
  {
    if s == [] then "" else Strip(s[..|s| - 1]) + (if s[|s| - 1] == ',' then "" else [s[|s| - 1]])
  }

  lemma {:induction false} StripConcat(a: string, b: string)
    ensures Strip(a + b) == Strip(a) + Strip(b)
    decreases |b|
  {
    if b == [] {
      assert a + b == a;
    } else {
      var b' := b[..|b| - 1];
      StripConcat(a, b');
      assert (a + b)[..|a + b| - 1] == a + b';
      assert (a + b)[|a + b| - 1] == b[|b| - 1];
    }
  }

  lemma {:induction false} StripNoCommas(s: string)
    requires ',' !in s
    ensures Strip(s) == s
  {
    if s != [] {
      StripNoCommas(s[..|s| - 1]);
    }
  }

  /** Removing the commas from the replacement gives the commas-removed text. */
  lemma {:induction false} StripEmit(s: string, lo: nat, hi: nat)
    requires lo <= hi <= |s|
    ensures Strip(Emit(s, lo, hi)) == Strip(s[lo..hi])
    decreases hi - lo
  {
    if hi > lo {
      var mark: string := if CommaAt(s, hi - 1) then "," else "";
      StripEmit(s, lo, hi - 1);
      StripAppend(Emit(s, lo, hi - 1), mark, s[hi - 1], s[lo..hi - 1]);
      SliceLast(s, lo, hi);
    }
  }

  lemma {:induction false} SliceLast(s: string, lo: nat, hi: nat)
    requires lo < hi <= |s|
    ensures s[lo..hi] == s[lo..hi - 1] + [s[hi - 1]]
  {
    assert s[lo..hi] == s[lo..hi - 1] + [s[hi - 1]];
  }

  /** Appending an optional comma and a character to texts equal up to
      commas keeps them equal up to commas. */
  lemma {:induction false} StripAppend(e: string, mark: string, c: char, t: string)
    requires Strip(e) == Strip(t) && (mark == "," || mark == "")
    ensures Strip(e + mark + [c]) == Strip(t + [c])
  {
    StripConcat(e + mark, [c]);
    StripConcat(e, mark);
    StripConcat(t, [c]);
    assert Strip(mark) == "";
  }

  /** Deleting the commas from the output gives the input with its own
      commas deleted: the only change is inserted commas. */
  lemma {:induction false} StripFormatNumber(num: string)
    ensures Strip(FormatNumber(num)) == Strip(num)
  {
    var i := IndexOf(num, '.');
    FormatNumberKeepsFraction(num);
    StripInsertCommas(num[..i]);
    StripSplice(InsertCommas(num[..i]), num[..i], num[i..]);
    assert num[..i] + num[i..] == num;
  }

  lemma {:induction false} StripInsertCommas(s: string)
    ensures Strip(InsertCommas(s)) == Strip(s)
  {
    StripEmit(s, 0, |s|);
    assert s[0..|s|] == s;
  }

  lemma {:induction false} StripSplice(e: string, t: string, rest: string)
    requires Strip(e) == Strip(t)
    ensures Strip(e + rest) == Strip(t + rest)
  {
    StripConcat(e, rest);
    StripConcat(t, rest);
  }

  /** Round trip: for a text without commas, deleting the commas from the
      output gives the input back. */
  lemma {:induction false} RoundTrip(num: string)
    requires ',' !in num
    ensures Strip(FormatNumber(num)) == num
  {
    StripFormatNumber(num);
    StripNoCommas(num);
  }

  /** The pattern never matches before the first character. */
  lemma {:induction false} NoCommaAtStart(s: string)
    ensures !CommaAt(s, 0)
  {
  }

  /** The output starts with the input's first character: no comma is put in
      front. */
  lemma {:induction false} NoLeadingComma(num: string)
    requires num != []
    ensures FormatNumber(num) != [] && FormatNumber(num)[0] == num[0]
  {
    var i := IndexOf(num, '.');
    FormatNumberKeepsFraction(num);
    if i > 0 {
      var head := num[..i];
      EmitSplit(head, 0, 1, i);
      NoCommaAtStart(head);
      assert Emit(head, 0, 1) == [head[0]];
    }
  }

  lemma {:induction false} EmitSplit(s: string, lo: nat, mid: nat, hi: nat)
    requires lo <= mid <= hi <= |s|
    ensures Emit(s, lo, hi) == Emit(s, lo, mid) + Emit(s, mid, hi)
    decreases hi - mid
  {
    if hi > mid {
      EmitSplit(s, lo, mid, hi - 1);
    }
  }

  /** Two texts that agree, character by character and match by match, on
      corresponding positions give the same replacement there. */
  lemma {:induction false} EmitAgree(s1: string, s2: string, off: nat, lo: nat, hi: nat)
    requires lo <= hi <= |s2| && hi + off <= |s1|
    requires forall p :: lo <= p < hi ==> s1[p + off] == s2[p] && CommaAt(s1, p + off) == CommaAt(s2, p)
    ensures Emit(s1, lo + off, hi + off) == Emit(s2, lo, hi)
    decreases hi - lo
  {
    if hi > lo {
      EmitAgree(s1, s2, off, lo, hi - 1);
    }
  }

  lemma {:induction false} DigitRunOfDigits(s: string, p: nat)
    requires p <= |s|
    requires forall j :: p <= j < |s| ==> IsDigit(s[j])
    ensures DigitRun(s, p) == |s| - p
    decreases |s| - p
  {
    if p < |s| {
      DigitRunOfDigits(s, p + 1);
    }
  }

  /** On a string of digits the pattern matches exactly at the positions
      other than the first whose distance from the end is a multiple of 3. */
  lemma {:induction false} CommaAtDigits(d: string, p: nat)
    requires AllDigits(d) && p < |d|
    ensures CommaAt(d, p) <==> p > 0 && (|d| - p) % 3 == 0
  {
    DigitRunOfDigits(d, p);
  }

  /** The grouping of a string of digits into thousands, counted from the
      right: the reference definition the replacement is compared with. */
  function Group(d: string): string
    decreases |d|
  {
    if |d| <= 3 then d else Group(d[..|d| - 3]) + "," + d[|d| - 3..]
  }

  /** Where the pattern does not match, the replacement is the text itself. */
  lemma {:induction false} EmitNoCommas(s: string, lo: nat, hi: nat)
    requires lo <= hi <= |s|
    requires forall p :: lo <= p < hi ==> !CommaAt(s, p)
    ensures Emit(s, lo, hi) == s[lo..hi]
    decreases hi - lo
  {
    if hi > lo {
      EmitNoCommas(s, lo, hi - 1);
      assert s[lo..hi] == s[lo..hi - 1] + [s[hi - 1]];
    }
  }

  /** On a string of digits the replacement is the grouping into thousands. */
  lemma {:induction false} InsertCommasGroupsDigits(d: string)
    requires AllDigits(d)
    ensures InsertCommas(d) == Group(d)
    decreases |d|
  {
    if |d| <= 3 {
      ShortDigitsKept(d);
    } else {
      var m := |d| - 3;
      calc {
        InsertCommas(d);
        { EmitSplit(d, 0, m, |d|); }
        Emit(d, 0, m) + Emit(d, m, |d|);
        { PrefixAgrees(d, m); LastGroup(d, m); }
        InsertCommas(d[..m]) + "," + d[m..];
        { InsertCommasGroupsDigits(d[..m]); }
        Group(d);
      }
    }
  }

  /** Up to three digits get no comma. */
  lemma {:induction false} ShortDigitsKept(d: string)
    requires AllDigits(d) && |d| <= 3
    ensures Emit(d, 0, |d|) == d
  {
    forall p | 0 <= p < |d|
      ensures !CommaAt(d, p)
    {
      CommaAtDigits(d, p);
    }
    EmitNoCommas(d, 0, |d|);
    assert d[0..|d|] == d;
  }

  /** Cutting off the last three digits does not move the commas before them. */
  lemma {:induction false} PrefixAgrees(d: string, m: nat)
    requires AllDigits(d) && m + 3 == |d|
    ensures Emit(d, 0, m) == Emit(d[..m], 0, m)
  {
    var init := d[..m];
    forall p | 0 <= p < m
      ensures d[p] == init[p] && CommaAt(d, p) == CommaAt(init, p)
    {
      CommaAtDigits(d, p);
      CommaAtDigits(init, p);
      assert (|d| - p) % 3 == (m - p) % 3;
    }
    EmitAgree(d, init, 0, 0, m);
  }

  /** The last three of more than three digits get one comma before them. */
  lemma {:induction false} LastGroup(d: string, m: nat)
    requires AllDigits(d) && m + 3 == |d| && m > 0
    ensures Emit(d, m, |d|) == "," + d[m..]
  {
    CommaAtDigits(d, m);
    CommaAtDigits(d, m + 1);
    CommaAtDigits(d, m + 2);
    assert Emit(d, m, m + 1) == "," + [d[m]];
    assert Emit(d, m, m + 2) == "," + [d[m], d[m + 1]];
    assert d[m..] == [d[m], d[m + 1], d[m + 2]];
  }

  /** A minus sign in front of the digits is kept and does not change where
      the commas go. */
  lemma {:induction false} InsertCommasSigned(d: string)
    requires AllDigits(d)
    ensures InsertCommas("-" + d) == "-" + Group(d)
  {
    SignedEmit("-" + d, d);
    InsertCommasGroupsDigits(d);
  }

  lemma {:induction false} SignedEmit(t: string, d: string)
    requires AllDigits(d) && |t| == |d| + 1 && t[0] == '-'
    requires forall p :: 0 <= p < |d| ==> t[p + 1] == d[p]
    ensures Emit(t, 0, |t|) == "-" + Emit(d, 0, |d|)
  {
    SignedTail(t, d);
    EmitSplit(t, 0, 1, |t|);
    SignEmitted(t);
  }

  lemma {:induction false} SignedTail(t: string, d: string)
    requires AllDigits(d) && |t| == |d| + 1 && t[0] == '-'
    requires forall p :: 0 <= p < |d| ==> t[p + 1] == d[p]
    ensures Emit(t, 1, |t|) == Emit(d, 0, |d|)
  {
    SignedCommas(t, d);
    EmitAgree(t, d, 1, 0, |d|);
  }

  lemma {:induction false} SignEmitted(t: string)
    requires |t| > 0 && t[0] == '-'
    ensures Emit(t, 0, 1) == "-"
  {
    NoCommaAtStart(t);
  }

  /** Behind a minus sign the pattern matches where it matches on the digits
      alone. */
  lemma {:induction false} SignedCommas(t: string, d: string)
    requires AllDigits(d) && |t| == |d| + 1 && t[0] == '-'
    requires forall p :: 0 <= p < |d| ==> t[p + 1] == d[p]
    ensures forall p :: 0 <= p < |d| ==> CommaAt(t, p + 1) == CommaAt(d, p)
  {
    forall p | 0 <= p < |d|
      ensures CommaAt(t, p + 1) == CommaAt(d, p)
    {
      if p == 0 {
        NoCommaAtStart(d);
        assert !IsWordChar(t[0]) && IsDigit(t[1]);
      } else {
        forall j | p + 1 <= j < |t|
          ensures IsDigit(t[j])
        {
          assert t[j] == d[j - 1];
        }
        DigitRunOfDigits(t, p + 1);
        DigitRunOfDigits(d, p);
      }
    }
  }

  /** A number's text: an optional minus sign, digits, and an optional part
      starting at the decimal point. */
  predicate IsNumeral(sign: string, d: string, rest: string)
  {
    (sign == "" || sign == "-") && AllDigits(d) && (rest == [] || rest[0] == '.')
  }

  /** On a number's text, the integer digits are grouped into thousands and
      the sign and the fraction are left alone. */
  lemma {:induction false} FormatNumeral(sign: string, d: string, rest: string)
    requires IsNumeral(sign, d, rest)
    ensures FormatNumber(sign + d + rest) == sign + Group(d) + rest
  {
    NumeralSplit(sign, d, rest);
    if sign == "" {
      InsertCommasGroupsDigits(d);
      assert sign + d == d;
    } else {
      InsertCommasSigned(d);
    }
  }

  lemma {:induction false} NumeralSplit(sign: string, d: string, rest: string)
    requires IsNumeral(sign, d, rest)
    ensures FormatNumber(sign + d + rest) == InsertCommas(sign + d) + rest
  {
    var num := sign + d + rest;
    NumeralPoint(sign, d, rest);
    FormatNumberKeepsFraction(num);
    assert num[..|sign| + |d|] == sign + d;
    assert num[|sign| + |d|..] == rest;
  }

  /** The first decimal point of a number's text is the one after its digits. */
  lemma {:induction false} NumeralPoint(sign: string, d: string, rest: string)
    requires IsNumeral(sign, d, rest)
    ensures IndexOf(sign + d + rest, '.') == |sign| + |d|
  {
    var num := sign + d + rest;
    forall j | 0 <= j < |sign| + |d|
      ensures num[j] != '.'
    {
      if j >= |sign| {
        assert num[j] == d[j - |sign|];
      }
    }
    if rest != [] {
      assert num[|sign| + |d|] == '.';
    }
    IndexOfAt(num, '.', |sign| + |d|);
  }

  /** An integer part of at most three digits comes out unchanged. */
  lemma {:induction false} ShortIntegerPartUnchanged(sign: string, d: string, rest: string)
    requires IsNumeral(sign, d, rest) && |d| <= 3
    ensures FormatNumber(sign + d + rest) == sign + d + rest
  {
    FormatNumeral(sign, d, rest);
  }

  /** A worked case: the digits 1234567 are grouped as 1,234,567. */
  lemma {:induction false} GroupExample(d: string, init: string, first: string)
    requires d == "1234567" && init == "1234" && first == "1"
    ensures Group(d) == "1,234,567"
  {
    assert d[..4] == init && d[4..] == "567";
    assert init[..1] == first && init[1..] == "234";
    assert Group(first) == first;
    assert Group(init) == "1,234";
  }
}
