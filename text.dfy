/**
 * The small pieces of Python's string and integer built-ins that the
 * modelled code relies on: `int()` on a string, `str()` on an integer,
 * `str.split(c)`, `sep.join(parts)`, left-justified padding in
 * `str.format` and `sorted()` on a list of strings.
 */
module Text {
  import opened Wrappers

  // ---------------------------------------------------------------------
  // Decimal integers: str(n) and int(s)
  // ---------------------------------------------------------------------

  predicate IsDigit(c: char) { '0' <= c <= '9' }

  predicate AllDigits(s: string) { forall i :: 0 <= i < |s| ==> IsDigit(s[i]) }

  function DigitChar(d: nat): (c: char)
    requires d < 10
    ensures IsDigit(c) && c as int - '0' as int == d
  {
    ('0' as int + d) as char
  }

  /** The value of a string of decimal digits (leading zeros allowed, as in Python). */
  function DigitsValue(s: string): nat
    requires AllDigits(s)
  {
    if |s| == 0 then 0 else DigitsValue(s[..|s| - 1]) * 10 + (s[|s| - 1] as int - '0' as int)
  }

  /** Decimal form of a natural number, without leading zeros. */
  function ShowNat(n: nat): (s: string)
    ensures |s| > 0 && AllDigits(s)
    ensures n == 0 ==> s == "0"
    ensures n > 0 ==> s[0] != '0'
  {
    if n < 10 then [DigitChar(n)] else ShowNat(n / 10) + [DigitChar(n % 10)]
  }

  /** Python's `str(n)` for an integer `n`. */
  function Show(n: int): (s: string)
    ensures |s| > 0
    ensures forall i :: 0 <= i < |s| ==> IsDigit(s[i]) || (i == 0 && s[i] == '-')
    ensures s[0] == '-' <==> n < 0
    ensures n >= 0 ==> s == "0" || s[0] != '0'
    ensures n < 0 ==> |s| > 1 && s[1] != '0'
  {
    if n < 0 then "-" + ShowNat(-n) else ShowNat(n)
  }

  /** An optional sign followed by at least one ASCII digit. */
  predicate IsIntLiteral(s: string)
  {
    if |s| > 0 && (s[0] == '+' || s[0] == '-') then |s| > 1 && AllDigits(s[1..])
    else |s| > 0 && AllDigits(s)
  }

  /**
   * Python's `int(s)` on a string: `None` stands for the ValueError it raises.
   * Whitespace and `_` separators, which Python also accepts, are not modelled.
   */
  function ParseInt(s: string): (r: Option<int>)
    ensures r.Some? <==> IsIntLiteral(s)
    ensures r.Some? && |s| > 0 && s[0] != '-' ==> r.value >= 0
    ensures r.Some? && |s| > 0 && s[0] == '-' ==> r.value <= 0
  {
    if !IsIntLiteral(s) then None
    else if s[0] == '-' then Some(-(DigitsValue(s[1..]) as int))
    else if s[0] == '+' then Some(DigitsValue(s[1..]))
    else Some(DigitsValue(s))
  }

  lemma {:induction false} DigitsValueOfShowNat(n: nat)
    ensures DigitsValue(ShowNat(n)) == n
  {
    if n >= 10 {
      var s := ShowNat(n);
      assert s[..|s| - 1] == ShowNat(n / 10);
      DigitsValueOfShowNat(n / 10);
    }
  }

  /** `int(str(n)) == n`: parsing inverts printing. */
  lemma ParseShow(n: int)
    ensures ParseInt(Show(n)) == Some(n)
  {
    if n < 0 {
      assert Show(n)[1..] == ShowNat(-n);
      DigitsValueOfShowNat(-n);
    } else {
      DigitsValueOfShowNat(n);
    }
  }

  lemma {:induction false} DigitsValueLeadingZero(d: string)
    requires AllDigits(d)
    ensures AllDigits("0" + d) && DigitsValue("0" + d) == DigitsValue(d)
  {
    assert forall i :: 0 <= i < |"0" + d| ==> IsDigit(("0" + d)[i]);
    if |d| > 0 {
      assert ("0" + d)[..|d|] == "0" + d[..|d| - 1];
      DigitsValueLeadingZero(d[..|d| - 1]);
    }
  }

  /**
   * The value `int()` gives a literal: a leading `+` or zero changes nothing
   * and a leading `-` negates.  With ParseShow this fixes the value of every
   * literal.
   */
  lemma ParseIntForms(d: string)
    requires |d| > 0 && AllDigits(d)
    ensures ParseInt(d).Some?
    ensures ParseInt("+" + d) == ParseInt(d)
    ensures ParseInt("0" + d) == ParseInt(d)
    ensures ParseInt("-" + d) == Some(-ParseInt(d).value)
  {
    assert ("+" + d)[1..] == d && ("-" + d)[1..] == d;
    DigitsValueLeadingZero(d);
  }

  /**
   * The decimal value `int()` gives a digit string, one digit at a time:
   * a single digit is its own value, and one more digit on the right
   * multiplies by ten and adds it.
   */
  lemma ParseIntDigit(d: string, c: char)
    requires AllDigits(d) && IsDigit(c)
    ensures |d| == 0 ==> ParseInt(d + [c]) == Some(c as int - '0' as int)
    ensures |d| > 0 ==> ParseInt(d).Some? && ParseInt(d + [c]) == Some(10 * ParseInt(d).value + (c as int - '0' as int))
  {
    var s := d + [c];
    assert AllDigits(s) && s[..|s| - 1] == d && s[|s| - 1] == c;
    assert IsDigit(s[0]) && ParseInt(s) == Some(DigitsValue(s));
    if |d| > 0 {
      assert IsDigit(d[0]) && ParseInt(d) == Some(DigitsValue(d));
    } else {
      assert DigitsValue(s) == DigitsValue([]) * 10 + (c as int - '0' as int);
    }
  }

  // ---------------------------------------------------------------------
  // Splitting and joining
  // ---------------------------------------------------------------------

  lemma EmptyAppend<T>(s: seq<T>)
    ensures [] + s == s
  {
  }

  lemma AppendEmpty<T>(s: seq<T>)
    ensures s + [] == s
  {
  }

  /** Concatenation is associative. */
  lemma AppendAssoc<T>(a: seq<T>, b: seq<T>, c: seq<T>)
    ensures a + (b + c) == (a + b) + c
  {
  }

  /** Python's `sep.join(parts)`. */
  function Join(parts: seq<string>, sep: string): string
  {
    if |parts| == 0 then ""
    else if |parts| == 1 then parts[0]
    else parts[0] + sep + Join(parts[1..], sep)
  }

  /** The text before and after the first `c` in `s`, if there is one. */
  function Cut(s: string, c: char): (r: Option<(string, string)>)
    ensures r.None? <==> c !in s
    ensures r.Some? ==> s == r.value.0 + [c] + r.value.1 && c !in r.value.0
  {
    if |s| == 0 then None
    else if s[0] == c then Some(([], s[1..]))
    else match Cut(s[1..], c)
      case None => None
      case Some((before, after)) => Some(([s[0]] + before, after))
  }

  /** The first separator is found wherever the text before it holds none. */
  lemma {:induction false} CutAt(before: string, c: char, after: string)
    requires c !in before
    ensures Cut(before + [c] + after, c) == Some((before, after))
  {
    var s := before + [c] + after;
    if |before| > 0 {
      assert s[0] == before[0] && s[1..] == before[1..] + [c] + after;
      CutAt(before[1..], c, after);
      assert [before[0]] + before[1..] == before;
    } else {
      assert s == [c] + after;
    }
  }

  /** Python's `s.split(c)` for a one-character separator. */
  function Split(s: string, c: char): (parts: seq<string>)
    ensures |parts| >= 1
    ensures forall i :: 0 <= i < |parts| ==> c !in parts[i]
    ensures Join(parts, [c]) == s
    decreases |s|
  {
    match Cut(s, c)
    case None => [s]
    case Some((before, after)) => [before] + Split(after, c)
  }

  /** The text before the first separator is the first part. */
  lemma SplitCons(head: string, c: char, tail: string)
    requires c !in head
    ensures Split(head + [c] + tail, c) == [head] + Split(tail, c)
  {
    CutAt(head, c, tail);
  }

  /** Splitting undoes joining when no part holds the separator. */
  lemma {:induction false} SplitJoin(parts: seq<string>, c: char)
    requires |parts| > 0 && forall i :: 0 <= i < |parts| ==> c !in parts[i]
    ensures Split(Join(parts, [c]), c) == parts
  {
    if |parts| > 1 {
      SplitJoin(parts[1..], c);
      SplitCons(parts[0], c, Join(parts[1..], [c]));
      assert [parts[0]] + parts[1..] == parts;
    }
  }

  /** Two parts exactly when the text holds exactly one separator. */
  lemma SplitTwoParts(s: string, c: char)
    ensures |Split(s, c)| == 2 <==> multiset(s)[c] == 1
  {
    SplitCount(s, c);
  }

  lemma SplitCount(s: string, c: char)
    ensures |Split(s, c)| == multiset(s)[c] + 1
    decreases |s|
  {
    match Cut(s, c)
    case None =>
    case Some((before, after)) =>
      SplitCount(after, c);
      assert s == before + [c] + after;
      assert multiset(s) == multiset(before) + multiset{c} + multiset(after);
  }

  /** Three lines, each ended by the separator, split into the three lines and an empty tail. */
  lemma SplitThreeLines(a: string, b: string, c: string, ch: char)
    requires ch !in a && ch !in b && ch !in c
    ensures Split(a + [ch] + b + [ch] + c + [ch], ch) == [a, b, c, []]
  {
    AppendAssoc(a + [ch], b + [ch], c + [ch]);
    AppendAssoc(a, [ch], (b + [ch]) + (c + [ch]));
    AppendAssoc(b, [ch], c + [ch]);
    AppendAssoc(c, [ch], []);
    assert a + [ch] + b + [ch] + c + [ch] == a + [ch] + (b + [ch] + (c + [ch] + []));
    SplitCons(a, ch, b + [ch] + (c + [ch] + []));
    SplitCons(b, ch, c + [ch] + []);
    SplitCons(c, ch, []);
  }

  // ---------------------------------------------------------------------
  // The first word of str.split()
  // ---------------------------------------------------------------------

  /** ASCII whitespace, as `str.split()` without arguments separates on. */
  predicate IsSpace(c: char)
  {
    c == ' ' || c == '\t' || c == '\n' || c == '\r' || c == '\U{000B}' || c == '\U{000C}'
  }

  /** The longest blank-free prefix. */
  function TakeWord(s: string): (w: string)
    ensures |w| <= |s| && w == s[..|w|]
    ensures forall i :: 0 <= i < |w| ==> !IsSpace(w[i])
    ensures |w| == |s| || IsSpace(s[|w|])
  {
    if |s| == 0 || IsSpace(s[0]) then "" else [s[0]] + TakeWord(s[1..])
  }

  /** `s.split()[0]`; `None` stands for the IndexError on a blank string. */
  function FirstWord(s: string): (r: Option<string>)
    ensures r.None? <==> forall i :: 0 <= i < |s| ==> IsSpace(s[i])
    ensures r.Some? ==> |r.value| > 0 && forall i :: 0 <= i < |r.value| ==> !IsSpace(r.value[i])
  {
    if |s| == 0 then None
    else if IsSpace(s[0]) then FirstWord(s[1..])
    else Some(TakeWord(s))
  }

  lemma {:induction false} TakeWordOf(word: string, rest: string)
    requires forall i :: 0 <= i < |word| ==> !IsSpace(word[i])
    requires |rest| > 0 && IsSpace(rest[0])
    ensures TakeWord(word + rest) == word
  {
    if |word| > 0 {
      assert (word + rest)[1..] == word[1..] + rest;
      TakeWordOf(word[1..], rest);
    }
  }

  /**
   * The word is the first one: it is the longest blank-free run that starts
   * at the first non-blank character.
   */
  lemma {:induction false} FirstWordIsFirst(s: string)
    requires FirstWord(s).Some?
    ensures exists k :: 0 <= k < |s| && (forall i :: 0 <= i < k ==> IsSpace(s[i])) && !IsSpace(s[k])
                        && FirstWord(s).value == TakeWord(s[k..])
  {
    if IsSpace(s[0]) {
      FirstWordIsFirst(s[1..]);
      var k :| 0 <= k < |s[1..]| && (forall i :: 0 <= i < k ==> IsSpace(s[1..][i])) && !IsSpace(s[1..][k])
               && FirstWord(s[1..]).value == TakeWord(s[1..][k..]);
      assert s[k + 1..] == s[1..][k..];
      assert forall i :: 0 <= i < k + 1 ==> IsSpace(s[i]);
    } else {
      assert s[0..] == s;
    }
  }

  /** The first word of a line that starts with a blank, a word and a blank. */
  lemma FirstWordOf(word: string, rest: string)
    requires |word| > 0 && forall i :: 0 <= i < |word| ==> !IsSpace(word[i])
    ensures FirstWord(" " + word + " " + rest) == Some(word)
  {
    var line := " " + word + " " + rest;
    assert line[1..] == word + (" " + rest);
    TakeWordOf(word, " " + rest);
  }

  // ---------------------------------------------------------------------
  // Padding: "{:<width}" in str.format
  // ---------------------------------------------------------------------

  function Spaces(n: nat): (r: string)
    ensures |r| == n && forall i :: 0 <= i < n ==> r[i] == ' '
  {
    if n == 0 then "" else " " + Spaces(n - 1)
  }

  /** `"{0:<width}".format(s)`: `s`, filled on the right with spaces up to `width`. */
  function PadRight(s: string, width: nat): (r: string)
    ensures |r| == if |s| < width then width else |s|
    ensures r[..|s|] == s
    ensures forall i :: |s| <= i < |r| ==> r[i] == ' '
    ensures forall ch :: ch in r ==> ch in s || ch == ' '
  {
    if |s| < width then s + Spaces(width - |s|) else s
  }

  // ---------------------------------------------------------------------
  // sorted() on strings: code-point lexicographic order
  // ---------------------------------------------------------------------

  /** Python's `a <= b` on strings. */
  predicate LexLe(a: string, b: string)
  {
    |a| == 0 || (|b| > 0 && (a[0] < b[0] || (a[0] == b[0] && LexLe(a[1..], b[1..]))))
  }

  lemma {:induction false} LexLeTotal(a: string, b: string)
    ensures LexLe(a, b) || LexLe(b, a)
  {
    if |a| > 0 && |b| > 0 && a[0] == b[0] {
      LexLeTotal(a[1..], b[1..]);
    }
  }

  lemma {:induction false} LexLeTransitive(a: string, b: string, c: string)
    requires LexLe(a, b) && LexLe(b, c)
    ensures LexLe(a, c)
  {
    if |a| > 0 && a[0] == b[0] && b[0] == c[0] {
      LexLeTransitive(a[1..], b[1..], c[1..]);
    }
  }

  lemma {:induction false} LexLeAntisymmetric(a: string, b: string)
    requires LexLe(a, b) && LexLe(b, a)
    ensures a == b
  {
    if |a| > 0 {
      LexLeAntisymmetric(a[1..], b[1..]);
      assert a == [a[0]] + a[1..] && b == [b[0]] + b[1..];
    }
  }

  predicate Sorted(s: seq<string>)
  {
    forall i, j :: 0 <= i < j < |s| ==> LexLe(s[i], s[j])
  }

  /** Putting in front an element below all others keeps a list sorted. */
  lemma ConsSorted(x: string, s: seq<string>)
    requires Sorted(s)
    requires forall y :: y in s ==> LexLe(x, y)
    ensures Sorted([x] + s)
  {
    var r := [x] + s;
    forall i, j | 0 <= i < j < |r| ensures LexLe(r[i], r[j]) {
      if i == 0 { assert r[j] == s[j - 1]; } else { assert r[i] == s[i - 1] && r[j] == s[j - 1]; }
    }
  }

  function Insert(x: string, s: seq<string>): (r: seq<string>)
    requires Sorted(s)
    ensures Sorted(r)
    ensures multiset(r) == multiset(s) + multiset{x}
  {
    if |s| == 0 then [x]
    else if LexLe(x, s[0]) then
      assert forall y :: y in s ==> LexLe(x, y) by {
        forall y | y in s ensures LexLe(x, y) {
          var j :| 0 <= j < |s| && s[j] == y;
          if j > 0 { LexLeTransitive(x, s[0], s[j]); }
        }
      }
      ConsSorted(x, s);
      [x] + s
    else
      var rest := Insert(x, s[1..]);
      assert s == [s[0]] + s[1..];
      assert forall y :: y in rest ==> LexLe(s[0], y) by {
        forall y | y in rest ensures LexLe(s[0], y) {
          assert y in multiset(rest);
          if y == x { LexLeTotal(x, s[0]); } else { assert y in multiset(s[1..]); }
        }
      }
      ConsSorted(s[0], rest);
      [s[0]] + rest
  }

  /** Python's `sorted(names)` for a list of strings. */
  function Sort(s: seq<string>): (r: seq<string>)
    ensures Sorted(r)
    ensures multiset(r) == multiset(s)
  {
    if |s| == 0 then []
    else
      assert s == [s[0]] + s[1..];
      Insert(s[0], Sort(s[1..]))
  }

  lemma SortedHeads(r: seq<string>, t: seq<string>)
    requires Sorted(r) && Sorted(t) && multiset(r) == multiset(t) && |r| > 0
    ensures |t| > 0 && r[0] == t[0]
  {
    assert r[0] in multiset(t);
    assert t[0] in multiset(r);
    var i :| 0 <= i < |t| && t[i] == r[0];
    var j :| 0 <= j < |r| && r[j] == t[0];
    if i > 0 && j > 0 {
      assert LexLe(r[0], r[j]) && LexLe(t[0], t[i]);
      LexLeAntisymmetric(r[0], t[0]);
    }
  }

  lemma SortedTail(r: seq<string>)
    requires Sorted(r) && |r| > 0
    ensures Sorted(r[1..])
  {
  }

  lemma MultisetTail(r: seq<string>)
    requires |r| > 0
    ensures multiset(r[1..]) == multiset(r) - multiset{r[0]}
  {
    assert r == [r[0]] + r[1..];
  }

  /** A sorted arrangement of a list of strings is unique. */
  lemma {:induction false} SortedUnique(r: seq<string>, t: seq<string>)
    requires Sorted(r) && Sorted(t) && multiset(r) == multiset(t)
    ensures r == t
  {
    if |r| == 0 {
      assert |multiset(t)| == 0;
    } else {
      SortedHeads(r, t);
      MultisetTail(r);
      MultisetTail(t);
      SortedTail(r);
      SortedTail(t);
      SortedUnique(r[1..], t[1..]);
      assert r == [r[0]] + r[1..] && t == [t[0]] + t[1..];
    }
  }

  lemma SortIgnoresOrder(s: seq<string>, t: seq<string>)
    requires multiset(s) == multiset(t)
    ensures Sort(s) == Sort(t)
  {
    SortedUnique(Sort(s), Sort(t));
  }
}
