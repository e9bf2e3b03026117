/**
 * Text primitives the scraper leans on: Python's `sep.join(parts)` and its
 * inverse `str.split(sep)`, `str.strip()`, `str.replace(c, '')` and `str(n)`
 * for integers.  Strings are sequences of Unicode scalar values, as Python
 * `str` values are.
 */
module Text {

  /** `sep.join(parts)`: the parts with one separator between neighbours. */
  function Join(parts: seq<string>, sep: char): (r: string)
    ensures |parts| == 1 ==> r == parts[0]
    ensures (forall i :: 0 <= i < |parts| ==> sep !in parts[i]) ==>
              multiset(r)[sep] == if |parts| == 0 then 0 else |parts| - 1
  {
    if |parts| == 0 then []
    else if |parts| == 1 then parts[0]
    else parts[0] + [sep] + Join(parts[1..], sep)
  }

  /** Joining two parts puts exactly one separator between them. */
  lemma JoinPair(a: string, b: string, sep: char)
    ensures Join([a, b], sep) == a + [sep] + b
    ensures (a + [sep] + b)[..|a|] == a && (a + [sep] + b)[|a| + 1..] == b
  {
    assert [a, b][1..] == [b];
  }

  /** `s.split(sep)`: the maximal separator-free pieces, in order.  Always at least one piece. */
  function Split(s: string, sep: char): (r: seq<string>)
    ensures |r| >= 1
    ensures forall i :: 0 <= i < |r| ==> sep !in r[i]
    decreases |s|
  {
    if |s| == 0 then [[]]
    else if s[0] == sep then [[]] + Split(s[1..], sep)
    else
      var rest := Split(s[1..], sep);
      [[s[0]] + rest[0]] + rest[1..]
  }

  lemma {:induction false} SplitNoSeparator(p: string, sep: char)
    requires sep !in p
    ensures Split(p, sep) == [p]
    decreases |p|
  {
    if |p| > 0 {
      SplitNoSeparator(p[1..], sep);
      assert [p[0]] + p[1..] == p;
    }
  }

  lemma {:induction false} SplitAfterPiece(p: string, sep: char, t: string)
    requires sep !in p
    ensures Split(p + [sep] + t, sep) == [p] + Split(t, sep)
    decreases |p|
  {
    var s := p + [sep] + t;
    if |p| == 0 {
      assert s[0] == sep && s[1..] == t;
    } else {
      assert s[0] == p[0] && s[1..] == p[1..] + [sep] + t;
      SplitAfterPiece(p[1..], sep, t);
      assert [p[0]] + p[1..] == p;
    }
  }

  /** Splitting a join on the same separator gives the parts back, when no part holds the separator. */
  lemma {:induction false} SplitJoin(parts: seq<string>, sep: char)
    requires |parts| >= 1
    requires forall i :: 0 <= i < |parts| ==> sep !in parts[i]
    ensures Split(Join(parts, sep), sep) == parts
    decreases |parts|
  {
    if |parts| == 1 {
      SplitNoSeparator(parts[0], sep);
    } else {
      SplitAfterPiece(parts[0], sep, Join(parts[1..], sep));
      SplitJoin(parts[1..], sep);
      assert [parts[0]] + parts[1..] == parts;
    }
  }

  // ---------------------------------------------------------------------
  // str.strip()

  /**
   * The characters Python's `str.strip()` removes when called without
   * arguments: those for which `str.isspace()` holds.
   */
  predicate IsSpace(c: char)
  {
    c == ' ' || ('\t' <= c <= '\r') || ('\U{1C}' <= c <= '\U{1F}')
    || c == '\U{85}' || c == '\U{A0}' || c == '\U{1680}'
    || ('\U{2000}' <= c <= '\U{200A}') || c == '\U{2028}' || c == '\U{2029}'
    || c == '\U{202F}' || c == '\U{205F}' || c == '\U{3000}'
  }

  predicate AllSpace(s: string)
  {
    forall i :: 0 <= i < |s| ==> IsSpace(s[i])
  }

  /** A string with no whitespace at either end. */
  predicate Trimmed(s: string)
  {
    s == [] || (!IsSpace(s[0]) && !IsSpace(s[|s| - 1]))
  }

  /** `s.lstrip()`: drops every leading whitespace character (see `TrimStartShape`). */
  function TrimStart(s: string): string
    decreases |s|
  {
    if |s| > 0 && IsSpace(s[0]) then TrimStart(s[1..]) else s
  }

  /** `s.rstrip()`: drops every trailing whitespace character (see `TrimEndShape`). */
  function TrimEnd(s: string): string
    decreases |s|
  {
    if |s| > 0 && IsSpace(s[|s| - 1]) then TrimEnd(s[..|s| - 1]) else s
  }

  /** `lstrip` keeps a suffix, drops only whitespace, and leaves no whitespace in front. */
  lemma {:induction false} TrimStartShape(s: string)
    ensures var r := TrimStart(s);
            |r| <= |s| && r == s[|s| - |r|..] && AllSpace(s[..|s| - |r|]) && (r == [] || !IsSpace(r[0]))
    decreases |s|
  {
    if |s| > 0 && IsSpace(s[0]) {
      TrimStartShape(s[1..]);
      var r := TrimStart(s);
      var dropped := s[..|s| - |r|];
      forall i | 0 <= i < |dropped| ensures IsSpace(dropped[i]) {
        if i > 0 { assert dropped[i] == s[1..][..|s| - 1 - |r|][i - 1]; }
      }
    }
  }

  /** `rstrip` keeps a prefix, drops only whitespace, and leaves no whitespace at the end. */
  lemma {:induction false} TrimEndShape(s: string)
    ensures var r := TrimEnd(s);
            |r| <= |s| && r == s[..|r|] && AllSpace(s[|r|..]) && (r == [] || !IsSpace(r[|r| - 1]))
    decreases |s|
  {
    if |s| > 0 && IsSpace(s[|s| - 1]) {
      var init := s[..|s| - 1];
      TrimEndShape(init);
      var r := TrimEnd(s);
      forall i | |r| <= i < |s| ensures IsSpace(s[i]) {
        if i < |s| - 1 { assert s[i] == init[|r|..][i - |r|]; }
      }
    }
  }

  /** `s.strip()`. */
  function Strip(s: string): (r: string)
    ensures Trimmed(r)
    ensures |r| <= |s|
    ensures r == [] <==> AllSpace(s)
  {
    var t := TrimStart(s);
    TrimStartShape(s);
    var r := TrimEnd(t);
    TrimEndShape(t);
    assert r != [] ==> r[0] == t[0];
    assert AllSpace(s) ==> t == [] by {
      if t != [] { assert t[0] == s[|s| - |t|]; }
    }
    assert r == [] ==> AllSpace(s) by {
      if r == [] {
        assert AllSpace(t) by { assert t[|r|..] == t; }
        forall i | 0 <= i < |s| ensures IsSpace(s[i]) {
          assert s[i] == s[..|s| - |t|][i];
        }
      }
    }
    r
  }

  lemma {:induction false} TrimStartPadded(pre: string, core: string)
    requires AllSpace(pre)
    requires core == [] || !IsSpace(core[0])
    ensures TrimStart(pre + core) == core
    decreases |pre|
  {
    if |pre| > 0 {
      assert (pre + core)[1..] == pre[1..] + core;
      TrimStartPadded(pre[1..], core);
    } else {
      assert pre + core == core;
    }
  }

  lemma {:induction false} TrimEndPadded(core: string, post: string)
    requires AllSpace(post)
    requires core == [] || !IsSpace(core[|core| - 1])
    ensures TrimEnd(core + post) == core
    decreases |post|
  {
    if |post| > 0 {
      assert (core + post)[..|core + post| - 1] == core + post[..|post| - 1];
      TrimEndPadded(core, post[..|post| - 1]);
    } else {
      assert core + post == core;
    }
  }

  /**
   * `strip` removes exactly the surrounding whitespace: any trimmed text
   * padded with whitespace on both sides strips back to itself.  Since every
   * string splits this way, this pins `Strip` down completely.
   */
  lemma StripPadded(pre: string, core: string, post: string)
    requires AllSpace(pre) && AllSpace(post) && Trimmed(core)
    ensures Strip(pre + core + post) == core
  {
    assert pre + core + post == pre + (core + post);
    if core == [] {
      assert AllSpace(core + post) by { assert core + post == post; }
      TrimStartPadded(pre, []);
      assert TrimStart(pre + (core + post)) == [] by {
        assert pre + (core + post) == (pre + post) + [];
        assert AllSpace(pre + post) by {
          forall i | 0 <= i < |pre + post| ensures IsSpace((pre + post)[i]) {
            if i < |pre| { assert (pre + post)[i] == pre[i]; }
            else { assert (pre + post)[i] == post[i - |pre|]; }
          }
        }
        TrimStartPadded(pre + post, []);
      }
    } else {
      assert (core + post)[0] == core[0];
      TrimStartPadded(pre, core + post);
      TrimEndPadded(core, post);
    }
  }

  /** Text with no surrounding whitespace is left as it is. */
  lemma StripTrimmed(s: string)
    requires Trimmed(s)
    ensures Strip(s) == s
  {
    StripPadded([], s, []);
    assert [] + s + [] == s;
  }

  /** Stripping twice is stripping once. */
  lemma StripIdempotent(s: string)
    ensures Strip(Strip(s)) == Strip(s)
  {
    StripTrimmed(Strip(s));
  }

  // ---------------------------------------------------------------------
  // str.replace(c, '')

  /**
   * The characters of `s` other than `c`, in order, taken front to back.
   * `RemoveChar` is this walk together with what it is known to leave.
   */
  function Kept(s: string, c: char): string
  {
    if |s| == 0 then [] else if s[0] == c then Kept(s[1..], c) else [s[0]] + Kept(s[1..], c)
  }

  /** The walk leaves no `c` and every other character as often as `s` holds it. */
  lemma {:induction false} KeptCounts(s: string, c: char)
    ensures c !in Kept(s, c)
    ensures |Kept(s, c)| == |s| - multiset(s)[c]
    ensures forall d :: d != c ==> multiset(Kept(s, c))[d] == multiset(s)[d]
    decreases |s|
  {
    if |s| > 0 {
      KeptCounts(s[1..], c);
      assert s == [s[0]] + s[1..];
    }
  }

  /** `s.replace(c, '')`: `s` with every occurrence of `c` deleted. */
  function RemoveChar(s: string, c: char): (r: string)
    ensures c !in r
    ensures |r| == |s| - multiset(s)[c]
    ensures forall d :: d != c ==> multiset(r)[d] == multiset(s)[d]
  {
    KeptCounts(s, c);
    Kept(s, c)
  }

  /** The walk over two pieces is the walk over each, one after the other. */
  lemma {:induction false} KeptAppend(s: string, t: string, c: char)
    ensures Kept(s + t, c) == Kept(s, c) + Kept(t, c)
    decreases |s|
  {
    if |s| > 0 {
      assert (s + t)[0] == s[0] && (s + t)[1..] == s[1..] + t;
      KeptAppend(s[1..], t, c);
      if s[0] != c {
        assert [s[0]] + (Kept(s[1..], c) + Kept(t, c)) == ([s[0]] + Kept(s[1..], c)) + Kept(t, c);
      }
    } else {
      assert s + t == t;
    }
  }

  /** Removal works piece by piece, so the characters that stay keep their order. */
  lemma RemoveCharAppend(s: string, t: string, c: char)
    ensures RemoveChar(s + t, c) == RemoveChar(s, c) + RemoveChar(t, c)
  {
    KeptAppend(s, t, c);
  }

  /** A text without the character is left as it is. */
  lemma {:induction false} RemoveCharAbsent(s: string, c: char)
    requires c !in s
    ensures RemoveChar(s, c) == s
    decreases |s|
  {
    if |s| > 0 {
      RemoveCharAbsent(s[1..], c);
      assert s == [s[0]] + s[1..];
    }
  }

  /** The character alone disappears; any other character alone stays. */
  lemma RemoveCharSingle(d: char, c: char)
    ensures RemoveChar([d], c) == if d == c then [] else [d]
  {
    assert [d][1..] == [];
  }

  /** Removing the character from `s`, the character, then `t` without it, leaves what is kept of `s`, then `t`. */
  lemma RemoveCharSeparator(s: string, t: string, c: char)
    requires c !in t
    ensures RemoveChar(s + [c] + t, c) == RemoveChar(s, c) + t
  {
    RemoveCharAppend(s + [c], t, c);
    RemoveCharAppend(s, [c], c);
    RemoveCharSingle(c, c);
    RemoveCharAbsent(t, c);
    assert RemoveChar(s, c) + [] == RemoveChar(s, c);
  }

  /** Taking the hyphens out of `<day>-<month>-<year>` leaves day, month and year, in order. */
  lemma RemoveCharDate(day: string, month: string, year: string)
    requires '-' !in day && '-' !in month && '-' !in year
    ensures RemoveChar(day + "-" + month + "-" + year, '-') == day + month + year
  {
    RemoveCharSeparator(day + "-" + month, year, '-');
    RemoveCharSeparator(day, month, '-');
    RemoveCharAbsent(day, '-');
  }

  /** The date format the date lists use: `01-Jan-2020` becomes `01Jan2020`. */
  lemma RemoveCharDateExample()
    ensures RemoveChar("01-Jan-2020", '-') == "01Jan2020"
  {
    assert "01-Jan-2020" == "01" + "-" + "Jan" + "-" + "2020";
    assert "01Jan2020" == "01" + "Jan" + "2020";
    RemoveCharDate("01", "Jan", "2020");
  }

  lemma RemoveCharDateExampleEnd()
    ensures RemoveChar("31-Jan-2020", '-') == "31Jan2020"
  {
    assert "31-Jan-2020" == "31" + "-" + "Jan" + "-" + "2020";
    assert "31Jan2020" == "31" + "Jan" + "2020";
    RemoveCharDate("31", "Jan", "2020");
  }

  // ---------------------------------------------------------------------
  // str(n) for integers, and a reader for decimal text

  predicate IsDigit(c: char) { '0' <= c <= '9' }

  function DigitChar(d: nat): (c: char)
    requires d < 10
    ensures IsDigit(c) && c as int - '0' as int == d
  {
    ('0' as int + d) as char
  }

  /** The decimal text of a natural number, without leading zeros. */
  function NatToDecimal(n: nat): (r: string)
    ensures |r| >= 1
    ensures forall i :: 0 <= i < |r| ==> IsDigit(r[i])
    ensures r[0] == '0' ==> n == 0
    decreases n
  {
    if n < 10 then [DigitChar(n)] else NatToDecimal(n / 10) + [DigitChar(n % 10)]
  }

  /** Decimal digits, possibly after a leading minus sign. */
  predicate IsIntText(s: string)
  {
    forall k :: 0 <= k < |s| ==> IsDigit(s[k]) || (k == 0 && s[k] == '-')
  }

  /** `str(i)` for a Python integer: a minus sign for negatives, then the digits. */
  function IntToDecimal(i: int): (r: string)
    ensures |r| >= 1
    ensures IsIntText(r)
    ensures r[0] == '-' <==> i < 0
  {
    if i < 0 then "-" + NatToDecimal(-i) else NatToDecimal(i)
  }

  /** The value of a string of decimal digits. */
  function DecimalValue(s: string): nat
    requires forall i :: 0 <= i < |s| ==> IsDigit(s[i])
  {
    if |s| == 0 then 0
    else
      var last := s[|s| - 1];
      assert IsDigit(last);
      DecimalValue(s[..|s| - 1]) * 10 + (last as int - '0' as int)
  }

  /** The value of `int(s)` for the texts `str` produces. */
  function IntValue(s: string): int
    requires IsIntText(s)
  {
    if |s| > 0 && s[0] == '-' then -(DecimalValue(s[1..]) as int) else DecimalValue(s)
  }

  lemma {:induction false} NatToDecimalRoundTrip(n: nat)
    ensures DecimalValue(NatToDecimal(n)) == n
    decreases n
  {
    if n >= 10 {
      var s := NatToDecimal(n);
      assert s[..|s| - 1] == NatToDecimal(n / 10);
      NatToDecimalRoundTrip(n / 10);
    }
  }

  /** Reading back the decimal text of an integer gives the integer. */
  lemma IntToDecimalRoundTrip(i: int)
    ensures IntValue(IntToDecimal(i)) == i
  {
    if i < 0 {
      assert IntToDecimal(i)[1..] == NatToDecimal(-i);
      NatToDecimalRoundTrip(-i);
    } else {
      NatToDecimalRoundTrip(i);
    }
  }
}
