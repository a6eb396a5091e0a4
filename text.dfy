/**
 * String helpers shared by the browser client (JavaScript) and the Flask
 * server (Python): splitting on one character, joining with a separator,
 * trimming whitespace, and decimal rendering of a count.
 */
module Text {

  /** Whose notion of whitespace a trim uses: `String.prototype.trim` or `str.strip`. */
  datatype Runtime = JavaScript | Python

  /**
   * Whitespace as each runtime strips it. Both strip the ASCII controls 9..13,
   * the space and the Unicode space separators and line/paragraph separators;
   * JavaScript also strips the byte-order mark, Python also the information
   * separators 0x1C..0x1F and NEXT LINE (0x85).
   */
  predicate IsSpace(rt: Runtime, c: char)
  {
    var n := c as int;
    || (0x09 <= n <= 0x0D) || n == 0x20 || n == 0xA0 || n == 0x1680
    || (0x2000 <= n <= 0x200A) || n == 0x2028 || n == 0x2029
    || n == 0x202F || n == 0x205F || n == 0x3000
    || (rt == JavaScript && n == 0xFEFF)
    || (rt == Python && ((0x1C <= n <= 0x1F) || n == 0x85))
  }

  predicate AllSpace(rt: Runtime, s: string)
  {
    forall i :: 0 <= i < |s| ==> IsSpace(rt, s[i])
  }

  /** True when `s` neither starts nor ends with whitespace. */
  predicate Trimmed(rt: Runtime, s: string)
  {
    s != [] ==> !IsSpace(rt, s[0]) && !IsSpace(rt, s[|s| - 1])
  }

  /**
   * `s.trim()` for JavaScript, `s.strip()` for Python: whitespace is dropped
   * from the front, then from the back. The result neither starts nor ends
   * with whitespace, and it is empty exactly when `s` is all whitespace.
   */
  function Trim(rt: Runtime, s: string): (r: string)
    ensures |r| <= |s|
    ensures Trimmed(rt, r)
    ensures r == [] <==> AllSpace(rt, s)
    decreases |s|
  {
    if s == [] then []
    else if IsSpace(rt, s[0]) then
      var r := Trim(rt, s[1..]);
      assert AllSpace(rt, s[1..]) ==> AllSpace(rt, s) by {
        if AllSpace(rt, s[1..]) {
          assert forall i :: 1 <= i < |s| ==> s[i] == s[1..][i - 1];
        }
      }
      r
    else if IsSpace(rt, s[|s| - 1]) then
      var r := Trim(rt, s[..|s| - 1]);
      assert !AllSpace(rt, s[..|s| - 1]) by {
        assert s[..|s| - 1][0] == s[0];
      }
      r
    else s
  }

  /** `r` is `s[i..j]`, and what lies before `i` and from `j` on is all whitespace. */
  predicate Middle(rt: Runtime, s: string, i: nat, j: nat, r: string)
  {
    i <= j <= |s| && r == s[i..j] && AllSpace(rt, s[..i]) && AllSpace(rt, s[j..])
  }

  /**
   * Trimming removes whitespace from the two ends and nothing else: the
   * result is a slice of `s` whose cut-off prefix and suffix are all
   * whitespace. With `Trimmed`, this fixes the result uniquely.
   */
  lemma {:induction false} TrimIsMiddle(rt: Runtime, s: string)
    ensures exists i: nat, j: nat :: Middle(rt, s, i, j, Trim(rt, s))
    decreases |s|
  {
    if s == [] {
      assert Middle(rt, s, 0, 0, Trim(rt, s));
    } else if IsSpace(rt, s[0]) {
      TrimIsMiddle(rt, s[1..]);
      var i: nat, j: nat :| Middle(rt, s[1..], i, j, Trim(rt, s[1..]));
      MiddleAfterLeadingSpace(rt, s, i, j, Trim(rt, s));
    } else if IsSpace(rt, s[|s| - 1]) {
      TrimIsMiddle(rt, s[..|s| - 1]);
      var i: nat, j: nat :| Middle(rt, s[..|s| - 1], i, j, Trim(rt, s[..|s| - 1]));
      MiddleBeforeTrailingSpace(rt, s, i, j, Trim(rt, s));
    } else {
      assert Middle(rt, s, 0, |s|, Trim(rt, s));
    }
  }

  lemma MiddleAfterLeadingSpace(rt: Runtime, s: string, i: nat, j: nat, r: string)
    requires s != [] && IsSpace(rt, s[0]) && Middle(rt, s[1..], i, j, r)
    ensures Middle(rt, s, i + 1, j + 1, r)
  {
    var t := s[1..];
    assert t[i..j] == s[i + 1..j + 1];
    assert t[j..] == s[j + 1..];
    assert s[..i + 1] == [s[0]] + t[..i];
  }

  lemma MiddleBeforeTrailingSpace(rt: Runtime, s: string, i: nat, j: nat, r: string)
    requires s != [] && IsSpace(rt, s[|s| - 1]) && Middle(rt, s[..|s| - 1], i, j, r)
    ensures Middle(rt, s, i, j, r)
  {
    var t := s[..|s| - 1];
    assert t[i..j] == s[i..j];
    assert t[..i] == s[..i];
    assert s[j..] == t[j..] + [s[|s| - 1]];
  }

  /** Trimming only removes characters, so a character absent from `s` is absent from its trim. */
  lemma {:induction false} TrimKeepsAbsent(rt: Runtime, s: string, c: char)
    ensures c !in s ==> c !in Trim(rt, s)
    decreases |s|
  {
    if s != [] && c !in s {
      if IsSpace(rt, s[0]) {
        assert forall x :: x in s[1..] ==> x in s;
        TrimKeepsAbsent(rt, s[1..], c);
      } else if IsSpace(rt, s[|s| - 1]) {
        assert forall x :: x in s[..|s| - 1] ==> x in s;
        TrimKeepsAbsent(rt, s[..|s| - 1], c);
      }
    }
  }

  /** A string with no whitespace at either end trims to itself. */
  lemma TrimOfTrimmed(rt: Runtime, s: string)
    requires Trimmed(rt, s)
    ensures Trim(rt, s) == s
  {
  }

  /** Leading whitespace in front of a string does not change what it trims to. */
  lemma {:induction false} TrimSkipsLeadingSpace(rt: Runtime, ws: string, s: string)
    requires AllSpace(rt, ws)
    ensures Trim(rt, ws + s) == Trim(rt, s)
    decreases |ws|
  {
    if ws == [] {
      assert ws + s == s;
    } else {
      assert IsSpace(rt, ws[0]);
      assert (ws + s)[0] == ws[0] && (ws + s)[1..] == ws[1..] + s;
      TrimSkipsLeadingSpace(rt, ws[1..], s);
    }
  }

  /** Python's `s.split(c)` (and JavaScript's `s.split(c)`) for a one-character separator. */
  function Split(s: string, c: char): (r: seq<string>)
    ensures |r| >= 1
    ensures forall i :: 0 <= i < |r| ==> c !in r[i]
    decreases |s|
  {
    if |s| == 0 then [""]
    else
      var rest := Split(s[1..], c);
      if s[0] == c then [""] + rest
      else [[s[0]] + rest[0]] + rest[1..]
  }

  /** `sep.join(parts)` in Python, `parts.join(sep)` in JavaScript. */
  function Join(parts: seq<string>, sep: string): string
    decreases |parts|
  {
    if |parts| == 0 then ""
    else if |parts| == 1 then parts[0]
    else parts[0] + sep + Join(parts[1..], sep)
  }

  lemma JoinExtendsHead(x: string, parts: seq<string>, sep: string)
    requires |parts| >= 1
    ensures Join([x + parts[0]] + parts[1..], sep) == x + Join(parts, sep)
  {
    var p := [x + parts[0]] + parts[1..];
    assert p[1..] == parts[1..];
  }

  /** Splitting and joining back with the same separator gives the original string. */
  lemma {:induction false} JoinSplit(s: string, c: char)
    ensures Join(Split(s, c), [c]) == s
    decreases |s|
  {
    if |s| > 0 {
      var rest := Split(s[1..], c);
      JoinSplit(s[1..], c);
      if s[0] == c {
        assert ([""] + rest)[1..] == rest;
      } else {
        JoinExtendsHead([s[0]], rest, [c]);
      }
      assert s == [s[0]] + s[1..];
    }
  }

  /** A string without the separator splits into itself alone. */
  lemma {:induction false} SplitWithoutSeparator(s: string, c: char)
    requires c !in s
    ensures Split(s, c) == [s]
    decreases |s|
  {
    if |s| > 0 {
      SplitWithoutSeparator(s[1..], c);
      assert [s[0]] + s[1..] == s;
    }
  }

  /** A non-separator character in front of a string joins the first piece. */
  lemma SplitCons(x: char, s: string, c: char)
    requires x != c
    ensures Split([x] + s, c) == [[x] + Split(s, c)[0]] + Split(s, c)[1..]
  {
    assert ([x] + s)[1..] == s;
  }

  /** Splitting at one separator occurrence splits the two sides independently. */
  lemma {:induction false} SplitAtSeparator(a: string, b: string, c: char)
    ensures Split(a + [c] + b, c) == Split(a, c) + Split(b, c)
    decreases |a|
  {
    var s := a + [c] + b;
    if |a| == 0 {
      assert s[1..] == b;
    } else {
      assert s[1..] == a[1..] + [c] + b;
      SplitAtSeparator(a[1..], b, c);
    }
  }

  /** Number of characters of `sep.join(parts)`. */
  function TotalLength(parts: seq<string>): nat
  {
    if parts == [] then 0 else |parts[0]| + TotalLength(parts[1..])
  }

  lemma {:induction false} JoinLength(parts: seq<string>, sep: string)
    requires |parts| >= 1
    ensures |Join(parts, sep)| == TotalLength(parts) + (|parts| - 1) * |sep|
    decreases |parts|
  {
    if |parts| > 1 {
      JoinLength(parts[1..], sep);
    }
  }

  // ---- decimal rendering of counts, as a template literal `${n}` prints them ----

  predicate IsDigit(c: char) { '0' <= c <= '9' }

  function DigitChar(d: nat): (c: char)
    requires d < 10
    ensures IsDigit(c)
  {
    "0123456789"[d]
  }

  function DigitValue(c: char): nat
    requires IsDigit(c)
  {
    (c as int - '0' as int) as nat
  }

  /** The decimal digits of `n`, without leading zeros. */
  function NatToString(n: nat): (r: string)
    ensures |r| >= 1
    ensures forall i :: 0 <= i < |r| ==> IsDigit(r[i])
  {
    if n < 10 then [DigitChar(n)] else NatToString(n / 10) + [DigitChar(n % 10)]
  }

  /** The value of a string of decimal digits. */
  function ParseNat(s: string): nat
    requires forall i :: 0 <= i < |s| ==> IsDigit(s[i])
  {
    if |s| == 0 then 0 else 10 * ParseNat(s[..|s| - 1]) + DigitValue(s[|s| - 1])
  }

  lemma DigitRoundTrip(d: nat)
    requires d < 10
    ensures DigitValue(DigitChar(d)) == d
  {
  }

  /** Rendering a count in decimal loses nothing: reading the digits back gives the count. */
  lemma {:induction false} ParseNatToString(n: nat)
    ensures ParseNat(NatToString(n)) == n
  {
    var s := NatToString(n);
    if n < 10 {
      DigitRoundTrip(n);
    } else {
      ParseNatToString(n / 10);
      DigitRoundTrip(n % 10);
      assert s[..|s| - 1] == NatToString(n / 10);
    }
  }
}
