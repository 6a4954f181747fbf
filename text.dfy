/**
 * The pieces of Ruby's string handling that the plugin relies on:
 * `String#lines` and `Array#join` (splitting text after each newline and
 * gluing it back), the `/^\s*$/` blank-line test, and `Integer#to_s`.
 */
module Text {
  import Seqs

  /** Ruby's `\s` class: space, tab, line feed, vertical tab, form feed, carriage return. */
  predicate IsWhitespace(c: char)
  {
    c == ' ' || c == '\t' || c == '\n' || c == '\U{000B}' || c == '\U{000C}' || c == '\r'
  }

  /**
   * A single line (as `String#lines` yields it: at most one '\n', at its end)
   * matches `/^\s*$/` exactly when every character of it is whitespace:
   * `^` can only match at its start, and `$` only at its end or before its final '\n'.
   */
  predicate Blank(l: string)
  {
    forall i :: 0 <= i < |l| ==> IsWhitespace(l[i])
  }

  /** A non-empty piece with no '\n' before its last character. */
  predicate Shaped(l: string)
  {
    |l| > 0 && forall i :: 0 <= i < |l| - 1 ==> l[i] != '\n'
  }

  /** A non-empty line that ends with its one and only newline. */
  predicate Terminated(l: string)
  {
    Shaped(l) && l[|l| - 1] == '\n'
  }

  /** Text that stays on one line once written. */
  type Line = l: string | '\n' !in l

  /** Each line followed by its '\n', as `puts` or a heredoc writes it. */
  function Terminate(ls: seq<string>): (r: seq<string>)
    ensures |r| == |ls|
    ensures forall i :: 0 <= i < |ls| ==> r[i] == ls[i] + "\n"
  {
    if ls == [] then [] else [ls[0] + "\n"] + Terminate(ls[1..])
  }

  /** Lines that hold no '\n' gain exactly one, at their end. */
  lemma TerminateLines(ls: seq<Line>)
    ensures forall l :: l in Terminate(ls) ==> Terminated(l)
  {
    var t := Terminate(ls);
    forall l | l in t ensures Terminated(l) {
      var i :| 0 <= i < |t| && t[i] == l;
      assert l == ls[i] + "\n";
      assert forall k :: 0 <= k < |l| - 1 ==> l[k] == ls[i][k];
    }
  }

  /**
   * The shape of what `String#lines` returns: non-empty pieces, no '\n' but at
   * the end of a piece, and every piece but the last ending in '\n'.
   */
  ghost predicate SplitForm(ls: seq<string>)
  {
    forall i :: 0 <= i < |ls| ==> Shaped(ls[i]) && (i < |ls| - 1 ==> Terminated(ls[i]))
  }

  /** `Array#join` with no separator. */
  function Concat(ls: seq<string>): string
  {
    if ls == [] then [] else ls[0] + Concat(ls[1..])
  }

  /** The length of the first line of `s`, counting its terminating '\n' if there is one. */
  function FirstLineLength(s: string): (k: nat)
    requires s != []
    ensures 0 < k <= |s|
    ensures forall i :: 0 <= i < k - 1 ==> s[i] != '\n'
    ensures k < |s| ==> s[k - 1] == '\n'
  {
    if s[0] == '\n' || |s| == 1 then 1 else 1 + FirstLineLength(s[1..])
  }

  /** `String#lines`: `s` cut after every '\n'; only the last piece may lack one. */
  function Lines(s: string): seq<string>
    decreases |s|
  {
    if s == [] then []
    else
      var k := FirstLineLength(s);
      [s[..k]] + Lines(s[k..])
  }

  /** Joining the lines of a text gives the text back. */
  lemma {:induction false} ConcatLines(s: string)
    ensures Concat(Lines(s)) == s
  {
    if s != [] {
      var k := FirstLineLength(s);
      calc {
        Concat(Lines(s));
        Concat([s[..k]] + Lines(s[k..]));
        { assert ([s[..k]] + Lines(s[k..]))[1..] == Lines(s[k..]); }
        s[..k] + Concat(Lines(s[k..]));
        { ConcatLines(s[k..]); }
        s[..k] + s[k..];
        s;
      }
    }
  }

  /** Every line of a text that ends in '\n' (or is empty) is a terminated line. */
  lemma {:induction false} LinesTerminated(s: string)
    requires s == [] || s[|s| - 1] == '\n'
    ensures forall l :: l in Lines(s) ==> Terminated(l)
  {
    if s != [] {
      var k := FirstLineLength(s);
      LinesTerminated(s[k..]);
      assert s[k..] == [] || s[k..][|s[k..]| - 1] == '\n';
      assert Terminated(s[..k]);
    }
  }

  /** Splitting a join of pieces in the shape `String#lines` produces gives those pieces back. */
  lemma {:induction false} LinesOfConcat(ls: seq<string>)
    requires SplitForm(ls)
    ensures Lines(Concat(ls)) == ls
  {
    if ls != [] {
      var s := Concat(ls);
      var h := ls[0];
      assert SplitForm(ls[1..]) by {
        forall i | 0 <= i < |ls| - 1 ensures ls[1..][i] == ls[i + 1] { }
      }
      LinesOfConcat(ls[1..]);
      FirstLineOfShaped(h, Concat(ls[1..]));
      assert s[..|h|] == h && s[|h|..] == Concat(ls[1..]);
    }
  }

  /** Terminated lines are in the shape `String#lines` produces. */
  lemma TerminatedSplitForm(ls: seq<string>)
    requires forall l :: l in ls ==> Terminated(l)
    ensures SplitForm(ls)
  {
    forall i | 0 <= i < |ls| ensures Terminated(ls[i]) {
      assert ls[i] in ls;
    }
  }

  /** The first line of `h + t` is `h` when `h` is one line that ends in '\n', or all of the text. */
  lemma {:induction false} FirstLineOfShaped(h: string, t: string)
    requires Shaped(h)
    requires t == [] || h[|h| - 1] == '\n'
    ensures FirstLineLength(h + t) == |h|
  {
    if h[0] != '\n' && |h| > 1 {
      assert (h + t)[1..] == h[1..] + t;
      FirstLineOfShaped(h[1..], t);
    } else if |h| == 1 && t != [] {
      assert (h + t)[0] == '\n';
    }
  }

  lemma FirstLineOfTerminated(h: string, t: string)
    requires Terminated(h)
    ensures FirstLineLength(h + t) == |h|
  {
    FirstLineOfShaped(h, t);
  }

  /** `String#lines` always yields pieces of that shape. */
  lemma {:induction false} LinesSplitForm(s: string)
    ensures SplitForm(Lines(s))
    decreases |s|
  {
    if s != [] {
      var k := FirstLineLength(s);
      LinesSplitForm(s[k..]);
      var ls := Lines(s);
      assert ls == [s[..k]] + Lines(s[k..]);
      forall i | 0 <= i < |ls|
        ensures Shaped(ls[i]) && (i < |ls| - 1 ==> Terminated(ls[i]))
      {
        if i > 0 {
          assert ls[i] == Lines(s[k..])[i - 1];
        } else if |ls| > 1 {
          assert s[k..] != [];
        }
      }
    }
  }

  /** Dropping pieces keeps the shape: only the very last piece may lack its '\n', and it stays last. */
  lemma {:induction false} FilterSplitForm(ls: seq<string>, p: string -> bool)
    requires SplitForm(ls)
    ensures SplitForm(Seqs.Filter(ls, p))
  {
    if ls != [] {
      assert SplitForm(ls[1..]) by {
        forall i | 0 <= i < |ls| - 1 ensures ls[1..][i] == ls[i + 1] { }
      }
      FilterSplitForm(ls[1..], p);
      var rest := Seqs.Filter(ls[1..], p);
      if p(ls[0]) {
        var r := [ls[0]] + rest;
        assert Seqs.Filter(ls, p) == r;
        forall i | 0 <= i < |r|
          ensures Shaped(r[i]) && (i < |r| - 1 ==> Terminated(r[i]))
        {
          if i > 0 {
            assert r[i] == rest[i - 1];
          } else if |r| > 1 {
            assert |ls[1..]| > 0;
          }
        }
      }
    }
  }

  /** Lines without '\n', written one after another each with its '\n', read back as those lines; the text ends in '\n'. */
  lemma TerminatedText(ls: seq<Line>)
    ensures Lines(Concat(Terminate(ls))) == Terminate(ls)
    ensures ls != [] ==> Concat(Terminate(ls)) != [] && Concat(Terminate(ls))[|Concat(Terminate(ls))| - 1] == '\n'
  {
    var t := Terminate(ls);
    TerminateLines(ls);
    TerminatedSplitForm(t);
    LinesOfConcat(t);
    if ls != [] {
      ConcatEndsWithLast(t);
    }
  }

  /** A join ends with the last character of its last piece. */
  lemma {:induction false} ConcatEndsWithLast(ls: seq<string>)
    requires |ls| > 0 && |ls[|ls| - 1]| > 0
    ensures |Concat(ls)| > 0 && Concat(ls)[|Concat(ls)| - 1] == ls[|ls| - 1][|ls[|ls| - 1]| - 1]
  {
    if |ls| > 1 {
      ConcatEndsWithLast(ls[1..]);
    }
  }

  /** After a text that ends in '\n', the next text starts on a line of its own. */
  lemma {:induction false} LinesAppend(a: string, b: string)
    requires a == [] || a[|a| - 1] == '\n'
    ensures Lines(a + b) == Lines(a) + Lines(b)
  {
    if a == [] {
      assert a + b == b;
    } else {
      var k := FirstLineLength(a);
      var rest := a[k..];
      assert rest == [] || rest[|rest| - 1] == '\n';
      calc {
        Lines(a + b);
        { LinesAppendHead(a, b); }
        [a[..k]] + Lines(rest + b);
        { LinesAppend(rest, b); }
        [a[..k]] + (Lines(rest) + Lines(b));
        ([a[..k]] + Lines(rest)) + Lines(b);
        { LinesStep(a); }
        Lines(a) + Lines(b);
      }
    }
  }

  /** The first line of `a + b` is the first line of `a` when `a` ends in '\n'. */
  lemma LinesAppendHead(a: string, b: string)
    requires a != [] && a[|a| - 1] == '\n'
    ensures Lines(a + b) == [a[..FirstLineLength(a)]] + Lines(a[FirstLineLength(a)..] + b)
  {
    var k := FirstLineLength(a);
    FirstLineLengthOfPrefix(a, b);
    LinesStep(a + b);
    assert (a + b)[..k] == a[..k];
    assert (a + b)[k..] == a[k..] + b;
  }

  /** One step of `String#lines`: the first line, then the lines of the rest. */
  lemma LinesStep(s: string)
    requires s != []
    ensures Lines(s) == [s[..FirstLineLength(s)]] + Lines(s[FirstLineLength(s)..])
  {
  }

  lemma {:induction false} FirstLineLengthOfPrefix(a: string, b: string)
    requires a != [] && a[|a| - 1] == '\n'
    ensures FirstLineLength(a + b) == FirstLineLength(a)
  {
    if a[0] != '\n' {
      assert (a + b)[1..] == a[1..] + b;
      FirstLineLengthOfPrefix(a[1..], b);
    }
  }

  /** Every line of an all-whitespace text is blank. */
  lemma {:induction false} LinesOfWhitespace(s: string)
    requires Blank(s)
    ensures forall l :: l in Lines(s) ==> Blank(l)
  {
    if s != [] {
      var k := FirstLineLength(s);
      assert Blank(s[k..]);
      LinesOfWhitespace(s[k..]);
      assert Blank(s[..k]);
    }
  }

  /** A text made of one line without '\n', followed by '\n', is that one line. */
  lemma OneLine(l: string)
    requires forall i :: 0 <= i < |l| ==> l[i] != '\n'
    ensures Lines(l + "\n") == [l + "\n"]
  {
    var s := l + "\n";
    assert Terminated(s);
    FirstLineOfTerminated(s, []);
    assert s + [] == s;
    assert s[|s|..] == [];
  }

  // ---------------------------------------------------------------------
  // Integer#to_s and its inverse

  function DigitChar(d: nat): (c: char)
    requires d < 10
    ensures '0' <= c <= '9'
  {
    "0123456789"[d]
  }

  function DigitValue(c: char): nat
    requires '0' <= c <= '9'
  {
    (c as int - '0' as int) as nat
  }

  predicate IsDigits(s: string)
  {
    forall i :: 0 <= i < |s| ==> '0' <= s[i] <= '9'
  }

  /** The decimal digits of `n`, most significant first, without leading zeros. */
  function NatToString(n: nat): (r: string)
    ensures |r| > 0 && IsDigits(r)
    ensures |r| > 1 ==> r[0] != '0'
  {
    if n < 10 then [DigitChar(n)] else NatToString(n / 10) + [DigitChar(n % 10)]
  }

  /** `Integer#to_s`: decimal, with a leading '-' for negative numbers. */
  function IntToString(i: int): (r: string)
    ensures |r| > 0 && forall k :: 0 <= k < |r| ==> r[k] == '-' || '0' <= r[k] <= '9'
  {
    if i < 0 then "-" + NatToString(-i) else NatToString(i)
  }

  /** Reads a string of decimal digits. */
  function DigitsValue(s: string): nat
    requires IsDigits(s)
  {
    if s == [] then 0 else 10 * DigitsValue(s[..|s| - 1]) + DigitValue(s[|s| - 1])
  }

  /** Reads what `IntToString` writes. */
  function ParseInt(s: string): int
    requires |s| > 0 && (s[0] == '-' || '0' <= s[0] <= '9') && IsDigits(s[1..])
  {
    if s[0] == '-' then 0 - DigitsValue(s[1..]) as int else DigitsValue(s)
  }

  lemma {:induction false} NatToStringRoundTrip(n: nat)
    ensures DigitsValue(NatToString(n)) == n
  {
    if n >= 10 {
      NatToStringRoundTrip(n / 10);
      var s := NatToString(n);
      assert s[..|s| - 1] == NatToString(n / 10);
    }
  }

  /** Printing an integer and reading it back gives the same integer, so equal renderings mean equal numbers. */
  lemma IntToStringRoundTrip(i: int)
    ensures |IntToString(i)| > 0 && IsDigits(IntToString(i)[1..])
    ensures ParseInt(IntToString(i)) == i
  {
    var m: nat := if i < 0 then -i else i;
    NatToStringRoundTrip(m);
    if i < 0 {
      assert IntToString(i)[1..] == NatToString(m);
    }
  }
}
