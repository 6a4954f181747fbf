/**
 * Bash's reading of a double-quoted word. The startup script writes the
 * `killtree` function into `../stop` with `echo "..."`, so the function's
 * text appears in the script with each `$` escaped, and `echo` receives it
 * without the escapes; the `killtree $STARTED` and `killtree $PPID` lines
 * are written with the variables expanded.
 */
module Shell {

  /** The characters a backslash escapes inside double quotes (a backslash before a newline is a line continuation). */
  predicate Special(c: char)
  {
    c == '$' || c == '`' || c == '"' || c == '\\'
  }

  /** `s` written inside double quotes so that bash reads it back literally: a backslash before each special character. */
  function Escape(s: string): (r: string)
    ensures |r| >= |s|
    ensures forall c :: c in r ==> c in s || c == '\\'
  {
    if s == [] then []
    else (if Special(s[0]) then ['\\', s[0]] else [s[0]]) + Escape(s[1..])
  }

  /** A character of a shell variable's name. */
  predicate NameChar(c: char)
  {
    'a' <= c <= 'z' || 'A' <= c <= 'Z' || '0' <= c <= '9' || c == '_'
  }

  /** The name a `$` refers to: the longest run of name characters that follows it. */
  function VarName(s: string): (name: string)
    ensures name <= s
    ensures forall i :: 0 <= i < |name| ==> NameChar(name[i])
    ensures |name| < |s| ==> !NameChar(s[|name|])
  {
    if s != [] && NameChar(s[0]) then [s[0]] + VarName(s[1..]) else []
  }

  /** A variable's value; bash expands an unset variable to nothing. */
  function Lookup(vars: map<string, string>, name: string): string
  {
    if name in vars then vars[name] else ""
  }

  /**
   * What bash makes of the characters between double quotes, command
   * substitution and `${...}` aside: a backslash before a special character is
   * dropped, a backslash before a newline is dropped with the newline, any
   * other backslash stays, and `$NAME` becomes the variable's value.
   */
  function Expand(s: string, vars: map<string, string>): string
    decreases |s|
  {
    if s == [] then []
    else if |s| >= 2 && s[0] == '\\' && Special(s[1]) then [s[1]] + Expand(s[2..], vars)
    else if |s| >= 2 && s[0] == '\\' && s[1] == '\n' then Expand(s[2..], vars)
    else if s[0] == '$' && VarName(s[1..]) != [] then
      Lookup(vars, VarName(s[1..])) + Expand(s[1 + |VarName(s[1..])|..], vars)
    else [s[0]] + Expand(s[1..], vars)
  }

  /** Bash reads an escaped text back as it was, whatever the variables hold. */
  lemma {:induction false} ExpandEscape(s: string, vars: map<string, string>)
    ensures Expand(Escape(s), vars) == s
  {
    if s != [] {
      ExpandEscape(s[1..], vars);
      var e := Escape(s);
      if Special(s[0]) {
        assert e == ['\\', s[0]] + Escape(s[1..]);
        assert e[2..] == Escape(s[1..]);
      } else {
        assert e == [s[0]] + Escape(s[1..]);
        assert e[1..] == Escape(s[1..]);
      }
    }
  }

  /** Text without a backslash or a `$` is read as it is written. */
  lemma {:induction false} ExpandPlain(a: string, rest: string, vars: map<string, string>)
    requires forall i :: 0 <= i < |a| ==> a[i] != '\\' && a[i] != '$'
    ensures Expand(a + rest, vars) == a + Expand(rest, vars)
  {
    if a != [] {
      var s := a + rest;
      assert s[0] == a[0] && s[1..] == a[1..] + rest;
      calc {
        Expand(s, vars);
        [a[0]] + Expand(a[1..] + rest, vars);
        { ExpandPlain(a[1..], rest, vars); }
        [a[0]] + (a[1..] + Expand(rest, vars));
        { assert a == [a[0]] + a[1..]; }
        a + Expand(rest, vars);
      }
    } else {
      assert a + rest == rest;
    }
  }

  /** `$NAME` alone expands to the value of `NAME`. */
  lemma ExpandVariable(name: string, vars: map<string, string>)
    requires name != [] && forall i :: 0 <= i < |name| ==> NameChar(name[i])
    ensures Expand("$" + name, vars) == Lookup(vars, name)
  {
    var s := "$" + name;
    assert s[1..] == name;
    VarNameWhole(name);
    assert s[1 + |name|..] == [];
  }

  /** A name followed by nothing is read whole. */
  lemma {:induction false} VarNameWhole(name: string)
    requires forall i :: 0 <= i < |name| ==> NameChar(name[i])
    ensures VarName(name) == name
  {
    if name != [] {
      VarNameWhole(name[1..]);
    }
  }
}
