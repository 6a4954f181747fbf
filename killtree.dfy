/**
 * The `../stop` file the startup script writes, and what running it kills:
 * `killtree pid` kills the trees of the children `ps --ppid pid` lists, one
 * after another, and then `kill -9`s the process itself.
 */
module StopScript {
  import opened Text
  import Shell
  import NuxeoPlugin
  import Seqs
  import opened Values

  /** A process as `ps --ppid` sees it: its pid and its children, in the order `ps` lists them. */
  datatype Process = Process(pid: int, children: seq<Process>)

  /** `killtree p`: the processes `kill -9` is sent to, in order. */
  function KillOrder(p: Process): seq<Process>
    decreases p
  {
    KillAll(p.children) + [p]
  }

  /** The `for _child in ...; do killtree ${_child}; done` loop. */
  function KillAll(ps: seq<Process>): seq<Process>
    decreases ps
  {
    if ps == [] then [] else KillOrder(ps[0]) + KillAll(ps[1..])
  }

  /** Every process below `p`: its children and, recursively, theirs. */
  ghost function Descendants(p: Process): set<Process>
    decreases p
  {
    Within(p.children)
  }

  /** The processes `ps` and everything below them. */
  ghost function Within(ps: seq<Process>): set<Process>
    decreases ps
  {
    if ps == [] then {} else {ps[0]} + Descendants(ps[0]) + Within(ps[1..])
  }

  /** The number of processes in the tree of `p`. */
  function Size(p: Process): nat
    decreases p
  {
    1 + SizeAll(p.children)
  }

  function SizeAll(ps: seq<Process>): nat
    decreases ps
  {
    if ps == [] then 0 else Size(ps[0]) + SizeAll(ps[1..])
  }

  ghost function Elements(s: seq<Process>): set<Process>
  {
    set x | x in s
  }

  /** No process is killed before every process below it. */
  ghost predicate PostOrdered(killed: seq<Process>)
  {
    forall j :: 0 <= j < |killed| ==> Descendants(killed[j]) <= Elements(killed[..j])
  }

  /**
   * `killtree p` kills every process of the tree and nothing else, one `kill -9`
   * per process, each only after everything below it, and `p` last.
   */
  lemma {:induction false} KillOrderCorrect(p: Process)
    ensures Elements(KillOrder(p)) == {p} + Descendants(p)
    ensures |KillOrder(p)| == Size(p)
    ensures PostOrdered(KillOrder(p))
    ensures KillOrder(p)[|KillOrder(p)| - 1] == p
    decreases p
  {
    var inner := KillAll(p.children);
    KillAllCorrect(p.children);
    assert Elements(inner + [p]) == Elements(inner) + {p};
    PostOrderedSnoc(inner, p);
  }

  /** A process killed after everything below it extends a post-ordered sequence. */
  lemma PostOrderedSnoc(killed: seq<Process>, p: Process)
    requires PostOrdered(killed) && Descendants(p) <= Elements(killed)
    ensures PostOrdered(killed + [p])
  {
    var k := killed + [p];
    forall j | 0 <= j < |k| ensures Descendants(k[j]) <= Elements(k[..j]) {
      if j < |killed| {
        assert k[..j] == killed[..j];
      } else {
        assert k[..j] == killed;
      }
    }
  }

  /** The loop over the children kills exactly their trees, each in post-order. */
  lemma {:induction false} KillAllCorrect(ps: seq<Process>)
    ensures Elements(KillAll(ps)) == Within(ps)
    ensures |KillAll(ps)| == SizeAll(ps)
    ensures PostOrdered(KillAll(ps))
    decreases ps
  {
    if ps != [] {
      KillOrderCorrect(ps[0]);
      KillAllCorrect(ps[1..]);
      var a := KillOrder(ps[0]);
      var b := KillAll(ps[1..]);
      assert Elements(a + b) == Elements(a) + Elements(b);
      PostOrderedAppend(a, b);
    }
  }

  /** Killing one post-ordered sequence after another keeps the order. */
  lemma PostOrderedAppend(a: seq<Process>, b: seq<Process>)
    requires PostOrdered(a) && PostOrdered(b)
    ensures PostOrdered(a + b)
  {
    var k := a + b;
    forall j | 0 <= j < |k| ensures Descendants(k[j]) <= Elements(k[..j]) {
      if j < |a| {
        assert k[..j] == a[..j];
      } else {
        assert k[j] == b[j - |a|];
        assert k[..j] == a + b[..j - |a|];
        assert Elements(b[..j - |a|]) <= Elements(k[..j]);
      }
    }
  }

  // ---------------------------------------------------------------------
  // The stop file

  /** The quoted text of a script line `echo "..." >> ../stop`, or nothing for any other line. */
  function StopEcho(l: string): Option<string>
  {
    var p := NuxeoPlugin.EchoPrefix;
    var q := NuxeoPlugin.StopSuffix;
    if |l| >= |p| + |q| && p <= l && l[|l| - |q|..] == q then Some(l[|p|..|l| - |q|]) else None
  }

  /** A script line that appends to `../stop`. */
  predicate AppendsToStop(l: string)
  {
    StopEcho(l).Some?
  }

  /** The lines a script appends to `../stop`, in order, as bash expands them with the variables `vars`. */
  function StopFile(script: seq<string>, vars: map<string, string>): seq<string>
  {
    var echoes := Seqs.Filter(script, AppendsToStop);
    seq(|echoes|, i requires 0 <= i < |echoes| => Shell.Expand(Quoted(echoes[i]), vars))
  }

  /** The text an appending line quotes. */
  function Quoted(l: string): string
  {
    match StopEcho(l) case Some(q) => q case None => ""
  }

  /** The variables the appending lines refer to: the server's pid `$STARTED` and the parent's `$PPID`. */
  function StopVars(started: int, parent: int): map<string, string>
  {
    map["STARTED" := IntToString(started), "PPID" := IntToString(parent)]
  }

  /** What the startup script appends to `../stop`. */
  function StopFileLines(started: int, parent: int): seq<string>
  {
    StopFile(NuxeoPlugin.LaunchLines, StopVars(started, parent))
  }

  /** An appending line gives back the text it quotes. */
  lemma StopEchoOf(quoted: Line)
    ensures StopEcho(NuxeoPlugin.EchoToStop(quoted)) == Some(quoted)
  {
    var l := NuxeoPlugin.EchoToStop(quoted);
    var p := NuxeoPlugin.EchoPrefix;
    var q := NuxeoPlugin.StopSuffix;
    assert l == p + quoted + q;
    assert p <= l;
    assert l[|l| - |q|..] == q;
    assert l[|p|..|l| - |q|] == quoted;
  }

  /** The launch lines append the shebang, the `killtree` definition, then `killtree` of each pid. */
  lemma StopFileContents(started: int, parent: int)
    ensures StopFileLines(started, parent) ==
      ["#!/bin/bash", NuxeoPlugin.KilltreeFunction,
       "killtree " + IntToString(started), "killtree " + IntToString(parent)]
  {
    var vars := StopVars(started, parent);
    LaunchEchoes();
    EchoesInMiddle(NuxeoPlugin.LaunchLines, vars);
    ExpandedEchoes(started, parent);
  }

  /** Whichever four lines of ten the filter keeps, in order, the stop file gets their expanded texts. */
  lemma EchoesInMiddle(ls: seq<string>, vars: map<string, string>)
    requires |ls| == 10 && Seqs.Filter(ls, AppendsToStop) == ls[4..8]
    ensures StopFile(ls, vars) ==
      [Shell.Expand(Quoted(ls[4]), vars), Shell.Expand(Quoted(ls[5]), vars),
       Shell.Expand(Quoted(ls[6]), vars), Shell.Expand(Quoted(ls[7]), vars)]
  {
    var r := StopFile(ls, vars);
    assert |r| == 4;
    assert r[0] == Shell.Expand(Quoted(ls[4]), vars);
    assert r[1] == Shell.Expand(Quoted(ls[5]), vars);
    assert r[2] == Shell.Expand(Quoted(ls[6]), vars);
    assert r[3] == Shell.Expand(Quoted(ls[7]), vars);
  }

  /** The script lines that append to `../stop` are the four at positions 4 to 7, in order. */
  lemma LaunchEchoes()
    ensures Seqs.Filter<string>(NuxeoPlugin.LaunchLines, AppendsToStop) == NuxeoPlugin.LaunchLines[4..8]
  {
    NonEchoLines();
    EchoLines();
    MiddleKept<string>(NuxeoPlugin.LaunchLines, AppendsToStop);
  }

  /** What bash writes for each of the four quoted texts. */
  lemma ExpandedEchoes(started: int, parent: int)
    ensures var vars := StopVars(started, parent); var ls := NuxeoPlugin.LaunchLines;
      && Shell.Expand(Quoted(ls[4]), vars) == "#!/bin/bash"
      && Shell.Expand(Quoted(ls[5]), vars) == NuxeoPlugin.KilltreeFunction
      && Shell.Expand(Quoted(ls[6]), vars) == "killtree " + IntToString(started)
      && Shell.Expand(Quoted(ls[7]), vars) == "killtree " + IntToString(parent)
  {
    var vars := StopVars(started, parent);
    EchoLines();
    ExpandShebang(vars);
    Shell.ExpandEscape(NuxeoPlugin.KilltreeFunction, vars);
    ExpandKillStarted(started, parent);
    ExpandKillParent(started, parent);
  }

  lemma ExpandKillStarted(started: int, parent: int)
    ensures Shell.Expand("killtree $STARTED", StopVars(started, parent)) == "killtree " + IntToString(started)
  {
    var vars := StopVars(started, parent);
    ExpandKilltreeOf("STARTED", vars);
    assert "killtree $" + "STARTED" == "killtree $STARTED";
    assert Shell.Lookup(vars, "STARTED") == IntToString(started);
  }

  lemma ExpandKillParent(started: int, parent: int)
    ensures Shell.Expand("killtree $PPID", StopVars(started, parent)) == "killtree " + IntToString(parent)
  {
    var vars := StopVars(started, parent);
    ExpandKilltreeOf("PPID", vars);
    assert "killtree $" + "PPID" == "killtree $PPID";
    assert "PPID" != "STARTED";
    assert Shell.Lookup(vars, "PPID") == IntToString(parent);
  }

  /** The shebang has nothing for bash to expand. */
  lemma ExpandShebang(vars: map<string, string>)
    ensures Shell.Expand("#!/bin/bash", vars) == "#!/bin/bash"
  {
    Shell.ExpandPlain("#!/bin/bash", [], vars);
    assert "#!/bin/bash" + [] == "#!/bin/bash";
  }

  /** Of ten elements, the filter keeps exactly those at positions 4 to 7. */
  lemma MiddleKept<T>(ls: seq<T>, p: T -> bool)
    requires |ls| == 10
    requires forall i :: 0 <= i < 4 ==> !p(ls[i])
    requires forall i :: 4 <= i < 8 ==> p(ls[i])
    requires forall i :: 8 <= i < 10 ==> !p(ls[i])
    ensures Seqs.Filter(ls, p) == ls[4..8]
  {
    var echoes := ls[4..8];
    var before, after := ls[..4], ls[8..];
    assert ls == before + (echoes + after);
    forall i | 0 <= i < 4 ensures !p(before[i]) && p(echoes[i]) {
      assert before[i] == ls[i] && echoes[i] == ls[i + 4];
    }
    forall i | 0 <= i < 2 ensures !p(after[i]) {
      assert after[i] == ls[i + 8];
    }
    Seqs.FilterDropsAll(before, p);
    Seqs.FilterDropsAll(after, p);
    Seqs.FilterKeepsAll(echoes, p);
    calc {
      Seqs.Filter(ls, p);
      { Seqs.FilterAppend(before, echoes + after, p); }
      Seqs.Filter(before, p) + Seqs.Filter(echoes + after, p);
      { Seqs.FilterAppend(echoes, after, p); }
      [] + (echoes + []);
      echoes;
    }
  }

  /** Of the launch lines, only the four `echo ... >> ../stop` lines append to the stop file. */
  lemma NonEchoLines()
    ensures forall i :: 0 <= i < 4 ==> !AppendsToStop(NuxeoPlugin.LaunchLines[i])
    ensures forall i :: 8 <= i < 10 ==> !AppendsToStop(NuxeoPlugin.LaunchLines[i])
  {
    NotEcho(NuxeoPlugin.ChangeDirectoryForStart);
    NotEcho(NuxeoPlugin.LaunchServer);
    NotEcho(NuxeoPlugin.RecordStarted);
    NotEcho(NuxeoPlugin.SavePid);
    NotEcho(NuxeoPlugin.MakeStopExecutable);
    NotEcho(NuxeoPlugin.WaitStarted);
  }

  /** What each of the four appending launch lines quotes. */
  lemma EchoLines()
    ensures forall i :: 4 <= i < 8 ==> AppendsToStop(NuxeoPlugin.LaunchLines[i])
    ensures Quoted(NuxeoPlugin.LaunchLines[4]) == "#!/bin/bash"
    ensures Quoted(NuxeoPlugin.LaunchLines[5]) == Shell.Escape(NuxeoPlugin.KilltreeFunction)
    ensures Quoted(NuxeoPlugin.LaunchLines[6]) == "killtree $STARTED"
    ensures Quoted(NuxeoPlugin.LaunchLines[7]) == "killtree $PPID"
  {
    StopEchoOf("#!/bin/bash");
    StopEchoOf(Shell.Escape(NuxeoPlugin.KilltreeFunction));
    StopEchoOf("killtree $STARTED");
    StopEchoOf("killtree $PPID");
  }

  /** `killtree $NAME` is written with the variable's value. */
  lemma ExpandKilltreeOf(name: string, vars: map<string, string>)
    requires name != [] && forall i :: 0 <= i < |name| ==> Shell.NameChar(name[i])
    ensures Shell.Expand("killtree $" + name, vars) == "killtree " + Shell.Lookup(vars, name)
  {
    assert "killtree $" + name == "killtree " + ("$" + name);
    Shell.ExpandPlain("killtree ", "$" + name, vars);
    Shell.ExpandVariable(name, vars);
  }

  /** A line that is too short, or does not end like `>> ../stop`, appends nothing. */
  lemma NotEcho(l: string)
    requires |l| < |NuxeoPlugin.EchoPrefix| + |NuxeoPlugin.StopSuffix| || l[|l| - 1] != 'p'
    ensures !AppendsToStop(l)
  {
    var q := NuxeoPlugin.StopSuffix;
    assert q[|q| - 1] == 'p';
  }

  /** The stop file defines `killtree` exactly as the function's text reads, its escapes undone by `echo`. */
  lemma StopFileDefinesKilltree(started: int, parent: int)
    ensures |StopFileLines(started, parent)| == 4
    ensures StopFileLines(started, parent)[0] == "#!/bin/bash"
    ensures StopFileLines(started, parent)[1] == NuxeoPlugin.KilltreeFunction
  {
    StopFileContents(started, parent);
  }

  /** It then kills the tree of the server's pid, then the tree of the parent's pid, each written in decimal. */
  lemma StopFileKillsPids(started: int, parent: int)
    ensures |StopFileLines(started, parent)| == 4
    ensures StopFileLines(started, parent)[2] == "killtree " + IntToString(started)
    ensures StopFileLines(started, parent)[3] == "killtree " + IntToString(parent)
    ensures ParseInt(IntToString(started)) == started && ParseInt(IntToString(parent)) == parent
  {
    StopFileContents(started, parent);
    IntToStringRoundTrip(started);
    IntToStringRoundTrip(parent);
  }

  // ---------------------------------------------------------------------
  // The stop file of the whole script

  /** A script line as bash reads it as a command: without its '\n'. */
  function Chomp(l: string): string
  {
    if l != [] && l[|l| - 1] == '\n' then l[..|l| - 1] else l
  }

  function ChompAll(ls: seq<string>): (r: seq<string>)
    ensures |r| == |ls|
  {
    seq(|ls|, i requires 0 <= i < |ls| => Chomp(ls[i]))
  }

  /** The commands of a script text, one per line. */
  function Commands(script: string): seq<string>
  {
    ChompAll(Lines(script))
  }

  /**
   * What the plugin's whole script appends to `../stop`: whatever the
   * environment statements append, then the four lines of the launch block.
   * The shebang and every line of the pre-launch block append nothing.
   */
  lemma StartupScriptStopFile(environmentStatements: string, started: int, parent: int)
    ensures StopFile(Commands(NuxeoPlugin.StartupScript(environmentStatements)), StopVars(started, parent)) ==
      StopFile(ChompAll(Seqs.Filter(Lines(environmentStatements + "\n"), NuxeoPlugin.IsContent)), StopVars(started, parent))
      + StopFileLines(started, parent)
  {
    var vars := StopVars(started, parent);
    var env := Seqs.Filter(Lines(environmentStatements + "\n"), NuxeoPlugin.IsContent);
    NuxeoPlugin.NuxeoStartupScriptLines(environmentStatements);
    CommandsOfParts(Lines(NuxeoPlugin.StartupScript(environmentStatements)), NuxeoPlugin.Shebang, env,
      NuxeoPlugin.PreLaunchLines, NuxeoPlugin.LaunchLines);
    NotEcho(NuxeoPlugin.Shebang);
    PreLaunchAppendsNothing(vars);
    StopFileParts(NuxeoPlugin.Shebang, ChompAll(env), NuxeoPlugin.PreLaunchLines, NuxeoPlugin.LaunchLines, vars);
  }

  /** The commands of a script made of a first line, some lines, and two heredocs. */
  lemma CommandsOfParts(lines: seq<string>, first: Line, env: seq<string>, pre: seq<Line>, launch: seq<Line>)
    requires lines == [first + "\n"] + (env + (Terminate(pre) + Terminate(launch)))
    ensures ChompAll(lines) == [first] + (ChompAll(env) + (pre + launch))
  {
    var t := Terminate(pre) + Terminate(launch);
    ChompAllAppend([first + "\n"], env + t);
    ChompAllAppend(env, t);
    ChompAllAppend(Terminate(pre), Terminate(launch));
    ChompTerminate(pre);
    ChompTerminate(launch);
    assert ChompAll([first + "\n"]) == [first] by {
      assert (first + "\n")[..|first|] == first;
    }
  }

  /** A first line and a middle part that append nothing leave the rest to decide the stop file. */
  lemma StopFileParts(first: string, env: seq<string>, pre: seq<string>, launch: seq<string>, vars: map<string, string>)
    requires !AppendsToStop(first) && StopFile(pre, vars) == []
    ensures StopFile([first] + (env + (pre + launch)), vars) == StopFile(env, vars) + StopFile(launch, vars)
  {
    StopFileAppend([first], env + (pre + launch), vars);
    StopFileAppend(env, pre + launch, vars);
    StopFileAppend(pre, launch, vars);
    StopFileNone([first], vars);
  }

  /**
   * When no environment statement is an `echo "..." >> ../stop` line, the
   * stop file of the plugin's script is exactly the four lines of the launch block.
   */
  lemma StartupScriptStopFileExactly(environmentStatements: string, started: int, parent: int)
    requires forall l :: l in Lines(environmentStatements + "\n") ==> !AppendsToStop(Chomp(l))
    ensures StopFile(Commands(NuxeoPlugin.StartupScript(environmentStatements)), StopVars(started, parent)) ==
      ["#!/bin/bash", NuxeoPlugin.KilltreeFunction,
       "killtree " + IntToString(started), "killtree " + IntToString(parent)]
  {
    var env := Seqs.Filter(Lines(environmentStatements + "\n"), NuxeoPlugin.IsContent);
    var e := ChompAll(env);
    forall i | 0 <= i < |e| ensures !AppendsToStop(e[i]) {
      assert env[i] in env;
    }
    StopFileNone(e, StopVars(started, parent));
    StartupScriptStopFile(environmentStatements, started, parent);
    StopFileContents(started, parent);
  }

  lemma ChompAllAppend(a: seq<string>, b: seq<string>)
    ensures ChompAll(a + b) == ChompAll(a) + ChompAll(b)
  {
    var r := ChompAll(a + b);
    forall i | 0 <= i < |r| ensures r[i] == (ChompAll(a) + ChompAll(b))[i] {
      if i >= |a| {
        assert (a + b)[i] == b[i - |a|];
      }
    }
  }

  /** Bash reads each line of a heredoc without the '\n' the heredoc adds. */
  lemma ChompTerminate(ls: seq<Line>)
    ensures ChompAll(Terminate(ls)) == ls
  {
    var r := ChompAll(Terminate(ls));
    forall i | 0 <= i < |ls| ensures r[i] == ls[i] {
      assert (ls[i] + "\n")[..|ls[i]|] == ls[i];
    }
  }

  lemma StopFileAppend(a: seq<string>, b: seq<string>, vars: map<string, string>)
    ensures StopFile(a + b, vars) == StopFile(a, vars) + StopFile(b, vars)
  {
    Seqs.FilterAppend(a, b, AppendsToStop);
    var r := StopFile(a + b, vars);
    var fa := Seqs.Filter(a, AppendsToStop);
    var fb := Seqs.Filter(b, AppendsToStop);
    forall i | 0 <= i < |r| ensures r[i] == (StopFile(a, vars) + StopFile(b, vars))[i] {
      if i >= |fa| {
        assert (fa + fb)[i] == fb[i - |fa|];
      }
    }
  }

  /** Lines none of which appends to `../stop` add nothing to it. */
  lemma StopFileNone(ls: seq<string>, vars: map<string, string>)
    requires forall i :: 0 <= i < |ls| ==> !AppendsToStop(ls[i])
    ensures StopFile(ls, vars) == []
  {
    Seqs.FilterDropsAll(ls, AppendsToStop);
  }

  /** No line of the pre-launch block appends to `../stop`. */
  lemma PreLaunchAppendsNothing(vars: map<string, string>)
    ensures StopFile(NuxeoPlugin.PreLaunchLines, vars) == []
  {
    var read := NuxeoPlugin.ReadPortLines;
    var check := NuxeoPlugin.CheckPortLines;
    NotEcho(read[0]); NotEcho(read[1]); NotEcho(read[2]); NotEcho(read[3]); NotEcho(read[4]);
    NotEcho(read[5]); NotEcho(read[6]); NotEcho(read[7]); NotEcho(read[8]);
    NotEcho(check[0]); NotEcho(check[1]); NotEcho(check[2]);
    NotEcho(check[3]); NotEcho(check[4]); NotEcho(check[5]);
    StopFileNone(read, vars);
    StopFileNone(check, vars);
    StopFileAppend(read, check, vars);
  }

  /** Running `../stop`: `killtree $STARTED`, then `killtree $PPID`, on the process trees `ps` shows at the time. */
  function StopKills(server: Process, parent: Process): seq<Process>
  {
    KillOrder(server) + KillOrder(parent)
  }

  /**
   * The server's whole tree is killed before anything of the parent's tree,
   * nothing is killed before what lies below it, and the parent is killed last.
   */
  lemma StopKillsServerFirst(server: Process, parent: Process)
    ensures var k := StopKills(server, parent); var n := |KillOrder(server)|;
      && Elements(k[..n]) == {server} + Descendants(server)
      && k[n - 1] == server
      && PostOrdered(k)
      && k[|k| - 1] == parent
  {
    KillOrderCorrect(server);
    KillOrderCorrect(parent);
    PostOrderedAppend(KillOrder(server), KillOrder(parent));
    assert StopKills(server, parent)[..|KillOrder(server)|] == KillOrder(server);
  }
}
