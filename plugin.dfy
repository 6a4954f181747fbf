/**
 * The staging steps of `NuxeoPlugin` that compute text: the bash startup
 * script (an ERB template whose blank lines are then rejected), the
 * pre-launch block that reads the port from `-p`, and the configuration the
 * plugin renders into `nuxeo/bin/nuxeo.conf` (the application's memory merged
 * with the resolved database settings).
 */
module NuxeoPlugin {
  import opened Values
  import opened Text
  import Seqs
  import DatabaseSupport
  import NuxeoConf
  import Shell

  // ---------------------------------------------------------------------
  // The startup script

  /** `change_directory_for_start`: the server runs from the unpacked `nuxeo` directory. */
  const ChangeDirectoryForStart: Line := "cd nuxeo"

  /** `start_command`: the server in the foreground of its own process. */
  const StartCommand: Line := "./bin/nuxeoctl console"

  const Shebang: Line := "#!/bin/bash"

  /** The start command, its output sent to the log directory, run in the background. */
  const LaunchServer: Line := StartCommand + " > ../logs/stdout.log" + " 2> ../logs/stderr.log" + " &"
  const RecordStarted: Line := "STARTED=$!"
  const SavePid: Line := "echo \"$STARTED\" >> ../run.pid"
  const StopShebang: Line := EchoToStop("#!/bin/bash")

  /**
   * The `killtree` shell function that `../stop` defines: kill the trees of the
   * children `ps` lists, then the process itself.
   */
  const KilltreeFunction: Line := KilltreeHead + KilltreeLoop + KilltreeKill
  const KilltreeHead: Line := "killtree() {" + " local _pid=$1;"
  const KilltreeLoop: Line := KilltreeChildren + " do killtree" + " ${_child};" + " done;"
  const KilltreeChildren: Line := " for _child in" + " $(ps -o pid" + " --no-headers" + " --ppid ${_pid});"
  const KilltreeKill: Line := " kill -9 ${_pid};" + " }"

  /** The script echoes the function into `../stop`, its `$` signs escaped so that they are written, not expanded. */
  const SaveKilltree: Line := EchoToStop(Shell.Escape(KilltreeFunction))
  const KillStarted: Line := EchoToStop("killtree $STARTED")
  const KillParent: Line := EchoToStop("killtree $PPID")
  const MakeStopExecutable: Line := "chmod 755 ../stop"
  const WaitStarted: Line := "wait $STARTED"

  /** `echo "<quoted>" >> ../stop`: a script line that appends one line to the stop file. */
  function EchoToStop(quoted: Line): Line
  {
    EchoPrefix + quoted + StopSuffix
  }

  const EchoPrefix: Line := "echo \""
  const StopSuffix: Line := "\" >> ../stop"

  /** The template's lines after the pre-launch block, from `cd nuxeo` to `wait $STARTED`. */
  const LaunchLines: seq<Line> :=
    [ ChangeDirectoryForStart, LaunchServer, RecordStarted, SavePid, StopShebang,
      SaveKilltree, KillStarted, KillParent, MakeStopExecutable, WaitStarted ]

  /** What the template prints where the block goes: the block's text, or "\n" when no block is given. */
  function PreLaunch(block: Option<string>): string
  {
    if block.Some? then block.value else "\n"
  }

  /**
   * The text ERB produces from the script template: each `<%= %>` tag prints its
   * value and the '\n' after the tag stays.
   */
  function ScriptTemplate(environmentStatements: string, preLaunch: string): string
  {
    (Shebang + "\n") + ((environmentStatements + "\n") + ((preLaunch + "\n") + Concat(Terminate(LaunchLines))))
  }

  /** A line that `/^\s*$/` does not match: the reject keeps it. */
  predicate IsContent(l: string)
  {
    !Blank(l)
  }

  /** `.lines.reject {|l| l =~ /^\s*$/}.join`: the text without its blank lines. */
  function RejectBlank(text: string): string
  {
    Concat(Seqs.Filter(Lines(text), IsContent))
  }

  /**
   * `generate_startup_script`: the rendered template without its blank lines.
   * `environmentStatements` is what `environment_statements_for(env_vars)` returns.
   */
  function GenerateStartupScript(environmentStatements: string, block: Option<string>): string
  {
    RejectBlank(ScriptTemplate(environmentStatements, PreLaunch(block)))
  }

  /** The lines of the heredoc the `startup_script` block returns, without their '\n'. */
  const PreLaunchLines: seq<Line> := ReadPortLines + CheckPortLines

  /** Record the environment, then read the port from the `-p` option. */
  const ReadPortLines: seq<Line> := ["env > env.log", "PORT=-1", GetOpts] + OptionCase + ["done"]
  const GetOpts: Line := "while getopts \":p:\" opt; do"
  const OptionCase: seq<Line> := ["  case $opt in", "    p)", "      PORT=$OPTARG", "      ;;", "  esac"]

  /** Refuse to start without a port, then patch the configuration with it. */
  const CheckPortLines: seq<Line> :=
    [ "if [ $PORT -lt 0 ] ; then",
      MissingPort,
      "  exit 1",
      "fi",
      FqdnNote,
      UpdateConf ]

  const MissingPort: Line := "  echo \"Missing or invalid port (-p)\""
  const FqdnNote: Line := "# TODO: fix hard coded fqdn"
  const UpdateConf: Line := "  ruby resources/" + "update_nuxeo_conf" + " $PORT $VCAP_APP_HOST" + " $VMC_APP_NAME"

  /** The block's text: record the environment in `env.log`, read the port from `-p`, refuse to start without one, patch the configuration. */
  function NuxeoPreLaunch(): string
  {
    Concat(Terminate(PreLaunchLines))
  }

  /** `startup_script`: the script the plugin writes, given the environment statements. */
  function StartupScript(environmentStatements: string): string
  {
    GenerateStartupScript(environmentStatements, Some(NuxeoPreLaunch()))
  }

  // ---------------------------------------------------------------------
  // Properties of the blank-line filter

  /**
   * The filtered text splits into exactly the kept lines: no line is merged or
   * split, no blank line is left, and every non-blank line stays, as often as
   * it occurred and in its original order.
   */
  lemma RejectBlankLines(text: string)
    ensures Lines(RejectBlank(text)) == Seqs.Filter(Lines(text), IsContent)
    ensures forall l :: l in Lines(RejectBlank(text)) ==> !Blank(l)
    ensures Seqs.IsSubsequence(Lines(RejectBlank(text)), Lines(text))
    ensures forall l :: !Blank(l) ==> multiset(Lines(RejectBlank(text)))[l] == multiset(Lines(text))[l]
  {
    LinesSplitForm(text);
    FilterSplitForm(Lines(text), IsContent);
    LinesOfConcat(Seqs.Filter(Lines(text), IsContent));
    Seqs.FilterIsSubsequence(Lines(text), IsContent);
    forall l | !Blank(l) ensures multiset(Lines(RejectBlank(text)))[l] == multiset(Lines(text))[l] {
      Seqs.FilterCounts(Lines(text), IsContent, l);
    }
  }

  /** Rejecting blank lines a second time changes nothing. */
  lemma RejectBlankIdempotent(text: string)
    ensures RejectBlank(RejectBlank(text)) == RejectBlank(text)
  {
    RejectBlankLines(text);
    Seqs.FilterIdempotent(Lines(text), IsContent);
  }

  /** Every line of a non-blank text is kept when its first non-whitespace character is at `i`. */
  lemma ContentAt(l: string, i: nat)
    requires i < |l| && !IsWhitespace(l[i])
    ensures IsContent(l)
  {
  }

  /** Lines none of which is blank stay blank-free once terminated, and the filter keeps them all. */
  lemma TerminatedKept(ls: seq<Line>)
    requires forall i :: 0 <= i < |ls| ==> IsContent(ls[i])
    ensures Seqs.Filter(Terminate(ls), IsContent) == Terminate(ls)
  {
    var t := Terminate(ls);
    forall i | 0 <= i < |t| ensures IsContent(t[i]) {
      var k :| 0 <= k < |ls[i]| && !IsWhitespace(ls[i][k]);
      assert t[i][k] == ls[i][k];
    }
    Seqs.FilterKeepsAll(t, IsContent);
  }

  /** The script's own lines, each with its '\n', are read back as they are and none is blank. */
  lemma LaunchLinesKept()
    ensures Lines(Concat(Terminate(LaunchLines))) == Terminate(LaunchLines)
    ensures Seqs.Filter(Terminate(LaunchLines), IsContent) == Terminate(LaunchLines)
  {
    TerminatedText(LaunchLines);
    forall i | 0 <= i < |LaunchLines| ensures IsContent(LaunchLines[i]) {
      ContentAt(LaunchLines[i], 0);
    }
    TerminatedKept(LaunchLines);
  }

  /** Rejecting blank lines from two texts joined after a '\n' rejects them from each. */
  lemma RejectBlankAppend(a: string, b: string)
    requires a == [] || a[|a| - 1] == '\n'
    ensures Lines(RejectBlank(a + b)) == Seqs.Filter(Lines(a), IsContent) + Seqs.Filter(Lines(b), IsContent)
  {
    RejectBlankLines(a + b);
    LinesAppend(a, b);
    Seqs.FilterAppend(Lines(a), Lines(b), IsContent);
  }

  /** A text that ends in '\n' splits into terminated lines, and whatever the filter keeps of them is terminated. */
  lemma KeptLinesTerminated(s: string)
    requires |s| > 0 && s[|s| - 1] == '\n'
    ensures forall l :: l in Seqs.Filter(Lines(s), IsContent) ==> Terminated(l)
  {
    LinesTerminated(s);
  }

  /**
   * The shape of every generated script: the shebang, the non-blank lines of the
   * environment statements, the non-blank lines of the block, then the launch
   * lines, each ending in '\n'.
   */
  lemma StartupScriptLines(environmentStatements: string, block: Option<string>)
    ensures Lines(GenerateStartupScript(environmentStatements, block)) ==
      [Shebang + "\n"]
      + (Seqs.Filter(Lines(environmentStatements + "\n"), IsContent)
         + (Seqs.Filter(Lines(PreLaunch(block) + "\n"), IsContent)
            + Terminate(LaunchLines)))
  {
    var a := Shebang + "\n";
    var b := environmentStatements + "\n";
    var c := PreLaunch(block) + "\n";
    var d := Concat(Terminate(LaunchLines));
    assert GenerateStartupScript(environmentStatements, block) == RejectBlank(a + (b + (c + d)));
    RejectBlankAppend(a, b + (c + d));
    ShebangKept();
    ScriptBodyKept(b, c);
  }

  lemma ShebangKept()
    ensures Seqs.Filter(Lines(Shebang + "\n"), IsContent) == [Shebang + "\n"]
  {
    OneLine(Shebang);
    ContentAt(Shebang + "\n", 0);
  }

  /** After the shebang: the kept lines of the two inserted texts, then every launch line. */
  lemma ScriptBodyKept(b: string, c: string)
    requires |b| > 0 && b[|b| - 1] == '\n'
    requires |c| > 0 && c[|c| - 1] == '\n'
    ensures Seqs.Filter(Lines(b + (c + Concat(Terminate(LaunchLines)))), IsContent) ==
      Seqs.Filter(Lines(b), IsContent) + (Seqs.Filter(Lines(c), IsContent) + Terminate(LaunchLines))
  {
    var d := Concat(Terminate(LaunchLines));
    var launch := Terminate(LaunchLines);
    LinesAppend(b, c + d);
    LinesAppend(c, d);
    LaunchLinesKept();
    Seqs.FilterAppend(Lines(b), Lines(c) + launch, IsContent);
    Seqs.FilterAppend(Lines(c), launch, IsContent);
  }

  /** Every line of a generated script is non-blank and ends in '\n'. */
  lemma StartupScriptHasNoBlankLine(environmentStatements: string, block: Option<string>)
    ensures forall l :: l in Lines(GenerateStartupScript(environmentStatements, block)) ==> !Blank(l) && Terminated(l)
  {
    var t := ScriptTemplate(environmentStatements, PreLaunch(block));
    var d := Concat(Terminate(LaunchLines));
    TerminatedText(LaunchLines);
    assert t[|t| - 1] == d[|d| - 1];
    RejectBlankLines(t);
    KeptLinesTerminated(t);
  }

  /**
   * The script starts with the shebang and ends by waiting for the server; the
   * stop file gets `killtree $STARTED` before `killtree $PPID`, after the
   * `killtree` definition.
   */
  lemma StartupScriptFrameLines(environmentStatements: string, block: Option<string>)
    ensures var ls := Lines(GenerateStartupScript(environmentStatements, block));
      && |ls| >= 11
      && ls[0] == Shebang + "\n"
      && ls[|ls| - 10] == ChangeDirectoryForStart + "\n"
      && ls[|ls| - 9] == LaunchServer + "\n"
      && ls[|ls| - 5] == SaveKilltree + "\n"
      && ls[|ls| - 4] == KillStarted + "\n"
      && ls[|ls| - 3] == KillParent + "\n"
      && ls[|ls| - 1] == WaitStarted + "\n"
  {
    var ls := Lines(GenerateStartupScript(environmentStatements, block));
    var launch := Terminate(LaunchLines);
    StartupScriptLines(environmentStatements, block);
    var n := |ls|;
    assert ls[n - 10..] == launch;
    assert ls[n - 10] == launch[0] && ls[n - 9] == launch[1];
    assert ls[n - 5] == launch[5] && ls[n - 4] == launch[6];
    assert ls[n - 3] == launch[7] && ls[n - 1] == launch[9];
  }

  /** Giving no block is the same as giving a block of whitespace only: both leave no line behind. */
  lemma NoBlockIsBlankBlock(environmentStatements: string, block: string)
    requires Blank(block)
    ensures GenerateStartupScript(environmentStatements, None) ==
            GenerateStartupScript(environmentStatements, Some(block))
  {
    var none := GenerateStartupScript(environmentStatements, None);
    var some := GenerateStartupScript(environmentStatements, Some(block));
    BlankBlockVanishes("\n");
    BlankBlockVanishes(block);
    StartupScriptLines(environmentStatements, None);
    StartupScriptLines(environmentStatements, Some(block));
    ConcatLines(none);
    ConcatLines(some);
  }

  lemma BlankBlockVanishes(block: string)
    requires Blank(block)
    ensures Seqs.Filter(Lines(block + "\n"), IsContent) == []
  {
    var s := block + "\n";
    assert Blank(s) by {
      forall i | 0 <= i < |s| ensures IsWhitespace(s[i]) {
        if i < |block| { assert s[i] == block[i]; }
      }
    }
    LinesOfWhitespace(s);
    var ls := Lines(s);
    forall i | 0 <= i < |ls| ensures !IsContent(ls[i]) {
      assert ls[i] in ls;
    }
    Seqs.FilterDropsAll(ls, IsContent);
  }

  /** The block the plugin passes survives the filter whole: none of its lines is blank. */
  lemma PreLaunchKept()
    ensures Seqs.Filter(Lines(NuxeoPreLaunch() + "\n"), IsContent) == Terminate(PreLaunchLines)
  {
    PreLaunchContent();
    BlockKept(PreLaunchLines);
  }

  /** A block of non-blank lines, with the '\n' the template adds after it, keeps all its lines and nothing else. */
  lemma BlockKept(ls: seq<Line>)
    requires forall i :: 0 <= i < |ls| ==> IsContent(ls[i])
    ensures Seqs.Filter(Lines(Concat(Terminate(ls)) + "\n"), IsContent) == Terminate(ls)
  {
    BlockLines(ls);
    TerminatedKept(ls);
    DropsEmptyLine(Terminate(ls));
  }

  /** The empty line the template leaves after a block is rejected. */
  lemma DropsEmptyLine(t: seq<string>)
    ensures Seqs.Filter(t + ["\n"], IsContent) == Seqs.Filter(t, IsContent)
  {
    assert Seqs.Filter(["\n"], IsContent) == [] by {
      assert !IsContent("\n");
    }
    Seqs.FilterAppend(t, ["\n"], IsContent);
  }

  /** The lines of a block followed by the template's '\n': the block's own lines, then an empty one. */
  lemma BlockLines(ls: seq<Line>)
    ensures Lines(Concat(Terminate(ls)) + "\n") == Terminate(ls) + ["\n"]
  {
    var text := Concat(Terminate(ls));
    TerminatedText(ls);
    if ls == [] {
      assert text + "\n" == "" + "\n";
    }
    LinesAppend(text, "\n");
    OneLine("");
    assert "" + "\n" == "\n";
  }

  lemma PreLaunchContent()
    ensures forall i :: 0 <= i < |PreLaunchLines| ==> IsContent(PreLaunchLines[i])
  {
    ReadPortContent();
    CheckPortContent();
  }

  lemma ReadPortContent()
    ensures forall i :: 0 <= i < |ReadPortLines| ==> IsContent(ReadPortLines[i])
  {
    ContentAt("env > env.log", 0);
    ContentAt("PORT=-1", 0);
    ContentAt(GetOpts, 0);
    OptionCaseContent();
    ContentAt("done", 0);
  }

  lemma OptionCaseContent()
    ensures forall i :: 0 <= i < |OptionCase| ==> IsContent(OptionCase[i])
  {
    ContentAt(OptionCase[0], 2);
    ContentAt(OptionCase[1], 4);
    ContentAt(OptionCase[2], 6);
    ContentAt(OptionCase[3], 6);
    ContentAt(OptionCase[4], 2);
  }

  lemma CheckPortContent()
    ensures forall i :: 0 <= i < |CheckPortLines| ==> IsContent(CheckPortLines[i])
  {
    ContentAt(CheckPortLines[0], 0);
    ContentAt(MissingPort, 2);
    ContentAt(CheckPortLines[2], 2);
    ContentAt(CheckPortLines[3], 0);
    ContentAt(FqdnNote, 0);
    ContentAt(UpdateConf, 2);
  }

  /** The plugin's script: the shebang, the environment, the whole pre-launch block, then the launch lines. */
  lemma NuxeoStartupScriptLines(environmentStatements: string)
    ensures Lines(StartupScript(environmentStatements)) ==
      [Shebang + "\n"]
      + (Seqs.Filter(Lines(environmentStatements + "\n"), IsContent)
         + (Terminate(PreLaunchLines) + Terminate(LaunchLines)))
  {
    StartupScriptLines(environmentStatements, Some(NuxeoPreLaunch()));
    PreLaunchKept();
  }

  // ---------------------------------------------------------------------
  // create_nuxeo_conf

  /**
   * `{ 'jvm_mem' => application_memory }.merge(database_config)`: the database
   * settings win on a clash, and `jvm_mem` is added.
   */
  function StagingConfig(applicationMemory: int, database: Hash): (conf: Hash)
    ensures conf.Keys == database.Keys + {"jvm_mem"}
    ensures forall key :: key in database ==> conf[key] == database[key]
    ensures "jvm_mem" !in database ==> conf["jvm_mem"] == Int(applicationMemory)
  {
    map["jvm_mem" := Int(applicationMemory)] + database
  }

  /** `IO#puts`: the text, and a '\n' unless it already ends with one. */
  function Puts(text: string): (written: string)
    ensures text <= written
    ensures |written| > 0 && written[|written| - 1] == '\n'
    ensures text != [] && text[|text| - 1] == '\n' ==> written == text
    ensures !(text != [] && text[|text| - 1] == '\n') ==> written == text + "\n"
  {
    if text != [] && text[|text| - 1] == '\n' then text else text + "\n"
  }

  /**
   * `create_nuxeo_conf`: the content written to `nuxeo/bin/nuxeo.conf`, or the
   * failure that stops staging before the file is opened. The rendering already
   * ends with '\n', so `puts` writes it unchanged.
   */
  function CreateNuxeoConf(applicationMemory: int, services: seq<DatabaseSupport.Binding>): (r: DatabaseSupport.Result<string>)
    ensures r.Err? <==> DatabaseSupport.DatabaseConfig(services).Err?
    ensures r.Err? ==> r.failure == DatabaseSupport.DatabaseConfig(services).failure
    ensures r.Ok? ==> r.value == NuxeoConf.NuxeoConfText(StagingConfig(applicationMemory, DatabaseSupport.DatabaseConfig(services).value))
  {
    match DatabaseSupport.DatabaseConfig(services)
    case Err(f) => DatabaseSupport.Err(f)
    case Ok(database) => DatabaseSupport.Ok(Puts(NuxeoConf.NuxeoConfText(StagingConfig(applicationMemory, database))))
  }

  /** `create_nuxeo_conf` over `database_config` as written. */
  function CreateNuxeoConfAsWritten(applicationMemory: int, services: seq<DatabaseSupport.Binding>): DatabaseSupport.Result<string>
  {
    match DatabaseSupport.DatabaseConfigAsWritten(services)
    case Err(f) => DatabaseSupport.Err(f)
    case Ok(database) => DatabaseSupport.Ok(Puts(NuxeoConf.NuxeoConfText(StagingConfig(applicationMemory, database))))
  }

  /**
   * As written, staging an application bound to a PostgreSQL service never writes
   * `nuxeo.conf`; the corrected staging writes it whenever the bound databases carry credentials.
   */
  lemma AsWrittenStagingFails(applicationMemory: int, services: seq<DatabaseSupport.Binding>, i: nat)
    requires i < |services| && DatabaseSupport.KnownDatabase(services[i])
    ensures CreateNuxeoConfAsWritten(applicationMemory, services) == DatabaseSupport.Err(DatabaseSupport.UndefinedMethod("Binding", "[]"))
    ensures (forall b :: b in services && DatabaseSupport.KnownDatabase(b) ==> b.credentials.Some?) ==>
      CreateNuxeoConf(applicationMemory, services).Ok?
  {
    DatabaseSupport.AsWrittenFailsWithDatabase(services, i);
    var bindings := DatabaseSupport.BoundDatabases(services);
    if |bindings| > 0 {
      assert bindings[0] in bindings;
    }
  }

  /** The heap of the configured server is the application's memory: the database settings never override it. */
  lemma ConfiguredMemory(applicationMemory: int, services: seq<DatabaseSupport.Binding>)
    requires DatabaseSupport.DatabaseConfig(services).Ok?
    ensures var conf := StagingConfig(applicationMemory, DatabaseSupport.DatabaseConfig(services).value);
      && Fetch(conf, "jvm_mem") == Int(applicationMemory)
      && NuxeoConf.Contains(NuxeoConf.ConfLines(conf)[0], "-Xms" + IntToString(applicationMemory) + "m ")
      && NuxeoConf.Contains(NuxeoConf.ConfLines(conf)[0], "-Xmx" + IntToString(applicationMemory) + "m ")
  {
    NuxeoConf.HeapLine(StagingConfig(applicationMemory, DatabaseSupport.DatabaseConfig(services).value));
  }

  /**
   * The configuration file selects the PostgreSQL template exactly when a
   * PostgreSQL service is bound, and the default template otherwise.
   */
  lemma ConfiguredTemplate(applicationMemory: int, services: seq<DatabaseSupport.Binding>)
    requires DatabaseSupport.DatabaseConfig(services).Ok?
    ensures var conf := StagingConfig(applicationMemory, DatabaseSupport.DatabaseConfig(services).value);
      Seqs.Filter(NuxeoConf.ConfLines(conf), NuxeoConf.IsTemplateLine) ==
        if exists b :: b in services && DatabaseSupport.KnownDatabase(b)
        then [NuxeoConf.PostgresqlTemplate] else [NuxeoConf.DefaultTemplate]
  {
    var database := DatabaseSupport.DatabaseConfig(services).value;
    var conf := StagingConfig(applicationMemory, database);
    DatabaseSupport.DefaultIffNoKnownDatabase(services);
    DatabaseSupport.EmptyConfigContents();
    assert Fetch(conf, "template") == Fetch(database, "template");
    NuxeoConf.TemplateLines(conf);
  }
}
