/**
 * The configuration renderer, `Nuxeo.nuxeo_conf`: the `nuxeo.conf` text that
 * sizes the JVM, pins Nuxeo to the loopback address and, when a PostgreSQL
 * service is bound, points it at that database.
 *
 * The ERB template runs without trim mode, so the lines that hold only
 * `<% if %>`, `<% else %>` and `<% end %>` tags leave empty lines behind;
 * the model keeps them. `TCATPORT` and `APPNAME` are literal placeholders
 * that a later step, outside this model, replaces when the server starts.
 */
module NuxeoConf {
  import opened Values
  import opened Text
  import Seqs

  /** `Nuxeo::NUXEO_BINARIES_PATH`. */
  const NuxeoBinariesPath := "/var/lib/nuxeo"

  // The fixed lines of the template, in order.
  const GcLogComment: Line := "# Enable gc log"
  const GcLogOptions: Line := "JAVA_OPTS=$JAVA_OPTS" + GcLogFile + GcDetails
  const GcLogFile: Line := " -Xloggc:" + "${nuxeo.log.dir}" + "/gc.log"
  const GcDetails: Line := " -verbose:gc" + " -XX:+PrintGCDetails" + " -XX:+PrintGCTimeStamps"
  const ForceGeneration: Line := "nuxeo.force.generation=true"
  const WizardDone: Line := "nuxeo.wizard.done=true"
  const KeepTmpDir: Line := "launcher.override.java.tmpdir=false"
  const PortsComment: Line := "# disable ajp and admin port"
  const AjpPortOff: Line := "nuxeo.server.ajp.port=-1"
  const AdminPortOff: Line := "nuxeo.server.tomcat-admin.port=-1"
  const HostComment: Line := "# TCATHOST"
  const BindLoopback: Line := "nuxeo.bind.address=127.0.0.1"
  const HttpPort: Line := "nuxeo.server.http.port=TCATPORT"
  const LoopbackUrl: Line := "nuxeo.loopback.url=" + "http://127.0.0.1:" + "TCATPORT/nuxeo"
  const PostgresqlTemplate: Line := "nuxeo.templates=postgresql"
  const ClusterComment: Line := "# activate cluster mode," + " binaries are not" + " persisted at the moment"
  const ClusteringEnabled: Line := "repository.clustering.enabled=true"
  const ClusteringDelay: Line := "repository.clustering.delay=2000"
  const DataDir: Line := "nuxeo.data.dir=" + NuxeoBinariesPath + "/APPNAME"
  const BinaryStore: Line := "repository.binary.store=" + NuxeoBinariesPath + "/APPNAME/binaries"
  const DefaultTemplate: Line := "nuxeo.templates=default"

  // The JVM options after the heap sizes.
  const ClientGcInterval: Line := " -Dsun.rmi.dgc.client" + ".gcInterval=3600000"
  const ServerGcInterval: Line := " -Dsun.rmi.dgc.server" + ".gcInterval=3600000"
  const JvmOptionsRest: Line := "-XX:MaxPermSize=512m" + ClientGcInterval + ServerGcInterval + " -Dfile.encoding=UTF-8"

  /** The first line: the same heap size, in megabytes, for `-Xms` and `-Xmx`. */
  function HeapOptions(jvmMem: string): string
  {
    "JAVA_OPTS=" + HeapFlag("-Xms", jvmMem) + HeapFlag("-Xmx", jvmMem) + JvmOptionsRest
  }

  /** One heap-size flag, `-Xms<mem>m ` or `-Xmx<mem>m `. */
  function HeapFlag(flag: string, jvmMem: string): string
  {
    flag + jvmMem + "m "
  }

  /** The lines written whatever the template: memory, GC logging, fixed toggles, loopback binding. */
  function FixedLines(jvmMem: string): seq<string>
  {
    [ HeapOptions(jvmMem), GcLogComment, GcLogOptions, ForceGeneration, WizardDone, KeepTmpDir,
      PortsComment, AjpPortOff, AdminPortOff, HostComment, BindLoopback, HttpPort, LoopbackUrl ]
  }

  /** The `postgresql` branch: template, the five connection settings, clustering, binary store. */
  function PostgresqlLines(name: string, user: string, password: string, host: string, port: string): seq<string>
  {
    [ PostgresqlTemplate,
      "nuxeo.db.name=" + name,
      "nuxeo.db.user=" + user,
      "nuxeo.db.password=" + password,
      "nuxeo.db.host=" + host,
      "nuxeo.db.port=" + port,
      ClusterComment, ClusteringEnabled, ClusteringDelay, DataDir, BinaryStore ]
  }

  /** The `else` branch. */
  const DefaultLines: seq<string> := [DefaultTemplate]

  predicate UsesPostgresql(conf: Hash)
  {
    Fetch(conf, "template") == Str("postgresql")
  }

  /**
   * The lines of `Nuxeo.nuxeo_conf(conf)`, without their '\n'. The two empty
   * lines are the newlines that follow the `<% if %>` (or `<% else %>`) tag and
   * the `<% end %>` tag.
   */
  function ConfLines(conf: Hash): (r: seq<string>)
    ensures |r| == if UsesPostgresql(conf) then 26 else 16
    ensures r[13] == "" && r[|r| - 1] == ""
  {
    CommonLines(conf) + BranchLines(conf)
  }

  /** Everything up to the `<% if %>` tag, and the empty line that tag leaves. */
  function CommonLines(conf: Hash): seq<string>
  {
    FixedLines(ToS(Fetch(conf, "jvm_mem"))) + [""]
  }

  /** The branch the template selects, and the empty line the `<% end %>` tag leaves. */
  function BranchLines(conf: Hash): seq<string>
  {
    if UsesPostgresql(conf) then
      PostgresqlLines(ToS(Fetch(conf, "database")), ToS(Fetch(conf, "username")),
                      ToS(Fetch(conf, "password")), ToS(Fetch(conf, "host")),
                      ToS(Fetch(conf, "port"))) + [""]
    else DefaultLines + [""]
  }

  /** `Nuxeo.nuxeo_conf(conf)`: the text ERB produces. */
  function NuxeoConfText(conf: Hash): (text: string)
    ensures |text| > 0 && text[|text| - 1] == '\n'
  {
    var ls := Terminate(ConfLines(conf));
    ConcatEndsWithLast(ls);
    Concat(ls)
  }

  // ---------------------------------------------------------------------
  // Properties of the renderer

  /** `t` occurs in `s` starting at position `i`. */
  predicate OccursAt(t: string, s: string, i: nat)
  {
    i + |t| <= |s| && s[i..i + |t|] == t
  }

  predicate Contains(s: string, t: string)
  {
    exists i: nat | i <= |s| :: OccursAt(t, s, i)
  }

  /** The first line sets both the initial and the maximum heap to the configuration's `jvm_mem`. */
  lemma HeapLine(conf: Hash)
    ensures "JAVA_OPTS=" <= ConfLines(conf)[0]
    ensures Contains(ConfLines(conf)[0], "-Xms" + ToS(Fetch(conf, "jvm_mem")) + "m ")
    ensures Contains(ConfLines(conf)[0], "-Xmx" + ToS(Fetch(conf, "jvm_mem")) + "m ")
  {
    var m := ToS(Fetch(conf, "jvm_mem"));
    var xms := HeapFlag("-Xms", m);
    var xmx := HeapFlag("-Xmx", m);
    var line := "JAVA_OPTS=" + xms + xmx + JvmOptionsRest;
    assert ConfLines(conf)[0] == line;
    assert line[10..10 + |xms|] == xms;
    assert line[10 + |xms|..10 + |xms| + |xmx|] == xmx;
    assert OccursAt(xms, line, 10);
    assert OccursAt(xmx, line, 10 + |xms|);
  }

  /** The heap line names one memory size only: two configurations with the same heap line have the same `jvm_mem`. */
  lemma HeapLineDeterminesMemory(c1: Hash, c2: Hash, m1: int, m2: int)
    requires Fetch(c1, "jvm_mem") == Int(m1) && Fetch(c2, "jvm_mem") == Int(m2)
    requires ConfLines(c1)[0] == ConfLines(c2)[0]
    ensures m1 == m2
  {
    HeapOptionsInjective(ToS(Int(m1)), ToS(Int(m2)));
    IntToSInjective(m1, m2);
  }

  lemma HeapOptionsInjective(a: string, b: string)
    requires HeapOptions(a) == HeapOptions(b)
    ensures a == b
  {
    var l := HeapOptions(a);
    assert |l| == 10 + 2 * (6 + |a|) + |JvmOptionsRest|;
    assert |HeapOptions(b)| == 10 + 2 * (6 + |b|) + |JvmOptionsRest|;
    assert l[14..14 + |a|] == a;
    assert HeapOptions(b)[14..14 + |b|] == b;
  }

  /** Whatever the template, the server is regenerated, the wizard skipped and only loopback HTTP is open. */
  lemma FixedSettingsAlwaysPresent(conf: Hash)
    ensures ForceGeneration in ConfLines(conf)
    ensures WizardDone in ConfLines(conf)
    ensures KeepTmpDir in ConfLines(conf)
    ensures AjpPortOff in ConfLines(conf)
    ensures AdminPortOff in ConfLines(conf)
    ensures BindLoopback in ConfLines(conf)
    ensures HttpPort in ConfLines(conf)
  {
    var r := ConfLines(conf);
    assert r[3] == ForceGeneration;
    assert r[4] == WizardDone;
    assert r[5] == KeepTmpDir;
    assert r[7] == AjpPortOff;
    assert r[8] == AdminPortOff;
    assert r[10] == BindLoopback;
    assert r[11] == HttpPort;
  }

  /** A line that names a database setting. */
  predicate IsDatabaseLine(l: string)
  {
    "nuxeo.db." <= l
  }

  /** A line that selects Nuxeo's configuration template. */
  predicate IsTemplateLine(l: string)
  {
    "nuxeo.templates=" <= l
  }

  /** No fixed line is a database or template setting. */
  lemma FixedLinesSelectNothing(m: string)
    ensures forall l :: l in FixedLines(m) + [""] ==> !IsDatabaseLine(l) && !IsTemplateLine(l)
  {
    var f := FixedLines(m) + [""];
    forall l | l in f ensures !IsDatabaseLine(l) && !IsTemplateLine(l) {
      var i :| 0 <= i < |f| && f[i] == l;
      if i < 13 {
        FixedLineNotSetting(m, i);
      }
    }
  }

  lemma FixedLineNotSetting(m: string, i: nat)
    requires i < 13
    ensures !IsDatabaseLine(FixedLines(m)[i]) && !IsTemplateLine(FixedLines(m)[i])
  {
    var f := FixedLines(m);
    if i == 0 { NotASetting(HeapOptions(m), 0); }
    else if i == 1 { NotASetting(GcLogComment, 0); }
    else if i == 2 { NotASetting(GcLogOptions, 0); }
    else if i == 3 { NotASetting(ForceGeneration, 6); }
    else if i == 4 { NotASetting(WizardDone, 6); }
    else if i == 5 { NotASetting(KeepTmpDir, 0); }
    else if i == 6 { NotASetting(PortsComment, 0); }
    else if i == 7 { NotASetting(AjpPortOff, 6); }
    else if i == 8 { NotASetting(AdminPortOff, 6); }
    else if i == 9 { NotASetting(HostComment, 0); }
    else if i == 10 { NotASetting(BindLoopback, 6); }
    else if i == 11 { NotASetting(HttpPort, 6); }
    else { NotASetting(LoopbackUrl, 6); }
  }

  /** A line that differs from both setting prefixes within their common `nuxeo.` part is neither setting. */
  lemma NotASetting(l: string, i: nat)
    requires i <= 6 && i < |l| && l[i] != "nuxeo.db."[i] && l[i] != "nuxeo.templates="[i]
    ensures !IsDatabaseLine(l) && !IsTemplateLine(l)
  {
    NotPrefix("nuxeo.db.", l, i);
    NotPrefix("nuxeo.templates=", l, i);
  }

  /** `p` is not a prefix of `l` when they differ at position `i`. */
  lemma NotPrefix(p: string, l: string, i: nat)
    requires i < |p| && i < |l| && p[i] != l[i]
    ensures !(p <= l)
  {
  }

  /** With the PostgreSQL template, the database settings carry the configuration's values verbatim and clustering is on. */
  lemma PostgresqlSettings(conf: Hash)
    requires UsesPostgresql(conf)
    ensures PostgresqlTemplate in ConfLines(conf)
    ensures "nuxeo.db.name=" + ToS(Fetch(conf, "database")) in ConfLines(conf)
    ensures "nuxeo.db.user=" + ToS(Fetch(conf, "username")) in ConfLines(conf)
    ensures "nuxeo.db.password=" + ToS(Fetch(conf, "password")) in ConfLines(conf)
    ensures "nuxeo.db.host=" + ToS(Fetch(conf, "host")) in ConfLines(conf)
    ensures "nuxeo.db.port=" + ToS(Fetch(conf, "port")) in ConfLines(conf)
    ensures ClusteringEnabled in ConfLines(conf)
    ensures ClusteringDelay in ConfLines(conf)
    ensures BinaryStore in ConfLines(conf)
  {
    var pg := PostgresqlLines(ToS(Fetch(conf, "database")), ToS(Fetch(conf, "username")),
                              ToS(Fetch(conf, "password")), ToS(Fetch(conf, "host")),
                              ToS(Fetch(conf, "port")));
    assert ConfLines(conf) == CommonLines(conf) + (pg + [""]);
    assert forall x :: x in pg ==> x in ConfLines(conf);
    assert pg[0] == PostgresqlTemplate;
    assert pg[6] == ClusterComment && pg[7] == ClusteringEnabled && pg[8] == ClusteringDelay;
    assert pg[10] == BinaryStore;
  }

  /** With any other template, the default template is selected and no database setting is written. */
  lemma DefaultSettings(conf: Hash)
    requires !UsesPostgresql(conf)
    ensures DefaultTemplate in ConfLines(conf)
    ensures forall l :: l in ConfLines(conf) ==> !IsDatabaseLine(l)
  {
    var r := ConfLines(conf);
    FixedLinesSelectNothing(ToS(Fetch(conf, "jvm_mem")));
    assert r == (FixedLines(ToS(Fetch(conf, "jvm_mem"))) + [""]) + [DefaultTemplate, ""];
    NotPrefix("nuxeo.db.", DefaultTemplate, 6);
  }

  /** With any other template, nothing of the database part of the configuration reaches the text. */
  lemma DefaultIgnoresDatabase(c1: Hash, c2: Hash)
    requires !UsesPostgresql(c1) && !UsesPostgresql(c2)
    requires Fetch(c1, "jvm_mem") == Fetch(c2, "jvm_mem")
    ensures NuxeoConfText(c1) == NuxeoConfText(c2)
  {
  }

  /** Exactly one template is selected in every rendering, and it is the one the configuration asks for. */
  lemma TemplateLines(conf: Hash)
    ensures Seqs.Filter(ConfLines(conf), IsTemplateLine) ==
      if UsesPostgresql(conf) then [PostgresqlTemplate] else [DefaultTemplate]
  {
    CommonLinesSelectNoTemplate(conf);
    Seqs.FilterAppend(CommonLines(conf), BranchLines(conf), IsTemplateLine);
    BranchTemplate(conf);
  }

  lemma CommonLinesSelectNoTemplate(conf: Hash)
    ensures Seqs.Filter(CommonLines(conf), IsTemplateLine) == []
  {
    var c := CommonLines(conf);
    FixedLinesSelectNothing(ToS(Fetch(conf, "jvm_mem")));
    forall i | 0 <= i < |c| ensures !IsTemplateLine(c[i]) {
      assert c[i] in c;
    }
    Seqs.FilterDropsAll(c, IsTemplateLine);
  }

  lemma BranchTemplate(conf: Hash)
    ensures Seqs.Filter(BranchLines(conf), IsTemplateLine) ==
      if UsesPostgresql(conf) then [PostgresqlTemplate] else [DefaultTemplate]
  {
    if UsesPostgresql(conf) {
      PostgresqlBranchTemplate(ToS(Fetch(conf, "database")), ToS(Fetch(conf, "username")),
                               ToS(Fetch(conf, "password")), ToS(Fetch(conf, "host")),
                               ToS(Fetch(conf, "port")));
    } else {
      Seqs.FilterAppend(DefaultLines, [""], IsTemplateLine);
    }
  }

  lemma PostgresqlBranchTemplate(name: string, user: string, password: string, host: string, port: string)
    ensures Seqs.Filter(PostgresqlLines(name, user, password, host, port) + [""], IsTemplateLine) == [PostgresqlTemplate]
  {
    var rest := PostgresqlLines(name, user, password, host, port)[1..] + [""];
    assert PostgresqlLines(name, user, password, host, port) + [""] == [PostgresqlTemplate] + rest;
    NotPrefix("nuxeo.templates=", rest[0], 6);
    NotPrefix("nuxeo.templates=", rest[1], 6);
    NotPrefix("nuxeo.templates=", rest[2], 6);
    NotPrefix("nuxeo.templates=", rest[3], 6);
    NotPrefix("nuxeo.templates=", rest[4], 6);
    NotPrefix("nuxeo.templates=", rest[5], 0);
    NotPrefix("nuxeo.templates=", rest[6], 0);
    NotPrefix("nuxeo.templates=", rest[7], 0);
    NotPrefix("nuxeo.templates=", rest[8], 6);
    NotPrefix("nuxeo.templates=", rest[9], 0);
    Seqs.FilterDropsAll(rest, IsTemplateLine);
    Seqs.FilterAppend([PostgresqlTemplate], rest, IsTemplateLine);
  }

  /** `l` fits on one line. */
  predicate SingleLine(l: string)
  {
    '\n' !in l
  }

  /** The values a rendering prints. */
  const PrintedKeys := {"jvm_mem", "database", "username", "password", "host", "port"}

  /**
   * When no value printed into it spans several lines, the text splits back into
   * exactly the rendered lines, each with its '\n'.
   */
  lemma TextLines(conf: Hash)
    requires forall key :: key in PrintedKeys ==> SingleLine(ToS(Fetch(conf, key)))
    ensures Lines(NuxeoConfText(conf)) == Terminate(ConfLines(conf))
  {
    var r := ConfLines(conf);
    var t := Terminate(r);
    LinesAreSingle(conf);
    forall l | l in t ensures Terminated(l) {
      var i :| 0 <= i < |t| && t[i] == l;
      assert SingleLine(r[i]);
      assert forall k :: 0 <= k < |l| - 1 ==> l[k] == r[i][k];
    }
    TerminatedSplitForm(t);
    LinesOfConcat(t);
  }

  lemma LinesAreSingle(conf: Hash)
    requires forall key :: key in PrintedKeys ==> SingleLine(ToS(Fetch(conf, key)))
    ensures forall l :: l in ConfLines(conf) ==> SingleLine(l)
  {
    assert SingleLine(ToS(Fetch(conf, "jvm_mem"))) by { assert "jvm_mem" in PrintedKeys; }
    FixedLinesSingle(ToS(Fetch(conf, "jvm_mem")));
    if UsesPostgresql(conf) {
      assert SingleLine(ToS(Fetch(conf, "database"))) by { assert "database" in PrintedKeys; }
      assert SingleLine(ToS(Fetch(conf, "username"))) by { assert "username" in PrintedKeys; }
      assert SingleLine(ToS(Fetch(conf, "password"))) by { assert "password" in PrintedKeys; }
      assert SingleLine(ToS(Fetch(conf, "host"))) by { assert "host" in PrintedKeys; }
      assert SingleLine(ToS(Fetch(conf, "port"))) by { assert "port" in PrintedKeys; }
      PostgresqlLinesSingle(ToS(Fetch(conf, "database")), ToS(Fetch(conf, "username")),
                            ToS(Fetch(conf, "password")), ToS(Fetch(conf, "host")),
                            ToS(Fetch(conf, "port")));
    }
  }

  lemma FixedLinesSingle(m: string)
    requires SingleLine(m)
    ensures forall i :: 0 <= i < |FixedLines(m)| ==> SingleLine(FixedLines(m)[i])
  {
    var f := FixedLines(m);
    assert f[0] == "JAVA_OPTS=" + HeapFlag("-Xms", m) + HeapFlag("-Xmx", m) + JvmOptionsRest;
  }

  lemma PostgresqlLinesSingle(name: string, user: string, password: string, host: string, port: string)
    requires SingleLine(name) && SingleLine(user) && SingleLine(password) && SingleLine(host) && SingleLine(port)
    ensures forall i :: 0 <= i < |PostgresqlLines(name, user, password, host, port)| ==>
      SingleLine(PostgresqlLines(name, user, password, host, port)[i])
  {
  }
}
