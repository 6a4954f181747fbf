# Nuxeo staging plugin: a verified model

This Dafny project models the part of the Cloud Foundry Nuxeo staging plugin
that makes decisions. The plugin lives in `staging/lib/vcap/staging/plugin/nuxeo`.
The model covers four pieces:

- **Database resolution** (`database_support.rb`, module `DatabaseSupport`).
  - The resolver keeps the bound services whose label names a PostgreSQL service.
  - With none left, it falls back to Nuxeo's embedded default storage.
  - Otherwise it maps the first one's credentials into the configuration Nuxeo expects.
  - It stops staging when that binding has no credentials.
- **The `nuxeo.conf` renderer** (`Nuxeo.nuxeo_conf` in `nuxeo.rb`, module `NuxeoConf`).
  - The rendering is a sequence of lines.
  - A fixed block sizes the JVM and pins the server to the loopback address.
  - Then comes either the PostgreSQL block or the default template.
- **The startup script** (`generate_startup_script` and `startup_script` in `plugin.rb`, module `NuxeoPlugin`).
  - The ERB template is rendered as text, then split into lines with `String#lines`.
  - Lines matching `/^\s*$/` are rejected, and the rest are joined.
  - The module also holds the pre-launch block the plugin passes.
  - It also holds the configuration merge of `create_nuxeo_conf`.
- **The stop script** (module `StopScript`, with `Shell`).
  - This is what the startup script appends to `../stop`.
  - `killtree` is a post-order walk over an abstract process tree.

Supporting modules:

- `Seqs`: order-preserving selection, which is Ruby's `select` and `reject`.
- `Text`: `String#lines`, `join`, the blank-line test, and `Integer#to_s`.
- `Values`: Ruby hashes and ERB's `to_s`.
- `Shell`: how bash reads a double-quoted word: backslash escapes and `$NAME` expansion.

Ruby's fatal paths become values of the `Failure` datatype:

| Failure | Ruby behaviour | Exit status |
|---|---|---|
| `MissingCredentials` | `puts` then `exit 1` | 1 |
| `UnknownDatabase` | `raise` | none |
| `UndefinedMethod` | a `NoMethodError` | none |

`ExitStatus` is 1 for the `exit`.

Two details of the rendering follow from the code itself:

- ERB runs without a trim mode, so the newline after the `<% if %>` (or `<% else %>`) tag and the one after `<% end %>` stay. Every rendering therefore has an empty line at index 13 and another at the end (`NuxeoConf.ConfLines`).
- The PostgreSQL branch writes five `nuxeo.db.*` lines: name, user, password, host and port.

Two readings of `database_support.rb` are corrected rather than modelled as written (see "## Findings"):

- Line 9 passes Ruby's `Kernel#binding` where the first bound database is evidently meant. `DatabaseSupport.DatabaseConfig` takes the first bound database. `DatabaseSupport.DatabaseConfigAsWritten` and `NuxeoPlugin.CreateNuxeoConfAsWritten` keep line 9 as written, which fails with `NoMethodError` whenever a PostgreSQL service is bound. Their selection of bound databases still uses the prefix reading of line 49 (next item).
- Lines 22 and 49 test labels with `/^postgresql/`, which Ruby anchors at every line. `DatabaseSupport.KnownDatabase` and `DatabaseSupport.DatabaseConfigFor` read it as "the label begins with `postgresql`". `DatabaseSupport.MatchesLineAnchored` keeps Ruby's reading.

Everything built on the resolver uses the corrected readings: `BoundDatabases`, `DatabaseConfig`, `NuxeoPlugin.CreateNuxeoConf`, `NuxeoPlugin.ConfiguredMemory` and `NuxeoPlugin.ConfiguredTemplate`.

## Model

| member | source | states |
|---|---|---|
| DatabaseSupport.BoundDatabasesSelectsKnown | staging/lib/vcap/staging/plugin/nuxeo/database_support.rb:42-53 | The bound databases form an order-preserving subsequence of the bound services. Each holds a label that begins with "postgresql". Each such binding is kept as often as it occurs. Every other binding, labelled or not, is dropped without an error. |
| DatabaseSupport.DefaultIffNoKnownDatabase | staging/lib/vcap/staging/plugin/nuxeo/database_support.rb:3-18 | Resolution returns exactly the default configuration if and only if no bound service is a PostgreSQL binding. |
| DatabaseSupport.EmptyConfigContents | staging/lib/vcap/staging/plugin/nuxeo/database_support.rb:13-18 | The default configuration is: template `default`, host `localhost`, port -1, user `sa`, empty password, database `sys`. |
| DatabaseSupport.CredentialsFrom | staging/lib/vcap/staging/plugin/nuxeo/database_support.rb:31-40 | Fails, with exit status 1, exactly when the binding has no credentials. Otherwise the result has exactly the keys host, port, username, password and database. These carry hostname, port, user, password and name. |
| DatabaseSupport.DatabaseConfigFor | staging/lib/vcap/staging/plugin/nuxeo/database_support.rb:20-28 | A label that does not begin with "postgresql" gives the unknown-database error. A PostgreSQL binding without credentials gives the missing-credentials exit. With credentials, the result has template `postgresql` plus the five mapped credentials, and no other key. |
| DatabaseSupport.FirstKnownDatabaseDecides | staging/lib/vcap/staging/plugin/nuxeo/database_support.rb:3-11 | When databases are bound, the first of them alone decides the outcome: missing-credentials exit, or a PostgreSQL configuration carrying its credentials. |
| DatabaseSupport.DatabaseConfig | staging/lib/vcap/staging/plugin/nuxeo/database_support.rb:3-11 | The corrected `database_config`. A success names template `default` or `postgresql` and never sets `jvm_mem`. The only failure is the missing-credentials exit with status 1, so the `raise` of `database_config_for` cannot be reached from here. |
| DatabaseSupport.DatabaseConfigAsWritten | staging/lib/vcap/staging/plugin/nuxeo/database_support.rb:3-11 | `database_config` as written. It has no contract of its own: `AsWrittenAgreesWithoutDatabase` and `AsWrittenFailsWithDatabase` state that it returns the default configuration without a database and fails with `NoMethodError` with one. |
| DatabaseSupport.KnownDatabase | staging/lib/vcap/staging/plugin/nuxeo/database_support.rb:46-53 | `known_database?` under the prefix reading. It has no contract of its own: `BoundDatabasesSelectsKnown` uses it to characterise the selection, and `PrefixMatchesLineAnchored` and `LineAnchoredOnOneLine` relate it to Ruby's line-anchored match. |
| DatabaseSupport.BoundDatabases | staging/lib/vcap/staging/plugin/nuxeo/database_support.rb:42-44 | `bound_databases`. It has no contract of its own: `BoundDatabasesSelectsKnown` states that it keeps exactly the known databases, in order and as often as they are bound. |
| DatabaseSupport.EmptyConfig | staging/lib/vcap/staging/plugin/nuxeo/database_support.rb:13-18 | `empty_config`. It has no contract of its own: `EmptyConfigContents` lists its six values, and `DefaultIffNoKnownDatabase` states when it is returned. |
| DatabaseSupport.PostgresqlExample | staging/lib/vcap/staging/plugin/nuxeo/database_support.rb:20-40 | A `postgresql-9.1` binding resolves to the six expected settings. The code as written fails on the same input. |
| DatabaseSupport.AsWrittenFailsWithDatabase | staging/lib/vcap/staging/plugin/nuxeo/database_support.rb:9 | As written, any bound PostgreSQL service makes resolution fail with `NoMethodError`. The corrected resolver does not fail this way. |
| DatabaseSupport.AsWrittenAgreesWithoutDatabase | staging/lib/vcap/staging/plugin/nuxeo/database_support.rb:4-7 | With no database bound, the code as written and the corrected code both return the default configuration. |
| DatabaseSupport.LineAnchoredAcceptsSecondLine | staging/lib/vcap/staging/plugin/nuxeo/database_support.rb:49 | Ruby's line-anchored `/^postgresql/` accepts the label "mysql-5.1\npostgresql", which does not begin with "postgresql". |
| DatabaseSupport.LineAnchoredOnOneLine | staging/lib/vcap/staging/plugin/nuxeo/database_support.rb:49 | On a label without a newline, Ruby's reading of `/^postgresql/` and the prefix reading agree, in both directions. |
| DatabaseSupport.MatchesLineAnchored | staging/lib/vcap/staging/plugin/nuxeo/database_support.rb:49 | Ruby's `/^postgresql/`: some line of the label, the first or one after a '\n', begins with "postgresql". It has no contract of its own: `LineAnchoredAcceptsSecondLine`, `LineAnchoredOnOneLine` and `PrefixMatchesLineAnchored` relate it to the prefix reading. |
| DatabaseSupport.PrefixMatchesLineAnchored | staging/lib/vcap/staging/plugin/nuxeo/database_support.rb:22 | Every label the prefix reading accepts, Ruby's regular expression accepts too. |
| NuxeoConf.ConfLines | staging/lib/vcap/staging/plugin/nuxeo/nuxeo.rb:33-63 | A rendering has 26 lines with the `postgresql` template and 16 otherwise. The lines at index 13 and at the end are empty, left by the template tags. |
| NuxeoConf.HeapLine | staging/lib/vcap/staging/plugin/nuxeo/nuxeo.rb:26-34 | The first line starts with `JAVA_OPTS=` and contains both `-Xms<jvm_mem>m ` and `-Xmx<jvm_mem>m `. |
| NuxeoConf.HeapLineDeterminesMemory | staging/lib/vcap/staging/plugin/nuxeo/nuxeo.rb:26-34 | Two configurations whose heap lines are equal have the same integer `jvm_mem`. |
| NuxeoConf.HeapOptionsInjective | staging/lib/vcap/staging/plugin/nuxeo/nuxeo.rb:34 | The heap line determines the memory text printed into it. |
| NuxeoConf.FixedSettingsAlwaysPresent | staging/lib/vcap/staging/plugin/nuxeo/nuxeo.rb:37-46 | Whatever the configuration, these lines are present: forced generation, wizard done, kept tmpdir, AJP port off, admin port off, bind to 127.0.0.1, HTTP port `TCATPORT`. |
| NuxeoConf.PostgresqlSettings | staging/lib/vcap/staging/plugin/nuxeo/nuxeo.rb:47-58 | With the `postgresql` template, the output has these lines. The template line. The five `nuxeo.db.*` lines, each carrying its configuration value verbatim. Clustering enabled with delay 2000. The binary store under `/var/lib/nuxeo/APPNAME/binaries`. |
| NuxeoConf.DefaultSettings | staging/lib/vcap/staging/plugin/nuxeo/nuxeo.rb:59-61 | With any other template, the output selects `nuxeo.templates=default` and has no `nuxeo.db.` line. |
| NuxeoConf.DefaultIgnoresDatabase | staging/lib/vcap/staging/plugin/nuxeo/nuxeo.rb:25-61 | With a template other than `postgresql`, the text depends on `jvm_mem` alone: host, port, user, password and database never reach it. |
| NuxeoConf.TemplateLines | staging/lib/vcap/staging/plugin/nuxeo/nuxeo.rb:47-61 | Every rendering has exactly one `nuxeo.templates=` line. It is the one the configuration's template selects. |
| NuxeoConf.TextLines | staging/lib/vcap/staging/plugin/nuxeo/nuxeo.rb:33-63 | When no printed value spans lines, the rendered text splits back into exactly the modelled lines, each ending in '\n'. |
| NuxeoConf.NuxeoConfText | staging/lib/vcap/staging/plugin/nuxeo/nuxeo.rb:22-64 | `Nuxeo.nuxeo_conf`: the rendered text is never empty and ends in '\n'. Its lines are given by `TextLines`, and its content by `ConfLines` and the lemmas above. |
| Text.ConcatLines | staging/lib/vcap/staging/plugin/nuxeo/plugin.rb:55 | Joining the result of `String#lines` gives the text back. |
| Text.LinesOfConcat | staging/lib/vcap/staging/plugin/nuxeo/plugin.rb:55 | Joining pieces shaped like the output of `String#lines`, then splitting the result, gives those pieces back. |
| Text.LinesAppend | staging/lib/vcap/staging/plugin/nuxeo/plugin.rb:38-52 | After a text that ends in '\n', the lines of a concatenation are the lines of each part. |
| Text.IntToStringRoundTrip | staging/lib/vcap/staging/plugin/nuxeo/nuxeo.rb:34 | Reading back the decimal text of `Integer#to_s` gives the integer. |
| NuxeoPlugin.RejectBlank | staging/lib/vcap/staging/plugin/nuxeo/plugin.rb:55 | `.lines.reject {|l| l =~ /^\s*$/}.join`. It has no contract of its own: `RejectBlankLines` and `RejectBlankIdempotent` state what it keeps. |
| NuxeoPlugin.GenerateStartupScript | staging/lib/vcap/staging/plugin/nuxeo/plugin.rb:36-56 | `generate_startup_script`. It has no contract of its own: `StartupScriptLines`, `StartupScriptHasNoBlankLine`, `StartupScriptFrameLines` and `NoBlockIsBlankBlock` state its lines. |
| NuxeoPlugin.RejectBlankLines | staging/lib/vcap/staging/plugin/nuxeo/plugin.rb:55 | The filtered text's lines are exactly the non-blank lines of the input, in their original order and as often as they occurred. No blank line is left. |
| NuxeoPlugin.RejectBlankIdempotent | staging/lib/vcap/staging/plugin/nuxeo/plugin.rb:55 | Rejecting blank lines twice is rejecting them once. |
| NuxeoPlugin.StartupScriptLines | staging/lib/vcap/staging/plugin/nuxeo/plugin.rb:36-56 | The script's lines, in order, are: the shebang, the non-blank lines of the environment statements, the non-blank lines of the pre-launch block, then the ten launch lines from `cd nuxeo` to `wait $STARTED`. |
| NuxeoPlugin.StartupScriptHasNoBlankLine | staging/lib/vcap/staging/plugin/nuxeo/plugin.rb:55 | No line of a generated script matches `/^\s*$/`, and every line ends in '\n'. |
| NuxeoPlugin.StartupScriptFrameLines | staging/lib/vcap/staging/plugin/nuxeo/plugin.rb:39-51 | The script begins with `#!/bin/bash` and ends with `wait $STARTED`. `cd nuxeo` comes before the background launch. The `killtree` definition comes before `killtree $STARTED`, which comes before `killtree $PPID`. |
| NuxeoPlugin.NoBlockIsBlankBlock | staging/lib/vcap/staging/plugin/nuxeo/plugin.rb:37-55 | Giving no block produces the same script as giving a block of whitespace only. |
| NuxeoPlugin.PreLaunchKept | staging/lib/vcap/staging/plugin/nuxeo/plugin.rb:68-89 | Every line of the plugin's pre-launch block survives the filter, in order. Only the empty line the template adds after it is dropped. |
| NuxeoPlugin.StartupScript | staging/lib/vcap/staging/plugin/nuxeo/plugin.rb:66-89 | `startup_script`. It has no contract of its own: `NuxeoStartupScriptLines` and `PreLaunchKept` state its lines. |
| NuxeoPlugin.NuxeoStartupScriptLines | staging/lib/vcap/staging/plugin/nuxeo/plugin.rb:58-89 | The plugin's script is the shebang, the environment statements' non-blank lines, the whole pre-launch block, then the launch lines. The launch lines use `cd nuxeo` and `./bin/nuxeoctl console`. |
| NuxeoPlugin.StagingConfig | staging/lib/vcap/staging/plugin/nuxeo/plugin.rb:24 | The merged configuration has the database keys plus `jvm_mem`. Every database key keeps its value, and `jvm_mem` is the application's memory unless the database settings name it. |
| NuxeoPlugin.Puts | staging/lib/vcap/staging/plugin/nuxeo/plugin.rb:26 | `IO#puts`: text that already ends in '\n' is written unchanged, and any other text is written with one '\n' added. |
| NuxeoPlugin.CreateNuxeoConf | staging/lib/vcap/staging/plugin/nuxeo/plugin.rb:22-28 | `create_nuxeo_conf` over the corrected resolver. It writes the rendering of the merged configuration, unchanged by `puts`, exactly when resolution succeeds. Otherwise it fails with the resolution's own failure. |
| NuxeoPlugin.CreateNuxeoConfAsWritten | staging/lib/vcap/staging/plugin/nuxeo/plugin.rb:22-28 | `create_nuxeo_conf` over `database_config` with line 9 as written. It has no contract of its own: `AsWrittenStagingFails` states that it fails with `NoMethodError` whenever a PostgreSQL service is bound. |
| NuxeoPlugin.AsWrittenStagingFails | staging/lib/vcap/staging/plugin/nuxeo/plugin.rb:22-28 | As written, `create_nuxeo_conf` fails with `NoMethodError` whenever a PostgreSQL service is bound. Over the corrected resolver, it writes the file whenever every bound database carries credentials. |
| NuxeoPlugin.ConfiguredMemory | staging/lib/vcap/staging/plugin/nuxeo/plugin.rb:24 | In the written configuration, `jvm_mem` is the application's memory, and the heap line sizes both `-Xms` and `-Xmx` to it. |
| NuxeoPlugin.ConfiguredTemplate | staging/lib/vcap/staging/plugin/nuxeo/plugin.rb:24 | The written configuration selects the PostgreSQL template exactly when a PostgreSQL service is bound, and the default template otherwise. |
| Shell.ExpandEscape | staging/lib/vcap/staging/plugin/nuxeo/plugin.rb:47 | Bash reads text written with escaped special characters inside double quotes back exactly as it was, whatever its variables hold. |
| StopScript.StopFileContents | staging/lib/vcap/staging/plugin/nuxeo/plugin.rb:45-49 | The four `echo ... >> ../stop` lines of the script, and no other launch line, append to the stop file. After bash expands them, it holds: the shebang, the `killtree` definition, `killtree <server pid>`, `killtree <parent pid>`. |
| StopScript.StopFileDefinesKilltree | staging/lib/vcap/staging/plugin/nuxeo/plugin.rb:45-47 | The stop file holds four lines. It starts with `#!/bin/bash`, and its second line is the `killtree` function's own text, with the script's `\$` escapes undone. |
| StopScript.StopFileKillsPids | staging/lib/vcap/staging/plugin/nuxeo/plugin.rb:48-49 | The stop file's last two lines are `killtree ` followed by the decimal server pid, then by the decimal parent pid. Each decimal text reads back as that pid. |
| StopScript.StartupScriptStopFile | staging/lib/vcap/staging/plugin/nuxeo/plugin.rb:36-89 | Read command by command, the plugin's whole script appends to `../stop` what its environment statements append, then the four lines of the launch block. The shebang and the fifteen lines of the pre-launch block append nothing. |
| StopScript.StartupScriptStopFileExactly | staging/lib/vcap/staging/plugin/nuxeo/plugin.rb:36-89 | When no environment statement is an `echo "..." >> ../stop` line, the whole script appends exactly: the shebang, the `killtree` definition, `killtree <server pid>`, `killtree <parent pid>`. |
| StopScript.KillOrder | staging/lib/vcap/staging/plugin/nuxeo/plugin.rb:47 | `killtree pid`. It has no contract of its own: `KillOrderCorrect` states its order and coverage. |
| StopScript.KillAll | staging/lib/vcap/staging/plugin/nuxeo/plugin.rb:47 | The `for _child` loop of `killtree`. It has no contract of its own: `KillAllCorrect` states its order and coverage. |
| StopScript.StopFileLines | staging/lib/vcap/staging/plugin/nuxeo/plugin.rb:45-49 | What the startup script appends to `../stop`. It has no contract of its own: `StopFileContents`, `StopFileDefinesKilltree` and `StopFileKillsPids` state it. |
| StopScript.KillOrderCorrect | staging/lib/vcap/staging/plugin/nuxeo/plugin.rb:47 | `killtree p` kills exactly the processes of p's tree, one `kill -9` per process. Each is killed only after every process below it, and `p` is killed last. |
| StopScript.KillAllCorrect | staging/lib/vcap/staging/plugin/nuxeo/plugin.rb:47 | The loop over the children kills exactly the children's trees, each process once and after everything below it. |
| StopScript.StopKills | staging/lib/vcap/staging/plugin/nuxeo/plugin.rb:48-49 | Running `../stop`. It has no contract of its own: `StopKillsServerFirst` states its order. |
| StopScript.StopKillsServerFirst | staging/lib/vcap/staging/plugin/nuxeo/plugin.rb:48-49 | Running the stop file kills the server's whole tree, ending with the server, before anything of the parent's tree. Nothing is killed before what lies below it, and the parent is killed last. |

## Left out

- `Nuxeo.prepare` and `Nuxeo.resource_dir` are not modelled. They copy, unzip, remove and move files.
- `stage_application`, `create_app_directories`, `copy_source_files` and the file writes are not modelled, because they are filesystem I/O. `CreateNuxeoConf` returns the text that would be written to `nuxeo/bin/nuxeo.conf`.
- The base-class collaborators become parameters:
  - `bound_services` is the `services` sequence.
  - `application_memory` is an integer.
  - `environment_statements_for(environment_hash)` is the text it returns.
  - `destination_directory` plays no part in the computed text.
- The `puts` message before `exit 1` and the `raise` message are not modelled. The failure carries the offending binding instead.
- Ruby values are modelled only as `nil`, strings and integers. Floats, symbols and nested hashes passed as credentials are not modelled.
- Hash insertion order is not modelled, because no output depends on it.
- The ERB engine itself is not modelled. Each template is written out with its tags already evaluated.
- The scripts' run-time behaviour is not modelled:
  - `getopts`, the port check and `exit 1` in the pre-launch block;
  - `resources/update_nuxeo_conf`;
  - the later substitution of `TCATPORT` and `APPNAME`.
  The model covers the script text only.
- StopScript.StopKills: real `ps` and `kill` semantics are not modelled.
  - Each `killtree` runs on a snapshot tree.
  - Killed processes are not removed from the parent's tree.
  - The server's tree and the parent's tree are treated independently, even when the first is part of the second.
- StopScript.StopFileLines: `>>` appends to `../stop`. Any content the file already had is not modelled. The same goes for `../run.pid`.
- StopScript.Commands: each line of the script is read as one command. Line continuations and multi-line quotes are not joined. The pre-launch and launch blocks have none; the environment statements are a parameter, and their appends are kept as a term of `StartupScriptStopFile`.
- Shell.Expand: models only backslash escapes and `$NAME` inside double quotes. Command substitution, `${...}`, positional and special parameters (`$1`, `$!`) are not modelled. No unescaped text of that kind reaches `../stop`.

## Findings

| source | as written | input that shows it | evidently intended | confidence | as-written member | corrected member |
|---|---|---|---|---|---|---|
| staging/lib/vcap/staging/plugin/nuxeo/database_support.rb:9 | `database_config_for(binding)` passes `Kernel#binding`, a `Binding` object that has no `[]` method. Any bound PostgreSQL service therefore raises `NoMethodError`. | one bound service labelled `postgresql-9.1` with credentials | `database_config_for(bindings.first)`: configure the first bound PostgreSQL service | high; not executed | DatabaseSupport.AsWrittenFailsWithDatabase | DatabaseSupport.FirstKnownDatabaseDecides |
| staging/lib/vcap/staging/plugin/nuxeo/database_support.rb:49 | In Ruby, `^` matches at the start of any line, so `/^postgresql/` (here and at line 22) accepts a label whose second line begins with `postgresql`. | label `"mysql-5.1\npostgresql"` | the label itself begins with `postgresql` (`\A`) | low, since service labels are single-line in practice; not executed | DatabaseSupport.LineAnchoredAcceptsSecondLine | DatabaseSupport.BoundDatabasesSelectsKnown |
