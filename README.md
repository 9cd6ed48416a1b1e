# mobell: a verified model of its configuration and message logic

mobell is a command-line tool that sends push notifications through the
pushover.net relay. Its commands are the root command (send "Triggered at
<time>"), `push [message]` and the interactive `init`. It keeps an API key
and a list of recipient ("user") keys in a `config.json` file. This project
models the part of `main.go` that is sequential logic:

- `absPathify` and `userHomeDir`. A leading `$HOME` is replaced by the home
  directory. Any other leading `$NAME`, up to the first path separator, is
  replaced by that variable's value. The path is then made absolute against
  the working directory and lexically cleaned. The result is `""` when it
  cannot be made absolute.
- The default per-user configuration directory chosen in `init()`.
- The order in which `main` adds the configuration search directories.
- The required-key check of `mustLoadConfig`, and the fatal outcomes of loading.
- The `init` command body: the comma split of the recipient line, the
  document written, the directory it goes to, and the key-length notes.
- The message each command sends, and the one send per recipient of
  `sendNotification`.

The host is passed in as parameters:

- the environment is a map (an unset variable reads as `""`, as with `os.Getenv`);
- `runtime.GOOS` is `Platform.Os`;
- the working directory is an `Option` (`None` when `os.Getwd` fails).

Go's `path/filepath` functions are modelled lexically in `FilePath`:

- `Clean` splits the path at the separator, drops empty and `.` elements,
  lets `..` cancel the element before it, and joins what is left;
- `Join` of two elements, and `Abs`, which joins a relative path onto the
  working directory.

Go's `len` of a string counts bytes, so `Strings.Utf8Len` gives the UTF-8
length of a `seq<char>`.

Modules, one per concern:

- `Wrappers`: `Option`, `Outcome`.
- `Strings`: `HasPrefix`, `Index`, `Split`, `Join`, `Utf8Len`.
- `FilePath`: `IsAbs`, `Clean`, `JoinPath`, `Abs`.
- `Platform`: `Os`, `Env`, `Getenv`, `Sep`, `UserHomeDir`.
- `Resolve`: `AbsPathify`, `AbsPathifyTotal`, `DefaultUserConfigPath`, `SearchPaths`.
- `Config`: `Missing`, `CheckRequired`, `MustLoadConfig`.
- `Setup`: `ProcessSetupInput`, `ConfigDocument`, `InitConfigDir`, `CorrectedInitConfigDir`.
- `Notify`: `PushMessage`, `SendNotification`.
- `Findings`: the two discrepancies listed below.

Details of the code's behaviour that the model keeps:

- An unset variable in `$NAME/rest` does not give an empty path. `Getenv`
  returns `""`, so the result is the cleaned `/rest` (`Resolve.AbsPathifyVar`
  with an empty value). `""` comes back only when a relative path meets a
  missing working directory.
- A `$NAME` with no separator after it does not degrade gracefully. The
  slice at main.go:155 panics. `Resolve.AbsPathify` therefore requires
  `CanExpand`, and the total variant is kept separately (see Findings).
- The message priority is the service's "high" level, not its highest
  ("emergency") level (main.go:200).
- After sending, the reported count is the number of recipients, whether
  or not individual sends failed (main.go:228).

The `$HOME` test is a plain prefix test, which is faithful to the source.
`$HOMEDIR/x` therefore becomes the home directory followed by `DIR/x`.
`Resolve.AbsPathifyHome` covers this, since it assumes only the prefix. An
unset `HOME` is not an error either: `$HOME/.config/mobell` then becomes
`/.config/mobell`.

## Model

| member | source | states |
|---|---|---|
| `Strings.Index` | main.go:154 | The first position of the separator, or -1 exactly when there is none; that position holds the separator and nothing before it does |
| `Strings.SplitCount` | main.go:61 | Splitting the recipient line yields one more entry than it has commas |
| `Strings.JoinSplit` | main.go:61 | Re-joining the split entries with commas gives back the line as typed |
| `Strings.SplitJoin` | main.go:61 | Splitting a join of comma-free entries gives back exactly those entries |
| `Strings.Utf8LenAscii` | main.go:93 | `len` of a key counts bytes, equal to its character count exactly when it is all ASCII |
| `FilePath.Clean` | main.go:159 | The cleaned path is never empty and is absolute exactly when its input is |
| `FilePath.ResolveCanonical` | main.go:164 | Cleaning leaves only real names and leading `..` elements, none of them empty, `.` or holding a separator, and no `..` under the root |
| `FilePath.ResolveCanonicalUnchanged` | main.go:164 | A canonical element list passes through the cleaning pass unchanged |
| `FilePath.CleanIdempotent` | main.go:159 | Cleaning an already cleaned path changes nothing |
| `FilePath.AbsResult` | main.go:162-163 | Making a path absolute fails only for a relative path with no working directory; otherwise the result is absolute and cleaned, a relative path being joined onto the working directory |
| `Platform.UserHomeDirSources` | main.go:137-146 | Outside Windows the home directory is `HOME` and depends on nothing else; on Windows it is `HOMEDRIVE`+`HOMEPATH`, falling back to `USERPROFILE` only when that is empty, and never reads `HOME` |
| `Resolve.FinishResult` | main.go:158-167 | After expansion the result is `""` exactly when the path is relative and there is no working directory, otherwise an absolute cleaned path |
| `Resolve.AbsPathifyResult` | main.go:148-167 | `absPathify` returns `""` or an absolute, cleaned path |
| `Resolve.AbsPathifyAbsolute` | main.go:158-160 | An absolute input comes back cleaned, the environment and working directory not consulted |
| `Resolve.AbsPathifyRelative` | main.go:162-167 | A relative input without `$` is cleaned relative to the working directory, or gives `""` when there is none |
| `Resolve.AbsPathifyHome` | main.go:149-151 | A leading `$HOME` becomes the home directory, whatever it holds (empty, relative or absolute), followed by the rest of the input unchanged; unless that text starts with `$`, the result is it made absolute and cleaned, and with an absolute home simply the cleaned concatenation |
| `Resolve.AbsPathifyVar` | main.go:153-156 | A leading `$NAME` up to the first separator becomes NAME's value followed by the suffix from that separator on; empty or absolute values give the cleaned concatenation, relative ones are joined onto the working directory |
| `Resolve.AbsPathifyIdempotent` | main.go:148-167 | Applying `absPathify` to its own non-empty result returns that result, in any environment and working directory |
| `Resolve.AbsPathifyTotalAgrees` | main.go:153-156 | The panic-free expansion agrees with the code wherever the code does not panic |
| `Resolve.AbsPathifyTotalResult` | main.go:153-156 | The panic-free expansion always returns `""` or an absolute cleaned path. Without the system separator, `$NAME/rest` reads NAME up to the first `/`, and a `$NAME` with no separator of either kind reads the whole rest as the variable name |
| `Resolve.XdgDefaultPathShape` | main.go:128 | The XDG default is read as the variable `XDG_CONFIG_HOME` followed by `/mobell`, not as a `$HOME` path |
| `Resolve.XdgDefaultPathResolves` | main.go:128 | Outside Windows, `$XDG_CONFIG_HOME/mobell` resolves to `XDG_CONFIG_HOME/mobell`, cleaned, when that variable holds an absolute path |
| `Resolve.HomeDefaultPathResolves` | main.go:130 | Outside Windows, `$HOME/.config/mobell` can always be expanded; it becomes `HOME/.config/mobell` made absolute, cleaned for an absolute `HOME`, and the root-relative `/.config/mobell` when `HOME` is empty |
| `Resolve.DefaultUserConfigPathResolves` | main.go:127-131 | Outside Windows the default can always be expanded and resolves to `XDG_CONFIG_HOME/mobell` (when set and absolute), `HOME/.config/mobell` (when unset and `HOME` is absolute), or `/.config/mobell` (when both are empty) |
| `Resolve.ConfPathEntryResolves` | main.go:236-237 | The override entry `$MOBELL_CONF_PATH` has no separator, so absPathify as written cannot expand it on either system; the panic-free expansion reads it as the variable's value made absolute |
| `Resolve.SystemConfigDirResolves` | main.go:240 | Outside Windows the system entry `/etc/mobell/` resolves to `/etc/mobell` |
| `Resolve.SearchPathsResolve` | main.go:236-240 | Of the search entries, in order, the override (present only when `MOBELL_CONF_PATH` is set) is the variable's value under the panic-free expansion and cannot be expanded as written; the default entry sits second to last and can be expanded; the system entry comes last and resolves to `/etc/mobell` |
| `Config.MissingExactly` | main.go:183-191 | A key is reported exactly when it is required and its value is absent or null |
| `Config.MissingAppend` | main.go:186-191 | Keys are reported in list order, part by part for a concatenated list |
| `Config.MissingNone` | main.go:186-196 | Nothing is reported exactly when every required key has a value |
| `Config.MissingRequired` | main.go:183-191 | For the two required keys: `pushover_user_key` is reported if nil, then `pushover_api_key` if nil; both when both are missing |
| `Config.CheckRequired` | main.go:183-191 | The loop reports every nil key, in order, without stopping at the first, and raises the flag exactly when it reported something |
| `Config.MustLoadConfig` | main.go:170-197 | A missing or unreadable file is fatal; a parsed file fails exactly when some required key is nil, the error naming all such keys and the default directory |
| `Setup.UserKeyNotesOrdered` | main.go:97-101 | User-key notes are numbered from 1 to the number of keys, strictly increasing, at most one per key |
| `Setup.UserKeyNotesExactly` | main.go:97-101 | Key #n gets a note exactly when its own length is not 30, and the note shows the API key's length |
| `Setup.CorrectedUserKeyNotesExactly` | main.go:99 | With the correction, key #n's note shows key #n's own length |
| `Setup.ProcessSetupInput` | main.go:61-101 | The recipient line is split on commas, and the notes are the API-key note followed by the user-key notes in key order |
| `Setup.SetupInputFacts` | main.go:61-101 | The number of recipients is the number of commas plus one, and the recipients re-join to the input; there is an API-key note exactly when the API key's byte length is not 30, showing that length, and a note for key #n exactly when that key's length is not 30 |
| `Setup.ConfigDocumentValid` | main.go:75-78 | A configuration written by `init` always passes the required-key check |
| `Setup.ConfigFilePathEntries` | main.go:69 | The file written is the entry `config.json` inside the directory: its path elements are the directory's followed by `config.json` |
| `Setup.InitConfigDirResolves` | main.go:37-40 | Wherever `init` does not panic, its directory is `""` or absolute and cleaned, and the corrected version gives the same; outside Windows it never panics and the directory is `XDG_CONFIG_HOME/mobell`, `HOME/.config/mobell` or `/.config/mobell` as above |
| `Setup.InitConfigDirIsSearched` | main.go:37 | Outside Windows the directory `init` writes to is what `absPathify` makes of the default search entry, the one after the override |
| `Notify.PushMessageChoice` | main.go:115-120 | With an argument, `push` sends exactly that text whatever the time; without one, it sends the root command's message, whose body is `Triggered at ` followed by the time, which can be read back from it, so different times give different messages; the title is fixed |
| `Notify.SendNotification` | main.go:199-229 | Every recipient gets exactly one request, in list order, carrying the API key and the message raised to high priority; the reported count is the number of recipients |
| `Findings.DefaultPathPanicsOnWindows` | main.go:153-156 | On Windows with `XDG_CONFIG_HOME` set, the default path has no `\` and the code as written cannot expand it |
| `Findings.DefaultPathResolvesOnWindows` | main.go:153-156 | With the panic-free expansion, `init` on Windows with `XDG_CONFIG_HOME` set resolves the default to the variable's value followed by `/mobell`, made absolute and cleaned; for an absolute value, that concatenation cleaned |
| `Findings.UserKeyNoteShowsApiKeyLength` | main.go:97-101 | With an API key of 30 bytes, a 3-character user key gets a note saying 30 as written, and 3 once corrected |

## Left out

- Command wiring and process exit (cobra, `os.Exit`). These are framework plumbing. A fatal outcome is a `Fail` value of `Config.MustLoadConfig`.
- Reading the configuration file. The configuration library finds the file, decodes the JSON and turns the recipient value into a list, but its source is not part of this model. Its result arrives as `Config.ReadResult`. The library's handling of key case is also outside the model. So is the library's own resolution of the search directories. `Resolve.SearchPathsResolve` and `Setup.InitConfigDirIsSearched` state what the entries become under `absPathify` from `main.go` and under its panic-free variant, not under the library's code. They do not show that the library finds the file `init` creates.
- Terminal input (`fmt.Scanln`, which reads one whitespace-free word) and file output (`os.MkdirAll`, `os.Create`, JSON encoding, `Close`). These are I/O. The typed values are parameters, and the written document is `Setup.ConfigDocument`.
- Console output. The notes and the missing keys are returned as sequences, not as printed text. So is the message printed when `init` cannot resolve its directory: `Setup.InitConfigDir` then returns `""`, and `init` carries on. The note texts say "usually 32 characters" although the comparison is with 30. That text is not modelled.
- `Notify.SendNotification` runs sequentially. It does not model the goroutine per recipient, the wait group, the network call, per-recipient failures, or the printing of the keys. These are concurrency and network I/O. The order that the list gives to the requests is the model's choice: the source sends them in parallel.
- The clock. The RFC 822 timestamp is an input string.
- Windows path rules. The model does not recognise volume names, does not accept `/` as a second separator on Windows (only the panic-free expansion ends a variable name at `/` there), and does not model the Windows form of `filepath.Abs`. `FilePath.IsAbs` means "starts with the separator" on both systems.
- Resolve.AbsPathifyHome: when the home directory followed by the rest of the input itself starts with `$`, the variable step then applies to the substituted text. That happens with an empty home and `$HOME$X/...`, or with a home that begins with `$`. The lemma says nothing about this case. `Resolve.AbsPathifyVar` describes that step for a path given directly.
- Setup.InitConfigDir: it requires that the default can be expanded, because `init` panics otherwise (main.go:37, then main.go:155). `Setup.CorrectedInitConfigDir` is the total version, assuming the correction in Findings.
- The numeric values of the service's priority levels. They belong to the notification library, which is not part of this model. `Notify.Priority` names the levels in order.

## Findings

| source | as written | input that shows it | evidently intended | confidence | as-written member | corrected member |
|---|---|---|---|---|---|---|
| main.go:153-156 | `end := strings.Index(inPath, string(os.PathSeparator))`, then `inPath[1:end]`, which panics when `end == -1` | Windows with `XDG_CONFIG_HOME` set: the default `$XDG_CONFIG_HOME/mobell` has no `\`, so `init` panics | the variable name ends at the first system separator, as written; without one on Windows it ends at the first `/`, which the default path is written with; with neither, it is the whole rest. Resolution never panics, and on Windows the default becomes `XDG_CONFIG_HOME` followed by `/mobell` (`Resolve.ExpandVarTotal`) | medium, not executed | `Findings.DefaultPathPanicsOnWindows` (for `Resolve.AbsPathify`) | `Resolve.AbsPathifyTotalResult` and `Findings.DefaultPathResolvesOnWindows` (for `Resolve.AbsPathifyTotal`, used by `Setup.CorrectedInitConfigDir`) |
| main.go:99 | the note for user key `#i+1` prints `len(apiKey)` | an API key of 30 characters and user keys `abc`: the note says key #1 is 30 characters | print `len(userKey)` | high, not executed | `Findings.UserKeyNoteShowsApiKeyLength` (for `Setup.UserKeyNotes`) | `Setup.CorrectedUserKeyNotesExactly` (for `Setup.CorrectedUserKeyNotes`) |
