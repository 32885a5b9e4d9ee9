# Termux shell session and runtime helpers, in Dafny

This project models two files of the Termux port of Agent Zero and proves properties of that model:

- `patches/shell_termux.py` holds `TermuxInteractiveSession`. It starts an interactive shell on a pseudo-terminal, writes commands to it, reads the output back chunk by chunk, cleans it of ANSI escape sequences and control characters, and stops the shell again.
- `patches/termux_runtime.py` holds the Termux runtime helpers. They locate the Termux home and prefix, pick the shell and the interpreters, compute the temporary directory, and patch the process environment at start-up.

The model has four modules:

- `Wrappers` (`wrappers.dfy`) is the `Option` type.
- `Sanitizer` (`sanitizer.dfy`) holds the `ANSI_ESCAPE` pattern and `_clean_output`:
  - `EscapeLength` is the pattern's matcher at one position. The ghost predicate `IsEscapeSequence` is the pattern's language.
  - The cleaning has three passes: `StripAnsi` (the left-to-right `re.sub`), `ReplaceCrLf`/`DropCr` (the two `str.replace` calls) and `KeepVisible` (the filter). `Clean` composes them.
  - `CleanOutput` is `_clean_output` as a whole and is proved equal to `Clean`. `FilterVisible` is the source's filter loop and is proved equal to `KeepVisible`.
  - Every CR is deleted before the filter runs (patches/shell_termux.py:225), so no CR survives cleaning; `CrPassesDropEveryCr` and `CleanAlphabet` state this.
- `Runtime` (`runtime.dfy`) holds the helpers:
  - The environment is a `map<string, string>`.
  - The file system and the interpreter are a `Host` value: the set of existing paths, `sys.executable`, and the password database's home directory.
  - `Patched` is the declarative meaning of `patch_environment`.
  - The class `ProcessEnvironment` runs `patch_environment` step by step on a map-valued field. Its method is proved to produce `Patched`.
- `Session` (`session.dfy`) holds the class `Session`, with the fields of `TermuxInteractiveSession`.
  - The operating system is represented by outcome values given to the methods: `SpawnOutcome`, `ReadOutcome`, and the write results in `SendScript`.
  - The calls the session makes on the outside (spawn, write, signal, close) are appended to the `effects` field in order.

## Model

| member | source | states |
|---|---|---|
| Sanitizer.IsPrintable | patches/shell_termux.py:230 | On ASCII, a character is printable exactly when it lies between space and `~`. LF, TAB, CR and ESC are never printable, so LF and TAB are kept only by the explicit exception. |
| Sanitizer.IsVisible | patches/shell_termux.py:230 | No contract; the filter's test `char.isprintable() or char in '\n\t'`. See the rows of `KeepVisibleAlphabet` and `CleanAlphabet`. |
| Sanitizer.EscapeLength | patches/shell_termux.py:33 | A match at the start of the text is either absent or at least two characters long, starts with ESC, and fits in the text. |
| Sanitizer.IsEscapeSequence | patches/shell_termux.py:33 | No contract; the language of `ANSI_ESCAPE`: ESC with a byte in `@`..`Z` or backslash..`_`, or ESC `[` with parameter bytes, intermediate bytes and a final byte. See the rows of `EscapeLengthSound` and `EscapeLengthComplete`. |
| Sanitizer.ParamRun | patches/shell_termux.py:33 | The greedy `[0-?]*` run: it fits in the text, covers only parameter bytes, and stops at the first byte that is not one. |
| Sanitizer.IntermediateRun | patches/shell_termux.py:33 | The greedy `[ -/]*` run: it fits in the text, covers only intermediate bytes, and stops at the first byte that is not one. |
| Sanitizer.ParamRunExact | patches/shell_termux.py:33 | The greedy `[0-?]*` run is exactly the maximal run of parameter bytes. |
| Sanitizer.IntermediateRunExact | patches/shell_termux.py:33 | The greedy `[ -/]*` run is exactly the maximal run of intermediate bytes. |
| Sanitizer.EscapeLengthSound | patches/shell_termux.py:33 | Whatever the matcher consumes is a sentence of the pattern: ESC with an Fe byte, or a CSI with parameters, intermediates and a final byte. |
| Sanitizer.EscapeLengthComplete | patches/shell_termux.py:33 | Every sentence of the pattern is matched in full, whatever text follows it. |
| Sanitizer.StripAnsi | patches/shell_termux.py:222 | No contract; the left-to-right `re.sub` scan. See the rows of `EscapeRemovedWhole`, `StripAnsiSubsequence` and `StripAnsiWithoutEsc`. |
| Sanitizer.ReplaceCrLf | patches/shell_termux.py:225 | No contract; `replace('\r\n', '\n')`. See the rows of `ReplaceCrLfSubsequence`, `ReplaceCrLfWithoutCr` and `CrPassesDropEveryCr`. |
| Sanitizer.DropCr | patches/shell_termux.py:225 | No contract; `replace('\r', '')`. See the rows of `DropCrSubsequence`, `DropCrWithoutCr` and `CrPassesDropEveryCr`. |
| Sanitizer.KeepVisible | patches/shell_termux.py:228-231 | No contract; the filter as a specification. See the rows of `FilterVisible`, `KeepVisibleAlphabet` and `KeepVisibleSubsequence`. |
| Sanitizer.Clean | patches/shell_termux.py:211-233 | No contract; the three passes composed. See the rows of `CleanOutput`, `CleanAlphabet`, `CleanSubsequence` and `CleanIdempotent`. |
| Sanitizer.FilterVisible | patches/shell_termux.py:227-233 | The filter loop's result is the specification filter `KeepVisible`: the input's printable characters, LF and TAB, in order. |
| Sanitizer.CleanOutput | patches/shell_termux.py:211-233 | `_clean_output` equals the three passes in order: escapes removed, CR LF to LF and every other CR deleted, then the filter. |
| Sanitizer.StripAnsiSubsequence | patches/shell_termux.py:222 | Removing the escapes only deletes characters. |
| Sanitizer.ReplaceCrLfSubsequence | patches/shell_termux.py:225 | Replacing CR LF by LF only deletes characters. |
| Sanitizer.DropCrSubsequence | patches/shell_termux.py:225 | Removing CR only deletes characters. |
| Sanitizer.KeepVisibleSubsequence | patches/shell_termux.py:228-231 | The filter only deletes characters. |
| Sanitizer.CleanSubsequence | patches/shell_termux.py:222-233 | A cleaned chunk is a subsequence of the raw chunk. |
| Sanitizer.KeepVisibleAlphabet | patches/shell_termux.py:228-231 | The filter's output holds only printable characters, LF and TAB. |
| Sanitizer.CleanAlphabet | patches/shell_termux.py:222-233 | A cleaned chunk contains no ESC, no CR and no DEL. Its only characters below space are LF and TAB. |
| Sanitizer.StripAnsiWithoutEsc | patches/shell_termux.py:222 | Text without ESC is left unchanged by the substitution. |
| Sanitizer.ReplaceCrLfWithoutCr | patches/shell_termux.py:225 | Text without CR is left unchanged by the CR LF replacement. |
| Sanitizer.DropCrWithoutCr | patches/shell_termux.py:225 | Text without CR is left unchanged by the CR removal. |
| Sanitizer.KeepVisibleOfVisible | patches/shell_termux.py:228-231 | Text made only of kept characters passes the filter unchanged. |
| Sanitizer.CleanFixesVisible | patches/shell_termux.py:211-233 | Text made only of printable characters, LF and TAB is left unchanged by cleaning. |
| Sanitizer.CleanIdempotent | patches/shell_termux.py:211-233 | Cleaning a cleaned chunk changes nothing. |
| Sanitizer.CrPassesDropEveryCr | patches/shell_termux.py:225 | The two replacements together delete every CR, exactly as deleting every CR alone would. |
| Sanitizer.EscapeRemovedWhole | patches/shell_termux.py:222 | A whole escape sequence at the front is removed and the scan resumes right after it. |
| Sanitizer.TwoCharEscapeRemoved | patches/shell_termux.py:33 | ESC followed by a byte in `@`..`Z` or backslash..`_` is removed as a two-character sequence. |
| Sanitizer.CsiRemoved | patches/shell_termux.py:33 | ESC `[`, parameter bytes, intermediate bytes and a final byte are removed together. |
| Sanitizer.ClearScreenThenOk | patches/shell_termux.py:222-233 | ESC `[2J` followed by `ok` cleans to exactly `ok`. |
| Sanitizer.CursorMoveThenOk | patches/shell_termux.py:222-233 | ESC `[10;5H` followed by `ok` cleans to exactly `ok`. |
| Sanitizer.LoneEscDropped | patches/shell_termux.py:222-233 | An ESC that starts no sequence survives the substitution. The filter then drops it, and nothing else is lost. |
| Sanitizer.SplitEscapeNotRemoved | patches/shell_termux.py:190-196 | Cleaning is per chunk: ESC `[2J` split after the ESC leaves `[2J` in the output, while the unsplit sequence cleans to nothing. |
| Runtime.IsTermux | patches/termux_runtime.py:18-25 | No contract; the Termux data directory exists. See the rows of `IsAndroid` and `Patched`. |
| Runtime.Join | patches/termux_runtime.py:62 | No contract; POSIX `os.path.join` of two parts, also used at lines 114 and 148. See the row of `JoinRelative`. |
| Runtime.Contains | patches/termux_runtime.py:150 | No contract; Python's substring test. See the rows of `PrependLibContains` and `PatchedLdLibraryPath`. |
| Runtime.Get | patches/termux_runtime.py:43 | No contract; `os.environ.get(key, default)`, also used at lines 52, 65 and 149. See the rows of `GetTermuxHome`, `GetTermuxPrefix` and `PatchedLdLibraryPath`. |
| Runtime.EndsWith | patches/shell_termux.py:149 | No contract; `str.endswith`. See the rows of `CommandLine`, `JoinRelative` and `TmpDirLocation`. |
| Runtime.JoinRelative | patches/termux_runtime.py:114 | `os.path.join` with a relative component keeps the base as a prefix and ends in one separator and the component. |
| Runtime.RStripSlash | patches/termux_runtime.py:116 | Stripping trailing slashes leaves a prefix that does not end in `/`, and only slashes were removed. |
| Runtime.IsAndroid | patches/termux_runtime.py:27-34 | Termux implies Android. Off Termux, Android holds exactly when `ANDROID_ROOT` is set. |
| Runtime.GetTermuxHome | patches/termux_runtime.py:36-43 | `HOME` when it is set, else `/data/data/com.termux/files/home`. |
| Runtime.GetTermuxPrefix | patches/termux_runtime.py:45-52 | `PREFIX` when it is set, else `/data/data/com.termux/files/usr`. |
| Runtime.SelectTool | patches/termux_runtime.py:54-104 | The Termux binary is chosen exactly when running on Termux and that binary exists. Otherwise the fallback is chosen. |
| Runtime.TermuxTool | patches/termux_runtime.py:62 | No contract; `os.path.join(get_termux_prefix(), 'bin', name)`, also at lines 75, 88 and 101. See the rows of `SelectTool` and `TermuxToolUnderPrefix`. |
| Runtime.GetShell | patches/termux_runtime.py:54-65 | `prefix/bin/bash` on Termux when it exists. In every other case, including Termux without that file, `SHELL`, or `/bin/bash` when `SHELL` is unset. |
| Runtime.GetPython | patches/termux_runtime.py:67-78 | `prefix/bin/python` on Termux when it exists. In every other case, including Termux without that file, the running interpreter. |
| Runtime.GetNode | patches/termux_runtime.py:80-91 | `prefix/bin/node` on Termux when it exists. In every other case, including Termux without that file, `node`. |
| Runtime.GetIPython | patches/termux_runtime.py:93-104 | `prefix/bin/ipython` on Termux when it exists. In every other case, including Termux without that file, `ipython`. |
| Runtime.TermuxToolUnderPrefix | patches/termux_runtime.py:62 | A Termux binary path lies under the prefix and ends in `/` and the binary's name. |
| Runtime.ExpandHome | patches/termux_runtime.py:116 | `os.path.expanduser('~')` is never empty. It is `HOME` when set, else the password database's home, in both cases with trailing slashes stripped and `/` when nothing else remains; with neither it is `~`. |
| Runtime.TmpBase | patches/termux_runtime.py:113-116 | No contract; the Termux home on Termux, else `expanduser('~')`. See the row of `TmpDirLocation`. |
| Runtime.TmpDir | patches/termux_runtime.py:106-119 | No contract; the path `ensure_tmp_dir` returns. See the rows of `TmpDirLocation`, `TmpDirUnderCache` and `PatchedKeepsLocations`. |
| Runtime.TmpDirLocation | patches/termux_runtime.py:106-119 | The temporary directory ends in `/agent-zero`. It lies under the Termux home on Termux and under the user's home elsewhere. |
| Runtime.TmpDirUnderCache | patches/termux_runtime.py:113-116 | The temporary directory ends in `/.cache/agent-zero` whenever its base is non-empty, and always off Termux. |
| Runtime.Defaults | patches/termux_runtime.py:132-155 | The `setdefault` values are defined on exactly the ten `setdefault` keys. |
| Runtime.DefaultsSplit | patches/termux_runtime.py:132-155 | The ten defaults are the temporary-directory, feature and locale groups together. |
| Runtime.LibPath | patches/termux_runtime.py:148 | No contract; `prefix/lib`. See the row of `LibPathNonEmpty`. |
| Runtime.PrependLib | patches/termux_runtime.py:151 | No contract; `lib:old`, or `lib` alone when the old value is empty. See the row of `PrependLibContains`. |
| Runtime.PatchWith | patches/termux_runtime.py:128-155 | No contract; the patch for a given temporary directory and library path. See the rows of `PatchWithLdLibraryPath`, `PatchWithIdempotent` and `StepsGivePatch`. |
| Runtime.Patched | patches/termux_runtime.py:121-126 | Off Termux the environment is left unchanged. |
| Runtime.PatchedSetsModeFlags | patches/termux_runtime.py:128-130 | On Termux, `TERMUX_MODE` becomes `true` and `DOCKERIZED` becomes `false`, whatever they held. |
| Runtime.PatchedFillsDefaults | patches/termux_runtime.py:132-145 | Each `setdefault` key ends up present. An existing value is kept; an absent one gets its default. This covers lines 153-155 too. |
| Runtime.PrependLibContains | patches/termux_runtime.py:151 | The new `LD_LIBRARY_PATH` contains the library path. |
| Runtime.LibPathNonEmpty | patches/termux_runtime.py:148 | `prefix/lib` is never empty. |
| Runtime.PatchWithLdLibraryPath | patches/termux_runtime.py:147-151 | For any non-empty library path: the value is left alone when it already contains the path, otherwise the path is prepended. It always contains the path afterwards. |
| Runtime.PatchedLdLibraryPath | patches/termux_runtime.py:147-151 | `LD_LIBRARY_PATH` is unchanged when `prefix/lib` already occurs in it. Otherwise it becomes `lib:old`, or exactly `lib` when the old value is absent or empty. It always contains `prefix/lib` afterwards. |
| Runtime.PatchedLeavesOthers | patches/termux_runtime.py:121-155 | Every variable outside the thirteen managed ones is present, absent and valued exactly as before. |
| Runtime.ReadKeysUnmanaged | patches/termux_runtime.py:121-155 | `HOME` and `PREFIX`, which the patch reads, are not among the keys it writes. |
| Runtime.PatchedKeepsLocations | patches/termux_runtime.py:121-155 | The home, the prefix, the temporary directory and the library path are the same after the patch. |
| Runtime.PatchWithIdempotent | patches/termux_runtime.py:121-155 | For a fixed temporary directory and library path, patching a patched environment changes nothing. |
| Runtime.PatchedIdempotent | patches/termux_runtime.py:121-155 | Running `patch_environment` twice gives the environment of running it once. |
| Runtime.StepsGivePatch | patches/termux_runtime.py:128-155 | The steps in the source's order (flags, temporary-directory and feature defaults, library path, locale defaults) give exactly `Patched`. |
| Runtime.ProcessEnvironment.constructor | patches/termux_runtime.py:121-155 | The object holds the given process environment, which `PatchEnvironment` then updates in place. |
| Runtime.ProcessEnvironment.SetDefault | patches/termux_runtime.py:134 | `setdefault` adds the entry only when the key is absent. |
| Runtime.ProcessEnvironment.SetModeFlags | patches/termux_runtime.py:128-130 | Both flags are overwritten. |
| Runtime.ProcessEnvironment.SetTmpDefaults | patches/termux_runtime.py:132-136 | The three temporary-directory keys are filled only where absent. |
| Runtime.ProcessEnvironment.SetFeatureDefaults | patches/termux_runtime.py:138-145 | The SSH and `DISABLE_*` keys are filled only where absent. |
| Runtime.ProcessEnvironment.FixLibraryPath | patches/termux_runtime.py:147-151 | `LD_LIBRARY_PATH` is left alone or the library path is prepended, from the values read at that point. |
| Runtime.ProcessEnvironment.SetLocaleDefaults | patches/termux_runtime.py:153-155 | `LANG` and `LC_ALL` are filled only where absent. |
| Runtime.ProcessEnvironment.PatchEnvironment | patches/termux_runtime.py:121-155 | The in-place patch leaves the environment equal to `Patched` of the old environment. |
| Session.GetEnv | patches/shell_termux.py:104-133 | No contract; the copy of the environment with the shell's settings forced. See the rows of `GetEnvOverrides`, `GetEnvIdempotent` and `GetEnvAgreesWithRuntime`. |
| Session.GetEnvOverrides | patches/shell_termux.py:104-133 | The shell's environment has the ten forced terminal, prompt, history, locale and mode values. Every other variable is passed through unchanged. |
| Session.GetEnvIdempotent | patches/shell_termux.py:104-133 | Preparing the shell's environment from an already prepared one changes nothing. |
| Session.GetEnvAgreesWithRuntime | patches/shell_termux.py:111-131 | The shell sees the same home as the session. Started from the patched process environment on Termux, it sees every patched variable it does not force itself, and its `LD_LIBRARY_PATH` contains the Termux library directory. |
| Session.CommandLine | patches/shell_termux.py:148-150 | The written line ends in a newline and extends the command by at most that newline. A command already ending in a newline is written unchanged. |
| Session.CommandLineIdempotent | patches/shell_termux.py:148-150 | Adding the newline twice is adding it once. |
| Session.Collected | patches/shell_termux.py:182-209 | No contract; the cleaned data up to the first failure. See the rows of `ReadOutput`, `CollectedVisible`, `CollectedStopsAtFailure`, `CollectedAppend` and `CollectedSkipsIdle`. |
| Session.CollectedVisible | patches/shell_termux.py:182-209 | Everything read holds only printable characters, LF and TAB. |
| Session.CollectedStopsAtFailure | patches/shell_termux.py:197-207 | Nothing observed after a read error other than EAGAIN, or after a failing `select`, is collected. |
| Session.CollectedAppend | patches/shell_termux.py:182-209 | Without a failure in between, two stretches of reading collect one after the other. |
| Session.CollectedSkipsIdle | patches/shell_termux.py:185-204 | A timed-out `select`, EAGAIN, an empty read or an empty chunk add nothing and do not stop the loop. |
| Session.CloseEffects | patches/shell_termux.py:240-269 | No contract; the calls `close` attempts. See the rows of `Close`, `CloseOrder`, `CloseSignalsOwnProcess` and `CloseSkipsExitForFdZero`. |
| Session.SpawnEffect | patches/shell_termux.py:85-93 | No contract; the `Popen([shell, '-i'], cwd=..., env=...)` call with the chosen shell and `_get_env()`. See the row of `Session.Session.Connect`. |
| Session.CloseOrder | patches/shell_termux.py:235-272 | With a shell and a non-zero descriptor, `close` writes `exit`, then sends SIGTERM, then SIGKILL, then closes the terminal. |
| Session.CloseSignalsOwnProcess | patches/shell_termux.py:249-260 | Every signal goes to the session's own process group, and SIGTERM always comes before SIGKILL. |
| Session.CloseSkipsExitForFdZero | patches/shell_termux.py:243-244 | With descriptor 0, no `exit` line is written, but the signals are sent and the descriptor is closed. |
| Session.Session.constructor | patches/shell_termux.py:35-49 | The working directory is the given one unless it is missing or empty; then it is the Termux home. The session starts disconnected with empty output. |
| Session.Session.IsConnected | patches/shell_termux.py:274-277 | Connected exactly when a shell process is held, and then its terminal is open. |
| Session.Session.ReadOutput | patches/shell_termux.py:161-209 | The partial output is the cleaned data up to the first failure, or empty without a terminal. The full output is the old one, or empty on reset, followed by the partial output. Nothing else changes. |
| Session.Session.Connect | patches/shell_termux.py:51-102 | When connected, nothing changes. A failing `openpty` changes nothing. A later failure leaves the terminal recorded but no process. On success the shell `[shell, -i]` is started in `cwd` with the prepared environment, the session is connected, and the warm-up output is discarded. |
| Session.Session.Close | patches/shell_termux.py:235-272 | The session ends disconnected with no process, no terminal and empty output. The calls made are exactly those of `CloseEffects`, so a second `close` makes none. |
| Session.Session.WriteLine | patches/shell_termux.py:145-159 | On a connected session the output is cleared and the line written. On failure the session is closed and connected again, and exactly one more write is made, whose failure escapes. |
| Session.Session.SendCommand | patches/shell_termux.py:135-159 | A disconnected session connects first, and a failed connect escapes with the output kept. Then the command line is written on the shell's terminal, with the single recovery of `WriteLine`. |

## Left out

- Opening the pseudo-terminal, the window-size `ioctl`, the `O_NONBLOCK` `fcntl` and `os.makedirs` are not modelled as calls. `subprocess.Popen` is recorded as the `Spawn` effect with its argument list, working directory and environment. Its binding of the standard streams to the slave descriptor and `preexec_fn=os.setsid` are not modelled; `Kill(pid, …)` assumes the shell leads its own process group, as `setsid` makes it. Whether these steps succeed is the `SpawnOutcome` given to `connect`. The calls of `close` (the `exit` write, `os.getpgid` with `os.killpg`, and closing the terminal) are recorded in `effects` as attempts, whatever their result, since `close` ignores every failure.
- Session.Session.Close: when `os.getpgid` raises, the source makes no `killpg` call, yet the model still records both signals as attempted.
- Session.Session.Connect: a failure of closing the slave descriptor after `Popen` succeeded is not modelled. In the source it leaves `process` set while `_connected` stays false, a state `Valid` rules out.
- Session.Session.SendCommand: a command that UTF-8 cannot encode (a lone surrogate) raises `UnicodeEncodeError`, which escapes without the retry. Dafny's `char` cannot hold such a character, so this path is not modelled.
- Timing is not modelled: the one-second deadline, the `select` timeout and every `asyncio.sleep`. The time-bounded read loop runs over a finite sequence of per-pass outcomes, standing for the passes that fit before the deadline.
- The `asyncio.Lock` is not modelled, nor the `__del__` finalizer that schedules `close`. They are about concurrency and finalization.
- UTF-8 decoding with `errors='replace'` is not modelled: chunks arrive already decoded.
- Sanitizer.IsPrintable: exact on ASCII only. Above ASCII, U+0080..U+009F count as non-printable and everything from U+00A0 up as printable, instead of Python's full Unicode table.
- Session.Session.Connect: a failing `os.makedirs` or `Popen` is one `SetupFailed` outcome. The slave descriptor left open on that path is not tracked.
- Runtime.TmpDir: the path is computed but the directory is not created. A failure of `os.makedirs` inside `ensure_tmp_dir` is not modelled.
- Runtime.ExpandHome: only the `HOME` and password-database cases of `os.path.expanduser('~')` are modelled. The platform's other fallbacks are not.
- `check_dependencies`, `get_termux_info`, `patch_for_termux` with its messages, and the import-time auto-patch are not part of this model. They are subprocess, `platform` and console calls around the modelled helpers.
- `get_session_class` is not part of this model. It only dispatches on a file-system check.
