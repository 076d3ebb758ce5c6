# Settlers 4 ASI loader, modelled in Dafny

The loader is a DLL that the game maps at start-up. On `DLL_PROCESS_ATTACH`
it does three things:

- It patches one call in the game's main function so that the call leads to
  `WaitForPlugins`.
- It takes a reference to its own module, so that it is not unloaded while
  the loader thread runs.
- It runs `AsiLoad`, on a new thread when it can, otherwise inline.

`AsiLoad` works in one fixed-size `wchar_t` buffer. It trims the
executable's path back to its last backslash, appends `plugins\*.asi` and
enumerates that pattern. It keeps the files (not directories) whose name
matches `*.asi` exactly, in a `std::set<std::wstring>`. It then loads each
one in set order and appends every `InitAsi` export to the global
`initialise_vectors`. A plugin that cannot be loaded is reported and
skipped.

`WaitForPlugins` joins the loader thread if there is one and reports a
failed or missing join. It then calls every collected `InitAsi` in order.

The model has four modules:

- `WideStrings` (`wide_strings.dfy`):
  - `std::wstring` ordering, as `Less`, proved to be the lexicographic order
    by character and a strict total order;
  - `std::set::emplace`, as `Insert` on strictly sorted sequences;
  - reading a NUL-terminated buffer (`CString`).
- `PluginPaths` (`plugin_paths.dfy`): the constants, and the buffer
  operations on an `array<char>` of `_countof(filename)` characters:
  - the backwards scan;
  - the `memcpy` of `PLUGINDIR PLUGINFILTER`;
  - `wcscpy_s`.

  It also models the scan as written, with its unsigned counter (see
  Findings).
- `PluginDiscovery` (`plugin_discovery.dfy`): the directory entries, the
  `PathMatchSpec` filter, and `Discover`, the set a listing yields.
- `AsiLoader` (`asi_loader.dfy`):
  - the environment as data (`Host`);
  - specification functions for what the load loop produces;
  - the class `Loader`, holding the DLL's globals and methods for `AsiLoad`,
    `WaitForPlugins` and `DllMain`;
  - `ProcessStartup`, which runs `DllMain` and then the patched call on a
    fresh `Loader`.

The operating system is replaced by inputs:

- `GetModuleHandle(NULL)` becomes `Host.exeModuleFound`.
- `GetModuleFileName` becomes `Host.exePath`.
- `FindFirstFile`/`FindNextFile` become `Host.listings`. This map is keyed
  by the search pattern that `AsiLoad` actually reads from its buffer; a
  missing key stands for `INVALID_HANDLE_VALUE`.
- `LoadLibrary`/`GetProcAddress` become `Host.modules`, keyed by the full
  path read back from the buffer; a missing key is a failed load.
- The success of the patch, of `GetModuleHandleExW`, of `CreateThread` and
  the status `WaitForSingleObject` returns are method parameters.

A message box is recorded as a `Diagnostic` naming what it reports.
`ERROR_BOX` records a `Fatal` diagnostic and sets `exited`; nothing runs
after it.

The comment at `dllmain.cpp` line 93 says the plugins are iterated "alphabetically". The set is a `std::set<std::wstring>` with its default `std::less`, which compares `wchar_t` values one by one. So the order is ordinal and case matters: `B.asi` comes before `a.asi` (`DiscoverOrdinalExample`). The model compares Dafny `char`s, which are Unicode scalar values; for names within the Basic Multilingual Plane this is the same order (see Left out for names beyond it).

## Model

| member | source | states |
|---|---|---|
| WideStrings.LessIsLexicographic | S4_ASI_Loader/dllmain.cpp:77 | `Less` (the `std::wstring` comparison the set uses) holds exactly when `a` is a proper prefix of `b` or the first differing character of `a` is smaller |
| WideStrings.LessIrreflexive | S4_ASI_Loader/dllmain.cpp:77 | no key is before itself |
| WideStrings.LessTransitive | S4_ASI_Loader/dllmain.cpp:77 | the key order is transitive |
| WideStrings.LessTotal | S4_ASI_Loader/dllmain.cpp:77 | any two different keys are ordered one way or the other |
| WideStrings.Insert | S4_ASI_Loader/dllmain.cpp:89 | `emplace` keeps the set strictly ascending, adds exactly the new name, and leaves the set unchanged when the name is already present |
| WideStrings.SortedUnique | S4_ASI_Loader/dllmain.cpp:77-94 | two strictly ascending sequences with the same elements are equal: a set's iteration order is fixed by its contents |
| WideStrings.CString | S4_ASI_Loader/dllmain.cpp:80-96 | what `FindFirstFile`/`LoadLibrary` read from the buffer is its prefix before the first NUL, and holds no NUL |
| PluginPaths.ExeDirectory | S4_ASI_Loader/dllmain.cpp:63-71 | the directory is the prefix of the path ending at its last backslash; no backslash follows it; it is empty when the path has no backslash |
| PluginPaths.ExeDirectoryAt | S4_ASI_Loader/dllmain.cpp:66-71 | a backslash at `n-1` with none after it makes `path[..n]` the directory |
| PluginPaths.TrimToDirectory | S4_ASI_Loader/dllmain.cpp:60-71 | after `GetModuleFileName` and the backwards scan, the buffer starts with the executable's directory and the returned index is its length (the corrected scan, see Findings) |
| PluginPaths.BuildSearchPattern | S4_ASI_Loader/dllmain.cpp:59-75 | the buffer reads as `<exe dir>plugins\*.asi`; the returned index is the length of `<exe dir>plugins\`, so a name written there follows `plugins\`; the filter still fits the buffer (with the corrected scan for a path without a backslash) |
| PluginPaths.CopyPluginName | S4_ASI_Loader/dllmain.cpp:95 | `wcscpy_s` writes the name and a NUL after the plugin directory, which is kept |
| PluginPaths.QualifyPluginName | S4_ASI_Loader/dllmain.cpp:95-96 | the string `LoadLibrary` receives is the plugin directory followed by the plugin name, and the directory part of the buffer is preserved for the next plugin |
| PluginPaths.DwordDecrement | S4_ASI_Loader/dllmain.cpp:66 | `len--` on a `DWORD` is subtraction modulo 2^32, the C rule for unsigned arithmetic |
| PluginPaths.ScanAsWritten | S4_ASI_Loader/dllmain.cpp:66-71 | the scan as written ends either at a backslash, giving the index after it, or at an index outside the buffer |
| PluginPaths.ScanAsWrittenFindsDirectory | S4_ASI_Loader/dllmain.cpp:66-71 | when the path holds a backslash, the scan as written ends where `ExeDirectory` ends |
| PluginPaths.ScanAsWrittenWithoutBackslash | S4_ASI_Loader/dllmain.cpp:66-71 | when no backslash precedes the start, the counter wraps and the scan reads at index `0xFFFFFFFF` |
| PluginPaths.ScanAsWrittenExample | S4_ASI_Loader/dllmain.cpp:60-71 | for `S4_Main.exe` the scan as written leaves the buffer, while the directory is empty |
| PluginDiscovery.Discover | S4_ASI_Loader/dllmain.cpp:77-90 | the set built from a listing is strictly ascending and holds exactly the names of the non-directory entries that match `*.asi` |
| PluginDiscovery.DiscoverIgnoresEnumerationOrder | S4_ASI_Loader/dllmain.cpp:80-94 | listings with the same entries, in any order and with any repetition, give the same load order |
| PluginDiscovery.DiscoveredAreMatchingFiles | S4_ASI_Loader/dllmain.cpp:83-89 | every plugin in the set matches `*.asi` and comes from an entry that is not a directory |
| PluginDiscovery.FilterExamples | S4_ASI_Loader/dllmain.cpp:85-88 | `A.asi` and `b.ASI` match; `x.asi2`, which `FindFirstFile` also returns, `c.txt` and `asi` do not |
| PluginDiscovery.DiscoverExample | S4_ASI_Loader/dllmain.cpp:77-94 | `b.asi`, `A.asi`, `c.txt` and a directory `d.asi` give the load order `A.asi`, `b.asi` |
| PluginDiscovery.DiscoverOrdinalExample | S4_ASI_Loader/dllmain.cpp:77-94 | `a.asi` and `B.asi` load as `B.asi`, `a.asi`: the order compares characters, so case matters |
| AsiLoader.LoadAttempts | S4_ASI_Loader/dllmain.cpp:94-96 | the loop makes one load attempt per plugin |
| AsiLoader.LoadAttemptsQualifyPlugins | S4_ASI_Loader/dllmain.cpp:94-96 | attempt `i` is the plugin directory followed by the `i`-th plugin of the set |
| AsiLoader.CallbacksAppend | S4_ASI_Loader/dllmain.cpp:94-107 | callbacks, failures and attempts of a concatenation of plugin runs are the concatenations of each run's |
| AsiLoader.PluginContribution | S4_ASI_Loader/dllmain.cpp:94-107 | whatever the other plugins do, one plugin contributes one attempt, a callback exactly when it loaded and exports `InitAsi`, and a diagnostic exactly when it failed to load |
| AsiLoader.MissingDirectoryLoadsNothing | S4_ASI_Loader/dllmain.cpp:80-110 | with an invalid search handle no load is attempted, no callback is collected and nothing is reported |
| AsiLoader.LoadFailureIsNonFatal | S4_ASI_Loader/dllmain.cpp:96-101 | a failed load adds one diagnostic naming its path and no callback, and every later plugin is still attempted |
| AsiLoader.NoInitAsiIsSilent | S4_ASI_Loader/dllmain.cpp:102-105 | a module that loads without `InitAsi` adds neither a callback nor a diagnostic |
| AsiLoader.CallbacksAreInitExporters | S4_ASI_Loader/dllmain.cpp:102-105 | a callback is collected exactly for the plugins that loaded and export `InitAsi` |
| AsiLoader.CallbacksInLoadOrder | S4_ASI_Loader/dllmain.cpp:94-105 | the callbacks come in the set's ascending order |
| AsiLoader.LoadFailuresAreFailedLoads | S4_ASI_Loader/dllmain.cpp:96-101 | a diagnostic is reported exactly for the plugins that failed to load, naming each one's full path; there are no more diagnostics than plugins |
| AsiLoader.LoadFailuresOnePerPlugin | S4_ASI_Loader/dllmain.cpp:94-101 | iterating the set, no two diagnostics are equal: with `LoadFailuresAreFailedLoads`, each plugin that fails to load is reported exactly once |
| AsiLoader.CollectPlugins | S4_ASI_Loader/dllmain.cpp:82-90 | the do/while skips directories and filter misses and inserts the rest; the result is `Discover` of the listing |
| AsiLoader.Loader.constructor | S4_ASI_Loader/dllmain.cpp:50 | the globals start empty: no callbacks (and, as at line 114, no thread handle) |
| AsiLoader.Loader.AsiLoad | S4_ASI_Loader/dllmain.cpp:53-111 | the two `ERROR_BOX` cases end the process; otherwise the attempts, callbacks and diagnostics appended are those of the set the listing yields; without a plugin directory nothing is loaded or collected (with the corrected scan for a path without a backslash) |
| AsiLoader.Loader.LoadPlugin | S4_ASI_Loader/dllmain.cpp:95-106 | one turn of the loop: attempts `<dir><name>`, reports a failure, appends an `InitAsi` export, and keeps the directory in the buffer |
| AsiLoader.Loader.LoadPlugins | S4_ASI_Loader/dllmain.cpp:94-107 | the loop appends exactly `LoadAttempts`, `Callbacks` and `LoadFailures` of the set to the globals |
| AsiLoader.Loader.WaitForPlugins | S4_ASI_Loader/dllmain.cpp:117-137 | with a thread handle: one wait, a diagnostic exactly when the status is not `WAIT_OBJECT_0`, and the handle cleared; without one: one diagnostic and no wait; in both cases every callback is invoked once in order and 1 is returned |
| AsiLoader.Loader.DllMain | S4_ASI_Loader/dllmain.cpp:139-173 | other reasons change nothing; on attach the patch result is recorded and a failure reported without stopping the load; the load runs once; the handle is set only when `GetModuleHandleExW` succeeded, to whether `CreateThread` did; the extra module reference is released only on the `CreateThread`-failure path (with the corrected scan for a path without a backslash) |
| AsiLoader.Loader.PatchMainCall | S4_ASI_Loader/dllmain.cpp:153-159 | a failed patch is reported and otherwise ignored |
| AsiLoader.Loader.StartLoader | S4_ASI_Loader/dllmain.cpp:161-170 | takes a module reference and runs `AsiLoad` on the thread, or inline and releases the reference when no thread starts, or inline when no reference was taken |
| AsiLoader.ProcessStartup | S4_ASI_Loader/dllmain.cpp:117-173 | from attach to the patched call: the callbacks run are those of the sorted exporters, and run only when the patch took and `AsiLoad` did not abort; a missing loader thread (inline fallback) is reported by the barrier, a failed wait is reported, and the load is attempted once in any case (with the corrected scan for a path without a backslash) |

## Left out

- The Win32 calls themselves (`GetModuleFileName`, `FindFirstFile`/`FindNextFile`/`FindClose`, `LoadLibrary`, `GetProcAddress`, `MessageBox`, `GetLastError`) are inputs or recorded events; message texts and error codes are not modelled.
- `PathMatchSpec` is modelled only for the pattern `*.asi`, as a suffix test with ASCII case folding; full wildcard matching and non-ASCII case folding are not modelled.
- `hlib::CallPatch` rewrites machine code in the game (`hlib.h` is not part of this model); only whether it succeeded is modelled.
- Concurrency: the loader thread is run to completion where `CreateThread` starts it. Nothing reads its results before `WaitForPlugins` joins it, so the order of effects is the same. The race when `WaitForSingleObject` fails, which lets the callbacks run while the thread may still be loading, is not modelled.
- `GetModuleHandleExW`/`FreeLibrary` are modelled as a count of module references (`moduleRefs`) only; `FreeLibraryAndExitThread`, mentioned in a comment but not called, is not modelled.
- `ExitProcess` is modelled as the `exited` flag; nothing after it is modelled.
- `loader_init_thread_running` (line 115) is never read or written after its declaration and is not modelled.
- A module path of `MAX_PATH` or more characters, which `GetModuleFileName` truncates, is excluded by `WellFormed`, as are NULs inside the path.
- `wcscpy_s` overflowing `remainingLen` (which would invoke the invalid-parameter handler) is excluded by `WellFormed`: every plugin name must fit.
- The `InitAsi` functions' own effects are not modelled; the model records which were called, in order.
- Plugin names with characters beyond the Basic Multilingual Plane: `std::wstring` holds UTF-16 code units and compares the surrogate of such a character (0xD800-0xDBFF), which sorts below U+E000-U+FFFF. The model compares whole code points, so for names mixing such characters (for example `😀.asi` and `Ａ.asi`) the model's load order is the reverse of the source's.
- PluginPaths.BuildSearchPattern: for an executable path without a backslash, states the corrected scan's result (search `plugins\*.asi`); the source reads and writes outside the buffer there (see Findings).
- AsiLoader.Loader.AsiLoad: for an executable path without a backslash, states what the corrected scan gives, not the source's out-of-bounds access (see Findings).
- AsiLoader.Loader.DllMain: for an executable path without a backslash, its load effects are those of the corrected scan (see Findings).
- AsiLoader.ProcessStartup: for an executable path without a backslash, its load effects are those of the corrected scan (see Findings).

## Findings

| source | as written | input that shows it | evidently intended | confidence | as-written member | corrected member |
|---|---|---|---|---|---|---|
| S4_ASI_Loader/dllmain.cpp:66 | `len` is a `DWORD`, so `len >= 0` always holds; when no backslash is found, `len--` wraps from 0 to `0xFFFFFFFF` and `filename[len]` is read outside the buffer (on the 32-bit build, just below it, walking down the stack); line 73 then writes at that index | an executable path without a backslash, such as `S4_Main.exe` | the scan stops at the start of the path and the directory part is empty | not executed; Windows normally reports a fully qualified module path, so the input is unlikely | PluginPaths.ScanAsWrittenExample | PluginPaths.TrimToDirectory |
