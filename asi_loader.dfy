/** The loader DLL itself: the global state it keeps (`initialise_vectors`,
    `loader_init_thread_handle`) and its three entry points, `AsiLoad` (find
    and load the plugins), `WaitForPlugins` (the barrier the patched host call
    leads to) and `DllMain` (patch, then start the loader thread or load
    inline). The operating system is replaced by the inputs it would supply. */
module AsiLoader {
  import opened WideStrings
  import opened PluginPaths
  import opened PluginDiscovery

  // ---------------------------------------------------------------------------
  // The environment
  // ---------------------------------------------------------------------------

  /** What `LoadLibrary` and then `GetProcAddress(hMod, "InitAsi")` give for one
      path. */
  datatype LoadOutcome = LoadFailed | Loaded(exportsInitAsi: bool)

  /** An `InitAsiCall` pointer: the `InitAsi` export of the plugin file with
      this name. */
  datatype InitAsiCall = InitAsiOf(plugin: WString)

  /** The two `ERROR_BOX` conditions of `AsiLoad`; each ends the process. */
  datatype FatalError = NoExeModuleHandle | NoExeFileName

  /** A message box, recorded by what it reports. */
  datatype Diagnostic =
    | Fatal(error: FatalError)
    | PluginLoadFailed(path: WString)
    | PatchFailed
    | WaitFailed(status: nat)
    | LoaderThreadMissing

  /** `ul_reason_for_call`. */
  datatype Reason = ProcessAttach | ProcessDetach | ThreadAttach | ThreadDetach

  /** The operating system as `AsiLoad` sees it:
      - `exeModuleFound`: `GetModuleHandle(NULL)` is not NULL;
      - `exePath`: what `GetModuleFileName` writes, empty when it returns 0;
      - `listings`: the entries `FindFirstFile`/`FindNextFile` enumerate for a
        search pattern; a pattern without one gets `INVALID_HANDLE_VALUE`;
      - `modules`: the outcome of loading each full path; a path without one
        cannot be loaded. */
  datatype Host = Host(
    exeModuleFound: bool,
    exePath: WString,
    listings: map<WString, seq<DirEntry>>,
    modules: map<WString, LoadOutcome>)

  /** `WAIT_OBJECT_0`. */
  const WaitObject0: nat := 0

  function LoadLibrary(modules: map<WString, LoadOutcome>, path: WString): LoadOutcome {
    if path in modules then modules[path] else LoadFailed
  }

  /** `AsiLoad` reaches an `ERROR_BOX`. */
  predicate Aborts(host: Host) {
    !host.exeModuleFound || host.exePath == []
  }

  /** The `plugins` set `AsiLoad` iterates, in its order: empty when the search
      handle is invalid. */
  function FoundPlugins(host: Host): seq<WString> {
    var pattern := SearchPattern(host.exePath);
    if Aborts(host) || pattern !in host.listings then []
    else Discover(host.listings[pattern])
  }

  /** What Windows guarantees of these inputs and what the fixed-size buffer
      needs: a module path shorter than `MAX_PATH` and without NULs; plugin
      names without NULs that fit into the `remainingLen` characters
      `wcscpy_s` may write. */
  ghost predicate WellFormed(host: Host) {
    && |host.exePath| < MaxPath
    && Nul !in host.exePath
    && forall n :: n in FoundPlugins(host) ==>
         Nul !in n && |PluginDirectory(host.exePath)| + |n| < BufferLen
  }

  // ---------------------------------------------------------------------------
  // What the load loop produces
  // ---------------------------------------------------------------------------

  /** The paths handed to `LoadLibrary` while iterating `plugins` from the
      directory `dir`. */
  function LoadAttempts(plugins: seq<WString>, dir: WString): (paths: seq<WString>)
    ensures |paths| == |plugins|
  {
    if plugins == [] then []
    else LoadAttempts(plugins[..|plugins| - 1], dir) + [dir + plugins[|plugins| - 1]]
  }

  /** Each plugin is attempted once, in set order, under its fully qualified
      name. */
  lemma {:induction false} LoadAttemptsQualifyPlugins(plugins: seq<WString>, dir: WString)
    ensures forall i :: 0 <= i < |plugins| ==> LoadAttempts(plugins, dir)[i] == dir + plugins[i]
    decreases |plugins|
  {
    if plugins != [] {
      LoadAttemptsQualifyPlugins(plugins[..|plugins| - 1], dir);
    }
  }

  /** The entries the load loop appends to `initialise_vectors`. */
  function Callbacks(plugins: seq<WString>, dir: WString, modules: map<WString, LoadOutcome>): seq<InitAsiCall> {
    if plugins == [] then []
    else
      var p := plugins[|plugins| - 1];
      Callbacks(plugins[..|plugins| - 1], dir, modules)
        + (if LoadLibrary(modules, dir + p) == Loaded(true) then [InitAsiOf(p)] else [])
  }

  /** The message boxes the load loop shows. */
  function LoadFailures(plugins: seq<WString>, dir: WString, modules: map<WString, LoadOutcome>): seq<Diagnostic> {
    if plugins == [] then []
    else
      var p := plugins[|plugins| - 1];
      LoadFailures(plugins[..|plugins| - 1], dir, modules)
        + (if LoadLibrary(modules, dir + p) == LoadFailed then [PluginLoadFailed(dir + p)] else [])
  }

  function AsiLoadAttempts(host: Host): seq<WString> {
    LoadAttempts(FoundPlugins(host), PluginDirectory(host.exePath))
  }

  function AsiLoadCallbacks(host: Host): seq<InitAsiCall> {
    Callbacks(FoundPlugins(host), PluginDirectory(host.exePath), host.modules)
  }

  function AsiLoadDiagnostics(host: Host): seq<Diagnostic> {
    if !host.exeModuleFound then [Fatal(NoExeModuleHandle)]
    else if host.exePath == [] then [Fatal(NoExeFileName)]
    else LoadFailures(FoundPlugins(host), PluginDirectory(host.exePath), host.modules)
  }

  lemma AppendAssociates<T>(a: seq<T>, b: seq<T>, c: seq<T>)
    ensures a + (b + c) == (a + b) + c
  {
  }

  lemma {:induction false} CallbacksAppend(a: seq<WString>, b: seq<WString>, dir: WString, modules: map<WString, LoadOutcome>)
    ensures Callbacks(a + b, dir, modules) == Callbacks(a, dir, modules) + Callbacks(b, dir, modules)
    ensures LoadFailures(a + b, dir, modules) == LoadFailures(a, dir, modules) + LoadFailures(b, dir, modules)
    ensures LoadAttempts(a + b, dir) == LoadAttempts(a, dir) + LoadAttempts(b, dir)
    decreases |b|
  {
    if b == [] {
      assert a + b == a;
    } else {
      var b', p := b[..|b| - 1], b[|b| - 1];
      assert (a + b)[..|a + b| - 1] == a + b' && (a + b)[|a + b| - 1] == p;
      CallbacksAppend(a, b', dir, modules);
      var outcome := LoadLibrary(modules, dir + p);
      AppendAssociates(Callbacks(a, dir, modules), Callbacks(b', dir, modules),
        if outcome == Loaded(true) then [InitAsiOf(p)] else []);
      AppendAssociates(LoadFailures(a, dir, modules), LoadFailures(b', dir, modules),
        if outcome == LoadFailed then [PluginLoadFailed(dir + p)] else []);
      AppendAssociates(LoadAttempts(a, dir), LoadAttempts(b', dir), [dir + p]);
    }
  }

  /** What one plugin adds, whatever happened to the others: one load attempt;
      one callback exactly when it loaded and exports `InitAsi`; one
      diagnostic exactly when it failed to load. */
  lemma PluginContribution(plugins: seq<WString>, dir: WString, modules: map<WString, LoadOutcome>, k: nat)
    requires k < |plugins|
    ensures var p, before, after := plugins[k], plugins[..k], plugins[k + 1..];
      var outcome := LoadLibrary(modules, dir + p);
      && LoadAttempts(plugins, dir) == LoadAttempts(before, dir) + [dir + p] + LoadAttempts(after, dir)
      && Callbacks(plugins, dir, modules) == Callbacks(before, dir, modules)
           + (if outcome == Loaded(true) then [InitAsiOf(p)] else []) + Callbacks(after, dir, modules)
      && LoadFailures(plugins, dir, modules) == LoadFailures(before, dir, modules)
           + (if outcome == LoadFailed then [PluginLoadFailed(dir + p)] else []) + LoadFailures(after, dir, modules)
  {
    var p, before, after := plugins[k], plugins[..k], plugins[k + 1..];
    assert plugins == (before + [p]) + after;
    CallbacksAppend(before + [p], after, dir, modules);
    CallbacksAppend(before, [p], dir, modules);
    assert [p][..0] == [];
  }

  /** One more turn of the load loop. */
  lemma LoadStep(plugins: seq<WString>, j: nat, dir: WString, modules: map<WString, LoadOutcome>)
    requires j < |plugins|
    ensures var p, outcome := plugins[j], LoadLibrary(modules, dir + plugins[j]);
      && LoadAttempts(plugins[..j + 1], dir) == LoadAttempts(plugins[..j], dir) + [dir + p]
      && Callbacks(plugins[..j + 1], dir, modules) == Callbacks(plugins[..j], dir, modules)
           + (if outcome == Loaded(true) then [InitAsiOf(p)] else [])
      && LoadFailures(plugins[..j + 1], dir, modules) == LoadFailures(plugins[..j], dir, modules)
           + (if outcome == LoadFailed then [PluginLoadFailed(dir + p)] else [])
  {
    assert plugins[..j + 1][..j] == plugins[..j];
  }

  /** Without a plugin directory (`FindFirstFile` returns
      `INVALID_HANDLE_VALUE`) nothing is loaded, no callback is collected and
      nothing is reported. */
  lemma MissingDirectoryLoadsNothing(host: Host)
    requires !Aborts(host) && SearchPattern(host.exePath) !in host.listings
    ensures AsiLoadAttempts(host) == [] && AsiLoadCallbacks(host) == []
    ensures AsiLoadDiagnostics(host) == []
  {
  }

  /** A plugin that fails to load costs one diagnostic and no callback, and
      the plugins after it are attempted just the same. */
  lemma LoadFailureIsNonFatal(plugins: seq<WString>, dir: WString, modules: map<WString, LoadOutcome>, k: nat)
    requires k < |plugins| && LoadLibrary(modules, dir + plugins[k]) == LoadFailed
    ensures LoadFailures(plugins, dir, modules) == LoadFailures(plugins[..k], dir, modules)
      + [PluginLoadFailed(dir + plugins[k])] + LoadFailures(plugins[k + 1..], dir, modules)
    ensures Callbacks(plugins, dir, modules) == Callbacks(plugins[..k], dir, modules) + Callbacks(plugins[k + 1..], dir, modules)
    ensures LoadAttempts(plugins, dir)[k + 1..] == LoadAttempts(plugins[k + 1..], dir)
  {
    PluginContribution(plugins, dir, modules, k);
    var upTo := LoadAttempts(plugins[..k], dir) + [dir + plugins[k]];
    assert |upTo| == k + 1;
    assert (upTo + LoadAttempts(plugins[k + 1..], dir))[k + 1..] == LoadAttempts(plugins[k + 1..], dir);
  }

  /** A plugin that loads but exports no `InitAsi` adds neither a callback nor
      a diagnostic. */
  lemma NoInitAsiIsSilent(plugins: seq<WString>, dir: WString, modules: map<WString, LoadOutcome>, k: nat)
    requires k < |plugins| && LoadLibrary(modules, dir + plugins[k]) == Loaded(false)
    ensures LoadFailures(plugins, dir, modules) == LoadFailures(plugins[..k], dir, modules) + LoadFailures(plugins[k + 1..], dir, modules)
    ensures Callbacks(plugins, dir, modules) == Callbacks(plugins[..k], dir, modules) + Callbacks(plugins[k + 1..], dir, modules)
  {
    PluginContribution(plugins, dir, modules, k);
  }

  /** The callbacks are exactly those of the plugins that loaded and export
      `InitAsi`. */
  lemma {:induction false} CallbacksAreInitExporters(plugins: seq<WString>, dir: WString, modules: map<WString, LoadOutcome>)
    ensures forall c :: c in Callbacks(plugins, dir, modules) <==>
      c.plugin in plugins && LoadLibrary(modules, dir + c.plugin) == Loaded(true)
    decreases |plugins|
  {
    if plugins != [] {
      var before, p := plugins[..|plugins| - 1], plugins[|plugins| - 1];
      CallbacksAreInitExporters(before, dir, modules);
      assert plugins == before + [p];
    }
  }

  /** Callbacks ordered by their plugins' names, as the `plugins` set is. */
  predicate InPluginOrder(callbacks: seq<InitAsiCall>) {
    forall i, j :: 0 <= i < j < |callbacks| ==> Less(callbacks[i].plugin, callbacks[j].plugin)
  }

  /** ... and they come in the order of the set they were loaded from. */
  lemma {:induction false} CallbacksInLoadOrder(plugins: seq<WString>, dir: WString, modules: map<WString, LoadOutcome>)
    requires StrictlySorted(plugins)
    ensures InPluginOrder(Callbacks(plugins, dir, modules))
    decreases |plugins|
  {
    if plugins != [] {
      var before, p := plugins[..|plugins| - 1], plugins[|plugins| - 1];
      assert StrictlySorted(before);
      CallbacksInLoadOrder(before, dir, modules);
      CallbacksAreInitExporters(before, dir, modules);
      var earlier := Callbacks(before, dir, modules);
      forall i | 0 <= i < |earlier|
        ensures Less(earlier[i].plugin, p)
      {
        assert earlier[i] in earlier;
        var k :| 0 <= k < |before| && before[k] == earlier[i].plugin;
        assert plugins[k] == before[k];
      }
      var callbacks := Callbacks(plugins, dir, modules);
      forall i, j | 0 <= i < j < |callbacks|
        ensures Less(callbacks[i].plugin, callbacks[j].plugin)
      {
        assert callbacks[i] == earlier[i];
        if j < |earlier| {
          assert callbacks[j] == earlier[j];
        } else {
          assert callbacks[j].plugin == p;
        }
      }
    }
  }

  /** The failures reported are exactly the plugins that could not be loaded,
      one message each. */
  lemma {:induction false} LoadFailuresAreFailedLoads(plugins: seq<WString>, dir: WString, modules: map<WString, LoadOutcome>)
    ensures forall d :: d in LoadFailures(plugins, dir, modules) <==>
      exists p :: p in plugins && d == PluginLoadFailed(dir + p) && LoadLibrary(modules, dir + p) == LoadFailed
    ensures |LoadFailures(plugins, dir, modules)| <= |plugins|
    decreases |plugins|
  {
    if plugins != [] {
      var before, p := plugins[..|plugins| - 1], plugins[|plugins| - 1];
      LoadFailuresAreFailedLoads(before, dir, modules);
      assert plugins == before + [p];
    }
  }

  /** Iterating a set, no failure is reported twice: together with
      `LoadFailuresAreFailedLoads`, each plugin that fails to load is reported
      exactly once. */
  lemma {:induction false} LoadFailuresOnePerPlugin(plugins: seq<WString>, dir: WString, modules: map<WString, LoadOutcome>)
    requires StrictlySorted(plugins)
    ensures var failures := LoadFailures(plugins, dir, modules);
      forall i, j :: 0 <= i < j < |failures| ==> failures[i] != failures[j]
    decreases |plugins|
  {
    if plugins != [] {
      var before, p := plugins[..|plugins| - 1], plugins[|plugins| - 1];
      assert StrictlySorted(before);
      LoadFailuresOnePerPlugin(before, dir, modules);
      LoadFailuresAreFailedLoads(before, dir, modules);
      var earlier := LoadFailures(before, dir, modules);
      forall i | 0 <= i < |earlier|
        ensures earlier[i] != PluginLoadFailed(dir + p)
      {
        assert earlier[i] in earlier;
        var q :| q in before && earlier[i] == PluginLoadFailed(dir + q);
        var k :| 0 <= k < |before| && before[k] == q;
        assert Less(plugins[k], plugins[|plugins| - 1]);
        LessIrreflexive(q);
        assert (dir + q)[|dir|..] == q && (dir + p)[|dir|..] == p;
      }
      var failures := LoadFailures(plugins, dir, modules);
      forall i, j | 0 <= i < j < |failures|
        ensures failures[i] != failures[j]
      {
        assert failures[i] == earlier[i];
        if j < |earlier| {
          assert failures[j] == earlier[j];
        } else {
          assert failures[j] == PluginLoadFailed(dir + p);
        }
      }
    }
  }

  /** The do/while over the directory entries in `AsiLoad`: directories and
      names the exact filter rejects are skipped, the rest go into the
      `plugins` set. */
  method CollectPlugins(entries: seq<DirEntry>) returns (plugins: seq<WString>)
    ensures StrictlySorted(plugins)
    ensures forall n :: n in plugins <==> n in QualifyingNames(entries)
    ensures plugins == Discover(entries)
  {
    plugins := [];
    var i := 0;
    while i < |entries|
      invariant 0 <= i <= |entries|
      invariant plugins == Discover(entries[..i])
    {
      var ffd := entries[i];
      i := i + 1;
      assert entries[..i][..i - 1] == entries[..i - 1];
      if ffd.isDirectory {
        continue;
      }
      if !MatchesPluginFilter(ffd.name) {
        continue;
      }
      plugins := Insert(plugins, ffd.name);
    }
    assert entries[..|entries|] == entries;
  }

  // ---------------------------------------------------------------------------
  // The global state and the entry points
  // ---------------------------------------------------------------------------

  class Loader {
    /** `initialise_vectors`. */
    var initialiseVectors: seq<InitAsiCall>
    /** `loader_init_thread_handle != nullptr`. */
    var threadHandle: bool
    /** The message boxes shown so far, in order. */
    var diagnostics: seq<Diagnostic>
    /** The paths handed to `LoadLibrary` so far, in order. */
    var loadAttempts: seq<WString>
    /** The calls of `WaitForSingleObject` on the loader thread. */
    var waits: nat
    /** The `InitAsi` functions called so far, in order. */
    var invoked: seq<InitAsiCall>
    /** The host's call at `S4_Main + 0x5C489` now leads to `WaitForPlugins`. */
    var patched: bool
    /** References to this DLL taken by `GetModuleHandleExW` and not released. */
    var moduleRefs: nat
    /** `ExitProcess` has been called. */
    var exited: bool

    /** The globals as the DLL is mapped. */
    constructor ()
      ensures initialiseVectors == [] && !threadHandle && diagnostics == [] && loadAttempts == []
      ensures waits == 0 && invoked == [] && !patched && moduleRefs == 0 && !exited
    {
      initialiseVectors, threadHandle, diagnostics, loadAttempts := [], false, [], [];
      waits, invoked, patched, moduleRefs, exited := 0, [], false, 0, false;
    }

    /** `AsiLoad`: find the plugins next to the executable, load them in set
        order and collect their `InitAsi` exports. */
    method AsiLoad(host: Host)
      requires !exited && WellFormed(host)
      modifies this`diagnostics, this`exited, this`loadAttempts, this`initialiseVectors
      ensures exited == Aborts(host)
      ensures diagnostics == old(diagnostics) + AsiLoadDiagnostics(host)
      ensures loadAttempts == old(loadAttempts) + AsiLoadAttempts(host)
      ensures initialiseVectors == old(initialiseVectors) + AsiLoadCallbacks(host)
      ensures SearchPattern(host.exePath) !in host.listings ==>
        initialiseVectors == old(initialiseVectors) && loadAttempts == old(loadAttempts)
    {
      if !host.exeModuleFound {
        diagnostics := diagnostics + [Fatal(NoExeModuleHandle)];
        exited := true;
        return;
      }
      var filename := new char[BufferLen];
      if |host.exePath| == 0 {
        diagnostics := diagnostics + [Fatal(NoExeFileName)];
        exited := true;
        return;
      }
      var len := BuildSearchPattern(filename, host.exePath);
      var remainingLen := BufferLen - len;
      ghost var dir := PluginDirectory(host.exePath);
      var pattern := CString(filename[..]);
      if pattern in host.listings {
        // FindFirstFile succeeded
        var plugins := CollectPlugins(host.listings[pattern]);
        assert Nul !in dir by {
          assert Nul !in ExeDirectory(host.exePath);
          assert Nul !in PluginDir;
        }
        LoadPlugins(filename, len, remainingLen, plugins, dir, host.modules);
      }
    }

    /** One turn of the load loop: the plugin's full path is built in
        `filename` and handed to `LoadLibrary`; a failure is reported, an
        `InitAsi` export is appended to `initialise_vectors`. */
    method LoadPlugin(filename: array<char>, len: nat, remainingLen: nat, plugin: WString,
                      ghost dir: WString, modules: map<WString, LoadOutcome>)
      requires filename.Length == BufferLen && len + remainingLen == BufferLen
      requires filename[..len] == dir && Nul !in dir
      requires Nul !in plugin && len + |plugin| < BufferLen
      modifies this`initialiseVectors, this`diagnostics, this`loadAttempts, filename
      ensures filename[..len] == dir
      ensures loadAttempts == old(loadAttempts) + [dir + plugin]
      ensures initialiseVectors == old(initialiseVectors)
        + (if LoadLibrary(modules, dir + plugin) == Loaded(true) then [InitAsiOf(plugin)] else [])
      ensures diagnostics == old(diagnostics)
        + (if LoadLibrary(modules, dir + plugin) == LoadFailed then [PluginLoadFailed(dir + plugin)] else [])
    {
      var path := QualifyPluginName(filename, len, remainingLen, plugin);
      loadAttempts := loadAttempts + [path];
      var outcome := LoadLibrary(modules, path);
      if outcome.LoadFailed? {
        diagnostics := diagnostics + [PluginLoadFailed(path)];
      } else if outcome.exportsInitAsi {
        initialiseVectors := initialiseVectors + [InitAsiOf(plugin)];
      }
    }

    /** The loop over the sorted plugin set in `AsiLoad`: each plugin's name is
        written after the plugin directory in `filename`, the full path is
        loaded once, a failure is reported and skipped, and an `InitAsi`
        export is appended to `initialise_vectors`. */
    method LoadPlugins(filename: array<char>, len: nat, remainingLen: nat, plugins: seq<WString>,
                       ghost dir: WString, modules: map<WString, LoadOutcome>)
      requires filename.Length == BufferLen && len + remainingLen == BufferLen
      requires filename[..len] == dir && Nul !in dir
      requires forall n :: n in plugins ==> Nul !in n && len + |n| < BufferLen
      modifies this`initialiseVectors, this`diagnostics, this`loadAttempts, filename
      ensures initialiseVectors == old(initialiseVectors) + Callbacks(plugins, dir, modules)
      ensures diagnostics == old(diagnostics) + LoadFailures(plugins, dir, modules)
      ensures loadAttempts == old(loadAttempts) + LoadAttempts(plugins, dir)
    {
      var j := 0;
      while j < |plugins|
        invariant 0 <= j <= |plugins|
        invariant filename[..len] == dir
        invariant initialiseVectors == old(initialiseVectors) + Callbacks(plugins[..j], dir, modules)
        invariant diagnostics == old(diagnostics) + LoadFailures(plugins[..j], dir, modules)
        invariant loadAttempts == old(loadAttempts) + LoadAttempts(plugins[..j], dir)
      {
        var plugin := plugins[j];
        assert plugin in plugins;
        LoadPlugin(filename, len, remainingLen, plugin, dir, modules);
        LoadStep(plugins, j, dir, modules);
        ghost var outcome := LoadLibrary(modules, dir + plugin);
        AppendAssociates(old(initialiseVectors), Callbacks(plugins[..j], dir, modules),
          if outcome == Loaded(true) then [InitAsiOf(plugin)] else []);
        AppendAssociates(old(diagnostics), LoadFailures(plugins[..j], dir, modules),
          if outcome == LoadFailed then [PluginLoadFailed(dir + plugin)] else []);
        AppendAssociates(old(loadAttempts), LoadAttempts(plugins[..j], dir), [dir + plugin]);
        j := j + 1;
      }
      assert plugins[..|plugins|] == plugins;
    }

    /** `WaitForPlugins`, reached through the patched host call: join the
        loader thread if there is one, then call every collected `InitAsi` in
        order. */
    method WaitForPlugins(status: nat) returns (r: int)
      requires !exited
      modifies this
      ensures r == 1
      ensures !threadHandle
      ensures old(threadHandle) ==>
        (waits == old(waits) + 1 &&
         diagnostics == old(diagnostics) + (if status == WaitObject0 then [] else [WaitFailed(status)]))
      ensures !old(threadHandle) ==>
        (waits == old(waits) && diagnostics == old(diagnostics) + [LoaderThreadMissing])
      ensures invoked == old(invoked) + initialiseVectors
      ensures initialiseVectors == old(initialiseVectors) && loadAttempts == old(loadAttempts)
      ensures patched == old(patched) && moduleRefs == old(moduleRefs) && exited == old(exited)
    {
      if threadHandle {
        // WaitForSingleObject(loader_init_thread_handle, INFINITE) returned status
        waits := waits + 1;
        if status != WaitObject0 {
          diagnostics := diagnostics + [WaitFailed(status)];
        }
        threadHandle := false;
      } else {
        diagnostics := diagnostics + [LoaderThreadMissing];
      }
      var i := 0;
      while i < |initialiseVectors|
        invariant 0 <= i <= |initialiseVectors|
        invariant invoked == old(invoked) + initialiseVectors[..i]
        invariant initialiseVectors == old(initialiseVectors) && loadAttempts == old(loadAttempts)
        invariant !threadHandle && waits == old(waits) + (if old(threadHandle) then 1 else 0)
        invariant diagnostics == old(diagnostics) +
          (if !old(threadHandle) then [LoaderThreadMissing]
           else if status == WaitObject0 then [] else [WaitFailed(status)])
        invariant patched == old(patched) && moduleRefs == old(moduleRefs) && exited == old(exited)
      {
        invoked := invoked + [initialiseVectors[i]];
        i := i + 1;
      }
      assert initialiseVectors[..i] == initialiseVectors;
      r := 1;
    }

    /** `DllMain`: on process attach, patch the host's call, then run
        `AsiLoad` on a new thread, or inline when no thread can be started.
        Other reasons change nothing. */
    method DllMain(reason: Reason, patchSucceeds: bool, moduleHandleExSucceeds: bool,
                   createThreadSucceeds: bool, host: Host) returns (r: bool)
      requires !exited && WellFormed(host)
      modifies this`patched, this`moduleRefs, this`threadHandle
      modifies this`diagnostics, this`exited, this`loadAttempts, this`initialiseVectors
      ensures r
      ensures reason != ProcessAttach ==> unchanged(this)
      ensures reason == ProcessAttach ==>
        && patched == patchSucceeds
        && exited == Aborts(host)
        && diagnostics == old(diagnostics) + (if patchSucceeds then [] else [PatchFailed])
                          + AsiLoadDiagnostics(host)
        && loadAttempts == old(loadAttempts) + AsiLoadAttempts(host)
        && initialiseVectors == old(initialiseVectors) + AsiLoadCallbacks(host)
        && threadHandle == (if moduleHandleExSucceeds then createThreadSucceeds else old(threadHandle))
        && moduleRefs == old(moduleRefs)
             + (if moduleHandleExSucceeds && (createThreadSucceeds || Aborts(host)) then 1 else 0)
    {
      r := true;
      if reason != ProcessAttach {
        return;
      }
      PatchMainCall(patchSucceeds);
      StartLoader(moduleHandleExSucceeds, createThreadSucceeds, host);
    }

    /** `hlib::CallPatch(S4_Main + 0x5C489, &WaitForPlugins).patch()`: a
        failure is reported and otherwise ignored. */
    method PatchMainCall(patchSucceeds: bool)
      modifies this`patched, this`diagnostics
      ensures patched == patchSucceeds
      ensures diagnostics == old(diagnostics) + (if patchSucceeds then [] else [PatchFailed])
    {
      patched := patchSucceeds;
      if !patchSucceeds {
        diagnostics := diagnostics + [PatchFailed];
      }
    }

    /** The second half of `DllMain`: take a module reference to this DLL and
        run `AsiLoad` on a new thread; without a thread, run it inline and
        release the reference; without the reference, run it inline. The loader thread is run to completion where
        it is started: nothing reads its results before `WaitForPlugins` has
        joined it. */
    method StartLoader(moduleHandleExSucceeds: bool, createThreadSucceeds: bool, host: Host)
      requires !exited && WellFormed(host)
      modifies this`moduleRefs, this`threadHandle
      modifies this`diagnostics, this`exited, this`loadAttempts, this`initialiseVectors
      ensures exited == Aborts(host)
      ensures diagnostics == old(diagnostics) + AsiLoadDiagnostics(host)
      ensures loadAttempts == old(loadAttempts) + AsiLoadAttempts(host)
      ensures initialiseVectors == old(initialiseVectors) + AsiLoadCallbacks(host)
      ensures threadHandle == (if moduleHandleExSucceeds then createThreadSucceeds else old(threadHandle))
      ensures moduleRefs == old(moduleRefs)
        + (if moduleHandleExSucceeds && (createThreadSucceeds || Aborts(host)) then 1 else 0)
    {
      if moduleHandleExSucceeds {
        moduleRefs := moduleRefs + 1;
        threadHandle := createThreadSucceeds;
        if createThreadSucceeds {
          // the loader thread
          AsiLoad(host);
        } else {
          AsiLoad(host);
          if exited {
            // ExitProcess does not return
            return;
          }
          // FreeLibrary(mod)
          moduleRefs := moduleRefs - 1;
        }
      } else {
        AsiLoad(host);
      }
    }
  }

  /** One process start as the loader takes part in it: the host maps the DLL
      (`DllMain` with `DLL_PROCESS_ATTACH`) and later, if the patch took and
      the process still runs, reaches the patched call, which runs
      `WaitForPlugins`. Returns the `InitAsi` calls made, the message boxes
      shown and the paths loaded. */
  method ProcessStartup(host: Host, patchSucceeds: bool, moduleHandleExSucceeds: bool,
                        createThreadSucceeds: bool, waitStatus: nat)
    returns (invoked: seq<InitAsiCall>, diagnostics: seq<Diagnostic>, attempted: seq<WString>)
    requires WellFormed(host)
    ensures attempted == AsiLoadAttempts(host)
    ensures invoked == if patchSucceeds && !Aborts(host) then AsiLoadCallbacks(host) else []
    ensures diagnostics ==
      (if patchSucceeds then [] else [PatchFailed]) + AsiLoadDiagnostics(host)
      + (if !patchSucceeds || Aborts(host) then []
         else if moduleHandleExSucceeds && createThreadSucceeds then
           (if waitStatus == WaitObject0 then [] else [WaitFailed(waitStatus)])
         else [LoaderThreadMissing])
  {
    var loader := new Loader();
    var attached := loader.DllMain(ProcessAttach, patchSucceeds, moduleHandleExSucceeds,
                                   createThreadSucceeds, host);
    ghost var attachDiagnostics := (if patchSucceeds then [] else [PatchFailed]) + AsiLoadDiagnostics(host);
    assert loader.diagnostics == attachDiagnostics;
    assert loader.invoked == [] && loader.initialiseVectors == AsiLoadCallbacks(host);
    assert loader.threadHandle == (moduleHandleExSucceeds && createThreadSucceeds);
    if loader.patched && !loader.exited {
      var result := loader.WaitForPlugins(waitStatus);
    }
    invoked, diagnostics, attempted := loader.invoked, loader.diagnostics, loader.loadAttempts;
  }
}
