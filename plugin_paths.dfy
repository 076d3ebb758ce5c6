/** Where the loader looks for plugins: the directory of the executable, with
    `plugins\` and the filter `*.asi` appended, built in one fixed-size
    `wchar_t` buffer that is then reused for each plugin's full path. */
module PluginPaths {
  import opened WideStrings

  /** `MAX_PATH`, the size passed to `GetModuleFileName`. */
  const MaxPath: nat := 260

  /** `PLUGINDIR`. */
  const PluginDir: WString := "plugins\\"

  /** `PLUGINFILTER`. */
  const PluginFilter: WString := "*.asi"

  /** `_countof(filename)`: `MAX_PATH + 1 + _countof(PLUGINDIR PLUGINFILTER)`,
      the last term counting the literal's terminating NUL. */
  const BufferLen: nat := MaxPath + 1 + |PluginDir| + |PluginFilter| + 1

  /** The executable's directory: its path up to and including the last
      backslash (empty when there is none). */
  function ExeDirectory(path: WString): (dir: WString)
    ensures |dir| <= |path| && dir == path[..|dir|]
    ensures forall k :: |dir| <= k < |path| ==> path[k] != '\\'
    ensures '\\' in path ==> |dir| > 0 && dir[|dir| - 1] == '\\'
    ensures '\\' !in path ==> dir == []
  {
    if path == [] then []
    else if path[|path| - 1] == '\\' then path
    else
      assert path == path[..|path| - 1] + [path[|path| - 1]];
      ExeDirectory(path[..|path| - 1])
  }

  /** The end of the last backslash is the only place the directory can end. */
  lemma ExeDirectoryAt(path: WString, n: nat)
    requires 0 < n <= |path| && path[n - 1] == '\\'
    requires forall k :: n <= k < |path| ==> path[k] != '\\'
    ensures ExeDirectory(path) == path[..n]
  {
    assert path[n - 1] in path;
  }

  /** The fully qualified plugin directory, `<exe dir>plugins\`. */
  function PluginDirectory(exePath: WString): WString {
    ExeDirectory(exePath) + PluginDir
  }

  /** The pattern handed to `FindFirstFile`, `<exe dir>plugins\*.asi`. */
  function SearchPattern(exePath: WString): WString {
    PluginDirectory(exePath) + PluginFilter
  }

  /** What `GetModuleFileName` leaves in the buffer, then the backwards scan
      that cuts it after the last backslash. Returns the directory's length. */
  method TrimToDirectory(filename: array<char>, exePath: WString) returns (dirLen: nat)
    requires filename.Length == BufferLen
    requires 0 < |exePath| < MaxPath
    modifies filename
    ensures dirLen == |ExeDirectory(exePath)| <= |exePath|
    ensures filename[..dirLen] == ExeDirectory(exePath)
  {
    // GetModuleFileName
    forall k | 0 <= k < |exePath| {
      filename[k] := exePath[k];
    }
    var n := |exePath|;
    filename[n] := Nul;
    assert filename[..n] == exePath;
    // find where the directory ends, scanning backwards from the last character
    var i: int := n - 1;
    var found := false;
    while i >= 0
      invariant -1 <= i < n
      invariant filename[..n] == exePath
      invariant forall k :: i < k < n ==> exePath[k] != '\\'
      invariant !found
    {
      if filename[i] == '\\' {
        i := i + 1;
        filename[i] := Nul;
        found := true;
        break;
      }
      i := i - 1;
    }
    if found {
      assert 0 < i <= n && exePath[i - 1] == '\\';
      assert filename[..i] == exePath[..i];
      ExeDirectoryAt(exePath, i);
      dirLen := i;
    } else {
      // no backslash at all: the directory part is empty
      assert forall k :: 0 <= k < n ==> exePath[k] != '\\';
      dirLen := 0;
    }
  }

  // ---------------------------------------------------------------------------
  // The backwards scan as written, with its unsigned counter
  // ---------------------------------------------------------------------------

  /** `len` is a `DWORD`: unsigned, 32 bits wide. */
  const DwordModulus: nat := 0x1_0000_0000

  /** `len--` on a `DWORD`: subtraction modulo 2^32, as C defines it for
      unsigned operands. */
  function DwordDecrement(len: nat): (r: nat)
    requires len < DwordModulus
    ensures r == (len - 1) % DwordModulus
  {
    if len == 0 then DwordModulus - 1 else len - 1
  }

  /** Where `for (--len; len >= 0; len--)` stops. */
  datatype ScanOutcome =
    | DirectoryEnds(at: nat)    // a backslash was found; the name starts here
    | ReadsOutside(index: nat)  // the next `filename[len]` lies outside the buffer

  /** The scan as written, reading `filename[len]` first. The test
      `len >= 0` always holds for an unsigned counter, so only a backslash or
      an index that has left the buffer ends it. */
  function ScanAsWritten(filename: seq<char>, len: nat): (r: ScanOutcome)
    requires len < |filename| < DwordModulus
    ensures r.DirectoryEnds? ==> 0 < r.at <= len + 1 && filename[r.at - 1] == '\\'
    ensures r.ReadsOutside? ==> r.index >= |filename|
    decreases len
  {
    if filename[len] == '\\' then DirectoryEnds(len + 1)
    else
      var next := DwordDecrement(len);
      if next >= |filename| then ReadsOutside(next)
      else ScanAsWritten(filename, next)
  }

  /** When the path holds a backslash, the scan as written finds the end of
      the directory, as `ExeDirectory` does. */
  lemma {:induction false} ScanAsWrittenFindsDirectory(exePath: WString, filename: seq<char>, len: nat)
    requires len < |exePath| && |filename| < DwordModulus
    requires |exePath| < |filename| && filename[..|exePath|] == exePath
    requires '\\' in exePath[..len + 1]
    requires forall k :: len < k < |exePath| ==> exePath[k] != '\\'
    ensures ScanAsWritten(filename, len) == DirectoryEnds(|ExeDirectory(exePath)|)
    decreases len
  {
    assert filename[len] == exePath[len];
    if exePath[len] == '\\' {
      ExeDirectoryAt(exePath, len + 1);
    } else {
      assert len > 0;
      assert exePath[..len + 1] == exePath[..len] + [exePath[len]];
      ScanAsWrittenFindsDirectory(exePath, filename, len - 1);
    }
  }

  /** When it does not, the counter wraps from 0 to `0xFFFFFFFF` and the scan
      reads far outside the buffer. */
  lemma {:induction false} ScanAsWrittenWithoutBackslash(filename: seq<char>, len: nat)
    requires len < |filename| < DwordModulus
    requires forall k :: 0 <= k <= len ==> filename[k] != '\\'
    ensures ScanAsWritten(filename, len) == ReadsOutside(DwordModulus - 1)
    decreases len
  {
    if len > 0 {
      ScanAsWrittenWithoutBackslash(filename, len - 1);
    }
  }

  /** For an executable path `S4_Main.exe`, the scan as written leaves the
      buffer, whereas `TrimToDirectory` yields the empty directory. */
  lemma ScanAsWrittenExample(filename: seq<char>)
    requires |filename| == BufferLen && filename[..11] == "S4_Main.exe"
    ensures ScanAsWritten(filename, 10) == ReadsOutside(0xFFFF_FFFF)
    ensures ExeDirectory("S4_Main.exe") == []
  {
    forall k | 0 <= k <= 10
      ensures filename[k] != '\\'
    {
      assert filename[k] == "S4_Main.exe"[k];
    }
    ScanAsWrittenWithoutBackslash(filename, 10);
  }

  /** The buffer work of `AsiLoad` up to the directory search: the trimmed
      executable path followed by the `memcpy` of `PLUGINDIR PLUGINFILTER`
      (with its NUL). The returned index is where a plugin file name is to be
      written. */
  method BuildSearchPattern(filename: array<char>, exePath: WString) returns (len: nat)
    requires filename.Length == BufferLen
    requires 0 < |exePath| < MaxPath && Nul !in exePath
    modifies filename
    ensures len == |PluginDirectory(exePath)|
    ensures filename[..len] == PluginDirectory(exePath)
    ensures len + |PluginFilter| < BufferLen
    ensures CString(filename[..]) == SearchPattern(exePath)
  {
    var i := TrimToDirectory(filename, exePath);
    WriteTerminated(filename, i, PluginDir + PluginFilter);
    len := i + |PluginDir|;
    ghost var pattern := filename[..len + |PluginFilter|];
    assert pattern == SearchPattern(exePath);
    assert filename[..len] == pattern[..len];
    assert Nul !in pattern by {
      assert Nul !in PluginDir + PluginFilter;
      assert Nul !in ExeDirectory(exePath);
    }
    CStringOfTerminated(filename[..], len + |PluginFilter|);
  }

  /** `wcscpy_s(pluginname, remainingLen, plugin)`: the plugin's name and a NUL
      are written at the end of the plugin directory. */
  method CopyPluginName(filename: array<char>, len: nat, remainingLen: nat, name: WString)
    requires len + remainingLen == filename.Length
    requires |name| < remainingLen
    modifies filename
    ensures filename[..len + |name|] == old(filename[..len]) + name
    ensures filename[len + |name|] == Nul
  {
    WriteTerminated(filename, len, name);
  }

  /** `wcscpy_s` of a plugin name after the plugin directory, then the buffer
      read back as the C string `LoadLibrary` receives. */
  method QualifyPluginName(filename: array<char>, len: nat, remainingLen: nat, name: WString)
    returns (path: WString)
    requires len + remainingLen == filename.Length
    requires |name| < remainingLen
    requires Nul !in filename[..len] && Nul !in name
    modifies filename
    ensures path == old(filename[..len]) + name
    ensures filename[..len] == old(filename[..len])
  {
    CopyPluginName(filename, len, remainingLen, name);
    assert filename[..len] == filename[..len + |name|][..len];
    CStringOfTerminated(filename[..], len + |name|);
    path := CString(filename[..]);
  }

  /** Copies `text` and a terminating NUL into the buffer at index `at`. */
  method WriteTerminated(filename: array<char>, at: nat, text: WString)
    requires at + |text| + 1 <= filename.Length
    modifies filename
    ensures filename[..at + |text|] == old(filename[..at]) + text
    ensures filename[at + |text|] == Nul
  {
    var terminated := text + [Nul];
    forall k | 0 <= k < |terminated| {
      filename[at + k] := terminated[k];
    }
    assert filename[at..at + |terminated|] == terminated;
    assert filename[..at + |text|] == filename[..at] + filename[at..at + |terminated|][..|text|];
  }
}
