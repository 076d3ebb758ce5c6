/** Which directory entries become plugins: the files (not directories) whose
    name matches `*.asi`, collected in a `std::set<std::wstring>`, which
    removes duplicates and fixes the load order. */
module PluginDiscovery {
  import opened WideStrings

  /** One result of `FindFirstFile` / `FindNextFile`: `cFileName` and whether
      `dwFileAttributes` has `FILE_ATTRIBUTE_DIRECTORY`. */
  datatype DirEntry = DirEntry(name: WString, isDirectory: bool)

  /** The extension the filter `*.asi` requires. */
  const PluginExtension: WString := ".asi"

  function ToLowerAscii(c: char): char {
    if 'A' <= c <= 'Z' then (c as int + 32) as char else c
  }

  function LowerAscii(s: WString): (r: WString)
    ensures |r| == |s|
  {
    seq(|s|, i requires 0 <= i < |s| => ToLowerAscii(s[i]))
  }

  /** `PathMatchSpec(name, L"*.asi")`: the name ends in `.asi`, compared
      without regard to (ASCII) case. Unlike the enumeration's DOS-compatible
      matching, `x.asi2` does not match. */
  predicate MatchesPluginFilter(name: WString) {
    |name| >= |PluginExtension| &&
    LowerAscii(name[|name| - |PluginExtension|..]) == PluginExtension
  }

  /** An entry the enumeration loop keeps: not a directory, and a match. */
  predicate Qualifies(e: DirEntry) {
    !e.isDirectory && MatchesPluginFilter(e.name)
  }

  ghost function QualifyingNames(entries: seq<DirEntry>): set<WString> {
    set e | e in entries && Qualifies(e) :: e.name
  }

  /** The contents of the `plugins` set after the do/while loop has seen
      `entries`, in its iteration order. */
  function Discover(entries: seq<DirEntry>): (plugins: seq<WString>)
    ensures StrictlySorted(plugins)
    ensures forall n :: n in plugins <==> n in QualifyingNames(entries)
  {
    if entries == [] then []
    else
      var earlier := entries[..|entries| - 1];
      var e := entries[|entries| - 1];
      assert entries == earlier + [e];
      assert QualifyingNames(entries) ==
        QualifyingNames(earlier) + (if Qualifies(e) then {e.name} else {});
      if Qualifies(e) then Insert(Discover(earlier), e.name) else Discover(earlier)
  }

  /** The load order does not depend on the order (or repetition) in which the
      file system enumerates the directory. */
  lemma DiscoverIgnoresEnumerationOrder(a: seq<DirEntry>, b: seq<DirEntry>)
    requires forall e :: e in a <==> e in b
    ensures Discover(a) == Discover(b)
  {
    assert QualifyingNames(a) == QualifyingNames(b);
    SortedUnique(Discover(a), Discover(b));
  }

  /** Every discovered plugin is a file, not a directory, whose name matches
      the filter exactly. */
  lemma DiscoveredAreMatchingFiles(entries: seq<DirEntry>, n: WString)
    requires n in Discover(entries)
    ensures MatchesPluginFilter(n)
    ensures exists e :: e in entries && e.name == n && !e.isDirectory
  {
    assert n in QualifyingNames(entries);
  }

  /** Near misses that the enumeration may return are rejected; the match is
      case-insensitive. */
  lemma FilterExamples()
    ensures MatchesPluginFilter("A.asi") && MatchesPluginFilter("b.ASI")
    ensures !MatchesPluginFilter("x.asi2") && !MatchesPluginFilter("c.txt")
    ensures !MatchesPluginFilter("asi")
  {
    assert LowerAscii("A.asi"[1..]) == ".asi";
    assert LowerAscii("b.ASI"[1..]) == ".asi";
    assert LowerAscii("x.asi2"[2..])[0] == 'a';
    assert LowerAscii("c.txt"[1..])[1] == 't';
  }

  /** A directory holding `b.asi`, `A.asi`, `c.txt` and a subdirectory `d.asi`
      yields `A.asi` then `b.asi`. */
  lemma DiscoverExample()
    ensures Discover([DirEntry("b.asi", false), DirEntry("A.asi", false),
                      DirEntry("c.txt", false), DirEntry("d.asi", true)])
         == ["A.asi", "b.asi"]
  {
    var entries := [DirEntry("b.asi", false), DirEntry("A.asi", false),
                    DirEntry("c.txt", false), DirEntry("d.asi", true)];
    FilterExamples();
    assert !MatchesPluginFilter("c.txt");
    assert QualifyingNames(entries) == {"A.asi", "b.asi"};
    assert Less("A.asi", "b.asi");
    SortedUnique(Discover(entries), ["A.asi", "b.asi"]);
  }

  /** The order is ordinal, not case-insensitive: `B.asi` comes before
      `a.asi` because `'B'` is below `'a'`. */
  lemma DiscoverOrdinalExample()
    ensures Discover([DirEntry("a.asi", false), DirEntry("B.asi", false)])
         == ["B.asi", "a.asi"]
  {
    var entries := [DirEntry("a.asi", false), DirEntry("B.asi", false)];
    assert LowerAscii("a.asi"[1..]) == ".asi";
    assert LowerAscii("B.asi"[1..]) == ".asi";
    assert QualifyingNames(entries) == {"a.asi", "B.asi"};
    assert Less("B.asi", "a.asi");
    SortedUnique(Discover(entries), ["B.asi", "a.asi"]);
  }
}
