/** Wide strings as the loader handles them: `std::wstring` values ordered the
    way `std::less<std::wstring>` orders them (ordinally, character by
    character, so case matters; a Dafny `char` is a Unicode scalar value, so
    this is the `wchar_t` order for names within the Basic Multilingual
    Plane), the ordered unique-key container `std::set` built
    on that order, and NUL-terminated `wchar_t` buffers read as C strings. */
module WideStrings {

  type WString = seq<char>

  /** The terminating `L'\0'` of a C string. */
  const Nul: char := '\0'

  // ---------------------------------------------------------------------------
  // Ordinal order
  // ---------------------------------------------------------------------------

  /** `a < b` for `std::wstring`: the first differing character decides, and a
      proper prefix comes before the longer string. */
  predicate Less(a: WString, b: WString)
    decreases |a|
  {
    if b == [] then false
    else if a == [] then true
    else if a[0] != b[0] then a[0] < b[0]
    else Less(a[1..], b[1..])
  }

  /** The textbook definition of lexicographic order, independent of `Less`. */
  ghost predicate LexicographicallyBefore(a: WString, b: WString) {
    || (|a| < |b| && a == b[..|a|])
    || exists k :: 0 <= k < |a| && k < |b| && a[..k] == b[..k] && a[k] < b[k]
  }

  lemma {:induction false} LessIsLexicographic(a: WString, b: WString)
    ensures Less(a, b) <==> LexicographicallyBefore(a, b)
    decreases |a|
  {
    if b == [] {
    } else if a == [] {
      assert a == b[..|a|];
    } else if a[0] != b[0] {
      if a[0] < b[0] {
        assert a[..0] == b[..0];
      }
    } else {
      var a', b' := a[1..], b[1..];
      LessIsLexicographic(a', b');
      // prefix case
      if |a| < |b| && a == b[..|a|] {
        assert a' == b'[..|a'|];
      }
      if |a'| < |b'| && a' == b'[..|a'|] {
        assert a == [a[0]] + a' && b[..|a|] == [b[0]] + b'[..|a'|];
      }
      // first-difference case
      if k :| 0 <= k < |a| && k < |b| && a[..k] == b[..k] && a[k] < b[k] {
        assert k > 0;
        assert a[..k][1..] == a'[..k - 1] && b[..k][1..] == b'[..k - 1];
        assert a'[k - 1] < b'[k - 1];
      }
      if k :| 0 <= k < |a'| && k < |b'| && a'[..k] == b'[..k] && a'[k] < b'[k] {
        assert a[..k + 1] == [a[0]] + a'[..k] && b[..k + 1] == [b[0]] + b'[..k];
        assert a[k + 1] < b[k + 1];
      }
    }
  }

  lemma {:induction false} LessIrreflexive(a: WString)
    ensures !Less(a, a)
    decreases |a|
  {
    if a != [] {
      LessIrreflexive(a[1..]);
    }
  }

  lemma {:induction false} LessTransitive(a: WString, b: WString, c: WString)
    requires Less(a, b) && Less(b, c)
    ensures Less(a, c)
    decreases |a|
  {
    if a != [] && a[0] == b[0] && b[0] == c[0] {
      LessTransitive(a[1..], b[1..], c[1..]);
    }
  }

  lemma {:induction false} LessTotal(a: WString, b: WString)
    ensures a == b || Less(a, b) || Less(b, a)
    decreases |a|
  {
    if a != [] && b != [] && a[0] == b[0] {
      LessTotal(a[1..], b[1..]);
      assert a == [a[0]] + a[1..] && b == [b[0]] + b[1..];
    }
  }

  lemma LessAsymmetric(a: WString, b: WString)
    ensures !(Less(a, b) && Less(b, a))
  {
    if Less(a, b) && Less(b, a) {
      LessTransitive(a, b, a);
      LessIrreflexive(a);
    }
  }

  // ---------------------------------------------------------------------------
  // std::set<std::wstring>
  // ---------------------------------------------------------------------------

  /** The iteration order of a `std::set<std::wstring>`: strictly ascending,
      hence free of duplicates. */
  predicate StrictlySorted(s: seq<WString>) {
    forall i, j :: 0 <= i < j < |s| ==> Less(s[i], s[j])
  }

  lemma SortedPrepend(x: WString, s: seq<WString>)
    requires StrictlySorted(s)
    requires s != [] ==> Less(x, s[0])
    ensures StrictlySorted([x] + s)
  {
    forall j | 0 < j < |s|
      ensures Less(x, s[j])
    {
      LessTransitive(x, s[0], s[j]);
    }
  }

  /** `set.emplace(x)`: adds `x` in its place unless an equal key is present. */
  function Insert(s: seq<WString>, x: WString): (r: seq<WString>)
    requires StrictlySorted(s)
    ensures StrictlySorted(r)
    ensures forall y :: y in r <==> y in s || y == x
    ensures x in s ==> r == s
  {
    if s == [] then [x]
    else if x == s[0] then s
    else if Less(x, s[0]) then
      LessAsymmetric(x, s[0]);
      SortedPrepend(x, s);
      [x] + s
    else
      assert StrictlySorted(s[1..]);
      var rest := Insert(s[1..], x);
      LessTotal(x, s[0]);
      assert rest != [] ==> rest[0] in rest;
      SortedPrepend(s[0], rest);
      assert s == [s[0]] + s[1..];
      [s[0]] + rest
  }

  /** The elements of a strictly sorted sequence fix the sequence: a
      `std::set` has one iteration order, whatever order the keys went in. */
  lemma {:induction false} SortedUnique(a: seq<WString>, b: seq<WString>)
    requires StrictlySorted(a) && StrictlySorted(b)
    requires forall y :: y in a <==> y in b
    ensures a == b
    decreases |a|
  {
    assert b != [] ==> b[0] in a;
    if a != [] {
      assert a[0] in b;
      assert b != [];
      assert b[0] in a;
      LessAsymmetric(a[0], b[0]);
      assert a[0] == b[0];
      LessIrreflexive(a[0]);
      assert StrictlySorted(a[1..]) && StrictlySorted(b[1..]);
      forall y
        ensures y in a[1..] <==> y in b[1..]
      {
        if y in a[1..] {
          assert y in b;
          assert y != b[0];
        }
        if y in b[1..] {
          assert y in a;
          assert y != a[0];
        }
      }
      SortedUnique(a[1..], b[1..]);
      assert a == [a[0]] + a[1..] && b == [b[0]] + b[1..];
    }
  }

  // ---------------------------------------------------------------------------
  // C strings
  // ---------------------------------------------------------------------------

  /** The string a `wchar_t` buffer holds: everything before its first NUL. */
  function CString(buf: seq<char>): (s: WString)
    ensures Nul !in s
    ensures |s| <= |buf| && s == buf[..|s|]
    ensures |s| < |buf| ==> buf[|s|] == Nul
  {
    if buf == [] then []
    else if buf[0] == Nul then []
    else [buf[0]] + CString(buf[1..])
  }

  /** A buffer holding `buf[..n]` followed by a NUL reads as exactly `buf[..n]`. */
  lemma CStringOfTerminated(buf: seq<char>, n: nat)
    requires n < |buf| && buf[n] == Nul && Nul !in buf[..n]
    ensures CString(buf) == buf[..n]
  {
  }
}
