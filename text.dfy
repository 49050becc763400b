/** The PHP string functions the plugin applies: `trim`/`rtrim` with a set of
    characters, `implode` and its inverse `explode`, ASCII case folding as the
    `/i` regex flag uses it, `ucfirst`, and `str_replace` with an empty
    replacement. */
module Text {

  /** The characters `trim()` and `rtrim()` strip when given no list:
      space, tab, line feed, carriage return, NUL and vertical tab. */
  const DefaultTrim: set<char> := {' ', '\t', '\n', '\r', '\0', '\U{0B}'}

  /** How many characters at the front of `s` are in `cs`. */
  function LeftCut(s: string, cs: set<char>): (n: nat)
    ensures n <= |s| && (forall i :: 0 <= i < n ==> s[i] in cs)
    ensures n < |s| ==> s[n] !in cs
  {
    if s != [] && s[0] in cs then 1 + LeftCut(s[1..], cs) else 0
  }

  /** Where the run of characters of `cs` at the end of `s` begins. */
  function RightCut(s: string, cs: set<char>): (n: nat)
    ensures n <= |s| && (forall i :: n <= i < |s| ==> s[i] in cs)
    ensures n > 0 ==> s[n - 1] !in cs
  {
    if s != [] && s[|s| - 1] in cs then RightCut(s[..|s| - 1], cs) else |s|
  }

  /** `ltrim($s, $cs)`. */
  function TrimLeft(s: string, cs: set<char>): string {
    s[LeftCut(s, cs)..]
  }

  /** `rtrim($s, $cs)`. */
  function TrimRight(s: string, cs: set<char>): string {
    s[..RightCut(s, cs)]
  }

  /** `trim($s, $cs)`: strips the characters of `cs` from both ends, which
      leaves the longest infix of `s` that neither starts nor ends with one
      of them; everything cut away is in `cs`. */
  function Trim(s: string, cs: set<char>): (r: string)
    ensures var i := LeftCut(s, cs);
              i + |r| <= |s| && r == s[i..i + |r|] &&
              (forall k :: 0 <= k < i ==> s[k] in cs) &&
              (forall k :: i + |r| <= k < |s| ==> s[k] in cs)
    ensures r == [] || (r[0] !in cs && r[|r| - 1] !in cs)
  {
    var l := TrimLeft(s, cs);
    var r := TrimRight(l, cs);
    TrimBothEnds(s, cs, LeftCut(s, cs), RightCut(l, cs));
    r
  }

  /** The right trim of the left trim is an infix of `s` cut only at
      characters of `cs`. */
  lemma TrimBothEnds(s: string, cs: set<char>, i: nat, n: nat)
    requires i == LeftCut(s, cs) && n == RightCut(s[i..], cs)
    ensures i + n <= |s|
    ensures forall k :: i + n <= k < |s| ==> s[k] in cs
    ensures n > 0 ==> s[i] !in cs && s[i + n - 1] !in cs
  {
    var l := s[i..];
    forall k | i + n <= k < |s|
      ensures s[k] in cs
    {
      assert s[k] == l[k - i];
    }
    if n > 0 {
      assert l[0] == s[i] && l[n - 1] == s[i + n - 1];
    }
  }

  // ---------------------------------------------------------------------------

  /** `implode($sep, $parts)`. */
  function Join(parts: seq<string>, sep: string): string {
    if parts == [] then ""
    else if |parts| == 1 then parts[0]
    else parts[0] + sep + Join(parts[1..], sep)
  }

  /** Joining two non-empty runs of parts puts one separator between them. */
  lemma {:induction false} JoinAppend(a: seq<string>, b: seq<string>, sep: string)
    requires a != [] && b != []
    ensures Join(a + b, sep) == Join(a, sep) + sep + Join(b, sep)
  {
    if |a| == 1 {
      assert (a + b)[0] == a[0] && (a + b)[1..] == b;
    } else {
      JoinAppend(a[1..], b, sep);
      assert (a + b)[0] == a[0] && (a + b)[1..] == a[1..] + b;
    }
  }

  /** `explode($sep, $s)` for a one-character separator. */
  function Split(s: string, sep: char): (r: seq<string>)
    ensures |r| >= 1
  {
    if s == [] then [""]
    else
      var rest := Split(s[1..], sep);
      if s[0] == sep then [""] + rest else [[s[0]] + rest[0]] + rest[1..]
  }

  lemma {:induction false} SplitNoSep(a: string, sep: char)
    requires sep !in a
    ensures Split(a, sep) == [a]
  {
    if a != [] {
      SplitNoSep(a[1..], sep);
      assert [a[0]] + a[1..] == a;
    }
  }

  lemma {:induction false} SplitAtSep(a: string, b: string, sep: char)
    requires sep !in a
    ensures Split(a + [sep] + b, sep) == [a] + Split(b, sep)
  {
    if a == [] {
      assert a + [sep] + b == [sep] + b;
      assert ([sep] + b)[1..] == b;
    } else {
      var s := a + [sep] + b;
      assert s[1..] == a[1..] + [sep] + b;
      SplitAtSep(a[1..], b, sep);
      assert [a[0]] + a[1..] == a;
    }
  }

  /** Splitting at the separator undoes joining with it, provided no part
      contains the separator: the parts of the rendered prompt can be read back. */
  lemma {:induction false} SplitJoin(parts: seq<string>, sep: char)
    requires |parts| >= 1
    requires forall i :: 0 <= i < |parts| ==> sep !in parts[i]
    ensures Split(Join(parts, [sep]), sep) == parts
  {
    if |parts| == 1 {
      SplitNoSep(parts[0], sep);
    } else {
      SplitJoin(parts[1..], sep);
      SplitAtSep(parts[0], Join(parts[1..], [sep]), sep);
      assert [parts[0]] + parts[1..] == parts;
    }
  }

  // ---------------------------------------------------------------------------

  /** ASCII lower case, which the `/i` regex flag and `ucfirst` rely on. */
  function Lower(c: char): char {
    if 'A' <= c <= 'Z' then (c as int + 32) as char else c
  }

  function Upper(c: char): char {
    if 'a' <= c <= 'z' then (c as int - 32) as char else c
  }

  /** `s` starts with `p`, ignoring ASCII case; `p` is given in lower case. */
  predicate StartsWithCI(s: string, p: string) {
    |p| <= |s| && forall i :: 0 <= i < |p| ==> Lower(s[i]) == p[i]
  }

  /** `ucfirst($s)`. */
  function Ucfirst(s: string): (r: string)
    ensures |r| == |s|
    ensures s != [] ==> r[0] == Upper(s[0]) && r[1..] == s[1..]
  {
    if s == [] then s else [Upper(s[0])] + s[1..]
  }

  // ---------------------------------------------------------------------------

  /** `str_replace($needle, '', $s)`: every occurrence of `needle`, found
      left to right without overlap in the original string, is removed. */
  function RemoveAll(s: string, needle: string): (r: string)
    requires needle != []
    ensures |r| <= |s|
    decreases |s|
  {
    if s == [] then []
    else if needle <= s then RemoveAll(s[|needle|..], needle)
    else [s[0]] + RemoveAll(s[1..], needle)
  }

  /** A needle holding a character that never occurs in `s` removes nothing. */
  lemma {:induction false} RemoveAllAbsent(s: string, needle: string, c: char)
    requires needle != [] && c in needle && c !in s
    ensures RemoveAll(s, needle) == s
    decreases |s|
  {
    if s != [] {
      var k :| 0 <= k < |needle| && needle[k] == c;
      assert !(needle <= s) by {
        assert k < |s| ==> s[k] != needle[k];
      }
      RemoveAllAbsent(s[1..], needle, c);
      assert [s[0]] + s[1..] == s;
    }
  }

  /** A needle that occurs nowhere removes nothing. */
  lemma {:induction false} RemoveAllNoMatch(s: string, needle: string)
    requires needle != []
    requires forall i :: 0 <= i < |s| ==> !(needle <= s[i..])
    ensures RemoveAll(s, needle) == s
    decreases |s|
  {
    if s != [] {
      assert !(needle <= s[0..]);
      assert s[0..] == s;
      forall i | 0 <= i < |s[1..]| ensures !(needle <= s[1..][i..]) {
        assert s[1..][i..] == s[i + 1..];
      }
      RemoveAllNoMatch(s[1..], needle);
      assert [s[0]] + s[1..] == s;
    }
  }

  /** A string that starts with the needle loses that copy of it. */
  lemma RemoveAllPrefix(needle: string, rest: string)
    requires needle != []
    ensures RemoveAll(needle + rest, needle) == RemoveAll(rest, needle)
  {
    assert needle <= needle + rest;
    assert (needle + rest)[|needle|..] == rest;
  }
}
