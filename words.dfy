/** Whitespace-delimited words, and Laravel's `Str::words($value, $n, '')`,
    which keeps the first `n` words of a string. The library implements it as
    the match of `^\s*+(?:\S++\s*+){1,n}` followed by `rtrim`; the string is
    returned unchanged when that match fails or covers all of it. */
module Words {
  import opened Text

  /** The class `\s` of PCRE: space, tab, line feed, vertical tab, form feed,
      carriage return. */
  predicate IsSpace(c: char) {
    c == ' ' || c == '\t' || c == '\n' || c == '\U{0B}' || c == '\U{0C}' || c == '\r'
  }

  /** Length of the run of `\s` characters that starts `s`. */
  function SpaceLen(s: string): (n: nat)
    ensures n <= |s| && (forall i :: 0 <= i < n ==> IsSpace(s[i]))
    ensures n < |s| ==> !IsSpace(s[n])
  {
    if s != [] && IsSpace(s[0]) then 1 + SpaceLen(s[1..]) else 0
  }

  /** Length of the run of `\S` characters that starts `s`. */
  function NonSpaceLen(s: string): (n: nat)
    ensures n <= |s| && (forall i :: 0 <= i < n ==> !IsSpace(s[i]))
    ensures n < |s| ==> IsSpace(s[n])
  {
    if s != [] && !IsSpace(s[0]) then 1 + NonSpaceLen(s[1..]) else 0
  }

  /** Number of maximal `\S` runs in `s`; `inWord` says whether the character
      before `s` was part of a word. */
  function WordsFrom(s: string, inWord: bool): nat {
    if s == [] then 0
    else if IsSpace(s[0]) then WordsFrom(s[1..], false)
    else (if inWord then 0 else 1) + WordsFrom(s[1..], true)
  }

  /** The number of whitespace-delimited words of `s`. */
  function CountWords(s: string): nat {
    WordsFrom(s, false)
  }

  /** Whether the last character of `a` (or, for empty `a`, the one before) is in a word. */
  function EndsInWord(a: string, inWord: bool): bool {
    if a == [] then inWord else !IsSpace(a[|a| - 1])
  }

  lemma {:induction false} WordsConcat(a: string, b: string, f: bool)
    ensures WordsFrom(a + b, f) == WordsFrom(a, f) + WordsFrom(b, EndsInWord(a, f))
    decreases |a|
  {
    if a == [] {
      assert a + b == b;
    } else {
      assert (a + b)[0] == a[0] && (a + b)[1..] == a[1..] + b;
      var f' := !IsSpace(a[0]);
      WordsConcat(a[1..], b, f');
    }
  }

  lemma {:induction false} WordsInWordBound(s: string)
    ensures WordsFrom(s, true) <= WordsFrom(s, false) <= WordsFrom(s, true) + 1
  {
    if s != [] && IsSpace(s[0]) {
      assert WordsFrom(s, true) == WordsFrom(s, false);
    }
  }

  lemma {:induction false} SpacesHaveNoWords(s: string, f: bool)
    requires forall i :: 0 <= i < |s| ==> IsSpace(s[i])
    ensures WordsFrom(s, f) == 0
  {
    if s != [] {
      SpacesHaveNoWords(s[1..], false);
    }
  }

  lemma {:induction false} RunIsOneWord(s: string, f: bool)
    requires s != [] && forall i :: 0 <= i < |s| ==> !IsSpace(s[i])
    ensures WordsFrom(s, f) == if f then 0 else 1
  {
    if |s| > 1 {
      RunIsOneWord(s[1..], true);
    }
  }

  /** A prefix has no more words than the whole string. */
  lemma PrefixWords(s: string, k: nat, f: bool)
    requires k <= |s|
    ensures WordsFrom(s[..k], f) <= WordsFrom(s, f)
  {
    WordsConcat(s[..k], s[k..], f);
    assert s[..k] + s[k..] == s;
  }

  /** A suffix has no more words than the whole string. */
  lemma {:induction false} SuffixWords(s: string, k: nat)
    requires k <= |s|
    ensures CountWords(s[k..]) <= CountWords(s)
    decreases k
  {
    if k > 0 {
      SuffixWords(s[1..], k - 1);
      assert s[1..][k - 1..] == s[k..];
      WordsInWordBound(s[1..]);
    }
  }

  /** An infix has no more words than the whole string. */
  lemma InfixWords(s: string, i: nat, j: nat)
    requires i <= j <= |s|
    ensures CountWords(s[i..j]) <= CountWords(s)
  {
    SuffixWords(s, i);
    PrefixWords(s[i..], j - i, false);
    assert s[i..][..j - i] == s[i..j];
  }

  // ---------------------------------------------------------------------------

  /** Where the run of `\s` characters that starts at `i` ends. */
  function SpaceEnd(s: string, i: nat): (j: nat)
    requires i <= |s|
    ensures i <= j <= |s| && (forall x :: i <= x < j ==> IsSpace(s[x]))
    ensures j < |s| ==> !IsSpace(s[j])
    decreases |s| - i
  {
    if i < |s| && IsSpace(s[i]) then SpaceEnd(s, i + 1) else i
  }

  /** Where the run of `\S` characters that starts at `i` ends. */
  function WordStop(s: string, i: nat): (j: nat)
    requires i <= |s|
    ensures i <= j <= |s| && (forall x :: i <= x < j ==> !IsSpace(s[x]))
    ensures j < |s| ==> IsSpace(s[j])
    decreases |s| - i
  {
    if i < |s| && !IsSpace(s[i]) then WordStop(s, i + 1) else i
  }

  /** Where the match of `(?:\S++\s*+){0,k}` that starts at `i` ends: `k`
      words, each with the spaces after it, or the rest of `t` when it has
      fewer. */
  function TakeWords(t: string, i: nat, k: nat): (m: nat)
    requires i <= |t|
    ensures i <= m <= |t|
    decreases |t| - i
  {
    if k == 0 || i == |t| || IsSpace(t[i]) then i
    else TakeWords(t, SpaceEnd(t, WordStop(t, i)), k - 1)
  }

  /** A word and the spaces after it count as one word. */
  lemma WordAndSpaces(t: string, i: nat, w: nat, e: nat, m: nat)
    requires i < w <= e <= m <= |t| && (w < e || w == |t|)
    requires forall x :: i <= x < w ==> !IsSpace(t[x])
    requires forall x :: w <= x < e ==> IsSpace(t[x])
    ensures CountWords(t[i..m]) == 1 + CountWords(t[e..m])
  {
    var a, b, c := t[i..w], t[w..e], t[e..m];
    assert t[i..m] == a + (b + c);
    assert forall x :: 0 <= x < |a| ==> a[x] == t[i + x];
    assert forall x :: 0 <= x < |b| ==> b[x] == t[w + x];
    RunIsOneWord(a, false);
    WordsConcat(a, b + c, false);
    WordsConcat(b, c, true);
    SpacesHaveNoWords(b, true);
    if e > w {
      assert EndsInWord(b, true) == false;
    } else {
      assert c == [];
    }
  }

  /** The match holds at most `k` words. */
  lemma {:induction false} TakeWordsBound(t: string, i: nat, k: nat)
    requires i <= |t| && (i == |t| || !IsSpace(t[i]))
    ensures CountWords(t[i..TakeWords(t, i, k)]) <= k
    decreases |t| - i
  {
    if k == 0 || i == |t| {
      assert t[i..TakeWords(t, i, k)] == [];
    } else {
      var w := WordStop(t, i);
      var e := SpaceEnd(t, w);
      var m := TakeWords(t, e, k - 1);
      assert TakeWords(t, i, k) == m;
      TakeWordsBound(t, e, k - 1);
      WordAndSpaces(t, i, w, e, m);
    }
  }

  /** The match covers the rest of `t` when that has at most `k` words. */
  lemma {:induction false} TakeWordsAll(t: string, i: nat, k: nat)
    requires i <= |t| && (i == |t| || !IsSpace(t[i]))
    ensures CountWords(t[i..]) <= k ==> TakeWords(t, i, k) == |t|
    decreases |t| - i
  {
    if i < |t| && CountWords(t[i..]) <= k {
      var w := WordStop(t, i);
      var e := SpaceEnd(t, w);
      WordAndSpaces(t, i, w, e, |t|);
      assert t[i..|t|] == t[i..] && t[e..|t|] == t[e..];
      assert k >= 1;
      TakeWordsAll(t, e, k - 1);
      assert TakeWords(t, i, k) == TakeWords(t, e, k - 1);
    }
  }

  lemma LeadingSpaces(s: string, lead: nat, m: nat)
    requires lead <= m <= |s| && forall i :: 0 <= i < lead ==> IsSpace(s[i])
    ensures CountWords(s[..m]) == CountWords(s[lead..m])
  {
    assert s[..m] == s[..lead] + s[lead..m];
    WordsConcat(s[..lead], s[lead..m], false);
    SpacesHaveNoWords(s[..lead], false);
    if lead > 0 {
      assert EndsInWord(s[..lead], false) == false;
    }
  }

  /** `Str::words($s, $n, '')` for `n >= 1`: at most `n` words; a prefix of
      `s`, right-trimmed when something was cut; `s` itself when it has no
      more than `n` words. */
  function LimitWords(s: string, n: nat): (r: string)
    requires n >= 1
    ensures CountWords(r) <= n
    ensures r <= s
    ensures CountWords(s) <= n ==> r == s
    ensures r != s ==> r == [] || r[|r| - 1] !in DefaultTrim
  {
    var lead := SpaceEnd(s, 0);
    var m := TakeWords(s, lead, n);
    LeadingSpaces(s, lead, |s|);
    LeadingSpaces(s, lead, m);
    TakeWordsBound(s, lead, n);
    TakeWordsAll(s, lead, n);
    assert s[..|s|] == s && s[lead..|s|] == s[lead..];
    if CountWords(s) == 0 || m == |s| then s
    else
      var r := TrimRight(s[..m], DefaultTrim);
      PrefixWords(s[..m], |r|, false);
      assert s[..m][..|r|] == r;
      r
  }
}
