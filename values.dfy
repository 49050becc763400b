/** PHP values as the plugin's configuration arrays, settings records, request
    payloads and parsed JSON responses hold them, with the PHP operators the
    source applies to them: truthiness (`if ($v)`, `?:`, `empty()`), the null
    coalescing operator `??`, `isset`, the `(int)` and `(string)` casts, and
    keyed reads and writes on ordered arrays. */
module Values {

  datatype Option<+T> = None | Some(value: T) {
    function GetOr(default: T): T {
      if Some? then value else default
    }
  }

  /** A PHP value. Lists are arrays with keys 0..n-1, objects are arrays with
      string keys in insertion order. Floats do not occur. */
  datatype Value =
    | Null
    | Bool(b: bool)
    | Int(i: int)
    | Str(s: string)
    | List(items: seq<Value>)
    | Obj(fields: Fields)

  type Fields = seq<(string, Value)>

  /** PHP's conversion to bool. */
  predicate Truthy(v: Value) {
    match v
    case Null => false
    case Bool(b) => b
    case Int(i) => i != 0
    case Str(s) => s != "" && s != "0"
    case List(xs) => xs != []
    case Obj(fs) => fs != []
  }

  // ---------------------------------------------------------------------------
  // Decimal integers, as `(string)` prints them and `(int)` reads them back.

  predicate IsDigit(c: char) {
    '0' <= c <= '9'
  }

  function DigitChar(d: nat): (c: char)
    requires d < 10
    ensures IsDigit(c) && c as int - '0' as int == d
  {
    ('0' as int + d) as char
  }

  /** Decimal digits of `n`, most significant first, no leading zeros. */
  function NatToDecimal(n: nat): (r: string)
    ensures |r| >= 1 && forall i :: 0 <= i < |r| ==> IsDigit(r[i])
  {
    if n < 10 then [DigitChar(n)] else NatToDecimal(n / 10) + [DigitChar(n % 10)]
  }

  /** What PHP prints for an int. */
  function IntToDecimal(n: int): string {
    if n < 0 then "-" + NatToDecimal(-n) else NatToDecimal(n)
  }

  /** Value of a run of decimal digits. */
  function DigitsValue(d: string): nat
    requires forall i :: 0 <= i < |d| ==> IsDigit(d[i])
  {
    if d == [] then 0
    else DigitsValue(d[..|d| - 1]) * 10 + DigitOf(d[|d| - 1])
  }

  function DigitOf(c: char): nat
    requires IsDigit(c)
  {
    c as int - '0' as int
  }

  /** Length of the run of digits that starts `s`. */
  function DigitRun(s: string): (n: nat)
    ensures n <= |s| && forall i :: 0 <= i < n ==> IsDigit(s[i])
    ensures n < |s| ==> !IsDigit(s[n])
  {
    if s != [] && IsDigit(s[0]) then 1 + DigitRun(s[1..]) else 0
  }

  /** Whitespace PHP skips in front of a numeric string. */
  predicate IsNumericSpace(c: char) {
    c == ' ' || c == '\t' || c == '\n' || c == '\r' || c == '\U{0B}' || c == '\U{0C}'
  }

  function SkipNumericSpace(s: string): (r: string)
    ensures |r| <= |s| && r == s[|s| - |r|..]
    ensures r == [] || !IsNumericSpace(r[0])
  {
    if s != [] && IsNumericSpace(s[0]) then SkipNumericSpace(s[1..]) else s
  }

  /** `(int)` of a string: leading whitespace, an optional sign and the digits
      that follow; anything else ends the number, and no digits give 0. */
  function StringToInt(s: string): int {
    var t := SkipNumericSpace(s);
    if t != [] && (t[0] == '-' || t[0] == '+') then
      var u := t[1..];
      var m: int := DigitsValue(u[..DigitRun(u)]);
      if t[0] == '-' then -m else m
    else
      DigitsValue(t[..DigitRun(t)])
  }

  /** PHP's `(int)` cast. */
  function ToInt(v: Value): int {
    match v
    case Null => 0
    case Bool(b) => if b then 1 else 0
    case Int(i) => i
    case Str(s) => StringToInt(s)
    case List(xs) => if xs == [] then 0 else 1
    case Obj(fs) => if fs == [] then 0 else 1
  }

  /** PHP's `(string)` cast, as string concatenation and `sprintf('%s')` apply it. */
  function ToStr(v: Value): string {
    match v
    case Null => ""
    case Bool(b) => if b then "1" else ""
    case Int(i) => IntToDecimal(i)
    case Str(s) => s
    case List(_) => "Array"
    case Obj(_) => "Array"
  }

  lemma {:induction false} DigitsValueOfDecimal(n: nat)
    ensures DigitsValue(NatToDecimal(n)) == n
  {
    var d := NatToDecimal(n);
    if n >= 10 {
      DigitsValueOfDecimal(n / 10);
      assert d[..|d| - 1] == NatToDecimal(n / 10);
    }
  }

  /** Printing an int and casting the text back with `(int)` gives the int
      back: the settings record stores `max_words` as an int and the prompt
      embeds it as text. */
  lemma IntRoundTrip(n: int)
    ensures ToInt(Str(IntToDecimal(n))) == n
  {
    var d := NatToDecimal(if n < 0 then -n else n);
    DigitsValueOfDecimal(if n < 0 then -n else n);
    if n < 0 {
      ParseNegative(d);
      assert IntToDecimal(n) == "-" + d;
    } else {
      ParseDigits(d);
      assert IntToDecimal(n) == d;
    }
  }

  lemma ParseNegative(d: string)
    requires d != [] && forall i :: 0 <= i < |d| ==> IsDigit(d[i])
    ensures StringToInt("-" + d) == 0 - DigitsValue(d) as int
  {
    var s := "-" + d;
    assert !IsNumericSpace(s[0]);
    assert SkipNumericSpace(s) == s;
    assert s[1..] == d;
    DigitRunAll(d);
    assert d[..DigitRun(d)] == d;
  }

  lemma ParseDigits(d: string)
    requires d != [] && forall i :: 0 <= i < |d| ==> IsDigit(d[i])
    ensures SkipNumericSpace(d) == d
    ensures DigitsValue(d[..DigitRun(d)]) == DigitsValue(d)
    ensures StringToInt(d) == DigitsValue(d)
  {
    assert IsDigit(d[0]) && !IsNumericSpace(d[0]);
    assert d[0] != '-' && d[0] != '+';
    DigitRunAll(d);
    assert d[..|d|] == d;
    assert SkipNumericSpace(d) == d;
  }

  lemma DigitRunAll(d: string)
    requires forall i :: 0 <= i < |d| ==> IsDigit(d[i])
    ensures DigitRun(d) == |d|
  {
    if d != [] {
      DigitRunAll(d[1..]);
    }
  }

  // ---------------------------------------------------------------------------
  // Ordered arrays with string keys.

  function Keys(fs: Fields): (ks: seq<string>)
    ensures |ks| == |fs| && forall i {:trigger ks[i]} :: 0 <= i < |fs| ==> ks[i] == fs[i].0
  {
    if fs == [] then [] else [fs[0].0] + Keys(fs[1..])
  }

  /** A PHP array never holds a key twice. */
  ghost predicate UniqueKeys(fs: Fields) {
    forall i, j :: 0 <= i < j < |fs| ==> fs[i].0 != fs[j].0
  }

  /** `$a[$k]`: the entry stored under `k`, if any. */
  function Lookup(fs: Fields, k: string): (r: Option<Value>)
    ensures r.Some? <==> exists i :: 0 <= i < |fs| && fs[i].0 == k
    ensures r.Some? ==> exists i :: 0 <= i < |fs| && fs[i] == (k, r.value) &&
                                 forall j :: 0 <= j < i ==> fs[j].0 != k
  {
    if fs == [] then None
    else if fs[0].0 == k then Some(fs[0].1)
    else
      var r := Lookup(fs[1..], k);
      assert r.Some? ==> exists i :: 0 <= i < |fs[1..]| && fs[1..][i] == (k, r.value) &&
                                 forall j :: 0 <= j < i ==> fs[1..][j].0 != k;
      r
  }

  /** In an array written out entry by entry, the entry at `i` is what its
      key reads as when no earlier entry has that key. */
  lemma {:induction false} LookupAt(fs: Fields, i: nat)
    requires i < |fs| && forall j :: 0 <= j < i ==> fs[j].0 != fs[i].0
    ensures Lookup(fs, fs[i].0) == Some(fs[i].1)
  {
    if i > 0 {
      LookupAt(fs[1..], i - 1);
    }
  }

  predicate HasKey(fs: Fields, k: string) {
    Lookup(fs, k).Some?
  }

  /** `isset($a[$k])`: present and not null. */
  predicate Isset(fs: Fields, k: string) {
    Lookup(fs, k).Some? && Lookup(fs, k).value != Null
  }

  /** `$x ?? $default` where `$x` is the result of a keyed read. */
  function Coalesce(x: Option<Value>, default: Value): (r: Value)
    ensures x.Some? && x.value != Null ==> r == x.value
    ensures (x.None? || x.value == Null) ==> r == default
  {
    if x.Some? && x.value != Null then x.value else default
  }

  /** `$v[$k]` read through `??` or `isset`, which never warn: a non-array gives nothing. */
  function Get(v: Value, k: string): Option<Value> {
    if v.Obj? then Lookup(v.fields, k) else None
  }

  /** `$v[$k] ?? null`: the entry, or null when it is missing. */
  function Field(v: Value, k: string): (r: Value)
    ensures Get(v, k).Some? ==> r == Get(v, k).value
    ensures Get(v, k).None? ==> r == Null
  {
    Get(v, k).GetOr(Null)
  }

  /** Keyed read on a value that is an array, as an array of fields ([] otherwise). */
  function FieldsOf(v: Option<Value>): Fields {
    if v.Some? && v.value.Obj? then v.value.fields else []
  }

  /** `$a[$k] = $v`: an existing key keeps its place, a new key is appended. */
  function Set(fs: Fields, k: string, v: Value): (r: Fields)
    ensures Lookup(r, k) == Some(v)
    ensures forall k' :: k' != k ==> Lookup(r, k') == Lookup(fs, k')
  {
    if fs == [] then [(k, v)]
    else if fs[0].0 == k then [(k, v)] + fs[1..]
    else [fs[0]] + Set(fs[1..], k, v)
  }

  /** The write keeps every key in its place and appends a new one. */
  lemma {:induction false} SetKeys(fs: Fields, k: string, v: Value)
    ensures Keys(Set(fs, k, v)) == if HasKey(fs, k) then Keys(fs) else Keys(fs) + [k]
    decreases |fs|
  {
    if fs == [] {
      assert Keys([(k, v)]) == [k];
    } else if fs[0].0 == k {
      assert HasKey(fs, k);
      KeysCons((k, v), fs[1..]);
      KeysCons(fs[0], fs[1..]);
      assert fs == [fs[0]] + fs[1..];
    } else {
      SetKeys(fs[1..], k, v);
      KeysCons(fs[0], Set(fs[1..], k, v));
      KeysCons(fs[0], fs[1..]);
      assert fs == [fs[0]] + fs[1..];
      assert Lookup(fs, k) == Lookup(fs[1..], k);
    }
  }

  lemma KeysCons(e: (string, Value), fs: Fields)
    ensures Keys([e] + fs) == [e.0] + Keys(fs)
  {
    assert ([e] + fs)[1..] == fs;
  }

  lemma SetKeepsUnique(fs: Fields, k: string, v: Value)
    requires UniqueKeys(fs)
    ensures UniqueKeys(Set(fs, k, v))
  {
    var r := Set(fs, k, v);
    SetKeys(fs, k, v);
    forall i, j | 0 <= i < j < |r| ensures r[i].0 != r[j].0 {
      assert Keys(r)[i] == r[i].0 && Keys(r)[j] == r[j].0;
      if !HasKey(fs, k) && j == |fs| {
        assert Keys(fs)[i] == fs[i].0;
      } else {
        assert Keys(fs)[i] == fs[i].0 && Keys(fs)[j] == fs[j].0;
      }
    }
  }

  /** `wp_parse_args($over, $base)`, which is `array_merge($base, $over)` on
      string keys: every entry of `over` is written over `base` in order. */
  function Merge(base: Fields, over: Fields): Fields
    decreases |over|
  {
    if over == [] then base else Merge(Set(base, over[0].0, over[0].1), over[1..])
  }

  /** After the merge a key reads as in `over` when `over` has it, and as in
      `base` otherwise; no key of either is lost and no other key appears. */
  lemma {:induction false} MergeLookup(base: Fields, over: Fields, k: string)
    requires UniqueKeys(over)
    ensures Lookup(Merge(base, over), k) == if HasKey(over, k) then Lookup(over, k) else Lookup(base, k)
    decreases |over|
  {
    if over != [] {
      var rest := over[1..];
      assert UniqueKeys(rest) by {
        forall i, j | 0 <= i < j < |rest| ensures rest[i].0 != rest[j].0 {
          assert rest[i] == over[i + 1] && rest[j] == over[j + 1];
        }
      }
      MergeLookup(Set(base, over[0].0, over[0].1), rest, k);
      if k == over[0].0 {
        assert !HasKey(rest, k) by {
          forall i | 0 <= i < |rest| ensures rest[i].0 != k {
            assert rest[i] == over[i + 1];
          }
        }
      } else {
        assert Lookup(over, k) == Lookup(rest, k);
      }
    }
  }

  /** The merge keeps the keys of `base` in their order, in front. */
  lemma {:induction false} MergeKeepsBaseOrder(base: Fields, over: Fields)
    ensures |Merge(base, over)| >= |base|
    ensures Keys(Merge(base, over))[..|base|] == Keys(base)
    decreases |over|
  {
    if over != [] {
      var b' := Set(base, over[0].0, over[0].1);
      SetKeys(base, over[0].0, over[0].1);
      MergeKeepsBaseOrder(b', over[1..]);
      assert Keys(b')[..|base|] == Keys(base);
      assert |Keys(b')| >= |Keys(base)|;
      var m := Merge(b', over[1..]);
      assert Keys(m)[..|base|] == Keys(m)[..|b'|][..|base|];
    }
  }
}
