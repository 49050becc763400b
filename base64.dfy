/** Base 64 encoding as section 4 of RFC 4648 defines it (PHP's
    `base64_encode`), a decoder for it, and the `data:` URI of RFC 2397 that
    carries such text inline. */
module Base64 {
  import opened Values

  newtype byte = x: int | 0 <= x < 256

  /** The character for the six-bit value `i` (Table 1 of RFC 4648). */
  function Symbol(i: nat): (c: char)
    requires i < 64
  {
    if i < 26 then ('A' as int + i) as char
    else if i < 52 then ('a' as int + i - 26) as char
    else if i < 62 then ('0' as int + i - 52) as char
    else if i == 62 then '+'
    else '/'
  }

  /** Characters of the alphabet. */
  predicate IsSymbol(c: char) {
    ('A' <= c <= 'Z') || ('a' <= c <= 'z') || ('0' <= c <= '9') || c == '+' || c == '/'
  }

  /** The six-bit value of an alphabet character. */
  function SymbolValue(c: char): (i: nat)
    requires IsSymbol(c)
    ensures i < 64 && Symbol(i) == c
  {
    if 'A' <= c <= 'Z' then c as int - 'A' as int
    else if 'a' <= c <= 'z' then c as int - 'a' as int + 26
    else if '0' <= c <= '9' then c as int - '0' as int + 52
    else if c == '+' then 62
    else 63
  }

  lemma SymbolRoundTrip(i: nat)
    requires i < 64
    ensures IsSymbol(Symbol(i)) && SymbolValue(Symbol(i)) == i
  {
  }

  /** Three bytes as four characters. */
  function EncodeGroup(b0: byte, b1: byte, b2: byte): (g: string)
    ensures |g| == 4
  {
    var x := b0 as int * 65536 + b1 as int * 256 + b2 as int;
    [Symbol(x / 262144), Symbol(x / 4096 % 64), Symbol(x / 64 % 64), Symbol(x % 64)]
  }

  /** `base64_encode($bytes)`, with `=` padding for a final group of one or
      two bytes. */
  function Encode(b: seq<byte>): string
    decreases |b|
  {
    if |b| == 0 then ""
    else if |b| == 1 then EncodeGroup(b[0], 0, 0)[..2] + "=="
    else if |b| == 2 then EncodeGroup(b[0], b[1], 0)[..3] + "="
    else EncodeGroup(b[0], b[1], b[2]) + Encode(b[3..])
  }

  /** Four characters as a 24-bit quantity. */
  function Quantum(s: string): nat
    requires |s| >= 4 && IsSymbol(s[0]) && IsSymbol(s[1]) && IsSymbol(s[2]) && IsSymbol(s[3])
  {
    SymbolValue(s[0]) * 262144 + SymbolValue(s[1]) * 4096 + SymbolValue(s[2]) * 64 + SymbolValue(s[3])
  }

  function QuantumBytes(x: nat): seq<byte>
    requires x < 16777216
  {
    [(x / 65536) as byte, (x / 256 % 256) as byte, (x % 256) as byte]
  }

  /** Reads base 64 text back; `None` for text that `Encode` cannot produce
      (a length not a multiple of four, a character outside the alphabet,
      padding not at the end, or non-zero bits under the padding). */
  function Decode(s: string): (r: Option<seq<byte>>)
    decreases |s|
  {
    if s == [] then Some([])
    else if |s| < 4 || !IsSymbol(s[0]) || !IsSymbol(s[1]) then None
    else if |s| == 4 && s[2] == '=' && s[3] == '=' then
      var x := Quantum([s[0], s[1], 'A', 'A']);
      if x % 65536 == 0 then Some(QuantumBytes(x)[..1]) else None
    else if !IsSymbol(s[2]) then None
    else if |s| == 4 && s[3] == '=' then
      var x := Quantum([s[0], s[1], s[2], 'A']);
      if x % 256 == 0 then Some(QuantumBytes(x)[..2]) else None
    else if !IsSymbol(s[3]) then None
    else
      var rest := Decode(s[4..]);
      if rest.Some? then Some(QuantumBytes(Quantum(s)) + rest.value) else None
  }

  lemma GroupQuantum(b0: byte, b1: byte, b2: byte)
    ensures var g := EncodeGroup(b0, b1, b2);
            IsSymbol(g[0]) && IsSymbol(g[1]) && IsSymbol(g[2]) && IsSymbol(g[3]) &&
            Quantum(g) == b0 as int * 65536 + b1 as int * 256 + b2 as int
  {
    var x := b0 as int * 65536 + b1 as int * 256 + b2 as int;
    SymbolRoundTrip(x / 262144);
    SymbolRoundTrip(x / 4096 % 64);
    SymbolRoundTrip(x / 64 % 64);
    SymbolRoundTrip(x % 64);
    SplitSextets(x);
  }

  lemma SplitSextets(x: nat)
    requires x < 16777216
    ensures (x / 262144) * 262144 + (x / 4096 % 64) * 4096 + (x / 64 % 64) * 64 + x % 64 == x
  {
    assert x / 64 == (x / 4096) * 64 + x / 64 % 64;
    assert x / 4096 == (x / 262144) * 64 + x / 4096 % 64;
  }

  lemma SplitBytes(b0: byte, b1: byte, b2: byte)
    ensures QuantumBytes(b0 as int * 65536 + b1 as int * 256 + b2 as int) == [b0, b1, b2]
  {
    var x := b0 as int * 65536 + b1 as int * 256 + b2 as int;
    assert x / 256 == b0 as int * 256 + b1 as int;
    assert x / 65536 == b0 as int;
  }

  /** A final group of one byte leaves the last two sextets and the low
      sixteen bits zero. */
  lemma PadTwo(b0: byte)
    ensures var x := b0 as int * 65536;
            x / 64 % 64 == 0 && x % 64 == 0 && x % 65536 == 0
  {
    var x := b0 as int * 65536;
    assert x == (b0 as int * 16) * 4096;
    assert x == (b0 as int * 1024) * 64;
  }

  /** A final group of two bytes leaves the last sextet and the low eight
      bits zero. */
  lemma PadOne(b0: byte, b1: byte)
    ensures var x := b0 as int * 65536 + b1 as int * 256;
            x % 64 == 0 && x % 256 == 0
  {
    var x := b0 as int * 65536 + b1 as int * 256;
    assert x == (b0 as int * 256 + b1 as int) * 256;
    assert x == (b0 as int * 1024 + b1 as int * 4) * 64;
  }

  /** Decoding undoes encoding. */
  lemma {:induction false} DecodeEncode(b: seq<byte>)
    ensures Decode(Encode(b)) == Some(b)
    decreases |b|
  {
    if |b| == 1 {
      DecodeOneByte(b[0]);
      assert [b[0]] == b;
    } else if |b| == 2 {
      DecodeTwoBytes(b[0], b[1]);
      assert [b[0], b[1]] == b;
    } else if |b| >= 3 {
      DecodeEncode(b[3..]);
      DecodeGroup(b[0], b[1], b[2], Encode(b[3..]));
      assert Encode(b) == EncodeGroup(b[0], b[1], b[2]) + Encode(b[3..]);
      assert [b[0], b[1], b[2]] + b[3..] == b;
    }
  }

  lemma DecodeOneByte(b0: byte)
    ensures Decode(Encode([b0])) == Some([b0])
  {
    var g := EncodeGroup(b0, 0, 0);
    GroupQuantum(b0, 0, 0);
    SplitBytes(b0, 0, 0);
    PadTwo(b0);
    var s := Encode([b0]);
    assert g[2] == 'A' && g[3] == 'A';
    assert s == [g[0], g[1], '=', '='];
    assert [s[0], s[1], 'A', 'A'] == g;
    assert Quantum(g) % 65536 == 0;
    assert QuantumBytes(Quantum(g))[..1] == [b0];
  }

  lemma DecodeTwoBytes(b0: byte, b1: byte)
    ensures Decode(Encode([b0, b1])) == Some([b0, b1])
  {
    var g := EncodeGroup(b0, b1, 0);
    GroupQuantum(b0, b1, 0);
    SplitBytes(b0, b1, 0);
    PadOne(b0, b1);
    var s := Encode([b0, b1]);
    assert g[3] == 'A';
    assert s == [g[0], g[1], g[2], '='];
    assert [s[0], s[1], s[2], 'A'] == g;
    assert Quantum(g) % 256 == 0;
    assert QuantumBytes(Quantum(g))[..2] == [b0, b1];
  }

  lemma DecodeGroup(b0: byte, b1: byte, b2: byte, rest: string)
    requires Decode(rest).Some?
    ensures Decode(EncodeGroup(b0, b1, b2) + rest) == Some([b0, b1, b2] + Decode(rest).value)
  {
    var g := EncodeGroup(b0, b1, b2);
    GroupQuantum(b0, b1, b2);
    SplitBytes(b0, b1, b2);
    var s := g + rest;
    assert s[0] == g[0] && s[1] == g[1] && s[2] == g[2] && s[3] == g[3];
    assert s[4..] == rest;
    DecodeFull(s);
    assert Quantum(s) == Quantum(g);
  }

  /** Four alphabet characters in front decode as one full group. */
  lemma DecodeFull(s: string)
    requires |s| >= 4 && IsSymbol(s[0]) && IsSymbol(s[1]) && IsSymbol(s[2]) && IsSymbol(s[3])
    ensures Decode(s) == if Decode(s[4..]).Some? then Some(QuantumBytes(Quantum(s)) + Decode(s[4..]).value) else None
  {
  }

  /** Four characters for every started group of three bytes. */
  lemma {:induction false} EncodeLength(b: seq<byte>)
    ensures |Encode(b)| == 4 * ((|b| + 2) / 3)
    decreases |b|
  {
    if |b| >= 3 {
      EncodeLength(b[3..]);
      assert |Encode(b)| == 4 + |Encode(b[3..])|;
      assert (|b| + 2) / 3 == 1 + (|b[3..]| + 2) / 3;
    }
  }

  /** The encoding is made of alphabet characters and `=` only, so it holds
      no `:`, `;` or `,`. */
  lemma {:induction false} EncodeAlphabet(b: seq<byte>)
    ensures forall i :: 0 <= i < |Encode(b)| ==> IsSymbol(Encode(b)[i]) || Encode(b)[i] == '='
    decreases |b|
  {
    if |b| >= 3 {
      EncodeAlphabet(b[3..]);
      GroupQuantum(b[0], b[1], b[2]);
      var s := Encode(b);
      assert forall i :: 4 <= i < |s| ==> s[i] == Encode(b[3..])[i - 4];
    } else if |b| >= 1 {
      GroupQuantum(b[0], if |b| == 2 then b[1] else 0, 0);
    }
  }

  // ---------------------------------------------------------------------------

  /** The `data:` URI of RFC 2397 with the `;base64` marker. */
  function DataUri(mime: string, b: seq<byte>): string {
    "data:" + mime + ";base64," + Encode(b)
  }

  /** Reads a `data:` URI back: the media type in front of `;base64,` and
      the bytes after it. */
  function ParseDataUri(s: string): Option<(string, seq<byte>)> {
    if |s| < 5 || s[..5] != "data:" then None
    else
      var comma := CommaAt(s, 5);
      if comma.None? || comma.value < 12 || s[comma.value - 7..comma.value] != ";base64" then None
      else
        var data := Decode(s[comma.value + 1..]);
        if data.None? then None else Some((s[5..comma.value - 7], data.value))
  }

  /** Position of the first `,` at or after `from`. */
  function CommaAt(s: string, from: nat): (r: Option<nat>)
    requires from <= |s|
    ensures r.Some? ==> from <= r.value < |s| && s[r.value] == ',' &&
                        forall i :: from <= i < r.value ==> s[i] != ','
    ensures r.None? ==> forall i :: from <= i < |s| ==> s[i] != ','
    decreases |s| - from
  {
    if from == |s| then None
    else if s[from] == ',' then Some(from)
    else CommaAt(s, from + 1)
  }

  /** A media type without a comma is read back from the URI with the
      bytes. */
  lemma DataUriRoundTrip(mime: string, b: seq<byte>)
    requires ',' !in mime
    ensures ParseDataUri(DataUri(mime, b)) == Some((mime, b))
  {
    var s := DataUri(mime, b);
    var c := 5 + |mime| + 7;
    assert s[..5] == "data:";
    assert s[c] == ',';
    assert forall i :: 5 <= i < c ==> s[i] != ',' by {
      assert forall i :: 5 <= i < 5 + |mime| ==> s[i] == mime[i - 5];
    }
    assert CommaAt(s, 5) == Some(c) by { CommaFound(s, 5, c); }
    assert s[c - 7..c] == ";base64";
    assert s[c + 1..] == Encode(b);
    assert s[5..c - 7] == mime;
    DecodeEncode(b);
  }

  lemma {:induction false} CommaFound(s: string, from: nat, c: nat)
    requires from <= c < |s| && s[c] == ','
    requires forall i :: from <= i < c ==> s[i] != ','
    ensures CommaAt(s, from) == Some(c)
    decreases c - from
  {
    if from < c {
      CommaFound(s, from + 1, c);
    }
  }
}
