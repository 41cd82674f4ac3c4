/** Percent decoding of an extended header parameter, down to the bytes that are then read as UTF-8. */
module PercentDecode {
  import opened Wrappers

  type byte = x: int | 0 <= x < 256

  const PERCENT: byte := '%' as int

  /** The value of a hexadecimal digit, in either case. */
  function Hex(b: byte): (h: Option<byte>)
    ensures h.Some? ==> h.value < 16 && b != PERCENT
  {
    if '0' as int <= b <= '9' as int then Some(b - '0' as int)
    else if 'a' as int <= b <= 'f' as int then Some(b - 'a' as int + 10)
    else if 'A' as int <= b <= 'F' as int then Some(b - 'A' as int + 10)
    else None
  }

  /** The digits, in both cases, are these sixteen and no others. */
  lemma HexDigits(b: byte, v: byte)
    ensures Hex(b) == Some(v) <==>
              v < 16 && (b == "0123456789abcdef"[v] as int || b == "0123456789ABCDEF"[v] as int)
  {}

  /** A valid escape starts at position `i`. */
  predicate EscapeAt(s: seq<byte>, i: nat) {
    i + 2 < |s| && s[i] == PERCENT && Hex(s[i + 1]).Some? && Hex(s[i + 2]).Some?
  }

  function Unescape(hi: byte, lo: byte): byte
    requires Hex(hi).Some? && Hex(lo).Some?
  {
    Hex(hi).value * 16 + Hex(lo).value
  }

  function Decode(s: seq<byte>): seq<byte> {
    if s == [] then []
    else if EscapeAt(s, 0) then [Unescape(s[1], s[2])] + Decode(s[3..])
    else [s[0]] + Decode(s[1..])
  }

  /** One pass of the loop: what is left of the input, with its first byte or escape taken off. */
  lemma DecodeFrom(s: seq<byte>, i: nat)
    requires i < |s|
    ensures EscapeAt(s, i) ==> Decode(s[i..]) == [Unescape(s[i + 1], s[i + 2])] + Decode(s[i + 3..])
    ensures !EscapeAt(s, i) ==> Decode(s[i..]) == [s[i]] + Decode(s[i + 1..])
  {
    var rest := s[i..];
    assert rest[1..] == s[i + 1..];
    if EscapeAt(s, i) {
      assert rest[1] == s[i + 1] && rest[2] == s[i + 2];
      assert rest[3..] == s[i + 3..];
    }
  }

  lemma MoveOver(out: seq<byte>, b: byte, rest: seq<byte>)
    ensures out + ([b] + rest) == (out + [b]) + rest
  {}

  method Run(input: seq<byte>) returns (out: seq<byte>)
    ensures out == Decode(input)
  {
    out := [];
    var i := 0;
    assert input[0..] == input;
    while i < |input|
      invariant i <= |input|
      invariant Decode(input) == out + Decode(input[i..])
    {
      DecodeFrom(input, i);
      if input[i] == PERCENT && i + 2 < |input| && Hex(input[i + 1]).Some? && Hex(input[i + 2]).Some? {
        MoveOver(out, Unescape(input[i + 1], input[i + 2]), Decode(input[i + 3..]));
        out := out + [Unescape(input[i + 1], input[i + 2])];
        i := i + 3;
      } else {
        MoveOver(out, input[i], Decode(input[i + 1..]));
        out := out + [input[i]];
        i := i + 1;
      }
    }
  }

  // ---------------------------------------------------------------- what decoding means

  /** One way to write one byte: as itself, or as '%' and two hexadecimal digits. */
  datatype Piece = Literal(value: byte) | Escaped(hi: byte, lo: byte) {
    predicate Valid() {
      if Literal? then value != PERCENT else Hex(hi).Some? && Hex(lo).Some?
    }

    function Written(): seq<byte> {
      if Literal? then [value] else [PERCENT, hi, lo]
    }

    function Meant(): byte
      requires Valid()
    {
      if Literal? then value else Unescape(hi, lo)
    }
  }

  function Written(ps: seq<Piece>): seq<byte> {
    if ps == [] then [] else ps[0].Written() + Written(ps[1..])
  }

  function Meant(ps: seq<Piece>): (r: seq<byte>)
    requires forall p :: p in ps ==> p.Valid()
    ensures |r| == |ps| && forall i :: 0 <= i < |ps| ==> r[i] == ps[i].Meant()
  {
    if ps == [] then [] else [ps[0].Meant()] + Meant(ps[1..])
  }

  /** Decoding undoes every encoding, whichever bytes it escapes and in whichever case it writes the digits. */
  lemma {:induction false} DecodeInvertsEveryEncoding(ps: seq<Piece>)
    requires forall p :: p in ps ==> p.Valid()
    ensures Decode(Written(ps)) == Meant(ps)
  {
    if ps != [] {
      DecodeInvertsEveryEncoding(ps[1..]);
      var head, tail := ps[0].Written(), Written(ps[1..]);
      assert (head + tail)[|head|..] == tail;
      assert ps[0] in ps;
    }
  }

  function Digit(n: nat): (b: byte)
    requires n < 16
    ensures Hex(b) == Some(n)
  {
    if n < 10 then '0' as int + n else 'A' as int + (n - 10)
  }

  /** The encoding that escapes the bytes `escape` asks for, and the percent sign. */
  function Encoding(d: seq<byte>, escape: byte -> bool): (ps: seq<Piece>)
    ensures forall p :: p in ps ==> p.Valid()
  {
    if d == [] then []
    else
      [if escape(d[0]) || d[0] == PERCENT then Escaped(Digit(d[0] / 16), Digit(d[0] % 16)) else Literal(d[0])]
      + Encoding(d[1..], escape)
  }

  lemma {:induction false} EncodingMeansIt(d: seq<byte>, escape: byte -> bool)
    ensures Meant(Encoding(d, escape)) == d
  {
    if d != [] {
      EncodingMeansIt(d[1..], escape);
    }
  }

  /** So every byte string survives being encoded and decoded, percent signs included. */
  lemma RoundTrip(d: seq<byte>, escape: byte -> bool)
    ensures Decode(Written(Encoding(d, escape))) == d
  {}

  lemma TailEscapes(s: seq<byte>, k: nat)
    requires k <= |s|
    ensures forall i :: 0 <= i <= |s| - k ==> (EscapeAt(s[k..], i) <==> EscapeAt(s, i + k))
  {}

  /** Decoding never lengthens, shortens at most to a third, and changes the length exactly when there is an escape. */
  lemma {:induction false} DecodeShrinks(s: seq<byte>)
    ensures |Decode(s)| <= |s| <= 3 * |Decode(s)|
    ensures |Decode(s)| == |s| <==> forall i :: 0 <= i < |s| ==> !EscapeAt(s, i)
  {
    if s != [] {
      var k := if EscapeAt(s, 0) then 3 else 1;
      DecodeShrinks(s[k..]);
      TailEscapes(s, k);
      if k == 1 {
        assert forall i :: 0 < i < |s| ==> (EscapeAt(s, i) <==> EscapeAt(s[1..], i - 1));
      }
    }
  }

  /** Text is left as it is exactly when it contains no valid escape; stray percent signs do no harm. */
  lemma {:induction false} UnchangedWithoutEscapes(s: seq<byte>)
    ensures Decode(s) == s <==> forall i :: 0 <= i < |s| ==> !EscapeAt(s, i)
  {
    DecodeShrinks(s);
    if s != [] && !EscapeAt(s, 0) {
      UnchangedWithoutEscapes(s[1..]);
      TailEscapes(s, 1);
      assert s == [s[0]] + s[1..];
      assert forall i :: 0 < i < |s| ==> (EscapeAt(s, i) <==> EscapeAt(s[1..], i - 1));
    }
  }
}
