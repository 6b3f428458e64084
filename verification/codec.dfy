/** Values to registers and back (src/contract/codec.py; section 4.2 of the
    MODBUS Application Protocol Specification V1.1b3 fixes the byte order inside
    one register, the contract's meta the order of everything wider). */
module Codec {
  import opened Wrappers
  import opened Numbers
  import opened Binary32
  import opened Model

  /** The exceptions: ContractError for an unknown type or a wrong register
      count, struct.error for an integer out of range, OverflowError for a float
      that does not fit, ValueError or OverflowError for an integer made from
      something that is not a finite number, ZeroDivisionError for a zero scale. */
  datatype CodecError = UnknownType | WrongCount | StructError | FloatOverflow | NotANumber | ZeroDivision

  function Bits(t: RegType): int
    requires !t.Unknown?
  {
    if Width(t) == 1 then 0x1_0000 else 0x1_0000_0000
  }

  predicate Signed(t: RegType) {
    t.Int16? || t.Int32?
  }

  predicate IsInteger(t: RegType) {
    t.UInt16? || t.Int16? || t.UInt32? || t.Int32?
  }

  function MinOf(t: RegType): int
    requires IsInteger(t)
  {
    if Signed(t) then -(Bits(t) / 2) else 0
  }

  function MaxOf(t: RegType): int
    requires IsInteger(t)
  {
    if Signed(t) then Bits(t) / 2 - 1 else Bits(t) - 1
  }

  predicate InRange(k: int, t: RegType)
    requires IsInteger(t)
  {
    MinOf(t) <= k <= MaxOf(t)
  }

  predicate IsFinite(v: Float) {
    v.Finite? || v.NegZero?
  }

  function ToReal(v: Float): real
    requires IsFinite(v)
  {
    if v.Finite? then v.r else 0.0
  }

  /** Python's truth value of a number. */
  predicate Truthy(v: Float) {
    v != Finite(0.0) && v != NegZero
  }

  /** struct.pack as one unsigned number: two's complement, or binary32. */
  function Pattern(v: Float, t: RegType): Result<int, CodecError>
    requires IsInteger(t) || t.Float32?
  {
    if t.Float32? then
      match Pack(v)
      case None => Err(FloatOverflow)
      case Some(p) => Ok(p)
    else if !IsFinite(v) then Err(NotANumber)
    else
      var k := Trunc(ToReal(v));
      if !InRange(k, t) then Err(StructError)
      else Ok(if k < 0 then k + Bits(t) else k)
  }

  /** struct.unpack. */
  function Unpattern(p: int, t: RegType): Float
    requires (IsInteger(t) || t.Float32?) && 0 <= p < Bits(t)
  {
    if t.Float32? then Unpack(p)
    else if Signed(t) && p >= Bits(t) / 2 then Finite((p - Bits(t)) as real)
    else Finite(p as real)
  }

  function Swapped(word: int): int {
    word % 256 * 256 + word / 256
  }

  /** A 32-bit pattern in two registers, in the device's layout. */
  function Arrange(p: int, meta: Meta): seq<int> {
    var hi, lo := p / 0x1_0000, p % 0x1_0000;
    var high := if meta.byteOrder == "little" then Swapped(hi) else hi;
    var low := if meta.byteOrder == "little" then Swapped(lo) else lo;
    if meta.wordOrder == "low_first" then [low, high] else [high, low]
  }

  function Collect(words: seq<int>, meta: Meta): (p: int)
    requires |words| == 2 && Registers(words)
    ensures 0 <= p < 0x1_0000_0000
  {
    var first := if meta.byteOrder == "little" then Swapped(words[0]) else words[0];
    var second := if meta.byteOrder == "little" then Swapped(words[1]) else words[1];
    if meta.wordOrder == "low_first" then second * 0x1_0000 + first else first * 0x1_0000 + second
  }

  predicate Registers(words: seq<int>) {
    forall i :: 0 <= i < |words| ==> 0 <= words[i] < 0x1_0000
  }

  function WordsOf(v: Float, t: RegType, meta: Meta): (r: Result<seq<int>, CodecError>)
    ensures r.Ok? && !t.Unknown? ==> |r.value| == Width(t)
  {
    if t.Bool? then Ok([if Truthy(v) then 1 else 0])
    else if t.Unknown? then Err(UnknownType)
    else
      var p :- Pattern(v, t);
      if Width(t) == 1 then Ok([p]) else Ok(Arrange(p, meta))
  }

  /** bool(words[0]) is 1 or 0 in every use the repository makes of it. */
  function ValueOf(words: seq<int>, t: RegType, meta: Meta): Result<Float, CodecError>
    requires Registers(words) && (t.Bool? ==> words != [])
  {
    if t.Bool? then Ok(Finite(if words[0] != 0 then 1.0 else 0.0))
    else if t.Unknown? then Err(UnknownType)
    else if |words| != Width(t) then Err(WrongCount)
    else if |words| == 1 then Ok(Unpattern(words[0], t))
    else Ok(Unpattern(Collect(words, meta), t))
  }

  // ---------------------------------------------------------- as programs

  function Bytes(p: int, count: nat): seq<int>
    requires count == 2 || count == 4
  {
    if count == 2 then [p / 0x100 % 0x100, p % 0x100]
    else [p / 0x100_0000 % 0x100, p / 0x1_0000 % 0x100, p / 0x100 % 0x100, p % 0x100]
  }

  function FromBytes(bytes: seq<int>): int {
    if bytes == [] then 0 else FromBytes(bytes[..|bytes| - 1]) * 0x100 + bytes[|bytes| - 1]
  }

  lemma OneMoreByte(bytes: seq<int>, x: int)
    ensures FromBytes(bytes + [x]) == FromBytes(bytes) * 0x100 + x
  {
    assert (bytes + [x])[..|bytes|] == bytes;
  }

  lemma FourBytes(a: int, b: int, c: int, d: int)
    ensures FromBytes([a, b]) == a * 0x100 + b
    ensures FromBytes([a, b] + [c, d]) == (a * 0x100 + b) * 0x1_0000 + (c * 0x100 + d)
  {
    OneMoreByte([], a);
    assert [] + [a] == [a] && [a] + [b] == [a, b];
    OneMoreByte([a], b);
    OneMoreByte([a, b], c);
    OneMoreByte([a, b] + [c], d);
    assert [a, b] + [c] + [d] == [a, b] + [c, d];
  }

  lemma PatternFits(v: Float, t: RegType)
    requires IsInteger(t) || t.Float32?
    ensures Pattern(v, t).Ok? ==> 0 <= Pattern(v, t).value < Bits(t)
  {
    PackIsAPattern(v);
  }

  lemma BytePair(w: int)
    requires 0 <= w < 0x1_0000
    ensures var b := Bytes(w, 2);
            b[0] * 0x100 + b[1] == w && b[1] * 0x100 + b[0] == Swapped(w) && FromBytes(b) == w
            && FromBytes([b[1], b[0]]) == Swapped(w)
  {
    var b := Bytes(w, 2);
    FourBytes(b[0], b[1], 0, 0);
    FourBytes(b[1], b[0], 0, 0);
    assert b == [b[0], b[1]];
  }

  lemma JoinedPairs(first: seq<int>, second: seq<int>)
    requires |first| == 2 && |second| == 2
    ensures FromBytes(first + second) == FromBytes(first) * 0x1_0000 + FromBytes(second)
  {
    FourBytes(first[0], first[1], second[0], second[1]);
    FourBytes(second[0], second[1], 0, 0);
    assert first == [first[0], first[1]] && second == [second[0], second[1]];
  }

  lemma DigitsOfHalves(hi: int, lo: int, p: int)
    requires 0 <= lo < 0x1_0000 && p == hi * 0x1_0000 + lo
    ensures p / 0x1_0000 == hi && p % 0x1_0000 == lo
    ensures p / 0x100_0000 == hi / 0x100 && p / 0x100 % 0x100 == lo / 0x100 && p % 0x100 == lo % 0x100
  {
  }

  /** The four bytes are the byte pairs of the two halves. */
  lemma BytesOfHalves(p: int)
    requires 0 <= p < 0x1_0000_0000
    ensures Bytes(p, 4)[0..2] == Bytes(p / 0x1_0000, 2) && Bytes(p, 4)[2..4] == Bytes(p % 0x1_0000, 2)
  {
    DigitsOfHalves(p / 0x1_0000, p % 0x1_0000, p);
  }

  predicate Pairs(chunks: seq<seq<int>>) {
    forall j :: 0 <= j < |chunks| ==> |chunks[j]| == 2
  }

  /** [c[::-1] for c in chunks] */
  method ReverseEach(chunks: seq<seq<int>>) returns (r: seq<seq<int>>)
    requires Pairs(chunks)
    ensures |r| == |chunks| && forall j :: 0 <= j < |r| ==> r[j] == [chunks[j][1], chunks[j][0]]
  {
    r := [];
    for i := 0 to |chunks|
      invariant |r| == i && forall j :: 0 <= j < i ==> r[j] == [chunks[j][1], chunks[j][0]]
    {
      r := r + [[chunks[i][1], chunks[i][0]]];
    }
  }

  /** packed[i : i + 2] for every second i */
  method CutInPairs(packed: seq<int>) returns (chunks: seq<seq<int>>)
    requires |packed| % 2 == 0
    ensures |chunks| == |packed| / 2 && Pairs(chunks)
    ensures forall j :: 0 <= j < |chunks| ==> chunks[j] == packed[2 * j..2 * j + 2]
  {
    chunks := [];
    for i := 0 to |packed| / 2
      invariant |chunks| == i && forall j :: 0 <= j < i ==> chunks[j] == packed[2 * j..2 * j + 2]
    {
      chunks := chunks + [packed[2 * i..2 * i + 2]];
    }
  }

  /** int.from_bytes(c, "big") for c in chunks */
  method NumberEach(chunks: seq<seq<int>>) returns (words: seq<int>)
    ensures |words| == |chunks| && forall j :: 0 <= j < |words| ==> words[j] == FromBytes(chunks[j])
  {
    words := [];
    for i := 0 to |chunks|
      invariant |words| == i && forall j :: 0 <= j < i ==> words[j] == FromBytes(chunks[j])
    {
      words := words + [FromBytes(chunks[i])];
    }
  }

  /** value_to_words: pack, cut into two-byte chunks, then reverse the bytes of
      each chunk and the list of chunks as the layout asks. */
  method ValueToWords(v: Float, t: RegType, meta: Meta) returns (r: Result<seq<int>, CodecError>)
    ensures r == WordsOf(v, t, meta)
  {
    if t.Bool? {
      return Ok([if Truthy(v) then 1 else 0]);
    }
    if t.Unknown? {
      return Err(UnknownType);
    }
    var pattern := Pattern(v, t);
    if pattern.Err? {
      return Err(pattern.error);
    }
    PatternFits(v, t);
    var p := pattern.value;
    var chunks := CutInPairs(Bytes(p, 2 * Width(t)));
    if |chunks| > 1 {
      chunks := LayOut(chunks, p, meta);
    } else {
      assert chunks[0] == Bytes(p, 2);
      BytePair(p);
    }
    var words := NumberEach(chunks);
    assert words == if Width(t) == 1 then [p] else Arrange(p, meta);
    r := Ok(words);
  }

  /** The chunks of a 32-bit pattern, as the layout orders them. */
  method LayOut(packed: seq<seq<int>>, p: int, meta: Meta) returns (chunks: seq<seq<int>>)
    requires 0 <= p < 0x1_0000_0000 && |packed| == 2 && packed[0] == Bytes(p, 4)[0..2] && packed[1] == Bytes(p, 4)[2..4]
    ensures |chunks| == 2 && FromBytes(chunks[0]) == Arrange(p, meta)[0] && FromBytes(chunks[1]) == Arrange(p, meta)[1]
  {
    BytesOfHalves(p);
    BytePair(p / 0x1_0000);
    BytePair(p % 0x1_0000);
    chunks := packed;
    if meta.byteOrder == "little" {
      chunks := ReverseEach(chunks);
    }
    if meta.wordOrder == "low_first" {
      chunks := [chunks[1], chunks[0]];
    }
  }

  /** words_to_value: the same steps undone in the opposite order. */
  method WordsToValue(words: seq<int>, t: RegType, meta: Meta) returns (r: Result<Float, CodecError>)
    requires Registers(words) && (t.Bool? ==> words != [])
    ensures r == ValueOf(words, t, meta)
  {
    if t.Bool? {
      return Ok(Finite(if words[0] != 0 then 1.0 else 0.0));
    }
    if t.Unknown? {
      return Err(UnknownType);
    }
    var width := Width(t);
    if |words| != width {
      return Err(WrongCount);
    }
    var chunks: seq<seq<int>> := [];
    for i := 0 to width
      invariant |chunks| == i && forall j :: 0 <= j < i ==> chunks[j] == Bytes(words[j], 2)
    {
      chunks := chunks + [Bytes(words[i], 2)];
    }
    if width > 1 {
      if meta.wordOrder == "low_first" {
        chunks := [chunks[1], chunks[0]];
      }
      if meta.byteOrder == "little" {
        chunks := ReverseEach(chunks);
      }
    }
    var joined: seq<int> := [];
    for i := 0 to width
      invariant |chunks| == width
      invariant joined == if i == 0 then [] else if i == 1 then chunks[0] else chunks[0] + chunks[1]
    {
      joined := joined + chunks[i];
    }
    var p := FromBytes(joined);
    BytePair(words[0]);
    if width == 2 {
      BytePair(words[1]);
      JoinedPairs(chunks[0], chunks[1]);
      assert p == Collect(words, meta);
    }
    r := Ok(Unpattern(p, t));
  }

  // ------------------------------------------------------------ bijection

  lemma SwapTwice(w: int)
    requires 0 <= w < 0x1_0000
    ensures 0 <= Swapped(w) < 0x1_0000 && Swapped(Swapped(w)) == w
    ensures Swapped(w) == w <==> w / 256 == w % 256
  {
  }

  lemma JoinSplit(hi: int, lo: int)
    requires 0 <= hi < 0x1_0000 && 0 <= lo < 0x1_0000
    ensures 0 <= hi * 0x1_0000 + lo < 0x1_0000_0000
    ensures (hi * 0x1_0000 + lo) / 0x1_0000 == hi && (hi * 0x1_0000 + lo) % 0x1_0000 == lo
  {
  }

  lemma CollectInverts(p: int, meta: Meta)
    requires 0 <= p < 0x1_0000_0000
    ensures Registers(Arrange(p, meta)) && Collect(Arrange(p, meta), meta) == p
  {
    SwapTwice(p / 0x1_0000);
    SwapTwice(p % 0x1_0000);
  }

  lemma ArrangeInverts(words: seq<int>, meta: Meta)
    requires |words| == 2 && Registers(words)
    ensures 0 <= Collect(words, meta) < 0x1_0000_0000 && Arrange(Collect(words, meta), meta) == words
  {
    SwapTwice(words[0]);
    SwapTwice(words[1]);
    var first := if meta.byteOrder == "little" then Swapped(words[0]) else words[0];
    var second := if meta.byteOrder == "little" then Swapped(words[1]) else words[1];
    JoinSplit(first, second);
    JoinSplit(second, first);
  }

  lemma PatternInverts(k: int, t: RegType)
    requires IsInteger(t) && InRange(k, t)
    ensures var p := Pattern(Finite(k as real), t);
            p.Ok? && 0 <= p.value < Bits(t) && Unpattern(p.value, t) == Finite(k as real)
  {
    assert Trunc(k as real) == k;
  }

  lemma UnpatternInverts(p: int, t: RegType)
    requires IsInteger(t) && 0 <= p < Bits(t)
    ensures var v := Unpattern(p, t);
            v.Finite? && v.r == v.r.Floor as real && InRange(v.r.Floor, t) && Pattern(v, t) == Ok(p)
  {
    var k := if Signed(t) && p >= Bits(t) / 2 then p - Bits(t) else p;
    assert Unpattern(p, t) == Finite(k as real);
    assert Trunc(k as real) == k;
  }

  /** For every integer type and every layout, decoding inverts encoding on all
      representable values, */
  lemma DecodeInvertsEncode(k: int, t: RegType, meta: Meta)
    requires IsInteger(t) && InRange(k, t)
    ensures var w := WordsOf(Finite(k as real), t, meta);
            w.Ok? && Registers(w.value) && ValueOf(w.value, t, meta) == Ok(Finite(k as real))
  {
    PatternInverts(k, t);
    if Width(t) == 2 {
      CollectInverts(Pattern(Finite(k as real), t).value, meta);
    }
  }

  /** and encoding inverts decoding on all registers. */
  lemma EncodeInvertsDecode(words: seq<int>, t: RegType, meta: Meta)
    requires IsInteger(t) && |words| == Width(t) && Registers(words)
    ensures var v := ValueOf(words, t, meta);
            v.Ok? && v.value.Finite? && v.value.r == v.value.r.Floor as real && WordsOf(v.value, t, meta) == Ok(words)
  {
    if Width(t) == 2 {
      ArrangeInverts(words, meta);
      UnpatternInverts(Collect(words, meta), t);
    } else {
      UnpatternInverts(words[0], t);
      assert words == [words[0]];
    }
  }

  /** The same for binary32: every register pair that is not a NaN comes back,
      and every value is restored to its own rounding. */
  lemma FloatBijection(v: Float, words: seq<int>, meta: Meta)
    requires |words| == 2 && Registers(words)
    ensures var w := WordsOf(v, Float32, meta);
            w.Ok? ==> Registers(w.value) && 0 <= Pack(v).value < 0x1_0000_0000
                      && ValueOf(w.value, Float32, meta) == Ok(Unpack(Pack(v).value))
    ensures var u := ValueOf(words, Float32, meta);
            u.Ok? && (u.value != NaN ==> WordsOf(u.value, Float32, meta) == Ok(words))
  {
    PatternFits(v, Float32);
    if Pack(v).Some? {
      CollectInverts(Pack(v).value, meta);
    }
    ArrangeInverts(words, meta);
    var q := Collect(words, meta);
    if Unpack(q) != NaN {
      PatternSurvives(q);
    }
  }

  // ------------------------------------------------ guessing the layout wrong

  function FlipWords(meta: Meta): Meta {
    meta.(wordOrder := if meta.wordOrder == "low_first" then "high_first" else "low_first")
  }

  function FlipBytes(meta: Meta): Meta {
    meta.(byteOrder := if meta.byteOrder == "little" then "big" else "little")
  }

  lemma UnpatternIsInjective(p: int, q: int, t: RegType)
    requires IsInteger(t) || t.Float32?
    requires 0 <= p < Bits(t) && 0 <= q < Bits(t)
    requires t.Float32? ==> Unpack(p) != NaN && Unpack(q) != NaN
    ensures Unpattern(p, t) == Unpattern(q, t) <==> p == q
  {
    if t.Float32? {
      PatternSurvives(p);
      PatternSurvives(q);
    }
  }

  lemma JoinsAgreeIff(a: int, b: int, c: int, d: int)
    requires 0 <= b < 0x1_0000 && 0 <= d < 0x1_0000
    ensures a * 0x1_0000 + b == c * 0x1_0000 + d <==> a == c && b == d
  {
  }

  lemma SwappedAgreeIff(w: int, x: int)
    requires 0 <= w < 0x1_0000 && 0 <= x < 0x1_0000
    ensures 0 <= Swapped(w) < 0x1_0000
    ensures Swapped(w) == x <==> w / 256 == x % 256 && w % 256 == x / 256
    ensures Swapped(w) == Swapped(x) <==> w == x
  {
    SwapTwice(w);
    SwapTwice(x);
  }

  function InOrder(word: int, meta: Meta): int {
    if meta.byteOrder == "little" then Swapped(word) else word
  }

  /** Two layouts read the same pattern. */
  lemma WordsFlippedAgreeIff(words: seq<int>, meta: Meta)
    requires |words| == 2 && Registers(words)
    ensures Collect(words, FlipWords(meta)) == Collect(words, meta) <==> words[0] == words[1]
  {
    var first, second := InOrder(words[0], meta), InOrder(words[1], meta);
    SwappedAgreeIff(words[0], words[1]);
    SwappedAgreeIff(words[1], words[0]);
    JoinsAgreeIff(first, second, second, first);
  }

  lemma BytesFlippedAgreeIff(words: seq<int>, meta: Meta)
    requires |words| == 2 && Registers(words)
    ensures Collect(words, FlipBytes(meta)) == Collect(words, meta) <==>
            words[0] / 256 == words[0] % 256 && words[1] / 256 == words[1] % 256
  {
    var w, x := words[0], words[1];
    SwappedAgreeIff(w, w);
    SwappedAgreeIff(x, x);
    JoinsAgreeIff(w, x, Swapped(w), Swapped(x));
    JoinsAgreeIff(x, w, Swapped(x), Swapped(w));
  }

  lemma BothFlippedAgreeIff(words: seq<int>, meta: Meta)
    requires |words| == 2 && Registers(words)
    ensures Collect(words, FlipWords(FlipBytes(meta))) == Collect(words, meta) <==>
            words[0] / 256 == words[1] % 256 && words[0] % 256 == words[1] / 256
  {
    var w, x := words[0], words[1];
    SwappedAgreeIff(w, x);
    SwappedAgreeIff(x, w);
    JoinsAgreeIff(w, x, Swapped(x), Swapped(w));
    JoinsAgreeIff(x, w, Swapped(w), Swapped(x));
  }

  /** A reader with the wrong layout gets the right number only by accident, and
      which accident depends on what it guessed wrong. */
  lemma WrongLayoutAgreesIff(words: seq<int>, t: RegType, meta: Meta, wrong: Meta)
    requires (IsInteger(t) || t.Float32?) && Width(t) == 2 && |words| == 2 && Registers(words)
    requires wrong == FlipWords(meta) || wrong == FlipBytes(meta) || wrong == FlipWords(FlipBytes(meta))
    requires t.Float32? ==> ValueOf(words, t, meta) != Ok(NaN) && ValueOf(words, t, wrong) != Ok(NaN)
    ensures ValueOf(words, t, wrong) == ValueOf(words, t, meta) <==>
            if wrong == FlipWords(meta) then words[0] == words[1]
            else if wrong == FlipBytes(meta) then
              words[0] / 256 == words[0] % 256 && words[1] / 256 == words[1] % 256
            else words[0] / 256 == words[1] % 256 && words[0] % 256 == words[1] / 256
  {
    if wrong == FlipWords(meta) {
      WordsFlippedAgreeIff(words, meta);
    } else if wrong == FlipBytes(meta) {
      BytesFlippedAgreeIff(words, meta);
    } else {
      BothFlippedAgreeIff(words, meta);
    }
    UnpatternIsInjective(Collect(words, wrong), Collect(words, meta), t);
  }

  // ------------------------------------------------- the words on the wire

  /** Four bytes, most significant first, in each of the four layouts. */
  lemma LayoutsOnTheWire(a: int, b: int, c: int, d: int, v: int, meta: Meta)
    requires 0 <= a < 256 && 0 <= b < 256 && 0 <= c < 256 && 0 <= d < 256
    requires v == a * 0x100_0000 + b * 0x1_0000 + c * 0x100 + d
    ensures var high, low := a * 0x100 + b, c * 0x100 + d;
            var hgih, wol := b * 0x100 + a, d * 0x100 + c;
            Arrange(v, meta)
            == (if meta.byteOrder != "little" then if meta.wordOrder != "low_first" then [high, low] else [low, high]
                else if meta.wordOrder != "low_first" then [hgih, wol] else [wol, hgih])
  {
    DigitsOfHalves(a * 0x100 + b, c * 0x100 + d, v);
  }

  /** Two registers: an unsigned number as it is, a negative one as two's complement. */
  lemma TwoRegistersOnTheWire(k: int, meta: Meta)
    ensures 0 <= k < 0x1_0000_0000 ==> WordsOf(Finite(k as real), UInt32, meta) == Ok(Arrange(k, meta))
    ensures 0 <= k < 0x8000_0000 ==> WordsOf(Finite(k as real), Int32, meta) == Ok(Arrange(k, meta))
    ensures -0x8000_0000 <= k < 0 ==> WordsOf(Finite(k as real), Int32, meta) == Ok(Arrange(k + 0x1_0000_0000, meta))
  {
    assert Trunc(k as real) == k;
  }

  /** One register: an unsigned number as it is, a negative one as two's complement,
      and a truth value as 1 or 0, in every layout. */
  lemma OneRegisterOnTheWire(k: int, v: Float, meta: Meta)
    ensures 0 <= k < 0x1_0000 ==> WordsOf(Finite(k as real), UInt16, meta) == Ok([k])
    ensures 0 <= k < 0x8000 ==> WordsOf(Finite(k as real), Int16, meta) == Ok([k])
    ensures -0x8000 <= k < 0 ==> WordsOf(Finite(k as real), Int16, meta) == Ok([k + 0x1_0000])
    ensures WordsOf(v, Bool, meta) == Ok([if v == Finite(0.0) || v == NegZero then 0 else 1])
    ensures 0 <= k < 0x1_0000 ==> ValueOf([k], Bool, meta) == Ok(Finite(if k == 0 then 0.0 else 1.0))
  {
    assert Trunc(k as real) == k;
  }

  // --------------------------------------------------------------- scaling

  function Encode(m: Mapping, v: Float, meta: Meta): Result<seq<int>, CodecError> {
    if m.typ.Bool? then WordsOf(v, m.typ, meta)
    else if m.scale == 0.0 then Err(ZeroDivision)
    else
      var scaled := Unscaled(v, m.scale);
      if m.typ.Float32? then WordsOf(scaled, m.typ, meta)
      else if !IsFinite(scaled) then Err(NotANumber)
      else WordsOf(Finite(RoundHalfEven(ToReal(scaled)) as real), m.typ, meta)
  }

  function Decode(m: Mapping, words: seq<int>, meta: Meta): Result<Float, CodecError>
    requires Registers(words) && (m.typ.Bool? ==> words != [])
  {
    var v :- ValueOf(words, m.typ, meta);
    if m.typ.Bool? then Ok(v) else Ok(Scaled(v, m.scale))
  }

  /** When encode raises, and what: a zero scale, something that is not a number for
      a register that is not a float, an unknown type, an integer out of range, a
      float too large. */
  lemma EncodeFailsAs(m: Mapping, v: Float, meta: Meta)
    ensures m.typ.Bool? ==> Encode(m, v, meta).Ok?
    ensures Encode(m, v, meta) == Err(ZeroDivision) <==> !m.typ.Bool? && m.scale == 0.0
    ensures Encode(m, v, meta) == Err(NotANumber) <==>
            !m.typ.Bool? && !m.typ.Float32? && m.scale != 0.0 && (v == NaN || v == PosInf || v == NegInf)
    ensures Encode(m, v, meta) == Err(UnknownType) <==>
            m.typ.Unknown? && m.scale != 0.0 && v != NaN && v != PosInf && v != NegInf
    ensures Encode(m, v, meta) == Err(StructError) ==> IsInteger(m.typ)
    ensures Encode(m, v, meta) == Err(FloatOverflow) ==> m.typ.Float32?
    ensures Encode(m, v, meta) != Err(WrongCount)
  {
  }

  /** And decode: an unknown type, or a number of words that is not the type's. */
  lemma DecodeFailsAs(m: Mapping, words: seq<int>, meta: Meta)
    requires Registers(words) && (m.typ.Bool? ==> words != [])
    ensures Decode(m, words, meta) == Err(UnknownType) <==> m.typ.Unknown?
    ensures Decode(m, words, meta) == Err(WrongCount) <==>
            ((m.typ.UInt16? || m.typ.Int16?) && |words| != 1)
            || ((m.typ.UInt32? || m.typ.Int32? || m.typ.Float32?) && |words| != 2)
    ensures Decode(m, words, meta).Ok? || Decode(m, words, meta) == Err(UnknownType) || Decode(m, words, meta) == Err(WrongCount)
  {
  }

  /** Scaling is the product and the quotient, for scales of either sign and zero;
      an infinity keeps its sign or changes it with the scale's, and NaN is NaN. */
  lemma ScalingIs(x: Float, scale: real)
    ensures IsFinite(x) ==> IsFinite(Scaled(x, scale)) && ToReal(Scaled(x, scale)) == ToReal(x) * scale
    ensures IsFinite(x) && scale != 0.0 ==> IsFinite(Unscaled(x, scale)) && ToReal(Unscaled(x, scale)) == ToReal(x) / scale
    ensures x == NaN ==> Scaled(x, scale) == NaN && (scale != 0.0 ==> Unscaled(x, scale) == NaN)
    ensures (x == PosInf && scale > 0.0) || (x == NegInf && scale < 0.0) ==> Scaled(x, scale) == PosInf && Unscaled(x, scale) == PosInf
    ensures (x == NegInf && scale > 0.0) || (x == PosInf && scale < 0.0) ==> Scaled(x, scale) == NegInf && Unscaled(x, scale) == NegInf
    ensures (x == PosInf || x == NegInf) && scale == 0.0 ==> Scaled(x, scale) == NaN
  {
    if IsFinite(x) {
      ProductSign(ToReal(x), scale);
    }
  }

  lemma ProductSign(r: real, scale: real)
    ensures r * -scale == -(r * scale)
    ensures scale != 0.0 ==> r / -scale == -(r / scale)
    ensures scale != 0.0 && r == 0.0 ==> r / scale == 0.0 && r / -scale == 0.0
  {
    if scale != 0.0 {
      var q := r / scale;
      assert q * scale == r && -q * -scale == r;
      assert -q == r / -scale;
    }
  }

  lemma RoundsInRangeIff(u: real, n: int, t: RegType)
    requires IsInteger(t) && n == RoundHalfEven(u)
    ensures InRange(n, t) <==> MinOf(t) as real - 0.5 <= u < MaxOf(t) as real + 0.5
  {
    RoundIsNearestEven(u, n);
    RoundIsNearestEven(u, MinOf(t));
    RoundIsNearestEven(u, MaxOf(t));
  }

  lemma PatternOfInteger(n: int, t: RegType, meta: Meta)
    requires IsInteger(t)
    ensures WordsOf(Finite(n as real), t, meta).Ok? <==> InRange(n, t)
    ensures WordsOf(Finite(n as real), t, meta).Err? ==> WordsOf(Finite(n as real), t, meta) == Err(StructError)
  {
    assert Trunc(n as real) == n;
  }

  /** Exactly the values within half a unit of the type's range are accepted:
      the half unit below the minimum rounds up to it, the half unit above the
      maximum rounds away from it. */
  lemma EncodeAcceptsIff(m: Mapping, v: real, meta: Meta)
    requires IsInteger(m.typ) && m.scale > 0.0
    ensures Encode(m, Finite(v), meta).Ok?
            <==> MinOf(m.typ) as real - 0.5 <= v / m.scale < MaxOf(m.typ) as real + 0.5
    ensures Encode(m, Finite(v), meta).Err? ==> Encode(m, Finite(v), meta) == Err(StructError)
  {
    var n := RoundHalfEven(v / m.scale);
    RoundsInRangeIff(v / m.scale, n, m.typ);
    PatternOfInteger(n, m.typ, meta);
    EncodeRounds(m, v, meta, n);
  }

  lemma EncodeRounds(m: Mapping, v: real, meta: Meta, n: int)
    requires IsInteger(m.typ) && m.scale > 0.0 && n == RoundHalfEven(v / m.scale)
    ensures Encode(m, Finite(v), meta) == WordsOf(Finite(n as real), m.typ, meta)
    ensures Encode(m, Finite(v), meta).Ok? <==> InRange(n, m.typ)
  {
    assert Trunc(n as real) == n;
  }

  lemma RoundingError(v: real, scale: real, n: int, back: real)
    requires scale > 0.0 && n == RoundHalfEven(v / scale) && back == n as real * scale
    ensures Abs(back - v) <= scale / 2.0
  {
    RoundIsNearestEven(v / scale, n);
    HalfUnit(n as real, v / scale, scale, v, back);
  }

  lemma ScaledIs(u: real, scale: real, back: real)
    requires scale > 0.0 && back == u * scale
    ensures Scaled(Finite(u), scale) == Finite(back)
  {
  }

  lemma DecodeScales(m: Mapping, words: seq<int>, meta: Meta, v: Float)
    requires IsInteger(m.typ) && m.scale > 0.0 && Registers(words)
    requires ValueOf(words, m.typ, meta) == Ok(v)
    ensures Decode(m, words, meta) == Ok(Scaled(v, m.scale))
  {
  }

  lemma DecodeOfWords(m: Mapping, words: seq<int>, meta: Meta, u: real, back: real)
    requires IsInteger(m.typ) && m.scale > 0.0 && Registers(words) && back == u * m.scale
    requires ValueOf(words, m.typ, meta) == Ok(Finite(u))
    ensures Decode(m, words, meta) == Ok(Finite(back))
  {
    DecodeScales(m, words, meta, Finite(u));
    ScaledIs(u, m.scale, back);
  }

  lemma WordsOfInteger(n: int, t: RegType, meta: Meta) returns (words: seq<int>)
    requires IsInteger(t) && InRange(n, t)
    ensures WordsOf(Finite(n as real), t, meta) == Ok(words) && Registers(words)
    ensures ValueOf(words, t, meta) == Ok(Finite(n as real))
  {
    DecodeInvertsEncode(n, t, meta);
    words := WordsOf(Finite(n as real), t, meta).value;
  }

  lemma Rounded(v: real, scale: real) returns (n: int, u: real, back: real)
    requires scale > 0.0
    ensures n == RoundHalfEven(v / scale) && u == n as real && back == u * scale && Abs(back - v) <= scale / 2.0
  {
    n := RoundHalfEven(v / scale);
    u := n as real;
    back := u * scale;
    RoundingError(v, scale, n, back);
  }

  lemma EncodedWords(m: Mapping, v: real, meta: Meta, n: int) returns (words: seq<int>)
    requires IsInteger(m.typ) && m.scale > 0.0 && Encode(m, Finite(v), meta).Ok? && n == RoundHalfEven(v / m.scale)
    ensures Encode(m, Finite(v), meta) == Ok(words)
    ensures Registers(words) && ValueOf(words, m.typ, meta) == Ok(Finite(n as real))
  {
    EncodeRounds(m, v, meta, n);
    words := WordsOfInteger(n, m.typ, meta);
  }

  lemma NearValue(m: Mapping, words: seq<int>, meta: Meta, v: real, u: real, back: real)
    requires IsInteger(m.typ) && m.scale > 0.0 && Registers(words)
    requires ValueOf(words, m.typ, meta) == Ok(Finite(u)) && back == u * m.scale && Abs(back - v) <= m.scale / 2.0
    ensures Decode(m, words, meta).Ok? && Decode(m, words, meta).value.Finite?
            && Abs(Decode(m, words, meta).value.r - v) <= m.scale / 2.0
  {
    DecodeOfWords(m, words, meta, u, back);
  }

  /** An accepted value comes back within half a unit of the scale. */
  lemma DecodeOfEncode(m: Mapping, v: real, meta: Meta)
    requires IsInteger(m.typ) && m.scale > 0.0 && Encode(m, Finite(v), meta).Ok?
    ensures var words := Encode(m, Finite(v), meta).value;
            Registers(words) && Decode(m, words, meta).Ok? && Decode(m, words, meta).value.Finite?
            && Abs(Decode(m, words, meta).value.r - v) <= m.scale / 2.0
  {
    var n, u, back := Rounded(v, m.scale);
    var words := EncodedWords(m, v, meta, n);
    NearValue(m, words, meta, v, u, back);
  }

  lemma UnscaledScaled(v: Float, scale: real)
    requires scale > 0.0
    ensures Unscaled(Scaled(v, scale), scale) == v
  {
    if v.Finite? {
      assert v.r * scale / scale == v.r;
    }
  }

  /** Whatever registers hold is what encoding their value writes back. */
  lemma EncodeOfDecode(m: Mapping, words: seq<int>, meta: Meta)
    requires (IsInteger(m.typ) || m.typ.Float32?) && m.scale > 0.0
    requires |words| == Width(m.typ) && Registers(words)
    requires m.typ.Float32? ==> ValueOf(words, m.typ, meta) != Ok(NaN)
    ensures Decode(m, words, meta).Ok? && Encode(m, Decode(m, words, meta).value, meta) == Ok(words)
  {
    if m.typ.Float32? {
      FloatBijection(Finite(0.0), words, meta);
      UnscaledScaled(ValueOf(words, m.typ, meta).value, m.scale);
    } else {
      EncodeInvertsDecode(words, m.typ, meta);
      var u := ValueOf(words, m.typ, meta).value;
      UnscaledScaled(u, m.scale);
      RoundIsNearestEven(u.r, u.r.Floor);
    }
  }

  /** One write and one poll later nothing moves any more: the polled value, sent
      again, writes the registers that are already there. */
  lemma OneTripIsAFixpoint(m: Mapping, v: Float, meta: Meta)
    requires (IsInteger(m.typ) || m.typ.Float32?) && m.scale > 0.0 && Encode(m, v, meta).Ok?
    requires v != NaN
    ensures var words := Encode(m, v, meta).value;
            Registers(words) && Decode(m, words, meta).Ok?
            && Encode(m, Decode(m, words, meta).value, meta) == Ok(words)
  {
    var words := Encode(m, v, meta).value;
    if m.typ.Float32? {
      var scaled := Unscaled(v, m.scale);
      FloatBijection(scaled, [0, 0], meta);
      PackIsAPattern(scaled);
      assert ValueOf(words, m.typ, meta) == Ok(Unpack(Pack(scaled).value));
    } else {
      var n := RoundHalfEven(ToReal(Unscaled(v, m.scale)));
      assert Trunc(n as real) == n;
      DecodeInvertsEncode(n, m.typ, meta);
    }
    EncodeOfDecode(m, words, meta);
  }

  /** The registers that decode to NaN: exponent all ones and a fraction. */
  lemma DecodesToNaNIff(m: Mapping, words: seq<int>, meta: Meta)
    requires m.typ.Float32? && m.scale > 0.0 && |words| == 2 && Registers(words)
    ensures Decode(m, words, meta) == Ok(NaN) <==> Collect(words, meta) % TWO_31 > INFINITY
  {
  }
}
