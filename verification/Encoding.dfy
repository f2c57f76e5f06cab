/** String and key codecs: zero-terminated UTF-16LE, and unsigned 32-bit little-endian. */
module Encoding {
  import opened Common

  type Byte = x: int | 0 <= x < 0x100
  /** A UTF-16 code unit, lone surrogates and NUL included. */
  type Unit = x: int | 0 <= x < 0x1_0000

  const CHUNK_SIZE := 0x8000

  // ----------------------------------------------------------------- strings

  function Low(u: Unit): Byte { u % 0x100 }

  function High(u: Unit): Byte { u / 0x100 }

  /** The bytes of a string: each unit little-endian, then a zero unit. */
  function Encoded(s: seq<Unit>): (b: seq<Byte>)
    ensures |b| == 2 * |s| + 2
  {
    if s == [] then [0, 0] else [Low(s[0]), High(s[0])] + Encoded(s[1..])
  }

  predicate Terminated(b: seq<Byte>) { |b| >= 2 && |b| % 2 == 0 && b[|b| - 2] == 0 && b[|b| - 1] == 0 }

  /** The unit at position `i`. */
  function UnitAt(b: seq<Byte>, i: nat): Unit
    requires 2 * i + 1 < |b|
  {
    b[2 * i] as int + 0x100 * (b[2 * i + 1] as int)
  }

  /** The units `from` up to `to`, in one piece. */
  function Units(b: seq<Byte>, from: nat, to: nat): (s: seq<Unit>)
    requires from <= to && 2 * to <= |b|
    ensures |s| == to - from && forall i :: 0 <= i < |s| ==> s[i] == UnitAt(b, from + i)
  {
    if from == to then [] else Units(b, from, to - 1) + [UnitAt(b, to - 1)]
  }

  function Decoded(b: seq<Byte>): Option<seq<Unit>> {
    if Terminated(b) then Some(Units(b, 0, |b| / 2 - 1)) else None
  }

  lemma {:induction false} EncodedAt(s: seq<Unit>, i: nat)
    requires i < |s|
    ensures Encoded(s)[2 * i] == Low(s[i]) && Encoded(s)[2 * i + 1] == High(s[i])
  {
    if i > 0 { EncodedAt(s[1..], i - 1); }
  }

  /** The low byte of each unit comes first. */
  lemma LittleEndian(s: seq<Unit>, i: nat)
    requires i < |s|
    ensures Encoded(s)[2 * i] as int + 0x100 * (Encoded(s)[2 * i + 1] as int) == s[i]
  {
    EncodedAt(s, i);
    UnitRoundTrip(s[i]);
  }

  /** A zero unit ends the encoding. */
  lemma {:induction false} EncodedEnds(s: seq<Unit>)
    ensures Terminated(Encoded(s)) && Encoded(s)[2 * |s|] == 0 && Encoded(s)[2 * |s| + 1] == 0
  {
    if s != [] { EncodedEnds(s[1..]); }
  }

  lemma UnitRoundTrip(u: Unit)
    ensures Low(u) + 0x100 * High(u) == u
  {}

  /** Every string survives the round trip, whatever its code units. */
  lemma DecodeEncoded(s: seq<Unit>)
    ensures Decoded(Encoded(s)) == Some(s)
  {
    EncodedEnds(s);
    var b := Encoded(s);
    forall i | 0 <= i < |s| ensures Units(b, 0, |s|)[i] == s[i] {
      EncodedAt(s, i);
      UnitRoundTrip(s[i]);
    }
    assert Units(b, 0, |s|) == s;
  }

  /** Every accepted byte sequence is the encoding of what it decodes to. */
  lemma EncodeDecoded(b: seq<Byte>)
    requires Decoded(b).Some?
    ensures Encoded(Decoded(b).value) == b
  {
    var s := Decoded(b).value;
    EncodedEnds(s);
    forall i | 0 <= i < |s| ensures Encoded(s)[2 * i] == b[2 * i] && Encoded(s)[2 * i + 1] == b[2 * i + 1] {
      EncodedAt(s, i);
    }
    forall k | 0 <= k < |b| ensures Encoded(s)[k] == b[k] {
      if k < 2 * |s| {
        assert k == 2 * (k / 2) || k == 2 * (k / 2) + 1;
      }
    }
  }

  method SetUint16(bytes: array<Byte>, offset: nat, u: Unit)
    requires offset + 1 < bytes.Length
    modifies bytes
    ensures bytes[offset] == Low(u) && bytes[offset + 1] == High(u)
    ensures forall k :: 0 <= k < bytes.Length && k != offset && k != offset + 1 ==> bytes[k] == old(bytes[k])
  {
    bytes[offset], bytes[offset + 1] := Low(u), High(u);
  }

  method EncodeString(value: seq<Unit>) returns (bytes: array<Byte>)
    ensures fresh(bytes) && bytes[..] == Encoded(value)
  {
    bytes := new Byte[(|value| + 1) * 2](_ => 0);
    for index := 0 to |value|
      invariant forall k :: 0 <= k < index ==> bytes[2 * k] == Low(value[k]) && bytes[2 * k + 1] == High(value[k])
      invariant forall k :: 2 * index <= k < bytes.Length ==> bytes[k] == 0
    {
      SetUint16(bytes, index * 2, value[index]);
    }
    EncodedEnds(value);
    forall k | 0 <= k < bytes.Length ensures bytes[k] == Encoded(value)[k] {
      if k < 2 * |value| {
        EncodedAt(value, k / 2);
        assert k == 2 * (k / 2) || k == 2 * (k / 2) + 1;
      }
    }
  }

  lemma UnitsSplit(b: seq<Byte>, from: nat, mid: nat, to: nat)
    requires from <= mid <= to && 2 * to <= |b|
    ensures Units(b, from, mid) + Units(b, mid, to) == Units(b, from, to)
  {}

  /** Decodes in chunks; the result does not depend on where they are cut. */
  method DecodeString(value: seq<Byte>) returns (r: Option<seq<Unit>>)
    ensures r == Decoded(value)
  {
    if |value| < 2 || |value| % 2 != 0 || value[|value| - 2] != 0 || value[|value| - 1] != 0 {
      return None;
    }
    var codeUnitCount := (|value| - 2) / 2;
    var result: seq<Unit> := [];
    var start := 0;
    while start < codeUnitCount
      invariant 0 <= start && result == Units(value, 0, if start < codeUnitCount then start else codeUnitCount)
    {
      var end := if start + CHUNK_SIZE < codeUnitCount then start + CHUNK_SIZE else codeUnitCount;
      var codeUnits := new Unit[end - start];
      for index := start to end
        invariant codeUnits[..index - start] == Units(value, start, index)
      {
        codeUnits[index - start] := value[index * 2] as int + 0x100 * (value[index * 2 + 1] as int);
        assert Units(value, start, index + 1) == Units(value, start, index) + [UnitAt(value, index)];
      }
      UnitsSplit(value, 0, start, end);
      assert codeUnits[..] == codeUnits[..end - start];
      result := result + codeUnits[..];
      start := start + CHUNK_SIZE;
    }
    return Some(result);
  }

  // ------------------------------------------------------------ numeric keys

  predicate IsUint32(value: real) { value.Floor as real == value && 0.0 <= value <= 4294967295.0 }

  function EncodeUint32(value: real): (r: Option<seq<Byte>>)
    ensures r.Some? <==> IsUint32(value)
    ensures r.Some? ==> |r.value| == 4
  {
    if !IsUint32(value) then None
    else
      var n := value.Floor;
      Some([n % 0x100, n / 0x100 % 0x100, n / 0x1_0000 % 0x100, n / 0x100_0000])
  }

  /** Numbers are the whole ones of 32 bits; their lowest byte comes first. */
  lemma Uint32LittleEndian(value: real)
    ensures IsUint32(value) <==> 0 <= value.Floor <= 0xFFFF_FFFF && value.Floor as real == value
    ensures IsUint32(value) ==>
      var b := EncodeUint32(value).value;
      b[0] as int + 0x100 * (b[1] as int) + 0x1_0000 * (b[2] as int) + 0x100_0000 * (b[3] as int) == value.Floor
  {
    if IsUint32(value) { Digits(value.Floor); }
  }

  function Number(b: seq<Byte>): int
    requires |b| == 4
  {
    b[0] as int + 0x100 * (b[1] as int) + 0x1_0000 * (b[2] as int) + 0x100_0000 * (b[3] as int)
  }

  function DecodeUint32(b: seq<Byte>): (r: Option<real>)
    ensures r.Some? <==> |b| == 4
  {
    if |b| != 4 then None
    else Some(Number(b) as real)
  }

  lemma Digits(n: int)
    requires 0 <= n < 0x1_0000_0000
    ensures n % 0x100 + 0x100 * (n / 0x100 % 0x100) + 0x1_0000 * (n / 0x1_0000 % 0x100) + 0x100_0000 * (n / 0x100_0000)
      == n
  {
    var a, b, c := n / 0x100, n / 0x1_0000, n / 0x100_0000;
    assert a / 0x100 == b && b / 0x100 == c;
  }

  lemma Uint32RoundTrip(value: real)
    requires IsUint32(value)
    ensures DecodeUint32(EncodeUint32(value).value) == Some(value)
  {
    Digits(value.Floor);
  }

  /** The digits of a number in base 256 are its own. */
  lemma OwnDigits(b0: Byte, b1: Byte, b2: Byte, b3: Byte, n: int)
    requires n == b0 as int + 0x100 * (b1 as int) + 0x1_0000 * (b2 as int) + 0x100_0000 * (b3 as int)
    ensures 0 <= n < 0x1_0000_0000
    ensures n % 0x100 == b0 && n / 0x100 == b1 as int + 0x100 * (b2 as int) + 0x1_0000 * (b3 as int)
    ensures n / 0x1_0000 == b2 as int + 0x100 * (b3 as int) && n / 0x100_0000 == b3
  {}

  lemma LowDigit(b: Byte, rest: int)
    ensures (b as int + 0x100 * rest) % 0x100 == b
  {}

  lemma Uint32RoundTripBack(b: seq<Byte>)
    requires |b| == 4
    ensures EncodeUint32(DecodeUint32(b).value) == Some(b)
  {
    var n := Number(b);
    OwnDigits(b[0], b[1], b[2], b[3], n);
    LowDigit(b[1], b[2] as int + 0x100 * (b[3] as int));
    LowDigit(b[2], b[3] as int);
    WholeNumber(n);
    assert [n % 0x100, n / 0x100 % 0x100, n / 0x1_0000 % 0x100, n / 0x100_0000] == b;
  }

  lemma WholeNumber(n: int)
    requires 0 <= n < 0x1_0000_0000
    ensures IsUint32(n as real) && (n as real).Floor == n
  {}

  // -------------------------------------------------------------------- keys

  datatype Key = TextKey(text: seq<Unit>) | NumberKey(value: real) | BinaryKey(bytes: seq<Byte>)

  datatype KeyKind = StringKind | Uint32Kind | BufferKind

  /** The three flags; several may be set. */
  datatype KeyOptions = KeyOptions(keyIsString: bool, keyIsUint32: bool, keyIsBuffer: bool)

  function KindOf(key: Key): KeyKind {
    match key
    case TextKey(_) => StringKind
    case NumberKey(_) => Uint32Kind
    case BinaryKey(_) => BufferKind
  }

  function EncodePlain(key: Key): Option<seq<Byte>> {
    match key
    case TextKey(text) => Some(Encoded(text))
    case NumberKey(value) => EncodeUint32(value)
    case BinaryKey(bytes) => Some(bytes)
  }

  /** The flags are looked at in the source's order: buffer, uint32, string. */
  function EncodeKey(key: Key, options: KeyOptions): Option<seq<Byte>> {
    if options.keyIsBuffer then if key.BinaryKey? then Some(key.bytes) else None
    else if options.keyIsUint32 then if key.NumberKey? then EncodeUint32(key.value) else None
    else if options.keyIsString then if key.TextKey? then Some(Encoded(key.text)) else None
    else EncodePlain(key)
  }

  /** What flags demand of a key's kind, if anything. */
  function Demanded(options: KeyOptions): Option<KeyKind> {
    if options.keyIsBuffer then Some(BufferKind)
    else if options.keyIsUint32 then Some(Uint32Kind)
    else if options.keyIsString then Some(StringKind)
    else None
  }

  /** Flags never change how a key is encoded, only whether it is accepted. */
  lemma FlagsOnlyFilter(key: Key, options: KeyOptions)
    ensures EncodeKey(key, options) ==
      if Demanded(options) == None || Demanded(options) == Some(KindOf(key)) then EncodePlain(key) else None
  {}

  /** A key of any kind is read back from its bytes; only numbers that are not of 32 bits have none. */
  lemma KeysRoundTrip(key: Key)
    ensures EncodePlain(key).Some? <==> (key.NumberKey? ==> IsUint32(key.value))
    ensures EncodePlain(key).Some? ==>
      var b := EncodePlain(key).value;
      match key
      case TextKey(text) => Decoded(b) == Some(text)
      case NumberKey(value) => DecodeUint32(b) == Some(value)
      case BinaryKey(bytes) => b == bytes
  {
    match key
    case TextKey(text) => DecodeEncoded(text);
    case NumberKey(value) => if IsUint32(value) { Uint32RoundTrip(value); }
    case BinaryKey(_) =>
  }

  /** Two accepted keys of one kind with the same bytes are the same key. */
  lemma KeysAreInjective(a: Key, b: Key, options: KeyOptions)
    requires KindOf(a) == KindOf(b) && EncodeKey(a, options).Some? && EncodeKey(a, options) == EncodeKey(b, options)
    ensures a == b
  {
    FlagsOnlyFilter(a, options);
    FlagsOnlyFilter(b, options);
    match a
    case TextKey(s) => DecodeEncoded(s); DecodeEncoded(b.text);
    case NumberKey(v) => Uint32RoundTrip(v); Uint32RoundTrip(b.value);
    case BinaryKey(_) =>
  }
}
