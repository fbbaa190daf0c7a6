/**
 * The PNAMES lump of a Doom WAD: a little-endian 32-bit count followed by
 * eight-byte, NUL-padded patch names.
 */
module Pnames {
  import opened Wrappers
  import opened DotNet

  type Byte = n: int | 0 <= n < 256

  const CountSize: nat := 4
  const NameSize: nat := 8

  datatype Pnames = Pnames(names: seq<string>)

  /** `ByteReader.ReadInt32` at `pos`: little-endian two's complement; None past the end. */
  function ReadInt32(data: seq<Byte>, pos: nat): (r: Option<int>)
    ensures r.Some? <==> pos + 4 <= |data|
    ensures r.Some? ==> InInt32(r.value)
  {
    if pos + 4 > |data| then None
    else
      var u := data[pos] as int + 0x100 * (data[pos + 1] as int) + 0x1_0000 * (data[pos + 2] as int) + 0x100_0000 * (data[pos + 3] as int);
      Some(if u >= 0x8000_0000 then u - 0x1_0000_0000 else u)
  }

  /** The characters of a name field: its bytes up to the first NUL. */
  function NameChars(field: seq<Byte>): (s: string)
    ensures |s| <= |field|
    ensures forall i :: 0 <= i < |s| ==> s[i] as int == field[i] && field[i] != 0
    ensures |s| < |field| ==> field[|s|] == 0
  {
    if field == [] || field[0] == 0 then [] else [field[0] as char] + NameChars(field[1..])
  }

  /** `ByteReader.ReadEightByteString` at `pos`; None past the end. */
  function ReadEightByteString(data: seq<Byte>, pos: nat): (r: Option<string>)
    ensures r.Some? <==> pos + NameSize <= |data|
    ensures r.Some? ==> r.value == NameChars(data[pos..pos + NameSize])
  {
    if pos + NameSize > |data| then None else Some(NameChars(data[pos..pos + NameSize]))
  }

  /** The accepted length: the count plus a whole number of name entries (C# `%`). */
  predicate WellSized(data: seq<Byte>) {
    TruncRem(|data| - CountSize, NameSize) == 0
  }

  function EntryCount(data: seq<Byte>): nat
    requires |data| >= CountSize
  {
    (|data| - CountSize) / NameSize
  }

  /** The declared count at the start of the lump. */
  function DeclaredCount(data: seq<Byte>): int
    requires |data| >= CountSize
  {
    ReadInt32(data, 0).value
  }

  /** Name entry `i`: bytes 4+8i up to 4+8i+8, read up to the first NUL and upper-cased. */
  function Entry(data: seq<Byte>, i: nat): string
    requires CountSize + NameSize * (i + 1) <= |data|
  {
    ToUpper(NameChars(data[CountSize + NameSize * i..CountSize + NameSize * (i + 1)]))
  }

  /**
   * The specification of `Pnames.From`. On success there are max(count, 0)
   * names, entry i coming from bytes 4+8i..4+8i+7 upper-cased; later entries
   * are ignored.
   */
  function Parse(data: seq<Byte>): (r: Option<Pnames>)
    ensures r.Some? ==>
      |data| >= CountSize &&
      |r.value.names| == (if DeclaredCount(data) < 0 then 0 else DeclaredCount(data)) &&
      |r.value.names| <= EntryCount(data) &&
      forall i :: 0 <= i < |r.value.names| ==> CountSize + NameSize * (i + 1) <= |data| && r.value.names[i] == Entry(data, i)
  {
    if !WellSized(data) then None
    else
      assert |data| >= CountSize;
      if DeclaredCount(data) > EntryCount(data) then None
      else
        var n := if DeclaredCount(data) < 0 then 0 else DeclaredCount(data);
        Some(Pnames(seq(n, i requires 0 <= i < n => Entry(data, i))))
  }

  /** Inputs shorter than four bytes fail the length check. */
  lemma ShortInputRejected(data: seq<Byte>)
    requires |data| < CountSize
    ensures !WellSized(data) && Parse(data) == None
  {
    TruncDivRemainder(|data| - CountSize, NameSize);
  }

  /**
   * The lump is accepted exactly when its length is four plus a multiple
   * of eight and the declared count does not exceed the entries present.
   */
  lemma ParseAccepts(data: seq<Byte>)
    ensures Parse(data).Some? <==>
      |data| >= CountSize && (|data| - CountSize) % NameSize == 0 && DeclaredCount(data) <= EntryCount(data)
  {
    if |data| < CountSize { ShortInputRejected(data); }
  }

  /** No stored name contains a lower-case ASCII letter. */
  lemma ParseUpperCases(data: seq<Byte>)
    requires Parse(data).Some?
    ensures forall i, j :: 0 <= i < |Parse(data).value.names| && 0 <= j < |Parse(data).value.names[i]| ==>
      !IsLowerAscii(Parse(data).value.names[i][j])
  {
  }

  /**
   * `Pnames.From`: the length checks, then a loop that reads `count` names
   * from a cursor. A read past the end (the source's caught exception)
   * would give None; the ensures shows it cannot happen once the checks pass.
   */
  method From(data: seq<Byte>) returns (r: Option<Pnames>)
    ensures r == Parse(data)
  {
    if TruncRem(|data| - CountSize, NameSize) != 0 {
      return None;
    }
    if |data| < CountSize { ShortInputRejected(data); }

    var names: seq<string> := [];
    var countRead := ReadInt32(data, 0);
    if countRead.None? {
      return None;
    }
    var count := countRead.value;
    var actual := TruncDiv(|data| - CountSize, NameSize);
    if count > actual {
      return None;
    }

    var pos := CountSize;
    var i := 0;
    while i < count
      invariant 0 <= i <= (if count < 0 then 0 else count)
      invariant CountSize + NameSize * i <= |data|
      invariant pos == CountSize + NameSize * i
      invariant |names| == i
      invariant forall k :: 0 <= k < i ==> names[k] == Entry(data, k)
    {
      var name := ReadEightByteString(data, pos);
      if name.None? {
        return None;
      }
      names := names + [ToUpper(name.value)];
      pos := pos + NameSize;
      i := i + 1;
    }
    var n := if count < 0 then 0 else count;
    assert names == seq(n, k requires 0 <= k < n => Entry(data, k));
    return Some(Pnames(names));
  }

  // ---- the inverse: writing a PNAMES lump ----

  /** A name the format can hold: at most eight non-NUL characters of one byte each. */
  predicate Storable(name: string) {
    |name| <= NameSize && forall i :: 0 <= i < |name| ==> 0 < name[i] as int < 256
  }

  function EncodeInt32(n: int): (b: seq<Byte>)
    requires InInt32(n)
    ensures |b| == 4
  {
    var u := if n < 0 then n + 0x1_0000_0000 else n;
    var u1 := u / 0x100;
    var u2 := u1 / 0x100;
    [u % 0x100, u1 % 0x100, u2 % 0x100, u2 / 0x100]
  }

  function EncodeName(name: string): (b: seq<Byte>)
    requires Storable(name)
    ensures |b| == NameSize
  {
    seq(|name|, i requires 0 <= i < |name| => name[i] as int as Byte) + seq(NameSize - |name|, _ => 0)
  }

  function EncodeNames(names: seq<string>): (b: seq<Byte>)
    requires forall i :: 0 <= i < |names| ==> Storable(names[i])
    ensures |b| == NameSize * |names|
  {
    if names == [] then [] else EncodeName(names[0]) + EncodeNames(names[1..])
  }

  /** A lump that lists the given names: the count, then eight bytes per name. */
  function Encode(names: seq<string>): (b: seq<Byte>)
    requires |names| <= Int32Max
    requires forall i :: 0 <= i < |names| ==> Storable(names[i])
    ensures |b| == CountSize + NameSize * |names|
    ensures ReadInt32(b, 0) == Some(|names|)
  {
    Int32RoundTrip(|names|, EncodeNames(names));
    EncodeInt32(|names|) + EncodeNames(names)
  }

  lemma Int32RoundTrip(n: int, rest: seq<Byte>)
    requires InInt32(n)
    ensures ReadInt32(EncodeInt32(n) + rest, 0) == Some(n)
  {
    var u := if n < 0 then n + 0x1_0000_0000 else n;
    var u1 := u / 0x100;
    var u2 := u1 / 0x100;
    assert u == u % 0x100 + 0x100 * u1;
    assert u1 == u1 % 0x100 + 0x100 * u2;
    assert u2 == u2 % 0x100 + 0x100 * (u2 / 0x100);
    var b := EncodeInt32(n) + rest;
    assert b[0] as int + 0x100 * (b[1] as int) + 0x1_0000 * (b[2] as int) + 0x100_0000 * (b[3] as int) == u;
  }

  lemma NameRoundTrip(name: string)
    requires Storable(name)
    ensures NameChars(EncodeName(name)) == name
  {
    var e := EncodeName(name);
    assert forall i :: 0 <= i < |name| ==> e[i] == name[i] as int;
    assert |name| < |e| ==> e[|name|] == 0;
  }

  lemma {:induction false} EncodeNamesAt(names: seq<string>, i: nat)
    requires forall k :: 0 <= k < |names| ==> Storable(names[k])
    requires i < |names|
    ensures EncodeNames(names)[NameSize * i..NameSize * (i + 1)] == EncodeName(names[i])
    decreases i
  {
    var rest := EncodeNames(names[1..]);
    assert EncodeNames(names) == EncodeName(names[0]) + rest;
    if i > 0 {
      EncodeNamesAt(names[1..], i - 1);
      assert EncodeNames(names)[NameSize * i..NameSize * (i + 1)] == rest[NameSize * (i - 1)..NameSize * i];
    }
  }

  /** Writing names and reading them back gives the names, upper-cased. */
  lemma ParseEncode(names: seq<string>)
    requires |names| <= Int32Max
    requires forall i :: 0 <= i < |names| ==> Storable(names[i])
    ensures Parse(Encode(names)) == Some(Pnames(seq(|names|, i requires 0 <= i < |names| => ToUpper(names[i]))))
  {
    var data := Encode(names);
    Int32RoundTrip(|names|, EncodeNames(names));
    assert DeclaredCount(data) == |names|;
    assert EntryCount(data) == |names|;
    assert TruncRem(|data| - CountSize, NameSize) == 0;
    ParseAccepts(data);
    var parsed := Parse(data).value.names;
    var expected := seq(|names|, i requires 0 <= i < |names| => ToUpper(names[i]));
    forall i | 0 <= i < |names| ensures parsed[i] == expected[i] {
      EncodeNamesAt(names, i);
      assert data[CountSize + NameSize * i..CountSize + NameSize * (i + 1)] == EncodeNames(names)[NameSize * i..NameSize * (i + 1)];
      NameRoundTrip(names[i]);
    }
    assert parsed == expected;
  }
}
