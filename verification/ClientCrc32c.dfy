/** The client's own copy of the CRC-32C code, held to the same specification. */
module ClientCrc32c {
  import opened BitStrings
  import opened Words
  import opened Crc32cSpec
  import opened Crc32cTable

  const K_POLY: nat := 0x82F63B78

  method Polynomial() returns (kPoly: Word)
    ensures kPoly == Castagnoli()
  {
    PolynomialConstant(K_POLY);
    kPoly := FromNat(K_POLY, 32);
  }

  method MakeTable() returns (table: seq<Word>)
    ensures IsTable(table)
  {
    var kPoly := Polynomial();
    var t := new Word[256](_ => Zeros(32));
    for i := 0 to 256
      invariant FilledTo(t[..], i)
    {
      var c: Word := FromNat(i, 32);
      ResponseStarts(i);
      for k := 0 to 8
        invariant FilledTo(t[..], i)
        invariant c == PartialResponse(i, k)
      {
        ResponseNext(i, k);
        c := if c[0] then Xor(ShiftRight(c, 1), kPoly) else ShiftRight(c, 1);
      }
      t[i] := c;
    }
    table := t[..];
  }

  method Crc32cInit() returns (state: Word)
    ensures state == Ones()
  {
    state := Ones();
  }

  method Crc32cUpdate(table: seq<Word>, start: Word, data: seq<Byte>) returns (state: Word)
    requires IsTable(table)
    ensures state == Feed(start, data)
  {
    state := start;
    assert data[..0] == [];
    for i := 0 to |data|
      invariant state == Feed(start, data[..i])
    {
      UpdateStep(table, start, data, i);
      state := Xor(ShiftRight(state, 8), table[Index(state, data[i])]);
    }
    assert data[..|data|] == data;
  }

  method Crc32cFinalize(state: Word) returns (crc: nat)
    ensures crc == Value(Complement(state))
  {
    crc := Value(Xor(state, Ones()));
  }

  method Crc32c(table: seq<Word>, data: seq<Byte>) returns (crc: nat)
    requires IsTable(table)
    ensures crc == CrcValue(data)
  {
    var state := Crc32cInit();
    state := Crc32cUpdate(table, state, data);
    crc := Crc32cFinalize(state);
  }
}
