/** The 64-bit `user_data` of a CQE in echo.cpp: a file descriptor in the upper half, an operation code in the lower. */
module UserData {
  import opened Bits

  const SHIFT: nat := 32

  type Half = x: nat | x < 0x1_0000_0000
  type Data = x: nat | x < 0x1_0000_0000_0000_0000

  lemma ShiftIs(high: Half)
    ensures Pow2(SHIFT) == 0x1_0000_0000 && high * Pow2(SHIFT) == high * 0x1_0000_0000
  {
    assert Pow2(4) == 0x10;
    Pow2Sum(4, 4);
    Pow2Sum(8, 8);
    Pow2Sum(16, 16);
  }

  function DataPack(high: Half, low: Half): (data: Data)
    ensures data == high * 0x1_0000_0000 + low
  {
    ShiftIs(high);
    OrAdds(high, low, SHIFT);
    Or(high * Pow2(SHIFT), low)
  }

  /** The cast to 32 bits keeps the lower half. */
  function LowHalf(data: Data): Half {
    data % 0x1_0000_0000
  }

  /** The shift keeps the upper half. */
  function HighHalf(data: Data): Half {
    data / 0x1_0000_0000
  }

  /** `data_unpack` inverts `data_pack` and `data_pack` inverts `data_unpack`: no two pairs share a value. */
  lemma PackIff(data: Data, high: Half, low: Half)
    ensures data == DataPack(high, low) <==> HighHalf(data) == high && LowHalf(data) == low
  {
    if data == DataPack(high, low) {
      ModOf(data, 0x1_0000_0000, high, low);
    }
  }

  lemma UnpackPack(high: Half, low: Half)
    ensures HighHalf(DataPack(high, low)) == high && LowHalf(DataPack(high, low)) == low
  {
    PackIff(DataPack(high, low), high, low);
  }
}
