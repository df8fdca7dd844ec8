// The constants of the 176-byte transform, sixteen to a row as in the program, and the check that
// the interleaving is a permutation. Models the tables of internal/diddecrypt/mask176.go.
module InterleaveTables {
  const INTERLEAVE_0: seq<nat> := [101, 48, 167, 63, 1, 40, 27, 171, 74, 28, 117, 159, 21, 126, 138, 175]
  const INTERLEAVE_1: seq<nat> := [114, 125, 37, 149, 100, 110, 122, 4, 116, 42, 111, 174, 50, 57, 86, 107]
  const INTERLEAVE_2: seq<nat> := [83, 132, 95, 108, 47, 161, 148, 145, 141, 19, 98, 44, 87, 24, 137, 173]
  const INTERLEAVE_3: seq<nat> := [129, 55, 92, 163, 158, 153, 12, 93, 144, 103, 123, 155, 0, 30, 72, 109]
  const INTERLEAVE_4: seq<nat> := [79, 140, 61, 73, 99, 124, 118, 71, 146, 75, 166, 10, 39, 154, 14, 89]
  const INTERLEAVE_5: seq<nat> := [150, 18, 156, 172, 139, 151, 49, 59, 115, 7, 38, 58, 60, 128, 106, 162]
  const INTERLEAVE_6: seq<nat> := [68, 113, 17, 91, 15, 76, 2, 120, 168, 9, 84, 46, 131, 105, 85, 41]
  const INTERLEAVE_7: seq<nat> := [3, 134, 20, 77, 8, 104, 56, 90, 64, 94, 160, 152, 142, 52, 45, 164]
  const INTERLEAVE_8: seq<nat> := [165, 70, 97, 29, 67, 54, 51, 80, 121, 147, 35, 69, 31, 33, 22, 11]
  const INTERLEAVE_9: seq<nat> := [66, 96, 81, 130, 32, 25, 65, 127, 82, 119, 102, 170, 16, 88, 62, 136]
  const INTERLEAVE_10: seq<nat> := [6, 36, 5, 26, 34, 133, 43, 78, 112, 135, 143, 157, 169, 23, 53, 13]

  function Interleave(i: nat): nat
    requires i < 176
  {
    if i < 16 then INTERLEAVE_0[i]
    else if i < 32 then INTERLEAVE_1[i - 16]
    else if i < 48 then INTERLEAVE_2[i - 32]
    else if i < 64 then INTERLEAVE_3[i - 48]
    else if i < 80 then INTERLEAVE_4[i - 64]
    else if i < 96 then INTERLEAVE_5[i - 80]
    else if i < 112 then INTERLEAVE_6[i - 96]
    else if i < 128 then INTERLEAVE_7[i - 112]
    else if i < 144 then INTERLEAVE_8[i - 128]
    else if i < 160 then INTERLEAVE_9[i - 144]
    else INTERLEAVE_10[i - 160]
  }

  // Where each byte goes under the inverse permutation.
  const INVERSE_0: seq<nat> := [60, 4, 102, 112, 23, 162, 160, 89, 116, 105, 75, 143, 54, 175, 78, 100]
  const INVERSE_1: seq<nat> := [156, 98, 81, 41, 114, 12, 142, 173, 45, 149, 163, 6, 9, 131, 61, 140]
  const INVERSE_2: seq<nat> := [148, 141, 164, 138, 161, 18, 90, 76, 5, 111, 25, 166, 43, 126, 107, 36]
  const INVERSE_3: seq<nat> := [1, 86, 28, 134, 125, 174, 133, 49, 118, 29, 91, 87, 92, 66, 158, 3]
  const INVERSE_4: seq<nat> := [120, 150, 144, 132, 96, 139, 129, 71, 62, 67, 8, 73, 101, 115, 167, 64]
  const INVERSE_5: seq<nat> := [135, 146, 152, 32, 106, 110, 30, 44, 157, 79, 119, 99, 50, 55, 121, 34]
  const INVERSE_6: seq<nat> := [145, 130, 42, 68, 20, 0, 154, 57, 117, 109, 94, 31, 35, 63, 21, 26]
  const INVERSE_7: seq<nat> := [168, 97, 16, 88, 24, 10, 70, 153, 103, 136, 22, 58, 69, 17, 13, 151]
  const INVERSE_8: seq<nat> := [93, 48, 147, 108, 33, 165, 113, 169, 159, 46, 14, 84, 65, 40, 124, 170]
  const INVERSE_9: seq<nat> := [56, 39, 72, 137, 38, 19, 80, 85, 123, 53, 77, 59, 82, 171, 52, 11]
  const INVERSE_10: seq<nat> := [122, 37, 95, 51, 127, 128, 74, 2, 104, 172, 155, 7, 83, 47, 27, 15]

  function Inverse(i: nat): nat
    requires i < 176
  {
    if i < 16 then INVERSE_0[i]
    else if i < 32 then INVERSE_1[i - 16]
    else if i < 48 then INVERSE_2[i - 32]
    else if i < 64 then INVERSE_3[i - 48]
    else if i < 80 then INVERSE_4[i - 64]
    else if i < 96 then INVERSE_5[i - 80]
    else if i < 112 then INVERSE_6[i - 96]
    else if i < 128 then INVERSE_7[i - 112]
    else if i < 144 then INVERSE_8[i - 128]
    else if i < 160 then INVERSE_9[i - 144]
    else INVERSE_10[i - 160]
  }

  const MASK_0: seq<nat> := [0xf2, 0x3b, 0x9b, 0x7c, 0xe3, 0xc2, 0x74, 0x05, 0xd1, 0x71, 0x9d, 0xca, 0xeb, 0xbc, 0x2d, 0x67]
  const MASK_1: seq<nat> := [0xef, 0xea, 0x69, 0xe4, 0x0f, 0x5a, 0xcf, 0x03, 0x23, 0x34, 0x33, 0x9a, 0x45, 0x33, 0x04, 0xbe]
  const MASK_2: seq<nat> := [0x71, 0xee, 0x77, 0x6b, 0xd8, 0x86, 0x34, 0xab, 0xd6, 0x05, 0xae, 0x61, 0xd4, 0x80, 0xb5, 0x6d]
  const MASK_3: seq<nat> := [0x4e, 0x30, 0x31, 0xae, 0x4d, 0x8a, 0x26, 0xb2, 0x60, 0xdb, 0xda, 0x97, 0x7f, 0xe5, 0xd2, 0xa4]
  const MASK_4: seq<nat> := [0xd1, 0xa8, 0x57, 0x4a, 0x57, 0x88, 0xb9, 0x4f, 0xd6, 0x91, 0x5e, 0xb3, 0x8b, 0x71, 0xb1, 0x9e]
  const MASK_5: seq<nat> := [0xcb, 0xf4, 0x85, 0xe0, 0x2c, 0xfa, 0x45, 0x40, 0xdf, 0xbc, 0x23, 0x03, 0xe4, 0x33, 0x4c, 0xa9]
  const MASK_6: seq<nat> := [0x49, 0x78, 0x11, 0xfc, 0x95, 0x6c, 0x83, 0x55, 0x6e, 0x3a, 0x94, 0xc2, 0x87, 0xa3, 0x35, 0x61]
  const MASK_7: seq<nat> := [0xc8, 0xae, 0x76, 0x91, 0xcb, 0x0f, 0x9a, 0x0d, 0x6a, 0x4e, 0xdf, 0x04, 0xc4, 0xf8, 0xfc, 0xc9]
  const MASK_8: seq<nat> := [0x70, 0x7f, 0x37, 0xa4, 0x52, 0xf5, 0xb9, 0x69, 0xbe, 0x44, 0x70, 0xee, 0xae, 0x36, 0xd6, 0xa0]
  const MASK_9: seq<nat> := [0x22, 0x35, 0x9b, 0xa1, 0x5e, 0x93, 0x73, 0x0b, 0x07, 0x50, 0x03, 0x62, 0xae, 0x18, 0x09, 0x9c]
  const MASK_10: seq<nat> := [0x9b, 0x04, 0x04, 0x30, 0x96, 0x0f, 0x5e, 0xa1, 0xb7, 0xb1, 0x15, 0x74, 0x71, 0x5a, 0x27, 0xac]

  function MaskByte(i: nat): nat
    requires i < 176
  {
    if i < 16 then MASK_0[i]
    else if i < 32 then MASK_1[i - 16]
    else if i < 48 then MASK_2[i - 32]
    else if i < 64 then MASK_3[i - 48]
    else if i < 80 then MASK_4[i - 64]
    else if i < 96 then MASK_5[i - 80]
    else if i < 112 then MASK_6[i - 96]
    else if i < 128 then MASK_7[i - 112]
    else if i < 144 then MASK_8[i - 128]
    else if i < 160 then MASK_9[i - 144]
    else MASK_10[i - 160]
  }

  lemma Row0(i: nat)
    requires i < 16
    ensures Interleave(i) < 176 && Inverse(Interleave(i)) == i
  {}

  lemma InverseRow0(i: nat)
    requires i < 16
    ensures Inverse(i) < 176 && Interleave(Inverse(i)) == i
  {}

  lemma Row1(i: nat)
    requires 16 <= i < 32
    ensures Interleave(i) < 176 && Inverse(Interleave(i)) == i
  {}

  lemma InverseRow1(i: nat)
    requires 16 <= i < 32
    ensures Inverse(i) < 176 && Interleave(Inverse(i)) == i
  {}

  lemma Row2(i: nat)
    requires 32 <= i < 48
    ensures Interleave(i) < 176 && Inverse(Interleave(i)) == i
  {}

  lemma InverseRow2(i: nat)
    requires 32 <= i < 48
    ensures Inverse(i) < 176 && Interleave(Inverse(i)) == i
  {}

  lemma Row3(i: nat)
    requires 48 <= i < 64
    ensures Interleave(i) < 176 && Inverse(Interleave(i)) == i
  {}

  lemma InverseRow3(i: nat)
    requires 48 <= i < 64
    ensures Inverse(i) < 176 && Interleave(Inverse(i)) == i
  {}

  lemma Row4(i: nat)
    requires 64 <= i < 80
    ensures Interleave(i) < 176 && Inverse(Interleave(i)) == i
  {}

  lemma InverseRow4(i: nat)
    requires 64 <= i < 80
    ensures Inverse(i) < 176 && Interleave(Inverse(i)) == i
  {}

  lemma Row5(i: nat)
    requires 80 <= i < 96
    ensures Interleave(i) < 176 && Inverse(Interleave(i)) == i
  {}

  lemma InverseRow5(i: nat)
    requires 80 <= i < 96
    ensures Inverse(i) < 176 && Interleave(Inverse(i)) == i
  {}

  lemma Row6(i: nat)
    requires 96 <= i < 112
    ensures Interleave(i) < 176 && Inverse(Interleave(i)) == i
  {}

  lemma InverseRow6(i: nat)
    requires 96 <= i < 112
    ensures Inverse(i) < 176 && Interleave(Inverse(i)) == i
  {}

  lemma Row7(i: nat)
    requires 112 <= i < 128
    ensures Interleave(i) < 176 && Inverse(Interleave(i)) == i
  {}

  lemma InverseRow7(i: nat)
    requires 112 <= i < 128
    ensures Inverse(i) < 176 && Interleave(Inverse(i)) == i
  {}

  lemma Row8(i: nat)
    requires 128 <= i < 144
    ensures Interleave(i) < 176 && Inverse(Interleave(i)) == i
  {}

  lemma InverseRow8(i: nat)
    requires 128 <= i < 144
    ensures Inverse(i) < 176 && Interleave(Inverse(i)) == i
  {}

  lemma Row9(i: nat)
    requires 144 <= i < 160
    ensures Interleave(i) < 176 && Inverse(Interleave(i)) == i
  {}

  lemma InverseRow9(i: nat)
    requires 144 <= i < 160
    ensures Inverse(i) < 176 && Interleave(Inverse(i)) == i
  {}

  lemma Row10(i: nat)
    requires 160 <= i < 176
    ensures Interleave(i) < 176 && Inverse(Interleave(i)) == i
  {}

  lemma InverseRow10(i: nat)
    requires 160 <= i < 176
    ensures Inverse(i) < 176 && Interleave(Inverse(i)) == i
  {}

  // Every position below 176 occurs exactly once in the interleaving.
  lemma InterleaveIsPermutation(i: nat)
    requires i < 176
    ensures Interleave(i) < 176 && Inverse(Interleave(i)) == i
    ensures Inverse(i) < 176 && Interleave(Inverse(i)) == i
  {
    if i < 16 {
      Row0(i);
      InverseRow0(i);
    } else if i < 32 {
      Row1(i);
      InverseRow1(i);
    } else if i < 48 {
      Row2(i);
      InverseRow2(i);
    } else if i < 64 {
      Row3(i);
      InverseRow3(i);
    } else if i < 80 {
      Row4(i);
      InverseRow4(i);
    } else if i < 96 {
      Row5(i);
      InverseRow5(i);
    } else if i < 112 {
      Row6(i);
      InverseRow6(i);
    } else if i < 128 {
      Row7(i);
      InverseRow7(i);
    } else if i < 144 {
      Row8(i);
      InverseRow8(i);
    } else if i < 160 {
      Row9(i);
      InverseRow9(i);
    } else {
      Row10(i);
      InverseRow10(i);
    }
  }

  // ---- fingerprints of the rows: any wrong entry would show, and any two exchanged in a row ----

  function InterleaveRow(r: nat): nat
    requires r < 11
  {
    Interleave(16 * r) + 2 * Interleave(16 * r + 1) + 3 * Interleave(16 * r + 2) + 4 * Interleave(16 * r + 3)
    + 5 * Interleave(16 * r + 4) + 6 * Interleave(16 * r + 5) + 7 * Interleave(16 * r + 6) + 8 * Interleave(16 * r + 7)
    + 9 * Interleave(16 * r + 8) + 10 * Interleave(16 * r + 9) + 11 * Interleave(16 * r + 10) + 12 * Interleave(16 * r + 11)
    + 13 * Interleave(16 * r + 12) + 14 * Interleave(16 * r + 13) + 15 * Interleave(16 * r + 14) + 16 * Interleave(16 * r + 15)
  }

  function MaskRow(r: nat): nat
    requires r < 11
  {
    MaskByte(16 * r) + 2 * MaskByte(16 * r + 1) + 3 * MaskByte(16 * r + 2) + 4 * MaskByte(16 * r + 3)
    + 5 * MaskByte(16 * r + 4) + 6 * MaskByte(16 * r + 5) + 7 * MaskByte(16 * r + 6) + 8 * MaskByte(16 * r + 7)
    + 9 * MaskByte(16 * r + 8) + 10 * MaskByte(16 * r + 9) + 11 * MaskByte(16 * r + 10) + 12 * MaskByte(16 * r + 11)
    + 13 * MaskByte(16 * r + 12) + 14 * MaskByte(16 * r + 13) + 15 * MaskByte(16 * r + 14) + 16 * MaskByte(16 * r + 15)
  }

  lemma InterleaveUpperRows()
    ensures forall r | 0 <= r < 6 :: InterleaveRow(r) == [13800, 12340, 13816, 12486, 11774, 12731][r]
  {}

  lemma InterleaveLowerRows()
    ensures forall r | 6 <= r < 11 :: InterleaveRow(r) == [10396, 13388, 7511, 12438, 11427][r - 6]
  {}

  lemma InterleaveFingerprints(r: nat)
    requires r < 11
    ensures InterleaveRow(r) == [13800, 12340, 13816, 12486, 11774, 12731, 10396, 13388, 7511, 12438, 11427][r]
  {
    hide InterleaveRow;
    InterleaveUpperRows();
    InterleaveLowerRows();
  }

  lemma MaskUpperRows()
    ensures forall r | 0 <= r < 6 :: MaskRow(r) == [19644, 11977, 19051, 21815, 19410, 16531][r]
  {}

  lemma MaskLowerRows()
    ensures forall r | 6 <= r < 11 :: MaskRow(r) == [16272, 21020, 20468, 10795, 14259][r - 6]
  {}

  lemma MaskFingerprints(r: nat)
    requires r < 11
    ensures MaskRow(r) == [19644, 11977, 19051, 21815, 19410, 16531, 16272, 21020, 20468, 10795, 14259][r]
  {
    hide MaskRow;
    MaskUpperRows();
    MaskLowerRows();
  }
}
