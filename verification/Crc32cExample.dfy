/** The check value of CRC-32C: the checksum of the nine digits "123456789" is E3069283. */
module Crc32cExample {
  import opened Bytes
  import opened Crc32c

  const NINE_DIGITS: seq<byte> := [49, 50, 51, 52, 53, 54, 55, 56, 57]

  /** One message bit, on words that are known. */
  lemma BitFed(remainder: bv32, w: bv32, n: nat, next: bv32, rest: bv32)
    requires n > 0 && rest == w >> 1
    requires next == (remainder >> 1) ^ (if (remainder & 1) != (w & 1) then 0x82F6_3B78 else 0)
    ensures FeedBits(remainder, w, n) == FeedBits(next, rest, n - 1)
  {
    LowBits(remainder, w);
  }

  lemma ByteFed(remainder: bv32, b: byte, data: seq<byte>)
    ensures Divide(remainder, [b] + data) == Divide(FeedBits(remainder, Word(b), 8), data)
  {
    hide FeedBits, Word;
    assert ([b] + data)[1..] == data;
  }

  lemma Digit1()
    ensures FeedBits(0xFFFF_FFFF, 49, 8) == 0x6F0A_661C
  {
    hide FeedBits;
    BitFed(0xFFFF_FFFF, 49, 8, 0x7FFF_FFFF, 24);
    BitFed(0x7FFF_FFFF, 24, 7, 0xBD09_C487, 12);
    BitFed(0xBD09_C487, 12, 6, 0xDC72_D93B, 6);
    BitFed(0xDC72_D93B, 6, 5, 0xECCF_57E5, 3);
    BitFed(0xECCF_57E5, 3, 4, 0x7667_ABF2, 1);
    BitFed(0x7667_ABF2, 1, 3, 0xB9C5_EE81, 0);
    BitFed(0xB9C5_EE81, 0, 2, 0xDE14_CC38, 0);
    BitFed(0xDE14_CC38, 0, 1, 0x6F0A_661C, 0);
    NoBits(0x6F0A_661C, 0);
  }

  lemma Digit2()
    ensures FeedBits(0x6F0A_661C, 50, 8) == 0x8CAA_3B9F
  {
    hide FeedBits;
    BitFed(0x6F0A_661C, 50, 8, 0x3785_330E, 25);
    BitFed(0x3785_330E, 25, 7, 0x9934_A2FF, 12);
    BitFed(0x9934_A2FF, 12, 6, 0xCE6C_6A07, 6);
    BitFed(0xCE6C_6A07, 6, 5, 0xE5C0_0E7B, 3);
    BitFed(0xE5C0_0E7B, 3, 4, 0x72E0_073D, 1);
    BitFed(0x72E0_073D, 1, 3, 0x3970_039E, 0);
    BitFed(0x3970_039E, 0, 2, 0x1CB8_01CF, 0);
    BitFed(0x1CB8_01CF, 0, 1, 0x8CAA_3B9F, 0);
    NoBits(0x8CAA_3B9F, 0);
  }

  lemma Digit3()
    ensures FeedBits(0x8CAA_3B9F, 51, 8) == 0xEF84_D04D
  {
    hide FeedBits;
    BitFed(0x8CAA_3B9F, 51, 8, 0x4655_1DCF, 25);
    BitFed(0x4655_1DCF, 25, 7, 0x232A_8EE7, 12);
    BitFed(0x232A_8EE7, 12, 6, 0x9363_7C0B, 6);
    BitFed(0x9363_7C0B, 6, 5, 0xCB47_857D, 3);
    BitFed(0xCB47_857D, 3, 4, 0x65A3_C2BE, 1);
    BitFed(0x65A3_C2BE, 1, 3, 0xB027_DA27, 0);
    BitFed(0xB027_DA27, 0, 2, 0xDAE5_D66B, 0);
    BitFed(0xDAE5_D66B, 0, 1, 0xEF84_D04D, 0);
    NoBits(0xEF84_D04D, 0);
  }

  lemma Digit4()
    ensures FeedBits(0xEF84_D04D, 52, 8) == 0x09C5_0B11
  {
    hide FeedBits;
    BitFed(0xEF84_D04D, 52, 8, 0xF534_535E, 26);
    BitFed(0xF534_535E, 26, 7, 0x7A9A_29AF, 13);
    BitFed(0x7A9A_29AF, 13, 6, 0x3D4D_14D7, 6);
    BitFed(0x3D4D_14D7, 6, 5, 0x9C50_B113, 3);
    BitFed(0x9C50_B113, 3, 4, 0x4E28_5889, 1);
    BitFed(0x4E28_5889, 1, 3, 0x2714_2C44, 0);
    BitFed(0x2714_2C44, 0, 2, 0x138A_1622, 0);
    BitFed(0x138A_1622, 0, 1, 0x09C5_0B11, 0);
    NoBits(0x09C5_0B11, 0);
  }

  lemma Digit5()
    ensures FeedBits(0x09C5_0B11, 53, 8) == 0xE72E_DCCA
  {
    hide FeedBits;
    BitFed(0x09C5_0B11, 53, 8, 0x04E2_8588, 26);
    BitFed(0x04E2_8588, 26, 7, 0x0271_42C4, 13);
    BitFed(0x0271_42C4, 13, 6, 0x83CE_9A1A, 6);
    BitFed(0x83CE_9A1A, 6, 5, 0x41E7_4D0D, 3);
    BitFed(0x41E7_4D0D, 3, 4, 0x20F3_A686, 1);
    BitFed(0x20F3_A686, 1, 3, 0x928F_E83B, 0);
    BitFed(0x928F_E83B, 0, 2, 0xCBB1_CF65, 0);
    BitFed(0xCBB1_CF65, 0, 1, 0xE72E_DCCA, 0);
    NoBits(0xE72E_DCCA, 0);
  }

  lemma Digit6()
    ensures FeedBits(0xE72E_DCCA, 54, 8) == 0xBECA_8E79
  {
    hide FeedBits;
    BitFed(0xE72E_DCCA, 54, 8, 0x7397_6E65, 27);
    BitFed(0x7397_6E65, 27, 7, 0x39CB_B732, 13);
    BitFed(0x39CB_B732, 13, 6, 0x9E13_E0E1, 6);
    BitFed(0x9E13_E0E1, 6, 5, 0xCDFF_CB08, 3);
    BitFed(0xCDFF_CB08, 3, 4, 0xE409_DEFC, 1);
    BitFed(0xE409_DEFC, 1, 3, 0xF0F2_D406, 0);
    BitFed(0xF0F2_D406, 0, 2, 0x7879_6A03, 0);
    BitFed(0x7879_6A03, 0, 1, 0xBECA_8E79, 0);
    NoBits(0xBECA_8E79, 0);
  }

  lemma Digit7()
    ensures FeedBits(0xBECA_8E79, 55, 8) == 0xEDBD_6815
  {
    hide FeedBits;
    BitFed(0xBECA_8E79, 55, 8, 0x5F65_473C, 27);
    BitFed(0x5F65_473C, 27, 7, 0xAD44_98E6, 13);
    BitFed(0xAD44_98E6, 13, 6, 0xD454_770B, 6);
    BitFed(0xD454_770B, 6, 5, 0xE8DC_00FD, 3);
    BitFed(0xE8DC_00FD, 3, 4, 0x746E_007E, 1);
    BitFed(0x746E_007E, 1, 3, 0xB8C1_3B47, 0);
    BitFed(0xB8C1_3B47, 0, 2, 0xDE96_A6DB, 0);
    BitFed(0xDE96_A6DB, 0, 1, 0xEDBD_6815, 0);
    NoBits(0xEDBD_6815, 0);
  }

  lemma Digit8()
    ensures FeedBits(0xEDBD_6815, 56, 8) == 0x9F78_7F65
  {
    hide FeedBits;
    BitFed(0xEDBD_6815, 56, 8, 0xF428_8F72, 28);
    BitFed(0xF428_8F72, 28, 7, 0x7A14_47B9, 14);
    BitFed(0x7A14_47B9, 14, 6, 0xBFFC_18A4, 7);
    BitFed(0xBFFC_18A4, 7, 5, 0xDD08_372A, 3);
    BitFed(0xDD08_372A, 3, 4, 0xEC72_20ED, 1);
    BitFed(0xEC72_20ED, 1, 3, 0x7639_1076, 0);
    BitFed(0x7639_1076, 0, 2, 0x3B1C_883B, 0);
    BitFed(0x3B1C_883B, 0, 1, 0x9F78_7F65, 0);
    NoBits(0x9F78_7F65, 0);
  }

  lemma Digit9()
    ensures FeedBits(0x9F78_7F65, 57, 8) == 0x1CF9_6D7C
  {
    hide FeedBits;
    BitFed(0x9F78_7F65, 57, 8, 0x4FBC_3FB2, 28);
    BitFed(0x4FBC_3FB2, 28, 7, 0x27DE_1FD9, 14);
    BitFed(0x27DE_1FD9, 14, 6, 0x9119_3494, 7);
    BitFed(0x9119_3494, 7, 5, 0xCA7A_A132, 3);
    BitFed(0xCA7A_A132, 3, 4, 0xE7CB_6BE1, 1);
    BitFed(0xE7CB_6BE1, 1, 3, 0x73E5_B5F0, 0);
    BitFed(0x73E5_B5F0, 0, 2, 0x39F2_DAF8, 0);
    BitFed(0x39F2_DAF8, 0, 1, 0x1CF9_6D7C, 0);
    NoBits(0x1CF9_6D7C, 0);
  }

  lemma NoBits(remainder: bv32, w: bv32)
    ensures FeedBits(remainder, w, 0) == remainder
  {
  }

  lemma Digits()
    ensures Word(49) == 49 && Word(50) == 50 && Word(51) == 51 && Word(52) == 52 && Word(53) == 53
    ensures Word(54) == 54 && Word(55) == 55 && Word(56) == 56 && Word(57) == 57
  {
  }

  lemma CheckValue()
    ensures Crc(0, NINE_DIGITS) == 0xE306_9283
  {
    hide FeedBits, Divide, Word;
    Digits();
    Digit1();
    ByteFed(0xFFFF_FFFF, 49, [50, 51, 52, 53, 54, 55, 56, 57]);
    assert NINE_DIGITS == [49] + [50, 51, 52, 53, 54, 55, 56, 57];
    Digit2();
    ByteFed(0x6F0A_661C, 50, [51, 52, 53, 54, 55, 56, 57]);
    assert [50, 51, 52, 53, 54, 55, 56, 57] == [50] + [51, 52, 53, 54, 55, 56, 57];
    Digit3();
    ByteFed(0x8CAA_3B9F, 51, [52, 53, 54, 55, 56, 57]);
    assert [51, 52, 53, 54, 55, 56, 57] == [51] + [52, 53, 54, 55, 56, 57];
    Digit4();
    ByteFed(0xEF84_D04D, 52, [53, 54, 55, 56, 57]);
    assert [52, 53, 54, 55, 56, 57] == [52] + [53, 54, 55, 56, 57];
    Digit5();
    ByteFed(0x09C5_0B11, 53, [54, 55, 56, 57]);
    assert [53, 54, 55, 56, 57] == [53] + [54, 55, 56, 57];
    Digit6();
    ByteFed(0xE72E_DCCA, 54, [55, 56, 57]);
    assert [54, 55, 56, 57] == [54] + [55, 56, 57];
    Digit7();
    ByteFed(0xBECA_8E79, 55, [56, 57]);
    assert [55, 56, 57] == [55] + [56, 57];
    Digit8();
    ByteFed(0xEDBD_6815, 56, [57]);
    assert [56, 57] == [56] + [57];
    Digit9();
    ByteFed(0x9F78_7F65, 57, []);
    assert [57] == [57] + [];
    DivideNothing(0x1CF9_6D7C);
  }
}
