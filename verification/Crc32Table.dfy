/** The table of the CRC-32 loop, row by row, checked against eight steps of the bit-serial definition. */
module Crc32Table {

  /** One bit of the division by the reversed polynomial 0xEDB88320, least significant bit first. */
  function BitStep(c: bv32): bv32
  {
    if c & 1 == 1 then (c >> 1) ^ 0xEDB88320 else c >> 1
  }

  function Eight(c: bv32): bv32
  {
    BitStep(BitStep(BitStep(BitStep(BitStep(BitStep(BitStep(BitStep(c))))))))
  }

  function Row0(i: bv8): bv32
  {
    if i == 0x00 then 0x0000_0000 else if i == 0x01 then 0x7707_3096 else
    if i == 0x02 then 0xEE0E_612C else if i == 0x03 then 0x9909_51BA else
    if i == 0x04 then 0x076D_C419 else if i == 0x05 then 0x706A_F48F else
    if i == 0x06 then 0xE963_A535 else if i == 0x07 then 0x9E64_95A3 else
    if i == 0x08 then 0x0EDB_8832 else if i == 0x09 then 0x79DC_B8A4 else
    if i == 0x0A then 0xE0D5_E91E else if i == 0x0B then 0x97D2_D988 else
    if i == 0x0C then 0x09B6_4C2B else if i == 0x0D then 0x7EB1_7CBD else
    if i == 0x0E then 0xE7B8_2D07 else 0x90BF_1D91
  }

  lemma Row0IsRight(i: bv8)
    requires 0x00 <= i <= 0x0F
    ensures Row0(i) == Eight(i as bv32)
  {
    if i < 0x04 { } else if i < 0x08 { } else if i < 0x0C { }
  }

  function Row1(i: bv8): bv32
  {
    if i == 0x10 then 0x1DB7_1064 else if i == 0x11 then 0x6AB0_20F2 else
    if i == 0x12 then 0xF3B9_7148 else if i == 0x13 then 0x84BE_41DE else
    if i == 0x14 then 0x1ADA_D47D else if i == 0x15 then 0x6DDD_E4EB else
    if i == 0x16 then 0xF4D4_B551 else if i == 0x17 then 0x83D3_85C7 else
    if i == 0x18 then 0x136C_9856 else if i == 0x19 then 0x646B_A8C0 else
    if i == 0x1A then 0xFD62_F97A else if i == 0x1B then 0x8A65_C9EC else
    if i == 0x1C then 0x1401_5C4F else if i == 0x1D then 0x6306_6CD9 else
    if i == 0x1E then 0xFA0F_3D63 else 0x8D08_0DF5
  }

  lemma Row1IsRight(i: bv8)
    requires 0x10 <= i <= 0x1F
    ensures Row1(i) == Eight(i as bv32)
  {
    if i < 0x14 { } else if i < 0x18 { } else if i < 0x1C { }
  }

  function Row2(i: bv8): bv32
  {
    if i == 0x20 then 0x3B6E_20C8 else if i == 0x21 then 0x4C69_105E else
    if i == 0x22 then 0xD560_41E4 else if i == 0x23 then 0xA267_7172 else
    if i == 0x24 then 0x3C03_E4D1 else if i == 0x25 then 0x4B04_D447 else
    if i == 0x26 then 0xD20D_85FD else if i == 0x27 then 0xA50A_B56B else
    if i == 0x28 then 0x35B5_A8FA else if i == 0x29 then 0x42B2_986C else
    if i == 0x2A then 0xDBBB_C9D6 else if i == 0x2B then 0xACBC_F940 else
    if i == 0x2C then 0x32D8_6CE3 else if i == 0x2D then 0x45DF_5C75 else
    if i == 0x2E then 0xDCD6_0DCF else 0xABD1_3D59
  }

  lemma Row2IsRight(i: bv8)
    requires 0x20 <= i <= 0x2F
    ensures Row2(i) == Eight(i as bv32)
  {
    if i < 0x24 { } else if i < 0x28 { } else if i < 0x2C { }
  }

  function Row3(i: bv8): bv32
  {
    if i == 0x30 then 0x26D9_30AC else if i == 0x31 then 0x51DE_003A else
    if i == 0x32 then 0xC8D7_5180 else if i == 0x33 then 0xBFD0_6116 else
    if i == 0x34 then 0x21B4_F4B5 else if i == 0x35 then 0x56B3_C423 else
    if i == 0x36 then 0xCFBA_9599 else if i == 0x37 then 0xB8BD_A50F else
    if i == 0x38 then 0x2802_B89E else if i == 0x39 then 0x5F05_8808 else
    if i == 0x3A then 0xC60C_D9B2 else if i == 0x3B then 0xB10B_E924 else
    if i == 0x3C then 0x2F6F_7C87 else if i == 0x3D then 0x5868_4C11 else
    if i == 0x3E then 0xC161_1DAB else 0xB666_2D3D
  }

  lemma Row3IsRight(i: bv8)
    requires 0x30 <= i <= 0x3F
    ensures Row3(i) == Eight(i as bv32)
  {
    if i < 0x34 { } else if i < 0x38 { } else if i < 0x3C { }
  }

  function Row4(i: bv8): bv32
  {
    if i == 0x40 then 0x76DC_4190 else if i == 0x41 then 0x01DB_7106 else
    if i == 0x42 then 0x98D2_20BC else if i == 0x43 then 0xEFD5_102A else
    if i == 0x44 then 0x71B1_8589 else if i == 0x45 then 0x06B6_B51F else
    if i == 0x46 then 0x9FBF_E4A5 else if i == 0x47 then 0xE8B8_D433 else
    if i == 0x48 then 0x7807_C9A2 else if i == 0x49 then 0x0F00_F934 else
    if i == 0x4A then 0x9609_A88E else if i == 0x4B then 0xE10E_9818 else
    if i == 0x4C then 0x7F6A_0DBB else if i == 0x4D then 0x086D_3D2D else
    if i == 0x4E then 0x9164_6C97 else 0xE663_5C01
  }

  lemma Row4IsRight(i: bv8)
    requires 0x40 <= i <= 0x4F
    ensures Row4(i) == Eight(i as bv32)
  {
    if i < 0x44 { } else if i < 0x48 { } else if i < 0x4C { }
  }

  function Row5(i: bv8): bv32
  {
    if i == 0x50 then 0x6B6B_51F4 else if i == 0x51 then 0x1C6C_6162 else
    if i == 0x52 then 0x8565_30D8 else if i == 0x53 then 0xF262_004E else
    if i == 0x54 then 0x6C06_95ED else if i == 0x55 then 0x1B01_A57B else
    if i == 0x56 then 0x8208_F4C1 else if i == 0x57 then 0xF50F_C457 else
    if i == 0x58 then 0x65B0_D9C6 else if i == 0x59 then 0x12B7_E950 else
    if i == 0x5A then 0x8BBE_B8EA else if i == 0x5B then 0xFCB9_887C else
    if i == 0x5C then 0x62DD_1DDF else if i == 0x5D then 0x15DA_2D49 else
    if i == 0x5E then 0x8CD3_7CF3 else 0xFBD4_4C65
  }

  lemma Row5IsRight(i: bv8)
    requires 0x50 <= i <= 0x5F
    ensures Row5(i) == Eight(i as bv32)
  {
    if i < 0x54 { } else if i < 0x58 { } else if i < 0x5C { }
  }

  function Row6(i: bv8): bv32
  {
    if i == 0x60 then 0x4DB2_6158 else if i == 0x61 then 0x3AB5_51CE else
    if i == 0x62 then 0xA3BC_0074 else if i == 0x63 then 0xD4BB_30E2 else
    if i == 0x64 then 0x4ADF_A541 else if i == 0x65 then 0x3DD8_95D7 else
    if i == 0x66 then 0xA4D1_C46D else if i == 0x67 then 0xD3D6_F4FB else
    if i == 0x68 then 0x4369_E96A else if i == 0x69 then 0x346E_D9FC else
    if i == 0x6A then 0xAD67_8846 else if i == 0x6B then 0xDA60_B8D0 else
    if i == 0x6C then 0x4404_2D73 else if i == 0x6D then 0x3303_1DE5 else
    if i == 0x6E then 0xAA0A_4C5F else 0xDD0D_7CC9
  }

  lemma Row6IsRight(i: bv8)
    requires 0x60 <= i <= 0x6F
    ensures Row6(i) == Eight(i as bv32)
  {
    if i < 0x64 { } else if i < 0x68 { } else if i < 0x6C { }
  }

  function Row7(i: bv8): bv32
  {
    if i == 0x70 then 0x5005_713C else if i == 0x71 then 0x2702_41AA else
    if i == 0x72 then 0xBE0B_1010 else if i == 0x73 then 0xC90C_2086 else
    if i == 0x74 then 0x5768_B525 else if i == 0x75 then 0x206F_85B3 else
    if i == 0x76 then 0xB966_D409 else if i == 0x77 then 0xCE61_E49F else
    if i == 0x78 then 0x5EDE_F90E else if i == 0x79 then 0x29D9_C998 else
    if i == 0x7A then 0xB0D0_9822 else if i == 0x7B then 0xC7D7_A8B4 else
    if i == 0x7C then 0x59B3_3D17 else if i == 0x7D then 0x2EB4_0D81 else
    if i == 0x7E then 0xB7BD_5C3B else 0xC0BA_6CAD
  }

  lemma Row7IsRight(i: bv8)
    requires 0x70 <= i <= 0x7F
    ensures Row7(i) == Eight(i as bv32)
  {
    if i < 0x74 { } else if i < 0x78 { } else if i < 0x7C { }
  }

  function Row8(i: bv8): bv32
  {
    if i == 0x80 then 0xEDB8_8320 else if i == 0x81 then 0x9ABF_B3B6 else
    if i == 0x82 then 0x03B6_E20C else if i == 0x83 then 0x74B1_D29A else
    if i == 0x84 then 0xEAD5_4739 else if i == 0x85 then 0x9DD2_77AF else
    if i == 0x86 then 0x04DB_2615 else if i == 0x87 then 0x73DC_1683 else
    if i == 0x88 then 0xE363_0B12 else if i == 0x89 then 0x9464_3B84 else
    if i == 0x8A then 0x0D6D_6A3E else if i == 0x8B then 0x7A6A_5AA8 else
    if i == 0x8C then 0xE40E_CF0B else if i == 0x8D then 0x9309_FF9D else
    if i == 0x8E then 0x0A00_AE27 else 0x7D07_9EB1
  }

  lemma Row8IsRight(i: bv8)
    requires 0x80 <= i <= 0x8F
    ensures Row8(i) == Eight(i as bv32)
  {
    if i < 0x84 { } else if i < 0x88 { } else if i < 0x8C { }
  }

  function Row9(i: bv8): bv32
  {
    if i == 0x90 then 0xF00F_9344 else if i == 0x91 then 0x8708_A3D2 else
    if i == 0x92 then 0x1E01_F268 else if i == 0x93 then 0x6906_C2FE else
    if i == 0x94 then 0xF762_575D else if i == 0x95 then 0x8065_67CB else
    if i == 0x96 then 0x196C_3671 else if i == 0x97 then 0x6E6B_06E7 else
    if i == 0x98 then 0xFED4_1B76 else if i == 0x99 then 0x89D3_2BE0 else
    if i == 0x9A then 0x10DA_7A5A else if i == 0x9B then 0x67DD_4ACC else
    if i == 0x9C then 0xF9B9_DF6F else if i == 0x9D then 0x8EBE_EFF9 else
    if i == 0x9E then 0x17B7_BE43 else 0x60B0_8ED5
  }

  lemma Row9IsRight(i: bv8)
    requires 0x90 <= i <= 0x9F
    ensures Row9(i) == Eight(i as bv32)
  {
    if i < 0x94 { } else if i < 0x98 { } else if i < 0x9C { }
  }

  function RowA(i: bv8): bv32
  {
    if i == 0xA0 then 0xD6D6_A3E8 else if i == 0xA1 then 0xA1D1_937E else
    if i == 0xA2 then 0x38D8_C2C4 else if i == 0xA3 then 0x4FDF_F252 else
    if i == 0xA4 then 0xD1BB_67F1 else if i == 0xA5 then 0xA6BC_5767 else
    if i == 0xA6 then 0x3FB5_06DD else if i == 0xA7 then 0x48B2_364B else
    if i == 0xA8 then 0xD80D_2BDA else if i == 0xA9 then 0xAF0A_1B4C else
    if i == 0xAA then 0x3603_4AF6 else if i == 0xAB then 0x4104_7A60 else
    if i == 0xAC then 0xDF60_EFC3 else if i == 0xAD then 0xA867_DF55 else
    if i == 0xAE then 0x316E_8EEF else 0x4669_BE79
  }

  lemma RowAIsRight(i: bv8)
    requires 0xA0 <= i <= 0xAF
    ensures RowA(i) == Eight(i as bv32)
  {
    if i < 0xA4 { } else if i < 0xA8 { } else if i < 0xAC { }
  }

  function RowB(i: bv8): bv32
  {
    if i == 0xB0 then 0xCB61_B38C else if i == 0xB1 then 0xBC66_831A else
    if i == 0xB2 then 0x256F_D2A0 else if i == 0xB3 then 0x5268_E236 else
    if i == 0xB4 then 0xCC0C_7795 else if i == 0xB5 then 0xBB0B_4703 else
    if i == 0xB6 then 0x2202_16B9 else if i == 0xB7 then 0x5505_262F else
    if i == 0xB8 then 0xC5BA_3BBE else if i == 0xB9 then 0xB2BD_0B28 else
    if i == 0xBA then 0x2BB4_5A92 else if i == 0xBB then 0x5CB3_6A04 else
    if i == 0xBC then 0xC2D7_FFA7 else if i == 0xBD then 0xB5D0_CF31 else
    if i == 0xBE then 0x2CD9_9E8B else 0x5BDE_AE1D
  }

  lemma RowBIsRight(i: bv8)
    requires 0xB0 <= i <= 0xBF
    ensures RowB(i) == Eight(i as bv32)
  {
    if i < 0xB4 { } else if i < 0xB8 { } else if i < 0xBC { }
  }

  function RowC(i: bv8): bv32
  {
    if i == 0xC0 then 0x9B64_C2B0 else if i == 0xC1 then 0xEC63_F226 else
    if i == 0xC2 then 0x756A_A39C else if i == 0xC3 then 0x026D_930A else
    if i == 0xC4 then 0x9C09_06A9 else if i == 0xC5 then 0xEB0E_363F else
    if i == 0xC6 then 0x7207_6785 else if i == 0xC7 then 0x0500_5713 else
    if i == 0xC8 then 0x95BF_4A82 else if i == 0xC9 then 0xE2B8_7A14 else
    if i == 0xCA then 0x7BB1_2BAE else if i == 0xCB then 0x0CB6_1B38 else
    if i == 0xCC then 0x92D2_8E9B else if i == 0xCD then 0xE5D5_BE0D else
    if i == 0xCE then 0x7CDC_EFB7 else 0x0BDB_DF21
  }

  lemma RowCIsRight(i: bv8)
    requires 0xC0 <= i <= 0xCF
    ensures RowC(i) == Eight(i as bv32)
  {
    if i < 0xC4 { } else if i < 0xC8 { } else if i < 0xCC { }
  }

  function RowD(i: bv8): bv32
  {
    if i == 0xD0 then 0x86D3_D2D4 else if i == 0xD1 then 0xF1D4_E242 else
    if i == 0xD2 then 0x68DD_B3F8 else if i == 0xD3 then 0x1FDA_836E else
    if i == 0xD4 then 0x81BE_16CD else if i == 0xD5 then 0xF6B9_265B else
    if i == 0xD6 then 0x6FB0_77E1 else if i == 0xD7 then 0x18B7_4777 else
    if i == 0xD8 then 0x8808_5AE6 else if i == 0xD9 then 0xFF0F_6A70 else
    if i == 0xDA then 0x6606_3BCA else if i == 0xDB then 0x1101_0B5C else
    if i == 0xDC then 0x8F65_9EFF else if i == 0xDD then 0xF862_AE69 else
    if i == 0xDE then 0x616B_FFD3 else 0x166C_CF45
  }

  lemma RowDIsRight(i: bv8)
    requires 0xD0 <= i <= 0xDF
    ensures RowD(i) == Eight(i as bv32)
  {
    if i < 0xD4 { } else if i < 0xD8 { } else if i < 0xDC { }
  }

  function RowE(i: bv8): bv32
  {
    if i == 0xE0 then 0xA00A_E278 else if i == 0xE1 then 0xD70D_D2EE else
    if i == 0xE2 then 0x4E04_8354 else if i == 0xE3 then 0x3903_B3C2 else
    if i == 0xE4 then 0xA767_2661 else if i == 0xE5 then 0xD060_16F7 else
    if i == 0xE6 then 0x4969_474D else if i == 0xE7 then 0x3E6E_77DB else
    if i == 0xE8 then 0xAED1_6A4A else if i == 0xE9 then 0xD9D6_5ADC else
    if i == 0xEA then 0x40DF_0B66 else if i == 0xEB then 0x37D8_3BF0 else
    if i == 0xEC then 0xA9BC_AE53 else if i == 0xED then 0xDEBB_9EC5 else
    if i == 0xEE then 0x47B2_CF7F else 0x30B5_FFE9
  }

  lemma RowEIsRight(i: bv8)
    requires 0xE0 <= i <= 0xEF
    ensures RowE(i) == Eight(i as bv32)
  {
    if i < 0xE4 { } else if i < 0xE8 { } else if i < 0xEC { }
  }

  function RowF(i: bv8): bv32
  {
    if i == 0xF0 then 0xBDBD_F21C else if i == 0xF1 then 0xCABA_C28A else
    if i == 0xF2 then 0x53B3_9330 else if i == 0xF3 then 0x24B4_A3A6 else
    if i == 0xF4 then 0xBAD0_3605 else if i == 0xF5 then 0xCDD7_0693 else
    if i == 0xF6 then 0x54DE_5729 else if i == 0xF7 then 0x23D9_67BF else
    if i == 0xF8 then 0xB366_7A2E else if i == 0xF9 then 0xC461_4AB8 else
    if i == 0xFA then 0x5D68_1B02 else if i == 0xFB then 0x2A6F_2B94 else
    if i == 0xFC then 0xB40B_BE37 else if i == 0xFD then 0xC30C_8EA1 else
    if i == 0xFE then 0x5A05_DF1B else 0x2D02_EF8D
  }

  lemma RowFIsRight(i: bv8)
    requires 0xF0 <= i <= 0xFF
    ensures RowF(i) == Eight(i as bv32)
  {
    if i < 0xF4 { } else if i < 0xF8 { } else if i < 0xFC { }
  }

  function Table(i: bv8): bv32
  {
    if i < 0x10 then Row0(i) else if i < 0x20 then Row1(i) else
    if i < 0x30 then Row2(i) else if i < 0x40 then Row3(i) else
    if i < 0x50 then Row4(i) else if i < 0x60 then Row5(i) else
    if i < 0x70 then Row6(i) else if i < 0x80 then Row7(i) else
    if i < 0x90 then Row8(i) else if i < 0xA0 then Row9(i) else
    if i < 0xB0 then RowA(i) else if i < 0xC0 then RowB(i) else
    if i < 0xD0 then RowC(i) else if i < 0xE0 then RowD(i) else
    if i < 0xF0 then RowE(i) else RowF(i)
  }

  /** All 256 entries are what eight bit steps make of their index. */
  lemma TableIsRight(i: bv8)
    ensures Table(i) == Eight(i as bv32)
  {
    if i < 0x10 { Row0IsRight(i); } else if i < 0x20 { Row1IsRight(i); } else
    if i < 0x30 { Row2IsRight(i); } else if i < 0x40 { Row3IsRight(i); } else
    if i < 0x50 { Row4IsRight(i); } else if i < 0x60 { Row5IsRight(i); } else
    if i < 0x70 { Row6IsRight(i); } else if i < 0x80 { Row7IsRight(i); } else
    if i < 0x90 { Row8IsRight(i); } else if i < 0xA0 { Row9IsRight(i); } else
    if i < 0xB0 { RowAIsRight(i); } else if i < 0xC0 { RowBIsRight(i); } else
    if i < 0xD0 { RowCIsRight(i); } else if i < 0xE0 { RowDIsRight(i); } else
    if i < 0xF0 { RowEIsRight(i); } else { RowFIsRight(i); }
  }
}
