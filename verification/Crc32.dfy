/** The CRC-32 class: table-driven update of a register, against bit-by-bit division by the
    reflected polynomial 0xEDB88320 (section 8 of RFC 1952). */
module Crc32 {
  import opened LinearRegister

  function BitStep(crc: bv32): bv32 {
    if crc & 1 == 1 then (crc >> 1) ^ 0xEDB88320 else crc >> 1
  }

  /** Eight bit steps, written out. */
  function Eight(x: bv32): bv32 {
    BitStep(BitStep(BitStep(BitStep(BitStep(BitStep(BitStep(BitStep(x))))))))
  }

  // ---- the table, sixteen rows of sixteen words ----

  function Row0(b: Byte): bv32 {
    if b == 0x00 then 0x00000000 else if b == 0x01 then 0x77073096 else
    if b == 0x02 then 0xee0e612c else if b == 0x03 then 0x990951ba else
    if b == 0x04 then 0x076dc419 else if b == 0x05 then 0x706af48f else
    if b == 0x06 then 0xe963a535 else if b == 0x07 then 0x9e6495a3 else
    if b == 0x08 then 0x0edb8832 else if b == 0x09 then 0x79dcb8a4 else
    if b == 0x0a then 0xe0d5e91e else if b == 0x0b then 0x97d2d988 else
    if b == 0x0c then 0x09b64c2b else if b == 0x0d then 0x7eb17cbd else
    if b == 0x0e then 0xe7b82d07 else 0x90bf1d91
  }

  function Row1(b: Byte): bv32 {
    if b == 0x10 then 0x1db71064 else if b == 0x11 then 0x6ab020f2 else
    if b == 0x12 then 0xf3b97148 else if b == 0x13 then 0x84be41de else
    if b == 0x14 then 0x1adad47d else if b == 0x15 then 0x6ddde4eb else
    if b == 0x16 then 0xf4d4b551 else if b == 0x17 then 0x83d385c7 else
    if b == 0x18 then 0x136c9856 else if b == 0x19 then 0x646ba8c0 else
    if b == 0x1a then 0xfd62f97a else if b == 0x1b then 0x8a65c9ec else
    if b == 0x1c then 0x14015c4f else if b == 0x1d then 0x63066cd9 else
    if b == 0x1e then 0xfa0f3d63 else 0x8d080df5
  }

  function Row2(b: Byte): bv32 {
    if b == 0x20 then 0x3b6e20c8 else if b == 0x21 then 0x4c69105e else
    if b == 0x22 then 0xd56041e4 else if b == 0x23 then 0xa2677172 else
    if b == 0x24 then 0x3c03e4d1 else if b == 0x25 then 0x4b04d447 else
    if b == 0x26 then 0xd20d85fd else if b == 0x27 then 0xa50ab56b else
    if b == 0x28 then 0x35b5a8fa else if b == 0x29 then 0x42b2986c else
    if b == 0x2a then 0xdbbbc9d6 else if b == 0x2b then 0xacbcf940 else
    if b == 0x2c then 0x32d86ce3 else if b == 0x2d then 0x45df5c75 else
    if b == 0x2e then 0xdcd60dcf else 0xabd13d59
  }

  function Row3(b: Byte): bv32 {
    if b == 0x30 then 0x26d930ac else if b == 0x31 then 0x51de003a else
    if b == 0x32 then 0xc8d75180 else if b == 0x33 then 0xbfd06116 else
    if b == 0x34 then 0x21b4f4b5 else if b == 0x35 then 0x56b3c423 else
    if b == 0x36 then 0xcfba9599 else if b == 0x37 then 0xb8bda50f else
    if b == 0x38 then 0x2802b89e else if b == 0x39 then 0x5f058808 else
    if b == 0x3a then 0xc60cd9b2 else if b == 0x3b then 0xb10be924 else
    if b == 0x3c then 0x2f6f7c87 else if b == 0x3d then 0x58684c11 else
    if b == 0x3e then 0xc1611dab else 0xb6662d3d
  }

  function Row4(b: Byte): bv32 {
    if b == 0x40 then 0x76dc4190 else if b == 0x41 then 0x01db7106 else
    if b == 0x42 then 0x98d220bc else if b == 0x43 then 0xefd5102a else
    if b == 0x44 then 0x71b18589 else if b == 0x45 then 0x06b6b51f else
    if b == 0x46 then 0x9fbfe4a5 else if b == 0x47 then 0xe8b8d433 else
    if b == 0x48 then 0x7807c9a2 else if b == 0x49 then 0x0f00f934 else
    if b == 0x4a then 0x9609a88e else if b == 0x4b then 0xe10e9818 else
    if b == 0x4c then 0x7f6a0dbb else if b == 0x4d then 0x086d3d2d else
    if b == 0x4e then 0x91646c97 else 0xe6635c01
  }

  function Row5(b: Byte): bv32 {
    if b == 0x50 then 0x6b6b51f4 else if b == 0x51 then 0x1c6c6162 else
    if b == 0x52 then 0x856530d8 else if b == 0x53 then 0xf262004e else
    if b == 0x54 then 0x6c0695ed else if b == 0x55 then 0x1b01a57b else
    if b == 0x56 then 0x8208f4c1 else if b == 0x57 then 0xf50fc457 else
    if b == 0x58 then 0x65b0d9c6 else if b == 0x59 then 0x12b7e950 else
    if b == 0x5a then 0x8bbeb8ea else if b == 0x5b then 0xfcb9887c else
    if b == 0x5c then 0x62dd1ddf else if b == 0x5d then 0x15da2d49 else
    if b == 0x5e then 0x8cd37cf3 else 0xfbd44c65
  }

  function Row6(b: Byte): bv32 {
    if b == 0x60 then 0x4db26158 else if b == 0x61 then 0x3ab551ce else
    if b == 0x62 then 0xa3bc0074 else if b == 0x63 then 0xd4bb30e2 else
    if b == 0x64 then 0x4adfa541 else if b == 0x65 then 0x3dd895d7 else
    if b == 0x66 then 0xa4d1c46d else if b == 0x67 then 0xd3d6f4fb else
    if b == 0x68 then 0x4369e96a else if b == 0x69 then 0x346ed9fc else
    if b == 0x6a then 0xad678846 else if b == 0x6b then 0xda60b8d0 else
    if b == 0x6c then 0x44042d73 else if b == 0x6d then 0x33031de5 else
    if b == 0x6e then 0xaa0a4c5f else 0xdd0d7cc9
  }

  function Row7(b: Byte): bv32 {
    if b == 0x70 then 0x5005713c else if b == 0x71 then 0x270241aa else
    if b == 0x72 then 0xbe0b1010 else if b == 0x73 then 0xc90c2086 else
    if b == 0x74 then 0x5768b525 else if b == 0x75 then 0x206f85b3 else
    if b == 0x76 then 0xb966d409 else if b == 0x77 then 0xce61e49f else
    if b == 0x78 then 0x5edef90e else if b == 0x79 then 0x29d9c998 else
    if b == 0x7a then 0xb0d09822 else if b == 0x7b then 0xc7d7a8b4 else
    if b == 0x7c then 0x59b33d17 else if b == 0x7d then 0x2eb40d81 else
    if b == 0x7e then 0xb7bd5c3b else 0xc0ba6cad
  }

  function Row8(b: Byte): bv32 {
    if b == 0x80 then 0xedb88320 else if b == 0x81 then 0x9abfb3b6 else
    if b == 0x82 then 0x03b6e20c else if b == 0x83 then 0x74b1d29a else
    if b == 0x84 then 0xead54739 else if b == 0x85 then 0x9dd277af else
    if b == 0x86 then 0x04db2615 else if b == 0x87 then 0x73dc1683 else
    if b == 0x88 then 0xe3630b12 else if b == 0x89 then 0x94643b84 else
    if b == 0x8a then 0x0d6d6a3e else if b == 0x8b then 0x7a6a5aa8 else
    if b == 0x8c then 0xe40ecf0b else if b == 0x8d then 0x9309ff9d else
    if b == 0x8e then 0x0a00ae27 else 0x7d079eb1
  }

  function Row9(b: Byte): bv32 {
    if b == 0x90 then 0xf00f9344 else if b == 0x91 then 0x8708a3d2 else
    if b == 0x92 then 0x1e01f268 else if b == 0x93 then 0x6906c2fe else
    if b == 0x94 then 0xf762575d else if b == 0x95 then 0x806567cb else
    if b == 0x96 then 0x196c3671 else if b == 0x97 then 0x6e6b06e7 else
    if b == 0x98 then 0xfed41b76 else if b == 0x99 then 0x89d32be0 else
    if b == 0x9a then 0x10da7a5a else if b == 0x9b then 0x67dd4acc else
    if b == 0x9c then 0xf9b9df6f else if b == 0x9d then 0x8ebeeff9 else
    if b == 0x9e then 0x17b7be43 else 0x60b08ed5
  }

  function RowA(b: Byte): bv32 {
    if b == 0xa0 then 0xd6d6a3e8 else if b == 0xa1 then 0xa1d1937e else
    if b == 0xa2 then 0x38d8c2c4 else if b == 0xa3 then 0x4fdff252 else
    if b == 0xa4 then 0xd1bb67f1 else if b == 0xa5 then 0xa6bc5767 else
    if b == 0xa6 then 0x3fb506dd else if b == 0xa7 then 0x48b2364b else
    if b == 0xa8 then 0xd80d2bda else if b == 0xa9 then 0xaf0a1b4c else
    if b == 0xaa then 0x36034af6 else if b == 0xab then 0x41047a60 else
    if b == 0xac then 0xdf60efc3 else if b == 0xad then 0xa867df55 else
    if b == 0xae then 0x316e8eef else 0x4669be79
  }

  function RowB(b: Byte): bv32 {
    if b == 0xb0 then 0xcb61b38c else if b == 0xb1 then 0xbc66831a else
    if b == 0xb2 then 0x256fd2a0 else if b == 0xb3 then 0x5268e236 else
    if b == 0xb4 then 0xcc0c7795 else if b == 0xb5 then 0xbb0b4703 else
    if b == 0xb6 then 0x220216b9 else if b == 0xb7 then 0x5505262f else
    if b == 0xb8 then 0xc5ba3bbe else if b == 0xb9 then 0xb2bd0b28 else
    if b == 0xba then 0x2bb45a92 else if b == 0xbb then 0x5cb36a04 else
    if b == 0xbc then 0xc2d7ffa7 else if b == 0xbd then 0xb5d0cf31 else
    if b == 0xbe then 0x2cd99e8b else 0x5bdeae1d
  }

  function RowC(b: Byte): bv32 {
    if b == 0xc0 then 0x9b64c2b0 else if b == 0xc1 then 0xec63f226 else
    if b == 0xc2 then 0x756aa39c else if b == 0xc3 then 0x026d930a else
    if b == 0xc4 then 0x9c0906a9 else if b == 0xc5 then 0xeb0e363f else
    if b == 0xc6 then 0x72076785 else if b == 0xc7 then 0x05005713 else
    if b == 0xc8 then 0x95bf4a82 else if b == 0xc9 then 0xe2b87a14 else
    if b == 0xca then 0x7bb12bae else if b == 0xcb then 0x0cb61b38 else
    if b == 0xcc then 0x92d28e9b else if b == 0xcd then 0xe5d5be0d else
    if b == 0xce then 0x7cdcefb7 else 0x0bdbdf21
  }

  function RowD(b: Byte): bv32 {
    if b == 0xd0 then 0x86d3d2d4 else if b == 0xd1 then 0xf1d4e242 else
    if b == 0xd2 then 0x68ddb3f8 else if b == 0xd3 then 0x1fda836e else
    if b == 0xd4 then 0x81be16cd else if b == 0xd5 then 0xf6b9265b else
    if b == 0xd6 then 0x6fb077e1 else if b == 0xd7 then 0x18b74777 else
    if b == 0xd8 then 0x88085ae6 else if b == 0xd9 then 0xff0f6a70 else
    if b == 0xda then 0x66063bca else if b == 0xdb then 0x11010b5c else
    if b == 0xdc then 0x8f659eff else if b == 0xdd then 0xf862ae69 else
    if b == 0xde then 0x616bffd3 else 0x166ccf45
  }

  function RowE(b: Byte): bv32 {
    if b == 0xe0 then 0xa00ae278 else if b == 0xe1 then 0xd70dd2ee else
    if b == 0xe2 then 0x4e048354 else if b == 0xe3 then 0x3903b3c2 else
    if b == 0xe4 then 0xa7672661 else if b == 0xe5 then 0xd06016f7 else
    if b == 0xe6 then 0x4969474d else if b == 0xe7 then 0x3e6e77db else
    if b == 0xe8 then 0xaed16a4a else if b == 0xe9 then 0xd9d65adc else
    if b == 0xea then 0x40df0b66 else if b == 0xeb then 0x37d83bf0 else
    if b == 0xec then 0xa9bcae53 else if b == 0xed then 0xdebb9ec5 else
    if b == 0xee then 0x47b2cf7f else 0x30b5ffe9
  }

  function RowF(b: Byte): bv32 {
    if b == 0xf0 then 0xbdbdf21c else if b == 0xf1 then 0xcabac28a else
    if b == 0xf2 then 0x53b39330 else if b == 0xf3 then 0x24b4a3a6 else
    if b == 0xf4 then 0xbad03605 else if b == 0xf5 then 0xcdd70693 else
    if b == 0xf6 then 0x54de5729 else if b == 0xf7 then 0x23d967bf else
    if b == 0xf8 then 0xb3667a2e else if b == 0xf9 then 0xc4614ab8 else
    if b == 0xfa then 0x5d681b02 else if b == 0xfb then 0x2a6f2b94 else
    if b == 0xfc then 0xb40bbe37 else if b == 0xfd then 0xc30c8ea1 else
    if b == 0xfe then 0x5a05df1b else 0x2d02ef8d
  }

  function Table(b: Byte): bv32 {
    if b <= 0x0f then Row0(b)
    else if b <= 0x1f then Row1(b)
    else if b <= 0x2f then Row2(b)
    else if b <= 0x3f then Row3(b)
    else if b <= 0x4f then Row4(b)
    else if b <= 0x5f then Row5(b)
    else if b <= 0x6f then Row6(b)
    else if b <= 0x7f then Row7(b)
    else if b <= 0x8f then Row8(b)
    else if b <= 0x9f then Row9(b)
    else if b <= 0xaf then RowA(b)
    else if b <= 0xbf then RowB(b)
    else if b <= 0xcf then RowC(b)
    else if b <= 0xdf then RowD(b)
    else if b <= 0xef then RowE(b)
    else RowF(b)
  }

  // In each row, four words at a time.

  lemma Row0IsDivision(b: Byte)
    requires 0x00 <= b <= 0x0f
    ensures Row0(b) == Eight(b as bv32)
  {
    if b <= 0x03 { } else if b <= 0x07 { } else if b <= 0x0b { }
  }

  lemma Row1IsDivision(b: Byte)
    requires 0x10 <= b <= 0x1f
    ensures Row1(b) == Eight(b as bv32)
  {
    if b <= 0x13 { } else if b <= 0x17 { } else if b <= 0x1b { }
  }

  lemma Row2IsDivision(b: Byte)
    requires 0x20 <= b <= 0x2f
    ensures Row2(b) == Eight(b as bv32)
  {
    if b <= 0x23 { } else if b <= 0x27 { } else if b <= 0x2b { }
  }

  lemma Row3IsDivision(b: Byte)
    requires 0x30 <= b <= 0x3f
    ensures Row3(b) == Eight(b as bv32)
  {
    if b <= 0x33 { } else if b <= 0x37 { } else if b <= 0x3b { }
  }

  lemma Row4IsDivision(b: Byte)
    requires 0x40 <= b <= 0x4f
    ensures Row4(b) == Eight(b as bv32)
  {
    if b <= 0x43 { } else if b <= 0x47 { } else if b <= 0x4b { }
  }

  lemma Row5IsDivision(b: Byte)
    requires 0x50 <= b <= 0x5f
    ensures Row5(b) == Eight(b as bv32)
  {
    if b <= 0x53 { } else if b <= 0x57 { } else if b <= 0x5b { }
  }

  lemma Row6IsDivision(b: Byte)
    requires 0x60 <= b <= 0x6f
    ensures Row6(b) == Eight(b as bv32)
  {
    if b <= 0x63 { } else if b <= 0x67 { } else if b <= 0x6b { }
  }

  lemma Row7IsDivision(b: Byte)
    requires 0x70 <= b <= 0x7f
    ensures Row7(b) == Eight(b as bv32)
  {
    if b <= 0x73 { } else if b <= 0x77 { } else if b <= 0x7b { }
  }

  lemma Row8IsDivision(b: Byte)
    requires 0x80 <= b <= 0x8f
    ensures Row8(b) == Eight(b as bv32)
  {
    if b <= 0x83 { } else if b <= 0x87 { } else if b <= 0x8b { }
  }

  lemma Row9IsDivision(b: Byte)
    requires 0x90 <= b <= 0x9f
    ensures Row9(b) == Eight(b as bv32)
  {
    if b <= 0x93 { } else if b <= 0x97 { } else if b <= 0x9b { }
  }

  lemma RowAIsDivision(b: Byte)
    requires 0xa0 <= b <= 0xaf
    ensures RowA(b) == Eight(b as bv32)
  {
    if b <= 0xa3 { } else if b <= 0xa7 { } else if b <= 0xab { }
  }

  lemma RowBIsDivision(b: Byte)
    requires 0xb0 <= b <= 0xbf
    ensures RowB(b) == Eight(b as bv32)
  {
    if b <= 0xb3 { } else if b <= 0xb7 { } else if b <= 0xbb { }
  }

  lemma RowCIsDivision(b: Byte)
    requires 0xc0 <= b <= 0xcf
    ensures RowC(b) == Eight(b as bv32)
  {
    if b <= 0xc3 { } else if b <= 0xc7 { } else if b <= 0xcb { }
  }

  lemma RowDIsDivision(b: Byte)
    requires 0xd0 <= b <= 0xdf
    ensures RowD(b) == Eight(b as bv32)
  {
    if b <= 0xd3 { } else if b <= 0xd7 { } else if b <= 0xdb { }
  }

  lemma RowEIsDivision(b: Byte)
    requires 0xe0 <= b <= 0xef
    ensures RowE(b) == Eight(b as bv32)
  {
    if b <= 0xe3 { } else if b <= 0xe7 { } else if b <= 0xeb { }
  }

  lemma RowFIsDivision(b: Byte)
    requires 0xf0 <= b <= 0xff
    ensures RowF(b) == Eight(b as bv32)
  {
    if b <= 0xf3 { } else if b <= 0xf7 { } else if b <= 0xfb { }
  }

  /** Every word of the table is the remainder of its index. */
  lemma TableIsDivision(b: Byte)
    ensures Table(b) == Eight(b as bv32)
  {
    if b <= 0x0f { Row0IsDivision(b); }
    else if b <= 0x1f { Row1IsDivision(b); }
    else if b <= 0x2f { Row2IsDivision(b); }
    else if b <= 0x3f { Row3IsDivision(b); }
    else if b <= 0x4f { Row4IsDivision(b); }
    else if b <= 0x5f { Row5IsDivision(b); }
    else if b <= 0x6f { Row6IsDivision(b); }
    else if b <= 0x7f { Row7IsDivision(b); }
    else if b <= 0x8f { Row8IsDivision(b); }
    else if b <= 0x9f { Row9IsDivision(b); }
    else if b <= 0xaf { RowAIsDivision(b); }
    else if b <= 0xbf { RowBIsDivision(b); }
    else if b <= 0xcf { RowCIsDivision(b); }
    else if b <= 0xdf { RowDIsDivision(b); }
    else if b <= 0xef { RowEIsDivision(b); }
    else { RowFIsDivision(b); }
  }

  // ---- the register ----

  function LowUnits(j: nat): bv32 {
    match j
    case 0 => 0x1 case 1 => 0x2 case 2 => 0x4 case 3 => 0x8
    case 4 => 0x10 case 5 => 0x20 case 6 => 0x40 case 7 => 0x80
    case _ => 0
  }

  function Unit(j: nat): bv32 {
    if j < 8 then LowUnits(j)
    else if j < 16 then LowUnits(j - 8) << 8
    else if j < 24 then LowUnits(j - 16) << 16
    else if j < 32 then LowUnits(j - 24) << 24
    else 0
  }

  function Xor(a: bv32, b: bv32): bv32 { a ^ b }

  function Low(a: bv32): bool { a & 1 == 1 }

  function Wide(b: Byte): bv32 { b as bv32 }

  const REG: Register<bv32> := Register(32, 0, Xor, BitStep, Unit, Low, Wide)

  lemma ShiftXor(x: bv32, y: bv32)
    ensures (x ^ y) >> 1 == (x >> 1) ^ (y >> 1) && (x ^ y) & 1 == (x & 1) ^ (y & 1)
  {
  }

  lemma LowBit(x: bv32)
    ensures x & 1 == 0 || x & 1 == 1
  {
  }

  lemma XorPoly(a: bv32, b: bv32, p: bv32)
    ensures (a ^ p) ^ (b ^ p) == a ^ b && (a ^ p) ^ b == (a ^ b) ^ p && a ^ (b ^ p) == (a ^ b) ^ p
  {
  }

  lemma BitStepLinear(x: bv32, y: bv32)
    ensures BitStep(Xor(x, y)) == Xor(BitStep(x), BitStep(y))
  {
    ShiftXor(x, y);
    LowBit(x);
    LowBit(y);
    XorPoly(x >> 1, y >> 1, 0xEDB88320);
  }

  lemma BitStepInjective(x: bv32, y: bv32)
    requires BitStep(x) == BitStep(y)
    ensures x == y
  {
  }

  lemma XorCommutes(a: bv32, b: bv32)
    ensures Xor(a, b) == Xor(b, a)
  {
  }

  lemma XorAssociates(a: bv32, b: bv32, c: bv32)
    ensures Xor(Xor(a, b), c) == Xor(a, Xor(b, c))
  {
  }

  lemma XorMedial(p: bv32, q: bv32, a: bv32, b: bv32)
    ensures Xor(Xor(p, q), Xor(a, b)) == Xor(Xor(p, a), Xor(q, b))
  {
    hide Xor;
    XorAssociates(p, q, Xor(a, b));
    XorAssociates(q, a, b);
    XorCommutes(q, a);
    XorAssociates(a, q, b);
    XorAssociates(p, a, Xor(q, b));
  }

  lemma XorNeutral(a: bv32)
    ensures a ^ 0 == a && 0 ^ a == a && a ^ a == 0
  {
  }

  lemma RegXorIs(a: bv32, b: bv32)
    ensures REG.xor(a, b) == Xor(a, b)
  {
  }

  lemma RegMedial(p: bv32, q: bv32, a: bv32, b: bv32)
    ensures Medial(REG, p, q, a, b)
  {
    hide Xor;
    RegXorIs(p, q);
    RegXorIs(a, b);
    RegXorIs(p, a);
    RegXorIs(q, b);
    RegXorIs(Xor(p, q), Xor(a, b));
    RegXorIs(Xor(p, a), Xor(q, b));
    XorMedial(p, q, a, b);
  }

  lemma RegXor()
    ensures XorLaws(REG)
  {
    forall p, q, a, b ensures Medial(REG, p, q, a, b) { RegMedial(p, q, a, b); }
    forall a ensures Neutral(REG, a) { XorNeutral(a); }
  }

  lemma RegLinear(a: bv32, b: bv32)
    ensures LinearAt(REG, a, b)
  {
    hide Xor, BitStep;
    RegXorIs(a, b);
    RegXorIs(BitStep(a), BitStep(b));
    BitStepLinear(a, b);
  }

  lemma RegInjective(a: bv32, b: bv32)
    ensures InjectiveAt(REG, a, b)
  {
    if BitStep(a) == BitStep(b) { BitStepInjective(a, b); }
  }

  lemma RegShifts(j: nat)
    ensures ShiftsAt(REG, j)
  {
    if j < 8 { } else if j < 16 { } else if j < 24 { }
  }

  lemma RegStep()
    ensures Linear(REG) && Injective(REG) && Shifts(REG)
  {
    forall a, b ensures LinearAt(REG, a, b) { RegLinear(a, b); }
    forall a, b ensures InjectiveAt(REG, a, b) { RegInjective(a, b); }
    forall j: nat ensures ShiftsAt(REG, j) { RegShifts(j); }
  }

  lemma RegLow()
    ensures LowLaws(REG)
  {
    forall a, b ensures LowAt(REG, a, b) {
      ShiftXor(a, b);
      LowBit(a);
      LowBit(b);
    }
    forall j: nat ensures LowUnit(REG, j) { }
  }

  lemma ByteFromUnits(b: Byte)
    ensures ((((((((0 as bv32 ^ (if b & 0x1 == 0x1 then 0x1 else 0)) ^ (if b & 0x2 == 0x2 then 0x2 else 0))
            ^ (if b & 0x4 == 0x4 then 0x4 else 0)) ^ (if b & 0x8 == 0x8 then 0x8 else 0))
            ^ (if b & 0x10 == 0x10 then 0x10 else 0)) ^ (if b & 0x20 == 0x20 then 0x20 else 0))
            ^ (if b & 0x40 == 0x40 then 0x40 else 0)) ^ (if b & 0x80 == 0x80 then 0x80 else 0)) == b as bv32
  {
  }

  /** The same with the register's own unit words. */
  lemma ByteFromWord(b: Byte, t: seq<bool>)
    requires t == ByteBits(b)
    ensures Xor(Xor(Xor(Xor(Xor(Xor(Xor(Xor(0,
              UnitIf(REG, t[0], 0)), UnitIf(REG, t[1], 1)), UnitIf(REG, t[2], 2)), UnitIf(REG, t[3], 3)),
              UnitIf(REG, t[4], 4)), UnitIf(REG, t[5], 5)), UnitIf(REG, t[6], 6)), UnitIf(REG, t[7], 7)) == Wide(b)
  {
    ByteFromUnits(b);
  }

  lemma RegWideAt(b: Byte)
    ensures WideAt(REG, b)
  {
    hide Xor, Unit, UnitIf, ByteBits;
    var t := ByteBits(b);
    EightBits(REG, t);
    ByteFromWord(b, t);
    var x0 := Xor(0, UnitIf(REG, t[0], 0));
    var x1 := Xor(x0, UnitIf(REG, t[1], 1));
    var x2 := Xor(x1, UnitIf(REG, t[2], 2));
    var x3 := Xor(x2, UnitIf(REG, t[3], 3));
    var x4 := Xor(x3, UnitIf(REG, t[4], 4));
    var x5 := Xor(x4, UnitIf(REG, t[5], 5));
    var x6 := Xor(x5, UnitIf(REG, t[6], 6));
    RegXorIs(0, UnitIf(REG, t[0], 0));
    RegXorIs(x0, UnitIf(REG, t[1], 1));
    RegXorIs(x1, UnitIf(REG, t[2], 2));
    RegXorIs(x2, UnitIf(REG, t[3], 3));
    RegXorIs(x3, UnitIf(REG, t[4], 4));
    RegXorIs(x4, UnitIf(REG, t[5], 5));
    RegXorIs(x5, UnitIf(REG, t[6], 6));
    RegXorIs(x6, UnitIf(REG, t[7], 7));
  }

  lemma RegWide()
    ensures WideLaw(REG)
  {
    forall b: Byte ensures WideAt(REG, b) { RegWideAt(b); }
  }

  lemma RegLaws()
    ensures Laws(REG)
  {
    RegXor();
    RegStep();
    RegLow();
    RegWide();
  }

  // ---- one table lookup is one byte of division ----

  // While the lower byte is empty, a step only shifts.

  lemma Shift0(z: bv32)
    requires z & 0xFF == 0
    ensures REG.step(z) == z >> 1
  {
  }

  lemma Shift1(z: bv32)
    requires z & 0xFF == 0
    ensures REG.step(z >> 1) == z >> 2
  {
  }

  lemma Shift2(z: bv32)
    requires z & 0xFF == 0
    ensures REG.step(z >> 2) == z >> 3
  {
  }

  lemma Shift3(z: bv32)
    requires z & 0xFF == 0
    ensures REG.step(z >> 3) == z >> 4
  {
  }

  lemma Shift4(z: bv32)
    requires z & 0xFF == 0
    ensures REG.step(z >> 4) == z >> 5
  {
  }

  lemma Shift5(z: bv32)
    requires z & 0xFF == 0
    ensures REG.step(z >> 5) == z >> 6
  {
  }

  lemma Shift6(z: bv32)
    requires z & 0xFF == 0
    ensures REG.step(z >> 6) == z >> 7
  {
  }

  lemma Shift7(z: bv32)
    requires z & 0xFF == 0
    ensures REG.step(z >> 7) == z >> 8
  {
  }

  lemma ShiftChain(z: bv32) returns (c: seq<bv32>)
    requires z & 0xFF == 0
    ensures |c| == 9 && c[0] == z && c[8] == z >> 8 && forall i | 0 <= i < 8 :: REG.step(c[i]) == c[i+1]
  {
    c := [z, z >> 1, z >> 2, z >> 3, z >> 4, z >> 5, z >> 6, z >> 7, z >> 8];
    Shift0(z);
    Shift1(z);
    Shift2(z);
    Shift3(z);
    Shift4(z);
    Shift5(z);
    Shift6(z);
    Shift7(z);
  }

  lemma EightIsSteps(x: bv32)
    ensures Steps(REG, Width(), x) == Eight(x)
  {
    var a := BitStep(x);
    var b := BitStep(a);
    var c := BitStep(b);
    var d := BitStep(c);
    var e := BitStep(d);
    var f := BitStep(e);
    var g := BitStep(f);
    EightAlong(REG, [x, a, b, c, d, e, f, g, BitStep(g)]);
  }

  lemma TwoParts(y: bv32)
    ensures y == Xor(y & 0xFF, y & 0xFFFFFF00) && (y & 0xFFFFFF00) & 0xFF == 0 && y & 0xFF <= 0xFF
    ensures ((y & 0xFF) as bv8) as bv32 == y & 0xFF
  {
  }

  /** The remainder of a register is that of its lower byte and the shifted rest. */
  lemma StepsInParts(a: bv32, z: bv32)
    requires z & 0xFF == 0
    ensures Steps(REG, Width(), REG.xor(a, z)) == REG.xor(Steps(REG, Width(), a), z >> 8)
  {
    RegStep();
    var c := ShiftChain(z);
    EightInParts(REG, a, c);
  }

  lemma TableIsSteps(i: Byte)
    ensures Table(i) == Steps(REG, Width(), Wide(i))
  {
    TableIsDivision(i);
    EightIsSteps(Wide(i));
  }

  /** Dividing a register by one byte: t is the remainder of the lower byte. */
  lemma StepsByLowByte(y: bv32, t: bv32)
    requires Steps(REG, Width(), y & 0xFF) == t
    ensures Steps(REG, Width(), y) == Xor(t, (y & 0xFFFFFF00) >> 8)
  {
    hide Xor, BitStep, Steps;
    var low, high := y & 0xFF, y & 0xFFFFFF00;
    TwoParts(y);
    RegXorIs(low, high);
    StepsInParts(low, high);
    RegXorIs(t, high >> 8);
  }

  /** The table index of one round. */
  function Index(x: bv32, b: Byte): Byte {
    LowByteFits((x & 0xFFFF) ^ (b as bv32));
    (((x & 0xFFFF) ^ (b as bv32)) & 0xFF) as bv8
  }

  lemma LowByteFits(y: bv32)
    ensures y & 0xFF <= 0xFF
  {
  }

  lemma IndexIsLowByte(x: bv32, b: Byte)
    ensures Wide(Index(x, b)) == (x ^ (b as bv32)) & 0xFF
    ensures (x >> 8) & 0x00FFFFFF == ((x ^ (b as bv32)) & 0xFFFFFF00) >> 8
  {
  }

  /** One table-driven round divides the register, with the byte put in, by eight bits. */
  lemma RoundIsDivision(x: bv32, b: Byte, t: bv32)
    requires t == Steps(REG, Width(), Wide(Index(x, b)))
    ensures t ^ ((x >> 8) & 0x00FFFFFF) == Steps(REG, Width(), x ^ (b as bv32))
  {
    IndexIsLowByte(x, b);
    StepsByLowByte(x ^ (b as bv32), t);
  }

  /** One lookup in the table. */
  method Lookup(i: Byte) returns (t: bv32)
    ensures t == Steps(REG, Width(), Wide(i))
  {
    TableIsSteps(i);
    t := Table(i);
  }

  method TableRound(x: bv32, b: Byte) returns (r: bv32)
    ensures r == Steps(REG, Width(), REG.xor(x, REG.wide(b)))
  {
    var t := Lookup(Index(x, b));
    RoundIsDivision(x, b, t);
    RegXorIs(x, Wide(b));
    r := t ^ ((x >> 8) & 0x00FFFFFF);
  }

  // ---- the class ----

  class Crc {
    var mValue: bv32

    constructor ()
      ensures mValue == 0xFFFFFFFF
    {
      mValue := 0xFFFFFFFF;
    }

    method Init()
      modifies this
      ensures mValue == 0xFFFFFFFF
    {
      mValue := 0xFFFFFFFF;
    }

    /** The register after Update is the bit-by-bit remainder of everything fed so far. */
    method Update(data: array<Byte>, length: nat)
      requires length <= data.Length
      modifies this
      ensures mValue == Feed(REG, old(mValue), data[..length])
    {
      var count := 0;
      while count < length
        invariant 0 <= count <= length && mValue == Feed(REG, old(mValue), data[..count])
      {
        assert data[..count+1][..count] == data[..count];
        mValue := TableRound(mValue, data[count]);
        count := count + 1;
      }
    }

    /** Inverts the register in place, so that asking twice gives the raw register back. */
    method Value() returns (v: bv32)
      modifies this
      ensures v == mValue == old(mValue) ^ 0xFFFFFFFF
    {
      mValue := mValue ^ 0xFFFFFFFF;
      v := mValue;
    }
  }

  // ---- what the check is worth ----

  function Check(s: seq<Byte>): bv32 { Feed(REG, 0xFFFFFFFF, s) ^ 0xFFFFFFFF }

  /** Two updates are one update with the data joined. */
  lemma UpdatesJoin(x: bv32, a: seq<Byte>, b: seq<Byte>)
    ensures Feed(REG, Feed(REG, x, a), b) == Feed(REG, x, a + b)
  {
    FeedSplit(REG, x, a, b);
  }

  lemma InvertInjective(x: bv32, y: bv32)
    requires x ^ 0xFFFFFFFF == y ^ 0xFFFFFFFF
    ensures x == y
  {
  }

  /** Every burst of at most thirty-two wrong bits changes the check, wherever it lies. */
  lemma BurstsAreDetected(a: seq<Byte>, b: seq<Byte>, i: nat)
    requires |a| == |b| && Burst(XorBits(Bits(a), Bits(b)), i, 32)
    ensures Check(a) != Check(b)
  {
    RegLaws();
    BurstDetected(REG, 0xFFFFFFFF, a, b, i);
    if Check(a) == Check(b) { InvertInjective(Feed(REG, 0xFFFFFFFF, a), Feed(REG, 0xFFFFFFFF, b)); }
  }
}
