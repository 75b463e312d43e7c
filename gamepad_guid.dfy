// Device identity for the DirectInput gamepad backend: the bitwise CRC-16
// table entry `crc8`, the description checksum folded from it, the fields of
// the SDL-style GUID, the vendor/product split of a product GUID, and the
// offset comparison handed to qsort.

module GamepadGuid {
  import opened Wrappers

  /** The reflected CRC-16 polynomial (CRC-16/ARC, x^16 + x^15 + x^2 + 1). */
  const Poly: bv16 := 0xA001

  /** One shift/xor step of the bit-serial CRC register, fed the low bit of `r`. */
  function CrcStep(crc: bv16, r: bv8): bv16
  {
    (if (crc ^ (r as bv16)) & 1 == 1 then Poly else 0) ^ (crc >> 1)
  }

  /** `n` steps of the bit-serial CRC, consuming the bits of `r` from the lowest up. */
  function CrcBits(crc: bv16, r: bv8, n: nat): bv16
    decreases n
  {
    if n == 0 then crc else CrcBits(CrcStep(crc, r), r >> 1, n - 1)
  }

  /** The table entry `crc8(r)`: eight bit steps from a zero register. */
  function Crc8Spec(r: bv8): bv16
  {
    CrcBits(0, r, 8)
  }

  /** The loop of `crc8`: eight steps, shifting `r` right after each. */
  method Crc8(r0: bv8) returns (crc: bv16)
    ensures crc == Crc8Spec(r0)
    ensures r0 == 0 ==> crc == 0
  {
    crc := 0;
    var r := r0;
    var i := 0;
    while i < 8
      invariant 0 <= i <= 8
      invariant CrcBits(crc, r, 8 - i) == Crc8Spec(r0)
    {
      crc := CrcStep(crc, r);
      i, r := i + 1, r >> 1;
    }
    if r0 == 0 {
      ZeroTableEntry(r0);
    }
  }

  lemma ZeroTableEntry(r: bv8)
    requires r == 0
    ensures Crc8Spec(r) == 0
  {
    ZeroRegisterStays(0, 0, 8);
  }

  lemma {:induction false} ZeroRegisterStays(crc: bv16, r: bv8, n: nat)
    requires crc == 0 && r == 0
    ensures CrcBits(crc, r, n) == 0
    decreases n
  {
    if n > 0 {
      QuietStep(crc, r);
      ZeroRegisterStays(CrcStep(crc, r), r >> 1, n - 1);
    }
  }

  /** The step without its branch: the polynomial masked by the fed bit. */
  lemma StepMasked(c: bv16, r: bv8)
    ensures CrcStep(c, r) == (Poly & (0 - ((c ^ (r as bv16)) & 1))) ^ (c >> 1)
  {
    if (c ^ (r as bv16)) & 1 == 1 {
      assert 0 - ((c ^ (r as bv16)) & 1) == 0xFFFF;
    } else {
      assert (c ^ (r as bv16)) & 1 == 0;
    }
  }

  /** A step whose fed bit is zero only shifts the register. */
  lemma QuietStep(c: bv16, r: bv8)
    requires (c ^ (r as bv16)) & 1 == 0
    ensures CrcStep(c, r) == c >> 1
  {
    StepMasked(c, r);
  }

  /** Low byte of a 16-bit register, the `(uint8_t)crc` cast. */
  function LowByte(crc: bv16): bv8
  {
    (crc & 0xFF) as bv8
  }

  /** One turn of the description loop in `buildGuid`. */
  function CrcByte(crc: bv16, b: bv8): bv16
  {
    Crc8Spec(LowByte(crc) ^ b) ^ (crc >> 8)
  }

  /** The checksum of a byte string, folded left from register `crc`. */
  function FoldCrc(crc: bv16, s: seq<bv8>): bv16
    decreases |s|
  {
    if s == [] then crc else CrcByte(FoldCrc(crc, s[..|s| - 1]), s[|s| - 1])
  }

  /** Folding a concatenation is folding the second part from the first part's register. */
  lemma {:induction false} FoldCrcAppend(crc: bv16, a: seq<bv8>, b: seq<bv8>)
    ensures FoldCrc(crc, a + b) == FoldCrc(FoldCrc(crc, a), b)
    decreases |b|
  {
    if b == [] {
      assert a + b == a;
    } else {
      var b' := b[..|b| - 1];
      assert (a + b)[..|a + b| - 1] == a + b';
      FoldCrcAppend(crc, a, b');
    }
  }

  lemma FoldCrcSnoc(crc: bv16, s: seq<bv8>, b: bv8)
    ensures FoldCrc(crc, s + [b]) == CrcByte(FoldCrc(crc, s), b)
  {
    assert (s + [b])[..|s|] == s;
  }

  lemma FoldCrcStep(s: seq<bv8>, i: nat, crc: bv16)
    requires i < |s| && crc == FoldCrc(0, s[..i])
    ensures CrcByte(crc, s[i]) == FoldCrc(0, s[..i + 1])
  {
    FoldCrcSnoc(0, s[..i], s[i]);
    assert s[..i + 1] == s[..i] + [s[i]];
  }

  lemma ByteUpdate(crc: bv16, b: bv8, t: bv16)
    requires t == Crc8Spec(LowByte(crc) ^ b)
    ensures t ^ (crc >> 8) == CrcByte(crc, b)
  {
  }

  /** The bytes of a NUL-terminated string: everything before the first 0. */
  function CString(s: seq<bv8>): (r: seq<bv8>)
    ensures |r| <= |s| && r == s[..|r|] && 0 !in r
    ensures |r| < |s| ==> s[|r|] == 0
    decreases |s|
  {
    if s == [] || s[0] == 0 then [] else [s[0]] + CString(s[1..])
  }

  /** The description checksum; a missing description gives 0. */
  function DescriptionCrc(description: Option<seq<bv8>>): bv16
  {
    match description
    case None => 0
    case Some(s) => FoldCrc(0, CString(s))
  }

  /** Bytes after the terminating NUL do not affect the checksum. */
  lemma TailIgnored(a: seq<bv8>, tail: seq<bv8>)
    requires 0 !in a
    ensures DescriptionCrc(Some(a + [0] + tail)) == DescriptionCrc(Some(a))
  {
    CStringOfTerminated(a, [0] + tail);
    CStringOfTerminated(a, []);
    assert a + [0] + tail == a + ([0] + tail);
    assert a + [] == a;
  }

  lemma {:induction false} CStringOfTerminated(a: seq<bv8>, rest: seq<bv8>)
    requires 0 !in a
    ensures CString(a + rest) == a || (rest != [] && rest[0] != 0)
    ensures rest == [] || rest[0] == 0 ==> CString(a + rest) == a
    decreases |a|
  {
    if a != [] {
      assert (a + rest)[1..] == a[1..] + rest;
      CStringOfTerminated(a[1..], rest);
    }
  }

  /** The ASCII digits "123456789", the standard CRC check input. */
  const CheckInput: seq<bv8> := [0x31, 0x32, 0x33, 0x34, 0x35, 0x36, 0x37, 0x38, 0x39]

  /**
   * The standard check value of CRC-16/ARC: the description "123456789"
   * gives 0xBB3D.
   */
  lemma CheckValue()
    ensures DescriptionCrc(Some(CheckInput)) == 0xBB3D
  {
    CStringOfTerminated(CheckInput, []);
    assert CheckInput + [] == CheckInput;
    CheckPrefix9();
    assert CheckInput[..9] == CheckInput;
  }

  /** The register after each successive digit of the check input. */
  lemma CheckPrefix1()
    ensures FoldCrc(0, CheckInput[..1]) == 0xD4C1
  {
    FoldCrcStep(CheckInput, 0, 0);
    assert CrcByte(0, 0x31) == 0xD4C1;
  }

  lemma CheckPrefix2()
    ensures FoldCrc(0, CheckInput[..2]) == 0x4594
  {
    CheckPrefix1();
    FoldCrcStep(CheckInput, 1, 0xD4C1);
    assert CrcByte(0xD4C1, 0x32) == 0x4594;
  }

  lemma CheckPrefix3()
    ensures FoldCrc(0, CheckInput[..3]) == 0xBA04
  {
    CheckPrefix2();
    FoldCrcStep(CheckInput, 2, 0x4594);
    assert CrcByte(0x4594, 0x33) == 0xBA04;
  }

  lemma CheckPrefix4()
    ensures FoldCrc(0, CheckInput[..4]) == 0x14BA
  {
    CheckPrefix3();
    FoldCrcStep(CheckInput, 3, 0xBA04);
    assert CrcByte(0xBA04, 0x34) == 0x14BA;
  }

  lemma CheckPrefix5()
    ensures FoldCrc(0, CheckInput[..5]) == 0xA455
  {
    CheckPrefix4();
    FoldCrcStep(CheckInput, 4, 0x14BA);
    assert CrcByte(0x14BA, 0x35) == 0xA455;
  }

  lemma CheckPrefix6()
    ensures FoldCrc(0, CheckInput[..6]) == 0x29E4
  {
    CheckPrefix5();
    FoldCrcStep(CheckInput, 5, 0xA455);
    assert CrcByte(0xA455, 0x36) == 0x29E4;
  }

  lemma CheckPrefix7()
    ensures FoldCrc(0, CheckInput[..7]) == 0x9D68
  {
    CheckPrefix6();
    FoldCrcStep(CheckInput, 6, 0x29E4);
    assert CrcByte(0x29E4, 0x37) == 0x9D68;
  }

  lemma CheckPrefix8()
    ensures FoldCrc(0, CheckInput[..8]) == 0x3C9D
  {
    CheckPrefix7();
    FoldCrcStep(CheckInput, 7, 0x9D68);
    assert CrcByte(0x9D68, 0x38) == 0x3C9D;
  }

  lemma CheckPrefix9()
    ensures FoldCrc(0, CheckInput[..9]) == 0xBB3D
  {
    CheckPrefix8();
    FoldCrcStep(CheckInput, 8, 0x3C9D);
    assert CrcByte(0x3C9D, 0x39) == 0xBB3D;
  }

  /** The description loop of `buildGuid`, calling `crc8` once per byte until the NUL. */
  method ComputeDescriptionCrc(description: Option<seq<bv8>>) returns (crc: bv16)
    ensures crc == DescriptionCrc(description)
    ensures description.None? ==> crc == 0
  {
    crc := 0;
    if description.Some? {
      var s := description.value;
      ghost var str := CString(s);
      var i := 0;
      while i < |s| && s[i] != 0
        invariant 0 <= i <= |str|
        invariant crc == FoldCrc(0, s[..i])
      {
        var t := Crc8(LowByte(crc) ^ s[i]);
        FoldCrcStep(s, i, crc);
        ByteUpdate(crc, s[i], t);
        crc := t ^ (crc >> 8);
        i := i + 1;
      }
      assert s[..i] == str;
    }
  }

  /** The 128-bit device GUID, as the two views `buildGuid` writes. */
  datatype Guid =
    | RawGuid(bytes: seq<bv8>)
    | StandardGuid(bus: bv16, crc: bv16, vendor: bv16, zero1: bv16,
                   product: bv16, zero2: bv16, version: bv16, driver: bv8, info: bv8)

  /** The ASCII bytes of "xinput". */
  const XInputTag: seq<bv8> := [0x78, 0x69, 0x6E, 0x70, 0x75, 0x74]

  /** The XInput GUID: zero-filled, then the tag copied over its leading bytes. */
  function XInputGuid(): (g: Guid)
    ensures g.RawGuid? && |g.bytes| == 16 && g.bytes[..6] == XInputTag
    ensures forall i :: 6 <= i < 16 ==> g.bytes[i] == 0
  {
    RawGuid(XInputTag + seq(10, _ => 0))
  }

  /** The USB bus number `buildGuid` stamps into a standard GUID. */
  const UsbBus: bv16 := 0x03
  /** The driver letter 'h' (HID). */
  const HidDriver: bv8 := 0x68

  /** The GUID contents for a device with these description, vendor and product. */
  function DeviceGuid(description: Option<seq<bv8>>, vendor: bv16, product: bv16, isXInput: bool): (g: Guid)
    ensures g.RawGuid? <==> isXInput
    ensures !isXInput ==> g.crc == DescriptionCrc(description) && g.vendor == vendor && g.product == product
  {
    if isXInput then XInputGuid()
    else StandardGuid(UsbBus, DescriptionCrc(description), vendor, 0, product, 0, 1, HidDriver, 0)
  }

  /**
   * Two non-XInput devices get the same GUID exactly when their description
   * checksums, vendors and products agree; the fixed fields never differ.
   */
  lemma StandardGuidIdentifies(d1: Option<seq<bv8>>, v1: bv16, p1: bv16, d2: Option<seq<bv8>>, v2: bv16, p2: bv16)
    ensures DeviceGuid(d1, v1, p1, false) == DeviceGuid(d2, v2, p2, false)
            <==> DescriptionCrc(d1) == DescriptionCrc(d2) && v1 == v2 && p1 == p2
    ensures DeviceGuid(d1, v1, p1, false).bus == UsbBus && DeviceGuid(d1, v1, p1, false).zero1 == 0
            && DeviceGuid(d1, v1, p1, false).zero2 == 0 && DeviceGuid(d1, v1, p1, false).version == 1
            && DeviceGuid(d1, v1, p1, false).driver == HidDriver && DeviceGuid(d1, v1, p1, false).info == 0
  {
  }

  /** The XInput GUID ignores description, vendor and product. */
  lemma XInputGuidConstant(d1: Option<seq<bv8>>, v1: bv16, p1: bv16, d2: Option<seq<bv8>>, v2: bv16, p2: bv16)
    ensures DeviceGuid(d1, v1, p1, true) == DeviceGuid(d2, v2, p2, true)
    ensures DeviceGuid(d1, v1, p1, true) != DeviceGuid(d2, v2, p2, false)
  {
  }

  /** Vendor (low word) and product (high word) of a product GUID's `Data1`. */
  function SplitData1(data1: bv32): (r: (bv16, bv16))
    ensures (r.0 as bv32) | ((r.1 as bv32) << 16) == data1
  {
    ((data1 & 0xFFFF) as bv16, ((data1 >> 16) & 0xFFFF) as bv16)
  }

  /** Packing a vendor and product and splitting again gives them back. */
  lemma SplitJoin(vendor: bv16, product: bv16)
    ensures SplitData1((vendor as bv32) | ((product as bv32) << 16)) == (vendor, product)
  {
  }

  /** The unsigned 32-bit `DWORD`. */
  type Dword = x: int | 0 <= x < 0x1_0000_0000

  /** `compareOffset`: the three-way comparison of two object offsets. */
  function CompareOffset(o1: Dword, o2: Dword): (r: int)
    ensures r == -1 || r == 0 || r == 1
    ensures r < 0 <==> o1 < o2
    ensures r > 0 <==> o1 > o2
  {
    if o1 < o2 then -1 else if o1 > o2 then 1 else 0
  }

  /** The comparison is antisymmetric and transitive, as qsort requires. */
  lemma CompareOffsetOrder(a: Dword, b: Dword, c: Dword)
    ensures CompareOffset(a, b) == -CompareOffset(b, a)
    ensures CompareOffset(a, b) <= 0 && CompareOffset(b, c) <= 0 ==> CompareOffset(a, c) <= 0
    ensures CompareOffset(a, b) == 0 <==> a == b
  {
  }
}
