/** Classification of a device's service UUIDs into the Headset category. */
module Classifier {

  /** The leading eight hex digits of the Headset service class 0x1108 written
      as a 128-bit UUID over the Bluetooth Base UUID. */
  const HeadsetUuid: string := "00001108"

  /** QString::left: the first n characters, or the whole string when it is
      shorter than n. */
  function Left(s: string, n: nat): (r: string)
    ensures |r| == if n < |s| then n else |s|
    ensures r <= s
  {
    if n < |s| then s[..n] else s
  }

  /** A UUID names the Headset service when its first eight characters are
      exactly HeadsetUuid; a string shorter than that never matches. */
  function IsHeadset(uuid: string): (r: bool)
    ensures r <==> HeadsetUuid <= uuid
    ensures |uuid| < |HeadsetUuid| ==> !r
  {
    Left(uuid, |HeadsetUuid|) == HeadsetUuid
  }

  /** std::any_of over a device's UUID list with IsHeadset. */
  function AnyHeadset(uuids: seq<string>): (r: bool)
    ensures r <==> exists u :: u in uuids && IsHeadset(u)
  {
    if uuids == [] then false
    else IsHeadset(uuids[0]) || AnyHeadset(uuids[1..])
  }

  // ---------------------------------------------------------------------
  // The 128-bit form of a service class UUID (Bluetooth Core Specification,
  // Vol 3, Part B, section 2.5.1): a 16- or 32-bit alias v stands for
  // v * 2^96 + Base UUID, written as eight hex digits for v followed by the
  // fixed tail of the Base UUID 00000000-0000-1000-8000-00805f9b34fb.
  // ---------------------------------------------------------------------

  const HexDigits: string := "0123456789abcdef"

  const BaseUuidTail: string := "-0000-1000-8000-00805f9b34fb"

  function Pow16(n: nat): (r: nat)
    ensures r > 0
  {
    if n == 0 then 1 else 16 * Pow16(n - 1)
  }

  /** The lowest `width` hex digits of `value`, most significant first. */
  function Hex(value: nat, width: nat): (r: string)
    ensures |r| == width
  {
    if width == 0 then "" else Hex(value / 16, width - 1) + [HexDigits[value % 16]]
  }

  /** The textual 128-bit UUID of the service class with 32-bit alias `alias`. */
  function ServiceClassUuid(alias: nat): (r: string)
    requires alias < 0x1_0000_0000
    ensures |r| == 36 && r[8..] == BaseUuidTail
  {
    Hex(alias, 8) + BaseUuidTail
  }

  lemma HexDigitsDistinct(i: nat, j: nat)
    requires i < 16 && j < 16 && HexDigits[i] == HexDigits[j]
    ensures i == j
  {
  }

  /** Hex is injective on values below 16^width. */
  lemma {:induction false} HexInjective(a: nat, b: nat, width: nat)
    requires a < Pow16(width) && b < Pow16(width)
    requires Hex(a, width) == Hex(b, width)
    ensures a == b
  {
    if width > 0 {
      var ha, hb := Hex(a / 16, width - 1), Hex(b / 16, width - 1);
      assert Hex(a, width)[width - 1] == HexDigits[a % 16];
      assert Hex(b, width)[width - 1] == HexDigits[b % 16];
      HexDigitsDistinct(a % 16, b % 16);
      assert ha == Hex(a, width)[..width - 1];
      assert hb == Hex(b, width)[..width - 1];
      HexInjective(a / 16, b / 16, width - 1);
    }
  }

  lemma HeadsetAliasDigits()
    ensures Hex(0x1108, 8) == HeadsetUuid
  {
    assert HexDigits[0] == '0' && HexDigits[1] == '1' && HexDigits[8] == '8';
    assert Hex(0, 1) == "0";
    assert Hex(0, 2) == "00";
    assert Hex(0, 3) == "000";
    assert Hex(0, 4) == "0000";
    assert Hex(0x1, 5) == "00001";
    assert Hex(0x11, 6) == "000011";
    assert Hex(0x110, 7) == "0000110";
  }

  /** Among all service classes with a 16- or 32-bit alias, the classifier
      picks out exactly the Headset class 0x1108. */
  lemma HeadsetServiceClass(alias: nat)
    requires alias < 0x1_0000_0000
    ensures IsHeadset(ServiceClassUuid(alias)) <==> alias == 0x1108
  {
    var u := ServiceClassUuid(alias);
    assert u[..8] == Hex(alias, 8);
    HeadsetAliasDigits();
    if IsHeadset(u) {
      assert Pow16(8) == 0x1_0000_0000;
      HexInjective(alias, 0x1108, 8);
    }
  }
}
