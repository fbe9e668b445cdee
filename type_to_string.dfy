/** The OpenCV matrix type tag, such as "16UC1" (include/type_to_string.hpp).
    An OpenCV type code keeps the element depth in its low three bits and the
    channel count minus one in the bits above them. */
module TypeToString {
  import opened CTypes
  import Decimal

  const CvMatDepthMask: int := 7

  /** The depth codes CV_8U .. CV_64F. */
  const Cv8U: nat := 0
  const Cv8S: nat := 1
  const Cv16U: nat := 2
  const Cv16S: nat := 3
  const Cv32S: nat := 4
  const Cv32F: nat := 5
  const Cv64F: nat := 6

  /** `type & CV_MAT_DEPTH_MASK`. On a two's complement `int` the low three bits
      are the remainder modulo 8, which Dafny's `%` gives for negative codes too. */
  function Depth(t: Int32): (d: nat)
    ensures d <= CvMatDepthMask
    ensures (t - d) % 8 == 0
  {
    t % 8
  }

  /** `uint8_t(1 + (type >> CV_CN_SHIFT))`: the arithmetic shift floors, as
      Dafny's `/` does for a positive divisor, and the store into a `uint8_t`
      keeps the value modulo 256. */
  function Channels(t: Int32): (c: nat)
    ensures c < 256
    ensures (c - 1 - (t - Depth(t)) / 8) % 256 == 0
  {
    (1 + t / 8) % 256
  }

  /** The name the switch gives a depth; anything that is not one of the seven
      standard depths is "User". */
  function DepthName(d: nat): (s: string)
    ensures 2 <= |s| <= 4
  {
    match d
    case 0 => "8U"
    case 1 => "8S"
    case 2 => "16U"
    case 3 => "16S"
    case 4 => "32S"
    case 5 => "32F"
    case 6 => "64F"
    case _ => "User"
  }

  /** The depth a name stands for: the inverse of DepthName on 0..7. */
  function DepthOfName(s: string): Option<nat> {
    match s
    case "8U" => Some(Cv8U)
    case "8S" => Some(Cv8S)
    case "16U" => Some(Cv16U)
    case "16S" => Some(Cv16S)
    case "32S" => Some(Cv32S)
    case "32F" => Some(Cv32F)
    case "64F" => Some(Cv64F)
    case "User" => Some(7)
    case _ => None
  }

  lemma DepthNameRoundTrip(d: nat)
    requires d <= CvMatDepthMask
    ensures DepthOfName(DepthName(d)) == Some(d)
  {
  }

  /** `r += (channels + '0')`: the sum is an `int` that the string stores as one
      `char`, i.e. modulo 256. */
  function ChannelChar(c: nat): (ch: char)
    requires c < 256
    ensures ch as int < 256
    ensures c < 10 ==> ch == Decimal.DigitChar(c)
  {
    ((c + '0' as int) % 256) as char
  }

  lemma ChannelCharInjective(a: nat, b: nat)
    requires a < 256 && b < 256 && ChannelChar(a) == ChannelChar(b)
    ensures a == b
  {
  }

  /** The tag of a type code: the depth name, then "C", then one character
      for the channel count. */
  function TypeToString(t: Int32): (s: string)
    ensures |s| == |DepthName(Depth(t))| + 2
    ensures s[..|s| - 2] == DepthName(Depth(t))
    ensures s[|s| - 2] == 'C' && s[|s| - 1] == ChannelChar(Channels(t))
  {
    DepthName(Depth(t)) + "C" + [ChannelChar(Channels(t))]
  }

  /** `CV_MAKETYPE(depth, cn)`: the encoding the tag decodes. */
  function MakeType(depth: nat, cn: nat): int {
    depth + (cn - 1) * 8
  }

  /** Decoding an encoded type gives back its depth and channel count. */
  lemma DecodeMakeType(depth: nat, cn: nat)
    requires depth <= CvMatDepthMask && 1 <= cn <= 512
    ensures var t := MakeType(depth, cn);
      -0x8000_0000 <= t < 0x8000_0000 && Depth(t) == depth && Channels(t) == cn % 256
  {
    var t := MakeType(depth, cn);
    assert t / 8 == cn - 1;
  }

  /** For the standard depths and one to nine channels the tag is the usual
      OpenCV name, e.g. CV_16UC1 (= 2) gives "16UC1". */
  lemma TypeToStringOfMakeType(depth: nat, cn: nat)
    requires depth < 7 && 1 <= cn <= 9
    ensures TypeToString(MakeType(depth, cn)) == DepthName(depth) + "C" + [Decimal.DigitChar(cn)]
  {
    var t := MakeType(depth, cn);
    DecodeMakeType(depth, cn);
    assert Depth(t) == depth && Channels(t) == cn;
    assert ChannelChar(Channels(t)) == Decimal.DigitChar(cn);
  }

  /** The tag determines the depth and the channel count: two codes with the
      same tag agree on both. */
  lemma TypeToStringDetermines(a: Int32, b: Int32)
    requires TypeToString(a) == TypeToString(b)
    ensures Depth(a) == Depth(b) && Channels(a) == Channels(b)
  {
    var s, u := TypeToString(a), TypeToString(b);
    assert s[..|s| - 2] == DepthName(Depth(a));
    assert u[..|u| - 2] == DepthName(Depth(b));
    DepthNameRoundTrip(Depth(a));
    DepthNameRoundTrip(Depth(b));
    ChannelCharInjective(Channels(a), Channels(b));
  }

  lemma TypeToStringExamples()
    ensures TypeToString(2) == "16UC1"
    ensures TypeToString(-1) == "UserC0"
  {
  }
}
