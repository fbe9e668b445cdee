/** The 65 names `errorString` gives are pairwise different
    (include/cl_details.hpp, lines 25-165). Each name is told apart by a
    fingerprint of its length and three of its characters; a table of the
    fingerprints and its inverse show that the fingerprint, and so the name,
    determines the code. */
module ErrorCodes {
  import opened CTypes
  import opened ClDetails

  /** Length and the characters at positions 3, 11 and 18 (0 where absent). */
  function Key(s: string): int {
    |s| * 1_000_000_000
      + (if |s| > 3 then s[3] as int else 0) * 1_000_000
      + (if |s| > 11 then s[11] as int else 0) * 1_000
      + (if |s| > 18 then s[18] as int else 0)
  }

  /** The fingerprint of each listed code's name. */
  function KeyTable(code: Int32): int {
    match code
    case 0 => 10_083_000_000
    case -1 => 19_068_079_068
    case -2 => 23_068_079_076
    case -3 => 25_067_095_065
    case -4 => 32_077_067_067
    case -5 => 19_079_069_083
    case -6 => 21_079_079_079
    case -7 => 31_080_071_078
    case -8 => 19_077_095_080
    case -9 => 24_073_082_083
    case -10 => 29_073_082_084
    case -11 => 24_066_079_065
    case -12 => 14_077_085_000
    case -13 => 31_077_069_066
    case -14 => 44_069_084_079
    case -15 => 26_067_080_095
    case -16 => 23_076_079_076
    case -17 => 23_076_071_073
    case -18 => 26_068_065_078
    case -19 => 32_075_082_095
    case -30 => 16_073_086_000
    case -31 => 22_073_068_084
    case -32 => 19_073_080_077
    case -33 => 17_073_068_000
    case -34 => 18_073_067_000
    case -35 => 27_073_081_082
    case -36 => 24_073_067_095
    case -37 => 19_073_072_082
    case -38 => 21_073_077_069
    case -39 => 34_073_073_079
    case -40 => 21_073_073_073
    case -41 => 18_073_083_000
    case -42 => 17_073_066_000
    case -43 => 24_073_066_080
    case -44 => 18_073_080_000
    case -45 => 29_073_080_095
    case -46 => 22_073_075_078
    case -47 => 28_073_075_068
    case -48 => 17_073_075_000
    case -49 => 20_073_065_069
    case -50 => 20_073_065_085
    case -51 => 19_073_065_069
    case -52 => 22_073_075_065
    case -53 => 25_073_087_077
    case -54 => 26_073_087_079
    case -55 => 25_073_087_069
    case -56 => 24_073_071_079
    case -57 => 26_073_069_065
    case -58 => 16_073_069_000
    case -59 => 20_073_079_079
    case -60 => 20_073_071_067
    case -61 => 22_073_066_083
    case -62 => 20_073_077_069
    case -63 => 27_073_071_087
    case -64 => 19_073_080_089
    case -65 => 27_073_073_069
    case -66 => 27_073_067_082
    case -67 => 25_073_076_079
    case -68 => 33_073_068_080
    case -1000 => 38_073_071_069
    case -1001 => 25_080_095_085
    case -1002 => 27_073_068_069
    case -1003 => 29_073_068_069
    case -1004 => 38_068_083_065
    case -1005 => 34_068_083_078
    case _ => 0
  }

  /** The code a fingerprint belongs to; 1, which is not listed, otherwise. */
  function CodeOfKey(k: int): Int32 {
    match k
    case 10_083_000_000 => 0
    case 19_068_079_068 => -1
    case 23_068_079_076 => -2
    case 25_067_095_065 => -3
    case 32_077_067_067 => -4
    case 19_079_069_083 => -5
    case 21_079_079_079 => -6
    case 31_080_071_078 => -7
    case 19_077_095_080 => -8
    case 24_073_082_083 => -9
    case 29_073_082_084 => -10
    case 24_066_079_065 => -11
    case 14_077_085_000 => -12
    case 31_077_069_066 => -13
    case 44_069_084_079 => -14
    case 26_067_080_095 => -15
    case 23_076_079_076 => -16
    case 23_076_071_073 => -17
    case 26_068_065_078 => -18
    case 32_075_082_095 => -19
    case 16_073_086_000 => -30
    case 22_073_068_084 => -31
    case 19_073_080_077 => -32
    case 17_073_068_000 => -33
    case 18_073_067_000 => -34
    case 27_073_081_082 => -35
    case 24_073_067_095 => -36
    case 19_073_072_082 => -37
    case 21_073_077_069 => -38
    case 34_073_073_079 => -39
    case 21_073_073_073 => -40
    case 18_073_083_000 => -41
    case 17_073_066_000 => -42
    case 24_073_066_080 => -43
    case 18_073_080_000 => -44
    case 29_073_080_095 => -45
    case 22_073_075_078 => -46
    case 28_073_075_068 => -47
    case 17_073_075_000 => -48
    case 20_073_065_069 => -49
    case 20_073_065_085 => -50
    case 19_073_065_069 => -51
    case 22_073_075_065 => -52
    case 25_073_087_077 => -53
    case 26_073_087_079 => -54
    case 25_073_087_069 => -55
    case 24_073_071_079 => -56
    case 26_073_069_065 => -57
    case 16_073_069_000 => -58
    case 20_073_079_079 => -59
    case 20_073_071_067 => -60
    case 22_073_066_083 => -61
    case 20_073_077_069 => -62
    case 27_073_071_087 => -63
    case 19_073_080_089 => -64
    case 27_073_073_069 => -65
    case 27_073_067_082 => -66
    case 25_073_076_079 => -67
    case 33_073_068_080 => -68
    case 38_073_071_069 => -1000
    case 25_080_095_085 => -1001
    case 27_073_068_069 => -1002
    case 29_073_068_069 => -1003
    case 38_068_083_065 => -1004
    case 34_068_083_078 => -1005
    case _ => 1
  }

  /** The name of `code` has the tabled fingerprint, and the fingerprint
      leads back to `code`. */
  predicate KeyFacts(code: Int32) {
    Key(ErrorString(code)) == KeyTable(code) && CodeOfKey(KeyTable(code)) == code
  }

  lemma NameKey0()
    ensures Key(ErrorString(0)) == 10_083_000_000
  {
    assert ErrorString(0) == "CL_SUCCESS";
  }

  lemma KeyFacts0()
    ensures KeyFacts(0)
  {
    NameKey0();
  }

  lemma NameKey1()
    ensures Key(ErrorString(-1)) == 19_068_079_068
  {
    assert ErrorString(-1) == "CL_DEVICE_NOT_FOUND";
  }

  lemma KeyFacts1()
    ensures KeyFacts(-1)
  {
    NameKey1();
  }

  lemma NameKey2()
    ensures Key(ErrorString(-2)) == 23_068_079_076
  {
    assert ErrorString(-2) == "CL_DEVICE_NOT_AVAILABLE";
  }

  lemma KeyFacts2()
    ensures KeyFacts(-2)
  {
    NameKey2();
  }

  lemma NameKey3()
    ensures Key(ErrorString(-3)) == 25_067_095_065
  {
    assert ErrorString(-3) == "CL_COMPILER_NOT_AVAILABLE";
  }

  lemma KeyFacts3()
    ensures KeyFacts(-3)
  {
    NameKey3();
  }

  lemma NameKey4()
    ensures Key(ErrorString(-4)) == 32_077_067_067
  {
    assert ErrorString(-4) == "CL_MEM_OBJECT_ALLOCATION_FAILURE";
  }

  lemma KeyFacts4()
    ensures KeyFacts(-4)
  {
    NameKey4();
  }

  lemma NameKey5()
    ensures Key(ErrorString(-5)) == 19_079_069_083
  {
    assert ErrorString(-5) == "CL_OUT_OF_RESOURCES";
  }

  lemma KeyFacts5()
    ensures KeyFacts(-5)
  {
    NameKey5();
  }

  lemma NameKey6()
    ensures Key(ErrorString(-6)) == 21_079_079_079
  {
    assert ErrorString(-6) == "CL_OUT_OF_HOST_MEMORY";
  }

  lemma KeyFacts6()
    ensures KeyFacts(-6)
  {
    NameKey6();
  }

  lemma NameKey7()
    ensures Key(ErrorString(-7)) == 31_080_071_078
  {
    assert ErrorString(-7) == "CL_PROFILING_INFO_NOT_AVAILABLE";
  }

  lemma KeyFacts7()
    ensures KeyFacts(-7)
  {
    NameKey7();
  }

  lemma NameKey8()
    ensures Key(ErrorString(-8)) == 19_077_095_080
  {
    assert ErrorString(-8) == "CL_MEM_COPY_OVERLAP";
  }

  lemma KeyFacts8()
    ensures KeyFacts(-8)
  {
    NameKey8();
  }

  lemma NameKey9()
    ensures Key(ErrorString(-9)) == 24_073_082_083
  {
    assert ErrorString(-9) == "CL_IMAGE_FORMAT_MISMATCH";
  }

  lemma KeyFacts9()
    ensures KeyFacts(-9)
  {
    NameKey9();
  }

  lemma NameKey10()
    ensures Key(ErrorString(-10)) == 29_073_082_084
  {
    assert ErrorString(-10) == "CL_IMAGE_FORMAT_NOT_SUPPORTED";
  }

  lemma KeyFacts10()
    ensures KeyFacts(-10)
  {
    NameKey10();
  }

  lemma NameKey11()
    ensures Key(ErrorString(-11)) == 24_066_079_065
  {
    assert ErrorString(-11) == "CL_BUILD_PROGRAM_FAILURE";
  }

  lemma KeyFacts11()
    ensures KeyFacts(-11)
  {
    NameKey11();
  }

  lemma NameKey12()
    ensures Key(ErrorString(-12)) == 14_077_085_000
  {
    assert ErrorString(-12) == "CL_MAP_FAILURE";
  }

  lemma KeyFacts12()
    ensures KeyFacts(-12)
  {
    NameKey12();
  }

  lemma NameKey13()
    ensures Key(ErrorString(-13)) == 31_077_069_066
  {
    assert ErrorString(-13) == "CL_MISALIGNED_SUB_BUFFER_OFFSET";
  }

  lemma KeyFacts13()
    ensures KeyFacts(-13)
  {
    NameKey13();
  }

  lemma NameKey14()
    ensures Key(ErrorString(-14)) == 44_069_084_079
  {
    assert ErrorString(-14) == "CL_EXEC_STATUS_ERROR_FOR_EVENTS_IN_WAIT_LIST";
  }

  lemma KeyFacts14()
    ensures KeyFacts(-14)
  {
    NameKey14();
  }

  lemma NameKey15()
    ensures Key(ErrorString(-15)) == 26_067_080_095
  {
    assert ErrorString(-15) == "CL_COMPILE_PROGRAM_FAILURE";
  }

  lemma KeyFacts15()
    ensures KeyFacts(-15)
  {
    NameKey15();
  }

  lemma NameKey16()
    ensures Key(ErrorString(-16)) == 23_076_079_076
  {
    assert ErrorString(-16) == "CL_LINKER_NOT_AVAILABLE";
  }

  lemma KeyFacts16()
    ensures KeyFacts(-16)
  {
    NameKey16();
  }

  lemma NameKey17()
    ensures Key(ErrorString(-17)) == 23_076_071_073
  {
    assert ErrorString(-17) == "CL_LINK_PROGRAM_FAILURE";
  }

  lemma KeyFacts17()
    ensures KeyFacts(-17)
  {
    NameKey17();
  }

  lemma NameKey18()
    ensures Key(ErrorString(-18)) == 26_068_065_078
  {
    assert ErrorString(-18) == "CL_DEVICE_PARTITION_FAILED";
  }

  lemma KeyFacts18()
    ensures KeyFacts(-18)
  {
    NameKey18();
  }

  lemma NameKey19()
    ensures Key(ErrorString(-19)) == 32_075_082_095
  {
    assert ErrorString(-19) == "CL_KERNEL_ARG_INFO_NOT_AVAILABLE";
  }

  lemma KeyFacts19()
    ensures KeyFacts(-19)
  {
    NameKey19();
  }

  lemma NameKey30()
    ensures Key(ErrorString(-30)) == 16_073_086_000
  {
    assert ErrorString(-30) == "CL_INVALID_VALUE";
  }

  lemma KeyFacts30()
    ensures KeyFacts(-30)
  {
    NameKey30();
  }

  lemma NameKey31()
    ensures Key(ErrorString(-31)) == 22_073_068_084
  {
    assert ErrorString(-31) == "CL_INVALID_DEVICE_TYPE";
  }

  lemma KeyFacts31()
    ensures KeyFacts(-31)
  {
    NameKey31();
  }

  lemma NameKey32()
    ensures Key(ErrorString(-32)) == 19_073_080_077
  {
    assert ErrorString(-32) == "CL_INVALID_PLATFORM";
  }

  lemma KeyFacts32()
    ensures KeyFacts(-32)
  {
    NameKey32();
  }

  lemma NameKey33()
    ensures Key(ErrorString(-33)) == 17_073_068_000
  {
    assert ErrorString(-33) == "CL_INVALID_DEVICE";
  }

  lemma KeyFacts33()
    ensures KeyFacts(-33)
  {
    NameKey33();
  }

  lemma NameKey34()
    ensures Key(ErrorString(-34)) == 18_073_067_000
  {
    assert ErrorString(-34) == "CL_INVALID_CONTEXT";
  }

  lemma KeyFacts34()
    ensures KeyFacts(-34)
  {
    NameKey34();
  }

  lemma NameKey35()
    ensures Key(ErrorString(-35)) == 27_073_081_082
  {
    assert ErrorString(-35) == "CL_INVALID_QUEUE_PROPERTIES";
  }

  lemma KeyFacts35()
    ensures KeyFacts(-35)
  {
    NameKey35();
  }

  lemma NameKey36()
    ensures Key(ErrorString(-36)) == 24_073_067_095
  {
    assert ErrorString(-36) == "CL_INVALID_COMMAND_QUEUE";
  }

  lemma KeyFacts36()
    ensures KeyFacts(-36)
  {
    NameKey36();
  }

  lemma NameKey37()
    ensures Key(ErrorString(-37)) == 19_073_072_082
  {
    assert ErrorString(-37) == "CL_INVALID_HOST_PTR";
  }

  lemma KeyFacts37()
    ensures KeyFacts(-37)
  {
    NameKey37();
  }

  lemma NameKey38()
    ensures Key(ErrorString(-38)) == 21_073_077_069
  {
    assert ErrorString(-38) == "CL_INVALID_MEM_OBJECT";
  }

  lemma KeyFacts38()
    ensures KeyFacts(-38)
  {
    NameKey38();
  }

  lemma NameKey39()
    ensures Key(ErrorString(-39)) == 34_073_073_079
  {
    assert ErrorString(-39) == "CL_INVALID_IMAGE_FORMAT_DESCRIPTOR";
  }

  lemma KeyFacts39()
    ensures KeyFacts(-39)
  {
    NameKey39();
  }

  lemma NameKey40()
    ensures Key(ErrorString(-40)) == 21_073_073_073
  {
    assert ErrorString(-40) == "CL_INVALID_IMAGE_SIZE";
  }

  lemma KeyFacts40()
    ensures KeyFacts(-40)
  {
    NameKey40();
  }

  lemma NameKey41()
    ensures Key(ErrorString(-41)) == 18_073_083_000
  {
    assert ErrorString(-41) == "CL_INVALID_SAMPLER";
  }

  lemma KeyFacts41()
    ensures KeyFacts(-41)
  {
    NameKey41();
  }

  lemma NameKey42()
    ensures Key(ErrorString(-42)) == 17_073_066_000
  {
    assert ErrorString(-42) == "CL_INVALID_BINARY";
  }

  lemma KeyFacts42()
    ensures KeyFacts(-42)
  {
    NameKey42();
  }

  lemma NameKey43()
    ensures Key(ErrorString(-43)) == 24_073_066_080
  {
    assert ErrorString(-43) == "CL_INVALID_BUILD_OPTIONS";
  }

  lemma KeyFacts43()
    ensures KeyFacts(-43)
  {
    NameKey43();
  }

  lemma NameKey44()
    ensures Key(ErrorString(-44)) == 18_073_080_000
  {
    assert ErrorString(-44) == "CL_INVALID_PROGRAM";
  }

  lemma KeyFacts44()
    ensures KeyFacts(-44)
  {
    NameKey44();
  }

  lemma NameKey45()
    ensures Key(ErrorString(-45)) == 29_073_080_095
  {
    assert ErrorString(-45) == "CL_INVALID_PROGRAM_EXECUTABLE";
  }

  lemma KeyFacts45()
    ensures KeyFacts(-45)
  {
    NameKey45();
  }

  lemma NameKey46()
    ensures Key(ErrorString(-46)) == 22_073_075_078
  {
    assert ErrorString(-46) == "CL_INVALID_KERNEL_NAME";
  }

  lemma KeyFacts46()
    ensures KeyFacts(-46)
  {
    NameKey46();
  }

  lemma NameKey47()
    ensures Key(ErrorString(-47)) == 28_073_075_068
  {
    assert ErrorString(-47) == "CL_INVALID_KERNEL_DEFINITION";
  }

  lemma KeyFacts47()
    ensures KeyFacts(-47)
  {
    NameKey47();
  }

  lemma NameKey48()
    ensures Key(ErrorString(-48)) == 17_073_075_000
  {
    assert ErrorString(-48) == "CL_INVALID_KERNEL";
  }

  lemma KeyFacts48()
    ensures KeyFacts(-48)
  {
    NameKey48();
  }

  lemma NameKey49()
    ensures Key(ErrorString(-49)) == 20_073_065_069
  {
    assert ErrorString(-49) == "CL_INVALID_ARG_INDEX";
  }

  lemma KeyFacts49()
    ensures KeyFacts(-49)
  {
    NameKey49();
  }

  lemma NameKey50()
    ensures Key(ErrorString(-50)) == 20_073_065_085
  {
    assert ErrorString(-50) == "CL_INVALID_ARG_VALUE";
  }

  lemma KeyFacts50()
    ensures KeyFacts(-50)
  {
    NameKey50();
  }

  lemma NameKey51()
    ensures Key(ErrorString(-51)) == 19_073_065_069
  {
    assert ErrorString(-51) == "CL_INVALID_ARG_SIZE";
  }

  lemma KeyFacts51()
    ensures KeyFacts(-51)
  {
    NameKey51();
  }

  lemma NameKey52()
    ensures Key(ErrorString(-52)) == 22_073_075_065
  {
    assert ErrorString(-52) == "CL_INVALID_KERNEL_ARGS";
  }

  lemma KeyFacts52()
    ensures KeyFacts(-52)
  {
    NameKey52();
  }

  lemma NameKey53()
    ensures Key(ErrorString(-53)) == 25_073_087_077
  {
    assert ErrorString(-53) == "CL_INVALID_WORK_DIMENSION";
  }

  lemma KeyFacts53()
    ensures KeyFacts(-53)
  {
    NameKey53();
  }

  lemma NameKey54()
    ensures Key(ErrorString(-54)) == 26_073_087_079
  {
    assert ErrorString(-54) == "CL_INVALID_WORK_GROUP_SIZE";
  }

  lemma KeyFacts54()
    ensures KeyFacts(-54)
  {
    NameKey54();
  }

  lemma NameKey55()
    ensures Key(ErrorString(-55)) == 25_073_087_069
  {
    assert ErrorString(-55) == "CL_INVALID_WORK_ITEM_SIZE";
  }

  lemma KeyFacts55()
    ensures KeyFacts(-55)
  {
    NameKey55();
  }

  lemma NameKey56()
    ensures Key(ErrorString(-56)) == 24_073_071_079
  {
    assert ErrorString(-56) == "CL_INVALID_GLOBAL_OFFSET";
  }

  lemma KeyFacts56()
    ensures KeyFacts(-56)
  {
    NameKey56();
  }

  lemma NameKey57()
    ensures Key(ErrorString(-57)) == 26_073_069_065
  {
    assert ErrorString(-57) == "CL_INVALID_EVENT_WAIT_LIST";
  }

  lemma KeyFacts57()
    ensures KeyFacts(-57)
  {
    NameKey57();
  }

  lemma NameKey58()
    ensures Key(ErrorString(-58)) == 16_073_069_000
  {
    assert ErrorString(-58) == "CL_INVALID_EVENT";
  }

  lemma KeyFacts58()
    ensures KeyFacts(-58)
  {
    NameKey58();
  }

  lemma NameKey59()
    ensures Key(ErrorString(-59)) == 20_073_079_079
  {
    assert ErrorString(-59) == "CL_INVALID_OPERATION";
  }

  lemma KeyFacts59()
    ensures KeyFacts(-59)
  {
    NameKey59();
  }

  lemma NameKey60()
    ensures Key(ErrorString(-60)) == 20_073_071_067
  {
    assert ErrorString(-60) == "CL_INVALID_GL_OBJECT";
  }

  lemma KeyFacts60()
    ensures KeyFacts(-60)
  {
    NameKey60();
  }

  lemma NameKey61()
    ensures Key(ErrorString(-61)) == 22_073_066_083
  {
    assert ErrorString(-61) == "CL_INVALID_BUFFER_SIZE";
  }

  lemma KeyFacts61()
    ensures KeyFacts(-61)
  {
    NameKey61();
  }

  lemma NameKey62()
    ensures Key(ErrorString(-62)) == 20_073_077_069
  {
    assert ErrorString(-62) == "CL_INVALID_MIP_LEVEL";
  }

  lemma KeyFacts62()
    ensures KeyFacts(-62)
  {
    NameKey62();
  }

  lemma NameKey63()
    ensures Key(ErrorString(-63)) == 27_073_071_087
  {
    assert ErrorString(-63) == "CL_INVALID_GLOBAL_WORK_SIZE";
  }

  lemma KeyFacts63()
    ensures KeyFacts(-63)
  {
    NameKey63();
  }

  lemma NameKey64()
    ensures Key(ErrorString(-64)) == 19_073_080_089
  {
    assert ErrorString(-64) == "CL_INVALID_PROPERTY";
  }

  lemma KeyFacts64()
    ensures KeyFacts(-64)
  {
    NameKey64();
  }

  lemma NameKey65()
    ensures Key(ErrorString(-65)) == 27_073_073_069
  {
    assert ErrorString(-65) == "CL_INVALID_IMAGE_DESCRIPTOR";
  }

  lemma KeyFacts65()
    ensures KeyFacts(-65)
  {
    NameKey65();
  }

  lemma NameKey66()
    ensures Key(ErrorString(-66)) == 27_073_067_082
  {
    assert ErrorString(-66) == "CL_INVALID_COMPILER_OPTIONS";
  }

  lemma KeyFacts66()
    ensures KeyFacts(-66)
  {
    NameKey66();
  }

  lemma NameKey67()
    ensures Key(ErrorString(-67)) == 25_073_076_079
  {
    assert ErrorString(-67) == "CL_INVALID_LINKER_OPTIONS";
  }

  lemma KeyFacts67()
    ensures KeyFacts(-67)
  {
    NameKey67();
  }

  lemma NameKey68()
    ensures Key(ErrorString(-68)) == 33_073_068_080
  {
    assert ErrorString(-68) == "CL_INVALID_DEVICE_PARTITION_COUNT";
  }

  lemma KeyFacts68()
    ensures KeyFacts(-68)
  {
    NameKey68();
  }

  lemma NameKey1000()
    ensures Key(ErrorString(-1000)) == 38_073_071_069
  {
    assert ErrorString(-1000) == "CL_INVALID_GL_SHAREGROUP_REFERENCE_KHR";
  }

  lemma KeyFacts1000()
    ensures KeyFacts(-1000)
  {
    NameKey1000();
  }

  lemma NameKey1001()
    ensures Key(ErrorString(-1001)) == 25_080_095_085
  {
    assert ErrorString(-1001) == "CL_PLATFORM_NOT_FOUND_KHR";
  }

  lemma KeyFacts1001()
    ensures KeyFacts(-1001)
  {
    NameKey1001();
  }

  lemma NameKey1002()
    ensures Key(ErrorString(-1002)) == 27_073_068_069
  {
    assert ErrorString(-1002) == "CL_INVALID_D3D10_DEVICE_KHR";
  }

  lemma KeyFacts1002()
    ensures KeyFacts(-1002)
  {
    NameKey1002();
  }

  lemma NameKey1003()
    ensures Key(ErrorString(-1003)) == 29_073_068_069
  {
    assert ErrorString(-1003) == "CL_INVALID_D3D10_RESOURCE_KHR";
  }

  lemma KeyFacts1003()
    ensures KeyFacts(-1003)
  {
    NameKey1003();
  }

  lemma NameKey1004()
    ensures Key(ErrorString(-1004)) == 38_068_083_065
  {
    assert ErrorString(-1004) == "CL_D3D10_RESOURCE_ALREADY_ACQUIRED_KHR";
  }

  lemma KeyFacts1004()
    ensures KeyFacts(-1004)
  {
    NameKey1004();
  }

  lemma NameKey1005()
    ensures Key(ErrorString(-1005)) == 34_068_083_078
  {
    assert ErrorString(-1005) == "CL_D3D10_RESOURCE_NOT_ACQUIRED_KHR";
  }

  lemma KeyFacts1005()
    ensures KeyFacts(-1005)
  {
    NameKey1005();
  }

  /** Every listed code's name has the tabled fingerprint, which leads back
      to the code. */
  lemma KeyOfListedCode(code: Int32)
    requires IsListedCode(code)
    ensures KeyFacts(code)
  {
    match code
    case 0 => KeyFacts0();
    case -1 => KeyFacts1();
    case -2 => KeyFacts2();
    case -3 => KeyFacts3();
    case -4 => KeyFacts4();
    case -5 => KeyFacts5();
    case -6 => KeyFacts6();
    case -7 => KeyFacts7();
    case -8 => KeyFacts8();
    case -9 => KeyFacts9();
    case -10 => KeyFacts10();
    case -11 => KeyFacts11();
    case -12 => KeyFacts12();
    case -13 => KeyFacts13();
    case -14 => KeyFacts14();
    case -15 => KeyFacts15();
    case -16 => KeyFacts16();
    case -17 => KeyFacts17();
    case -18 => KeyFacts18();
    case -19 => KeyFacts19();
    case -30 => KeyFacts30();
    case -31 => KeyFacts31();
    case -32 => KeyFacts32();
    case -33 => KeyFacts33();
    case -34 => KeyFacts34();
    case -35 => KeyFacts35();
    case -36 => KeyFacts36();
    case -37 => KeyFacts37();
    case -38 => KeyFacts38();
    case -39 => KeyFacts39();
    case -40 => KeyFacts40();
    case -41 => KeyFacts41();
    case -42 => KeyFacts42();
    case -43 => KeyFacts43();
    case -44 => KeyFacts44();
    case -45 => KeyFacts45();
    case -46 => KeyFacts46();
    case -47 => KeyFacts47();
    case -48 => KeyFacts48();
    case -49 => KeyFacts49();
    case -50 => KeyFacts50();
    case -51 => KeyFacts51();
    case -52 => KeyFacts52();
    case -53 => KeyFacts53();
    case -54 => KeyFacts54();
    case -55 => KeyFacts55();
    case -56 => KeyFacts56();
    case -57 => KeyFacts57();
    case -58 => KeyFacts58();
    case -59 => KeyFacts59();
    case -60 => KeyFacts60();
    case -61 => KeyFacts61();
    case -62 => KeyFacts62();
    case -63 => KeyFacts63();
    case -64 => KeyFacts64();
    case -65 => KeyFacts65();
    case -66 => KeyFacts66();
    case -67 => KeyFacts67();
    case -68 => KeyFacts68();
    case -1000 => KeyFacts1000();
    case -1001 => KeyFacts1001();
    case -1002 => KeyFacts1002();
    case -1003 => KeyFacts1003();
    case -1004 => KeyFacts1004();
    case -1005 => KeyFacts1005();
  }

  /** Different listed codes get different names. (A listed code and an
      unlisted one differ already: only unlisted codes get the fallback.) */
  lemma ErrorStringInjective(a: Int32, b: Int32)
    requires IsListedCode(a) && IsListedCode(b) && ErrorString(a) == ErrorString(b)
    ensures a == b
  {
    KeyOfListedCode(a);
    KeyOfListedCode(b);
  }
}
