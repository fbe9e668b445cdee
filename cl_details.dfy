/** Human-readable names for OpenCL status codes and device types
    (include/cl_details.hpp). The codes 0, -1..-19 and -30..-68 are those of
    the Khronos OpenCL 1.2 `cl.h` header, and -1000..-1005 are the error codes
    of the KHR extension headers (cl_khr_icd, cl_khr_gl_sharing,
    cl_khr_d3d10_sharing); the device types are the `CL_DEVICE_TYPE_*` bit-field values
    of section 4.2 (Querying Devices) of the OpenCL 1.2 specification. */
module ClDetails {
  import opened CTypes
  import opened Strings

  const DeviceTypeDefault: UInt64 := 1
  const DeviceTypeCpu: UInt64 := 2
  const DeviceTypeGpu: UInt64 := 4
  const DeviceTypeAccelerator: UInt64 := 8
  const DeviceTypeCustom: UInt64 := 16
  const DeviceTypeAll: UInt64 := 0xFFFF_FFFF

  /** The six device-type constants that have a name. */
  predicate IsNamedDeviceType(t: UInt64) {
    t == DeviceTypeDefault || t == DeviceTypeCpu || t == DeviceTypeGpu ||
    t == DeviceTypeAccelerator || t == DeviceTypeCustom || t == DeviceTypeAll
  }

  /** The name of a device type. The match is by equality with one of the
      six constants, not by decoding bits: anything else, including a
      combination of several types, has the empty name. */
  function DeviceTypeToString(t: UInt64): (s: string)
    ensures s == "" <==> !IsNamedDeviceType(t)
    ensures s != "" ==> StartsWith(s, "CL_DEVICE_TYPE_")
  {
    if t == DeviceTypeDefault then "CL_DEVICE_TYPE_DEFAULT"
    else if t == DeviceTypeCpu then "CL_DEVICE_TYPE_CPU"
    else if t == DeviceTypeGpu then "CL_DEVICE_TYPE_GPU"
    else if t == DeviceTypeAccelerator then "CL_DEVICE_TYPE_ACCELERATOR"
    else if t == DeviceTypeCustom then "CL_DEVICE_TYPE_CUSTOM"
    else if t == DeviceTypeAll then "CL_DEVICE_TYPE_ALL"
    else ""
  }

  /** The device type a name stands for: the inverse of DeviceTypeToString. */
  function DeviceTypeOfName(s: string): Option<UInt64> {
    match s
    case "CL_DEVICE_TYPE_DEFAULT" => Some(DeviceTypeDefault)
    case "CL_DEVICE_TYPE_CPU" => Some(DeviceTypeCpu)
    case "CL_DEVICE_TYPE_GPU" => Some(DeviceTypeGpu)
    case "CL_DEVICE_TYPE_ACCELERATOR" => Some(DeviceTypeAccelerator)
    case "CL_DEVICE_TYPE_CUSTOM" => Some(DeviceTypeCustom)
    case "CL_DEVICE_TYPE_ALL" => Some(DeviceTypeAll)
    case _ => None
  }

  /** Each of the six constants has its own name: the name determines the type. */
  lemma DeviceTypeNameRoundTrip(t: UInt64)
    ensures IsNamedDeviceType(t) ==> DeviceTypeOfName(DeviceTypeToString(t)) == Some(t)
    ensures !IsNamedDeviceType(t) ==> DeviceTypeOfName(DeviceTypeToString(t)) == None
  {
  }

  /** Distinct named types have distinct names. */
  lemma DeviceTypeToStringInjective(a: UInt64, b: UInt64)
    requires IsNamedDeviceType(a) && DeviceTypeToString(a) == DeviceTypeToString(b)
    ensures a == b
  {
    DeviceTypeNameRoundTrip(a);
    DeviceTypeNameRoundTrip(b);
  }

  /** The bitwise OR of two different single-bit types (CPU|GPU, say) is a
      valid request but has no name. */
  lemma CombinedDeviceTypeIsUnnamed(a: UInt64, b: UInt64)
    requires a in {DeviceTypeDefault, DeviceTypeCpu, DeviceTypeGpu, DeviceTypeAccelerator, DeviceTypeCustom}
    requires b in {DeviceTypeDefault, DeviceTypeCpu, DeviceTypeGpu, DeviceTypeAccelerator, DeviceTypeCustom}
    requires a != b
    ensures DeviceTypeToString(((a as bv8) | (b as bv8)) as int) == ""
  {
  }

  const UnknownError: string := "Unknown OpenCL error"

  /** The codes that have their own name: success, the run-time errors -1..-19,
      the compile-time errors -30..-68 and the extension errors -1000..-1005. */
  predicate IsListedCode(code: int) {
    code == 0 || -19 <= code <= -1 || -68 <= code <= -30 || -1005 <= code <= -1000
  }

  /** The name of a status code. Total: an unlisted code gets the fallback text. */
  function ErrorString(code: Int32): (s: string)
    ensures s == UnknownError <==> !IsListedCode(code)
  {
    match code
    case 0 => "CL_SUCCESS"
    case -1 => "CL_DEVICE_NOT_FOUND"
    case -2 => "CL_DEVICE_NOT_AVAILABLE"
    case -3 => "CL_COMPILER_NOT_AVAILABLE"
    case -4 => "CL_MEM_OBJECT_ALLOCATION_FAILURE"
    case -5 => "CL_OUT_OF_RESOURCES"
    case -6 => "CL_OUT_OF_HOST_MEMORY"
    case -7 => "CL_PROFILING_INFO_NOT_AVAILABLE"
    case -8 => "CL_MEM_COPY_OVERLAP"
    case -9 => "CL_IMAGE_FORMAT_MISMATCH"
    case -10 => "CL_IMAGE_FORMAT_NOT_SUPPORTED"
    case -11 => "CL_BUILD_PROGRAM_FAILURE"
    case -12 => "CL_MAP_FAILURE"
    case -13 => "CL_MISALIGNED_SUB_BUFFER_OFFSET"
    case -14 => "CL_EXEC_STATUS_ERROR_FOR_EVENTS_IN_WAIT_LIST"
    case -15 => "CL_COMPILE_PROGRAM_FAILURE"
    case -16 => "CL_LINKER_NOT_AVAILABLE"
    case -17 => "CL_LINK_PROGRAM_FAILURE"
    case -18 => "CL_DEVICE_PARTITION_FAILED"
    case -19 => "CL_KERNEL_ARG_INFO_NOT_AVAILABLE"
    case -30 => "CL_INVALID_VALUE"
    case -31 => "CL_INVALID_DEVICE_TYPE"
    case -32 => "CL_INVALID_PLATFORM"
    case -33 => "CL_INVALID_DEVICE"
    case -34 => "CL_INVALID_CONTEXT"
    case -35 => "CL_INVALID_QUEUE_PROPERTIES"
    case -36 => "CL_INVALID_COMMAND_QUEUE"
    case -37 => "CL_INVALID_HOST_PTR"
    case -38 => "CL_INVALID_MEM_OBJECT"
    case -39 => "CL_INVALID_IMAGE_FORMAT_DESCRIPTOR"
    case -40 => "CL_INVALID_IMAGE_SIZE"
    case -41 => "CL_INVALID_SAMPLER"
    case -42 => "CL_INVALID_BINARY"
    case -43 => "CL_INVALID_BUILD_OPTIONS"
    case -44 => "CL_INVALID_PROGRAM"
    case -45 => "CL_INVALID_PROGRAM_EXECUTABLE"
    case -46 => "CL_INVALID_KERNEL_NAME"
    case -47 => "CL_INVALID_KERNEL_DEFINITION"
    case -48 => "CL_INVALID_KERNEL"
    case -49 => "CL_INVALID_ARG_INDEX"
    case -50 => "CL_INVALID_ARG_VALUE"
    case -51 => "CL_INVALID_ARG_SIZE"
    case -52 => "CL_INVALID_KERNEL_ARGS"
    case -53 => "CL_INVALID_WORK_DIMENSION"
    case -54 => "CL_INVALID_WORK_GROUP_SIZE"
    case -55 => "CL_INVALID_WORK_ITEM_SIZE"
    case -56 => "CL_INVALID_GLOBAL_OFFSET"
    case -57 => "CL_INVALID_EVENT_WAIT_LIST"
    case -58 => "CL_INVALID_EVENT"
    case -59 => "CL_INVALID_OPERATION"
    case -60 => "CL_INVALID_GL_OBJECT"
    case -61 => "CL_INVALID_BUFFER_SIZE"
    case -62 => "CL_INVALID_MIP_LEVEL"
    case -63 => "CL_INVALID_GLOBAL_WORK_SIZE"
    case -64 => "CL_INVALID_PROPERTY"
    case -65 => "CL_INVALID_IMAGE_DESCRIPTOR"
    case -66 => "CL_INVALID_COMPILER_OPTIONS"
    case -67 => "CL_INVALID_LINKER_OPTIONS"
    case -68 => "CL_INVALID_DEVICE_PARTITION_COUNT"
    case -1000 => "CL_INVALID_GL_SHAREGROUP_REFERENCE_KHR"
    case -1001 => "CL_PLATFORM_NOT_FOUND_KHR"
    case -1002 => "CL_INVALID_D3D10_DEVICE_KHR"
    case -1003 => "CL_INVALID_D3D10_RESOURCE_KHR"
    case -1004 => "CL_D3D10_RESOURCE_ALREADY_ACQUIRED_KHR"
    case -1005 => "CL_D3D10_RESOURCE_NOT_ACQUIRED_KHR"
    case _ => UnknownError
  }

  /** The fixed names of a few codes the repository reports on. */
  lemma ErrorStringExamples()
    ensures ErrorString(-4) == "CL_MEM_OBJECT_ALLOCATION_FAILURE"
    ensures ErrorString(-11) == "CL_BUILD_PROGRAM_FAILURE"
    ensures ErrorString(-46) == "CL_INVALID_KERNEL_NAME"
  {
  }

  /** One code from each of the other groups: success, the compile-time
      errors (-30..-68) and the extension errors (-1000..-1005). */
  lemma ErrorStringRangeExamples()
    ensures ErrorString(0) == "CL_SUCCESS"
    ensures ErrorString(-54) == "CL_INVALID_WORK_GROUP_SIZE"
    ensures ErrorString(-1001) == "CL_PLATFORM_NOT_FOUND_KHR"
  {
  }
}
