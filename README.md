# Consistency-check kernel factory: a Dafny model

This project models the self-contained logic of the OpenCL stereo
consistency-check demo, with proofs about that logic:

- **OpenCL names.** `deviceTypeToString` and `errorString` turn the OpenCL 1.2
  device-type constants and status codes into their names. Unknown values get a
  fallback.
- **OpenCV type tags.** `typeToString` decodes an OpenCV matrix type code into a
  tag such as `16UC1`.
- **Build options.** The kernel's preprocessor options are
  `-DINVALID_DISPARITY_VALUE=…`, plus ` -DTOL=… -DWIDTH=… -DELEMS=…` in macro
  mode. `std::to_string` is modelled as a decimal renderer, and a parser reads
  the options back.
- **Factory decisions.** `buildProgramFromFile` and both
  `generateConsistencyCheck` overloads decide between null and an engine:
  1. no devices: null;
  2. several devices: a warning only;
  3. empty or missing source: null;
  4. build failure: null;
  5. kernel-name failure: null;
  6. otherwise: success.
- **`GetGlobalId`.** The CPU stand-in for the kernel's `get_global_id` is a
  counter class with call and reset.

The OpenCL runtime is not called. Each part of it is an input instead:

| runtime part | modelled as |
|---|---|
| file system | a `map<string, string>` |
| device compiler | a function from (device, source, options) to a `BuildReport`: return code, `CL_PROGRAM_BUILD_STATUS`, log |
| kernel lookup | a function from (program, name) to the error code |
| context devices | the sequence of devices the context holds |

The messages written to the error stream are kept as a list of `Diagnostic`
values. `INVALID_DISPARITY_VALUE` is a build-time constant, so here it is a
parameter.

Other modelling choices:

- **Integer widths.** The C++ widths are subset types: `Int32`, `UInt16`,
  `UInt64` and `SizeT`.
- **Bit operations in `typeToString`.**
  - `type & 7` is `type % 8`.
  - `type >> 3` is `type / 8`. Dafny's Euclidean `/` floors for a positive
    divisor, as an arithmetic shift does.
  - Storing into `uint8_t` is `% 256`.
  - Appending `channels + '0'` to a `std::string` stores one `char`, so that
    value is also taken modulo 256.
- **`size_t` counter.** The counter wraps modulo 2^64.

The modules follow the headers:

| module | file | source |
|---|---|---|
| `ClDetails` | `cl_details.dfy` | `include/cl_details.hpp` |
| `ErrorCodes` | `error_codes.dfy` | distinctness of the `errorString` names |
| `TypeToString` | `type_to_string.dfy` | `include/type_to_string.hpp` |
| `Decimal` | `decimal.dfy` | `std::to_string` |
| `BuildOptions` | `build_options.dfy` | `defaultOptions`, `extendedOptions` |
| `Generate` | `generate.dfy` | both factory overloads |
| `ClUtils` | `cl_utils.dfy` | `include/cl_utils.hpp` |

`CTypes` and `Strings` hold shared types and string predicates.

## Model

| member | source | states |
|---|---|---|
| ClDetails.DeviceTypeToString | include/cl_details.hpp:7-23 | The name is empty exactly when the value is none of DEFAULT, CPU, GPU, ACCELERATOR, CUSTOM and ALL. Every non-empty name starts with `CL_DEVICE_TYPE_`. |
| ClDetails.DeviceTypeNameRoundTrip | include/cl_details.hpp:8-22 | Each of the six constants is recovered from its name. Every other value has no name that decodes. |
| ClDetails.DeviceTypeToStringInjective | include/cl_details.hpp:8-20 | Two values with the same non-empty name are the same constant. |
| ClDetails.CombinedDeviceTypeIsUnnamed | include/cl_details.hpp:8-22 | The bitwise OR of two different single-bit types (CPU\|GPU, say) gets the empty name. The match is by equality, not by decoding bits. |
| ClDetails.ErrorString | include/cl_details.hpp:25-165 | Total. The result is the fallback "Unknown OpenCL error" exactly when the code is not one of 0, -1..-19, -30..-68 or -1000..-1005. |
| ErrorCodes.ErrorStringInjective | include/cl_details.hpp:26-161 | Two listed codes with the same name are the same code, so the 65 names are pairwise different. With the fallback equivalence of `ErrorString`, every listed code's name belongs to that code alone. |
| ClDetails.ErrorStringExamples | include/cl_details.hpp:36-103 | -4, -11 and -46 map to their fixed names. |
| ClDetails.ErrorStringRangeExamples | include/cl_details.hpp:28-153 | 0, -54 and -1001 map to "CL_SUCCESS", "CL_INVALID_WORK_GROUP_SIZE" and "CL_PLATFORM_NOT_FOUND_KHR". |
| TypeToString.Depth | include/type_to_string.hpp:9 | The depth lies in 0..7 and is the type code modulo 8 (its low three bits). |
| TypeToString.Channels | include/type_to_string.hpp:10 | The channel count lies below 256 and is congruent to 1 + (type >> 3) modulo 256. |
| TypeToString.DepthName | include/type_to_string.hpp:11-36 | Every depth name has two to four characters. |
| TypeToString.DepthNameRoundTrip | include/type_to_string.hpp:11-36 | The eight depths 0..7 ("8U" … "64F", "User") have eight different names, each of which decodes back to its depth. |
| TypeToString.ChannelChar | include/type_to_string.hpp:38 | The appended character is below 256. For fewer than ten channels it is the decimal digit. |
| TypeToString.ChannelCharInjective | include/type_to_string.hpp:38 | Different channel counts below 256 give different characters. |
| TypeToString.TypeToString | include/type_to_string.hpp:7-40 | The tag is the depth name, then 'C', then one channel character. Its length is the name length plus 2. |
| TypeToString.DecodeMakeType | include/type_to_string.hpp:9-10 | Decoding `CV_MAKETYPE(depth, cn)` gives back the depth and cn modulo 256. |
| TypeToString.TypeToStringOfMakeType | include/type_to_string.hpp:9-38 | For depths 0..6 and 1..9 channels, the tag is the depth name, "C" and the digit of cn. |
| TypeToString.TypeToStringDetermines | include/type_to_string.hpp:9-38 | Two type codes with the same tag have the same depth and the same channel count. |
| TypeToString.TypeToStringExamples | include/type_to_string.hpp:7-40 | CV_16UC1 (= 2) gives "16UC1". The code -1 gives "UserC0". |
| Decimal.NatToDecimal | include/generate_consistency_check.hpp:12-14 | The rendering is non-empty and all digits, with no leading zero. It has one digit exactly for values below 10. |
| Decimal.IntToDecimal | include/generate_consistency_check.hpp:6 | A minus sign appears exactly for negative values, followed by the rendering of the magnitude. |
| Decimal.ParseNatToDecimal | include/generate_consistency_check.hpp:12-14 | Parsing a rendering gives back the value. |
| Decimal.DigitRunOfDecimal | include/generate_consistency_check.hpp:12-14 | A run of digits followed by a non-digit is read exactly up to that non-digit. |
| Decimal.ReadNatOfDecimal | include/generate_consistency_check.hpp:12-14 | Reading a rendering followed by a non-digit gives back the value and the remainder. |
| Decimal.ReadIntOfDecimal | include/generate_consistency_check.hpp:6 | The same for signed renderings. |
| BuildOptions.DefaultOptions | include/generate_consistency_check.hpp:5-7 | The options start with `-DINVALID_DISPARITY_VALUE=`. |
| BuildOptions.ExtendedOptions | include/generate_consistency_check.hpp:9-15 | The extended options start with the default options. |
| BuildOptions.Define | include/generate_consistency_check.hpp:12-14 | A definition starts with its ` -DNAME=` key. |
| BuildOptions.ChooseOptions | include/generate_consistency_check.hpp:21-22 | With `using_macros` the options parse to INVALID_DISPARITY_VALUE, TOL, WIDTH and ELEMS = width*height. Without it they parse to INVALID_DISPARITY_VALUE alone. |
| BuildOptions.ReadFieldOf | include/generate_consistency_check.hpp:12-14 | A key followed by a rendered value reads back as that value. |
| BuildOptions.ParseWidthAndElemsOf | include/generate_consistency_check.hpp:13-14 | The WIDTH and ELEMS definitions read back. |
| BuildOptions.ParseExtendedFieldsOf | include/generate_consistency_check.hpp:12-14 | The TOL, WIDTH and ELEMS definitions, in that order, read back. |
| BuildOptions.ParseDefaultOptions | include/generate_consistency_check.hpp:5-7 | The default options define INVALID_DISPARITY_VALUE alone, with its value. |
| BuildOptions.ParseExtendedOptions | include/generate_consistency_check.hpp:9-15 | Parsing the extended options recovers the invalid value, the tolerance, the width and width*height. |
| BuildOptions.HeightOnlyThroughElems | include/generate_consistency_check.hpp:14 | Two heights give the same extended options exactly when width*height is the same. |
| BuildOptions.ExtendedOptionsInjective | include/generate_consistency_check.hpp:9-15 | Equal extended options mean the same invalid value, tolerance, width and element count. |
| BuildOptions.DefaultIsNotExtended | include/generate_consistency_check.hpp:5-15 | No default option string equals an extended one. |
| ClUtils.ReadFile | include/cl_utils.hpp:15-33 | An existing file gives its contents and no message. A missing file gives "" and a "does not exist" message. |
| ClUtils.BuildProgramFromFile | include/cl_utils.hpp:35-75 | A program is returned exactly when the source is non-empty and the build returns 0; it is bound to that device, source and options. Empty or missing source gives null and its messages. A failed build gives "Error building", plus the log when the status is CL_BUILD_ERROR. |
| ClUtils.BuildLogOnlyOnBuildError | include/cl_utils.hpp:53-61 | A build log is written exactly when the build fails with status CL_BUILD_ERROR. |
| ClUtils.EmptySourceSkipsCompiler | include/cl_utils.hpp:40-45 | Without source text the result is null and does not depend on the compiler. |
| ClUtils.NextIndex | include/cl_utils.hpp:81 | `index++` on a `size_t` gives the index plus one modulo 2^64. |
| ClUtils.SweepIds | include/cl_utils.hpp:77-81 | n calls return n indices. |
| ClUtils.SweepIdsAt | include/cl_utils.hpp:77-82 | The k-th of n successive calls returns start + k modulo 2^64. |
| ClUtils.SweepFromReset | include/cl_utils.hpp:77-82 | After a reset, n calls return 0, 1, …, n-1. |
| ClUtils.GetGlobalId.constructor | include/cl_utils.hpp:80 | A fresh counter has index 0. |
| ClUtils.GetGlobalId.Call | include/cl_utils.hpp:81 | Returns the current index and advances it by one. The axis affects neither. |
| ClUtils.GetGlobalId.Reset | include/cl_utils.hpp:82 | The index is 0 afterwards, whatever it was, so a second reset changes nothing. |
| ClUtils.GetGlobalId.Sweep | include/cl_utils.hpp:77-81 | n calls in a row return SweepIds from the old index and advance the index by n modulo 2^64. |
| ClUtils.GetGlobalId.ResetAndSweep | include/cl_utils.hpp:77-82 | A reset followed by n calls (n not beyond 2^64) returns 0, 1, …, n-1 and leaves the index at n modulo 2^64. |
| Generate.RequestOptions | include/generate_consistency_check.hpp:21-22 | The chosen options define exactly the macros the request asks for. |
| Generate.GenerateConsistencyCheck | include/generate_consistency_check.hpp:17-44 | An engine is built exactly when the source is non-empty, the build returns 0 and the kernel lookup returns 0. It receives the device, that kernel, and width, height, tolerance and using_macros unchanged, and adds no message. A null program appends "Could not generate the program" to the build's messages. A failed lookup appends the kernel-name error for that kernel and file. |
| Generate.BuildFailureSkipsLookup | include/generate_consistency_check.hpp:23-31 | After a failed build the result is null and the same for every kernel lookup: the kernel is never looked up. |
| Generate.DefaultRequest | include/generate_consistency_check.hpp:19-20 | The default arguments: width, height and tolerance 0 and no macros; the file name, kernel name and invalid value pass through, and such a request is always valid. |
| Generate.DefaultRequestOptions | include/generate_consistency_check.hpp:19-22 | With the default arguments the program is compiled with the default options alone. |
| Generate.GenerateForDeviceType | include/generate_consistency_check.hpp:46-71 | No devices gives null and only the "no devices of type <name>" message. Otherwise the result is that of the first device, with a warning in front when there are several. |
| Generate.NoDefaultDevicesNamesGpu | include/generate_consistency_check.hpp:49-56 | With the default device type (CL_DEVICE_TYPE_GPU) and no devices, the result is null and the message names CL_DEVICE_TYPE_GPU. |
| Generate.NoDevicesBuildsNothing | include/generate_consistency_check.hpp:53-57 | With no devices the outcome does not depend on the files, the compiler or the kernel lookup. |
| Generate.SeveralDevicesOnlyWarn | include/generate_consistency_check.hpp:58-70 | With several devices the engine is the same as with the first device alone. The only difference is the leading warning. |
| Generate.EngineBuiltWithRequestedMacros | include/generate_consistency_check.hpp:21-43 | A successful engine's program was compiled with exactly the requested macros. |

## Left out

- `printDetails` (include/cl_details.hpp:167-210) is left out. It only queries the device and writes to the console.
- `readFile` streaming (include/cl_utils.hpp:24-32) is left out. An existing file's contents are taken from the map.
- The compilation thread is left out (include/cl_utils.hpp:48-74). That covers its atomic flag, the 500 ms polling loop, the progress dots, the timer and the standard-output lines. The build is one call of the compiler input.
- BuildOptions.ExtendedOptions: requires width*height ≤ 2^31-1. The source computes the product in `int`, so larger products overflow. Callers of `GenerateConsistencyCheck` must meet the same bound in macro mode.
- include/consistency_check.hpp is not part of this model. Its `generate` overloads repeat the ladder modelled in `Generate`, without options. The engine is represented only by its constructor arguments (`EngineArgs`); no buffer, resize, tolerance or execute logic appears in the modelled headers.
- The `verbose` branches that call `printDetails` are left out: their flag is a constant `false`.
- `cl::Context` creation is not modelled; the devices of the context are an input.
- `src/main.cpp` is left out: image I/O, display and the benchmark loop.
- `scoped_timer.hpp` and `average_time.hpp` are left out: clocks and floating-point averages.
- `filesystem.hpp`, `print_mat.hpp` and `random_disparity_image.hpp` are left out. They are header selection, console output and random image generation.
- The `.cl` kernels are not part of this model.
- The `options = ""` default of `buildProgramFromFile` (include/cl_utils.hpp:38) is not a separate member. The modelled caller (include/generate_consistency_check.hpp:23) passes the chosen options. The call with the default options, as in include/consistency_check.hpp:20, is `BuildProgramFromFile(fs, compile, device, filename, "")`.
