/** The factory that builds the consistency-check kernel and hands it to the
    engine (include/generate_consistency_check.hpp, lines 17-71). The OpenCL
    runtime enters as inputs: the files, the compiler, the kernel lookup and
    the devices a context of the requested type holds. */
module Generate {
  import opened CTypes
  import opened ClUtils
  import ClDetails
  import BuildOptions

  /** The device type the second overload asks for when the caller names none. */
  const DefaultDeviceType: UInt64 := ClDetails.DeviceTypeGpu

  /** A kernel looked up by name in a built program. */
  datatype Kernel = Kernel(program: Program, name: string)

  /** `cl::Kernel(program, name, &error)`: the error code the lookup sets. */
  type KernelLookup = (Program, string) -> Int32

  /** What the engine is constructed from: the device, the kernel and the
      geometry, tolerance and macro flag exactly as the caller gave them. */
  datatype EngineArgs = EngineArgs(
    device: Device, kernel: Kernel,
    width: UInt16, height: UInt16, tolerance: UInt16, usingMacros: bool)

  /** The caller's request to either overload. */
  datatype Request = Request(
    filename: string, kernelName: string,
    width: UInt16, height: UInt16, tolerance: UInt16, usingMacros: bool,
    invalidDisparity: int)
  {
    /** With macros the element count must be representable in an `int`. */
    predicate Valid() {
      usingMacros ==> BuildOptions.ElementCount(width, height) <= Int32Max
    }
  }

  /** The option string the kernel is compiled with; it defines exactly the
      macros the request asks for. */
  function RequestOptions(req: Request): (s: string)
    requires req.Valid()
    ensures BuildOptions.ParseOptions(s) == Some(BuildOptions.Macros(req.invalidDisparity,
      if req.usingMacros then Some(BuildOptions.Extended(req.tolerance, req.width, BuildOptions.ElementCount(req.width, req.height))) else None))
  {
    BuildOptions.ChooseOptions(req.invalidDisparity, req.width, req.height, req.tolerance, req.usingMacros)
  }

  /** The first overload: build the program for `device` with the chosen
      options, look the kernel up, and construct the engine. */
  function GenerateConsistencyCheck(fs: FileSystem, compile: Compiler, lookup: KernelLookup, device: Device, req: Request): (r: Outcome<EngineArgs>)
    requires req.Valid()
    ensures r.result.Some? <==>
      HasSource(fs, req.filename)
      && compile(device, fs[req.filename], RequestOptions(req)).code == 0
      && lookup(Program(device, fs[req.filename], RequestOptions(req)), req.kernelName) == 0
    ensures r.result.Some? ==> r.result.value == EngineArgs(device,
      Kernel(Program(device, fs[req.filename], RequestOptions(req)), req.kernelName),
      req.width, req.height, req.tolerance, req.usingMacros)
    ensures var built := BuildProgramFromFile(fs, compile, device, req.filename, RequestOptions(req));
      built.result.None? ==> r.diagnostics == built.diagnostics + [ProgramFailed]
    ensures var built := BuildProgramFromFile(fs, compile, device, req.filename, RequestOptions(req));
      built.result.Some? && lookup(built.result.value, req.kernelName) != 0 ==>
      r.diagnostics == built.diagnostics + [KernelFailed(req.kernelName, req.filename)]
    ensures var built := BuildProgramFromFile(fs, compile, device, req.filename, RequestOptions(req));
      r.result.Some? ==> r.diagnostics == built.diagnostics
  {
    var built := BuildProgramFromFile(fs, compile, device, req.filename, RequestOptions(req));
    match built.result
    case None => Outcome(None, built.diagnostics + [ProgramFailed])
    case Some(program) =>
      if lookup(program, req.kernelName) != 0 then
        Outcome(None, built.diagnostics + [KernelFailed(req.kernelName, req.filename)])
      else
        Outcome(Some(EngineArgs(device, Kernel(program, req.kernelName),
          req.width, req.height, req.tolerance, req.usingMacros)), built.diagnostics)
  }

  /** After a failed build the kernel is never looked up: the outcome is the
      same whatever the lookup would answer. */
  lemma BuildFailureSkipsLookup(fs: FileSystem, compile: Compiler, l1: KernelLookup, l2: KernelLookup, device: Device, req: Request)
    requires req.Valid()
    requires BuildProgramFromFile(fs, compile, device, req.filename, RequestOptions(req)).result.None?
    ensures GenerateConsistencyCheck(fs, compile, l1, device, req) == GenerateConsistencyCheck(fs, compile, l2, device, req)
    ensures GenerateConsistencyCheck(fs, compile, l1, device, req).result.None?
  {
  }

  /** A request that leaves every defaulted parameter at its default: width,
      height and tolerance 0 and no macros. */
  function DefaultRequest(filename: string, kernelName: string, invalidDisparity: int): (req: Request)
    ensures req.Valid() && !req.usingMacros
    ensures req.filename == filename && req.kernelName == kernelName && req.invalidDisparity == invalidDisparity
    ensures req.width == 0 && req.height == 0 && req.tolerance == 0
  {
    Request(filename, kernelName, 0, 0, 0, false, invalidDisparity)
  }

  /** With the default arguments the kernel is compiled with the default
      options alone. */
  lemma DefaultRequestOptions(filename: string, kernelName: string, invalidDisparity: int)
    ensures RequestOptions(DefaultRequest(filename, kernelName, invalidDisparity)) == BuildOptions.DefaultOptions(invalidDisparity)
  {
  }

  /** With the default device type and no such device, the message names
      the GPU device type. */
  lemma NoDefaultDevicesNamesGpu(fs: FileSystem, compile: Compiler, lookup: KernelLookup, req: Request)
    requires req.Valid()
    ensures GenerateForDeviceType(fs, compile, lookup, [], DefaultDeviceType, req)
         == Outcome(None, [NoDevices("CL_DEVICE_TYPE_GPU")])
  {
  }

  /** The second overload: take the devices of a context of the requested type;
      none is a failure, several only a warning, and the first one is used. */
  function GenerateForDeviceType(fs: FileSystem, compile: Compiler, lookup: KernelLookup,
                                 contextDevices: seq<Device>, deviceType: UInt64, req: Request): (r: Outcome<EngineArgs>)
    requires req.Valid()
    ensures |contextDevices| == 0 ==>
      r == Outcome(None, [NoDevices(ClDetails.DeviceTypeToString(deviceType))])
    ensures |contextDevices| > 0 ==>
      var single := GenerateConsistencyCheck(fs, compile, lookup, contextDevices[0], req);
      r.result == single.result
      && r.diagnostics == (if |contextDevices| > 1 then [SeveralDevices] else []) + single.diagnostics
  {
    if |contextDevices| == 0 then
      Outcome(None, [NoDevices(ClDetails.DeviceTypeToString(deviceType))])
    else
      var warning := if |contextDevices| > 1 then [SeveralDevices] else [];
      var r := GenerateConsistencyCheck(fs, compile, lookup, contextDevices[0], req);
      Outcome(r.result, warning + r.diagnostics)
  }

  /** With no devices nothing is built: the outcome does not depend on the
      files, the compiler or the kernel lookup. */
  lemma NoDevicesBuildsNothing(fs1: FileSystem, c1: Compiler, l1: KernelLookup,
                               fs2: FileSystem, c2: Compiler, l2: KernelLookup,
                               deviceType: UInt64, req: Request)
    requires req.Valid()
    ensures GenerateForDeviceType(fs1, c1, l1, [], deviceType, req) == GenerateForDeviceType(fs2, c2, l2, [], deviceType, req)
    ensures GenerateForDeviceType(fs1, c1, l1, [], deviceType, req).result.None?
  {
  }

  /** Several devices give the same engine as the first of them alone; the
      only difference is the warning in front of the messages. */
  lemma SeveralDevicesOnlyWarn(fs: FileSystem, compile: Compiler, lookup: KernelLookup,
                               contextDevices: seq<Device>, deviceType: UInt64, req: Request)
    requires req.Valid() && |contextDevices| > 1
    ensures var many := GenerateForDeviceType(fs, compile, lookup, contextDevices, deviceType, req);
      var one := GenerateForDeviceType(fs, compile, lookup, contextDevices[..1], deviceType, req);
      many.result == one.result && many.diagnostics == [SeveralDevices] + one.diagnostics
  {
    var first := contextDevices[..1];
    assert |first| == 1 && first[0] == contextDevices[0];
    var single := GenerateConsistencyCheck(fs, compile, lookup, contextDevices[0], req);
    assert GenerateForDeviceType(fs, compile, lookup, first, deviceType, req).diagnostics
        == [] + single.diagnostics == single.diagnostics;
  }

  /** On success the kernel was compiled with exactly the macros the request
      asks for: with macros TOL, WIDTH and ELEMS = width * height as well as
      INVALID_DISPARITY_VALUE, without them INVALID_DISPARITY_VALUE alone. */
  lemma EngineBuiltWithRequestedMacros(fs: FileSystem, compile: Compiler, lookup: KernelLookup, device: Device, req: Request)
    requires req.Valid()
    requires GenerateConsistencyCheck(fs, compile, lookup, device, req).result.Some?
    ensures var engine := GenerateConsistencyCheck(fs, compile, lookup, device, req).result.value;
      BuildOptions.ParseOptions(engine.kernel.program.options)
        == Some(BuildOptions.Macros(req.invalidDisparity,
             if req.usingMacros then Some(BuildOptions.Extended(req.tolerance, req.width, BuildOptions.ElementCount(req.width, req.height))) else None))
  {
  }
}
