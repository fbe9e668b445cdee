/** Reading kernel source and building a program from it, with the file system
    and the OpenCL compiler as inputs, and the CPU stand-in for the kernel's
    `get_global_id` (include/cl_utils.hpp). */
module ClUtils {
  import opened CTypes

  /** A compute device, known here only by the name its build log is tagged with. */
  datatype Device = Device(name: string)

  /** A program built for one device from one source text with one option string. */
  datatype Program = Program(device: Device, source: string, options: string)

  /** `CL_PROGRAM_BUILD_STATUS`: CL_BUILD_SUCCESS (0), CL_BUILD_NONE (-1),
      CL_BUILD_ERROR (-2), CL_BUILD_IN_PROGRESS (-3). */
  datatype BuildStatus = BuildSuccess | BuildNone | BuildError | BuildInProgress

  /** What the device compiler reports for one build: the code `build` returns,
      the build status it records and its build log. */
  datatype BuildReport = BuildReport(code: Int32, status: BuildStatus, log: string)

  /** The compiler of the OpenCL runtime: device, source text and options to report. */
  type Compiler = (Device, string, string) -> BuildReport

  /** The files that exist, with their contents. */
  type FileSystem = map<string, string>

  /** The messages the core writes to the error stream. */
  datatype Diagnostic =
    | FileMissing(filename: string)
    | EmptySource(filename: string)
    | BuildFailed(filename: string)
    | BuildLog(deviceName: string, log: string)
    | ProgramFailed
    | KernelFailed(kernelName: string, filename: string)
    | NoDevices(deviceTypeName: string)
    | SeveralDevices

  /** A result that may be null, with the messages written on the way. */
  datatype Outcome<T> = Outcome(result: Option<T>, diagnostics: seq<Diagnostic>)

  /** `readFile`: the contents of an existing file; for a missing one the empty
      text and a message. */
  function ReadFile(fs: FileSystem, filename: string): (r: (string, seq<Diagnostic>))
    ensures filename in fs ==> r == (fs[filename], [])
    ensures filename !in fs ==> r == ("", [FileMissing(filename)])
  {
    if filename !in fs then ("", [FileMissing(filename)]) else (fs[filename], [])
  }

  /** The source text compilation would be attempted on, if any. */
  predicate HasSource(fs: FileSystem, filename: string) {
    filename in fs && fs[filename] != ""
  }

  /** `buildProgramFromFile`: empty or missing source gives null before any
      compilation; a build that returns a non-zero code gives null, and its log
      is written only when the build status is CL_BUILD_ERROR. */
  function BuildProgramFromFile(fs: FileSystem, compile: Compiler, device: Device, filename: string, options: string): (r: Outcome<Program>)
    ensures r.result.Some? <==> HasSource(fs, filename) && compile(device, fs[filename], options).code == 0
    ensures r.result.Some? ==> r.result.value == Program(device, fs[filename], options)
    ensures !HasSource(fs, filename) ==>
      r.diagnostics == (if filename in fs then [] else [FileMissing(filename)]) + [EmptySource(filename)]
    ensures HasSource(fs, filename) ==>
      var report := compile(device, fs[filename], options);
      r.diagnostics == if report.code == 0 then []
        else [BuildFailed(filename)] + if report.status == BuildError then [BuildLog(device.name, report.log)] else []
  {
    var (contents, read) := ReadFile(fs, filename);
    if contents == [] then
      Outcome(None, read + [EmptySource(filename)])
    else
      var report := compile(device, contents, options);
      if report.code != 0 then
        var log := if report.status == BuildError then [BuildLog(device.name, report.log)] else [];
        Outcome(None, read + [BuildFailed(filename)] + log)
      else
        Outcome(Some(Program(device, contents, options)), read)
  }

  predicate ShowsBuildLog(ds: seq<Diagnostic>) {
    exists i :: 0 <= i < |ds| && ds[i].BuildLog?
  }

  /** The build log is written exactly when there is source text, the build
      fails and the recorded build status is CL_BUILD_ERROR. */
  lemma BuildLogOnlyOnBuildError(fs: FileSystem, compile: Compiler, device: Device, filename: string, options: string)
    ensures ShowsBuildLog(BuildProgramFromFile(fs, compile, device, filename, options).diagnostics) <==>
      HasSource(fs, filename) && compile(device, fs[filename], options).code != 0
        && compile(device, fs[filename], options).status == BuildError
  {
    var ds := BuildProgramFromFile(fs, compile, device, filename, options).diagnostics;
    if HasSource(fs, filename) {
      var report := compile(device, fs[filename], options);
      if report.code != 0 && report.status == BuildError {
        assert ds[1].BuildLog?;
      }
    }
  }

  /** With no source text the compiler is never consulted: any two compilers
      give the same outcome. */
  lemma EmptySourceSkipsCompiler(fs: FileSystem, c1: Compiler, c2: Compiler, device: Device, filename: string, options: string)
    requires !HasSource(fs, filename)
    ensures BuildProgramFromFile(fs, c1, device, filename, options) == BuildProgramFromFile(fs, c2, device, filename, options)
    ensures BuildProgramFromFile(fs, c1, device, filename, options).result == None
  {
  }

  /** `index++` on a `size_t`. */
  function NextIndex(i: SizeT): (j: SizeT)
    ensures j == (i + 1) % SizeModulus
  {
    if i + 1 == SizeModulus then 0 else i + 1
  }

  /** One more increment of an index that is already `start + i` modulo the
      width of `size_t`. */
  lemma NextIndexAfter(start: SizeT, i: nat, index: SizeT)
    requires index == (start + i) % SizeModulus
    ensures NextIndex(index) == (start + i + 1) % SizeModulus
  {
  }

  /** The values n successive calls return, starting from index `start`. */
  function SweepIds(start: SizeT, n: nat): (ids: seq<SizeT>)
    ensures |ids| == n
    decreases n
  {
    if n == 0 then [] else [start] + SweepIds(NextIndex(start), n - 1)
  }

  /** n successive calls from `start` return start, start + 1, ... modulo the
      width of `size_t`. */
  lemma {:induction false} SweepIdsAt(start: SizeT, n: nat, k: nat)
    requires k < n
    ensures SweepIds(start, n)[k] == (start + k) % SizeModulus
    decreases k
  {
    if k > 0 {
      SweepIdsAt(NextIndex(start), n - 1, k - 1);
    }
  }

  /** After `reset`, n calls (n not beyond the range of `size_t`) return
      0, 1, ..., n - 1: the linear sweep through the indices. */
  lemma SweepFromReset(n: nat)
    requires n <= SizeModulus
    ensures forall k :: 0 <= k < n ==> SweepIds(0, n)[k] == k
  {
    forall k | 0 <= k < n
      ensures SweepIds(0, n)[k] == k
    {
      SweepIdsAt(0, n, k);
    }
  }

  /** The CPU stand-in for the kernel's `get_global_id`: every call hands out
      the next index, whatever axis it is asked about. */
  class GetGlobalId {
    var index: SizeT

    constructor ()
      ensures index == 0
    {
      index := 0;
    }

    /** `operator()(axis)`: returns the current index, then advances it by one. */
    method Call(axis: SizeT) returns (id: SizeT)
      modifies this
      ensures id == old(index)
      ensures index == NextIndex(old(index))
    {
      id := index;
      index := NextIndex(index);
    }

    /** `reset()`: back to index 0 from any state, so a second reset changes nothing. */
    method Reset()
      modifies this
      ensures index == 0
    {
      index := 0;
    }

    /** `reset()` followed by n calls: the ids are 0, 1, ..., n - 1. */
    method ResetAndSweep(n: nat) returns (ids: seq<SizeT>)
      requires n <= SizeModulus
      modifies this
      ensures |ids| == n
      ensures forall k :: 0 <= k < n ==> ids[k] == k
      ensures index == n % SizeModulus
    {
      Reset();
      ids := Sweep(n);
      SweepFromReset(n);
    }

    /** A CPU loop over n work items, one call per item. */
    method Sweep(n: nat) returns (ids: seq<SizeT>)
      modifies this
      ensures ids == SweepIds(old(index), n)
      ensures index == (old(index) + n) % SizeModulus
    {
      ids := [];
      var i := 0;
      while i < n
        invariant i <= n
        invariant index == (old(index) + i) % SizeModulus
        invariant ids + SweepIds(index, n - i) == SweepIds(old(index), n)
      {
        NextIndexAfter(old(index), i, index);
        var id := Call(0);
        ids := ids + [id];
        i := i + 1;
      }
    }
  }
}
