/** Per-task configuration: every setting of task `id` is looked up as `<id>.<suffix>`, then as
    `tornado.<suffix>`, then falls back to a built-in default. */
module TaskMetaData {
  import opened Wrappers
  import opened JavaInts
  import opened JavaStrings
  import TS = TornadoSettings

  type Properties = TS.Properties

  /** The OpenCL build options a task may request; anything else discards the requested flags. */
  const COMPILE_CL_OPTIONS: seq<string> := [
    "-cl-single-precision-constant", "-cl-denorms-are-zero", "-cl-opt-disable", "-cl-strict-aliasing",
    "-cl-mad-enable", "-cl-no-signed-zeros", "-cl-unsafe-math-optimizations", "-cl-finite-math-only",
    "-cl-fast-relaxed-math", "-w"]

  const DEFAULT_DRIVER_INDEX: int := 0
  const DEFAULT_DEVICE_INDEX: int := 0
  const COMPILER_OPTIONS_KEY: string := "tornado.opencl.compiler.options"
  const EXECUTION_TIME_KEY: string := "tornado.debug.executionTime"
  const DEVICE_SUFFIX: string := "device"
  const BLOCK_X_SUFFIX: string := "opencl.gpu.block.x"
  const BLOCK_2D_X_SUFFIX: string := "opencl.gpu.block2d.x"
  const BLOCK_2D_Y_SUFFIX: string := "opencl.gpu.block2d.y"
  const CPU_CONFIG_SUFFIX: string := "cpu.config"
  const PARALLELISE_SUFFIX: string := "parallelise"

  /** The boolean settings the constructor reads through `getDefault`, by key suffix, with their defaults. */
  const BOOLEAN_DEFAULTS: map<string, string> := map[
    "debug.kernelargs" := "True", "debug.compiletimes" := "False", "opencl.userelative" := "False",
    "opencl.wait.active" := "False", "coarsener.ascpu" := "False", "opencl.schedule" := "True",
    "vm.waitevent" := "False", "exceptions.enable" := "False", "profiling.enable" := "False",
    "ooo-execution.enable" := "False", "opencl.blocking" := "False", "parallelise" := "True",
    "vectors.enable" := "True", "bifs.enable" := "False", "debug" := "False", "memory.check" := "False",
    "events.dump" := "True", "profiles.print" := "False", "schedule.dump" := "False",
    "coarsener" := "False", "parallelise.auto" := "False", "vm.deps" := "False"]

  function TaskKey(id: string, suffix: string): string {
    id + "." + suffix
  }

  function GlobalKey(suffix: string): string {
    "tornado." + suffix
  }

  /** `getDefault(keySuffix, id, defaultValue)`; `None` stands for `null`. */
  function GetDefault(props: Properties, keySuffix: string, id: string, defaultValue: Option<string>): (r: Option<string>)
    ensures TaskKey(id, keySuffix) in props ==> r == Some(props[TaskKey(id, keySuffix)])
    ensures TaskKey(id, keySuffix) !in props && GlobalKey(keySuffix) in props ==> r == Some(props[GlobalKey(keySuffix)])
    ensures TaskKey(id, keySuffix) !in props && GlobalKey(keySuffix) !in props ==> r == defaultValue
  {
    match TS.GetProperty(props, TaskKey(id, keySuffix))
    case None => if GlobalKey(keySuffix) in props then Some(TS.GetPropertyOr(props, GlobalKey(keySuffix), "")) else defaultValue
    case Some(v) => Some(v)
  }

  /** A task-specific value overrides everything else. */
  lemma TaskValueWins(props: Properties, keySuffix: string, id: string, value: string, defaultValue: Option<string>)
    ensures GetDefault(TS.SetProperty(props, TaskKey(id, keySuffix), value), keySuffix, id, defaultValue) == Some(value)
  {
  }

  /** The same key for two different tasks names two different properties. */
  lemma TaskKeysDistinct(id: string, other: string, keySuffix: string)
    requires other != id
    ensures TaskKey(other, keySuffix) != TaskKey(id, keySuffix)
  {
    var a, b := TaskKey(other, keySuffix), TaskKey(id, keySuffix);
    if |other| == |id| {
      var k :| 0 <= k < |id| && other[k] != id[k];
      assert a[k] == other[k] && b[k] == id[k];
    } else {
      assert |a| != |b|;
    }
  }

  /** Two different option suffixes of one task name two different properties, so one option's setting
      never shadows another's. */
  lemma SuffixKeysDistinct(id: string, suffix: string, otherSuffix: string)
    requires suffix != otherSuffix
    ensures TaskKey(id, suffix) != TaskKey(id, otherSuffix)
  {
    var n := |id| + 1;
    assert TaskKey(id, suffix)[n..] == suffix;
    assert TaskKey(id, otherSuffix)[n..] == otherSuffix;
  }

  /** Setting a value for another task leaves this task's lookup unchanged, unless that other "task" is
      `tornado`, whose task key is the global key. */
  lemma OtherTaskIrrelevant(props: Properties, keySuffix: string, id: string, other: string, value: string, defaultValue: Option<string>)
    requires other != id && other != "tornado"
    ensures GetDefault(TS.SetProperty(props, TaskKey(other, keySuffix), value), keySuffix, id, defaultValue)
         == GetDefault(props, keySuffix, id, defaultValue)
  {
    TaskKeysDistinct(id, other, keySuffix);
    TaskKeysDistinct("tornado", other, keySuffix);
    assert TaskKey("tornado", keySuffix) == GlobalKey(keySuffix);
  }

  /** `getDefault` with a non-null default. */
  function Setting(props: Properties, keySuffix: string, id: string, defaultValue: string): string {
    GetDefault(props, keySuffix, id, Some(defaultValue)).GetOr(defaultValue)
  }

  /** `composeBuiltOptions(rawFlags)`: commas become spaces; the result is kept when every token of its
      split at spaces is a whitelisted option, and is a single space otherwise. */
  function BuiltOptions(rawFlags: string): (r: string)
    ensures r == " " || r == ReplaceChar(rawFlags, ',', ' ')
    ensures (forall t :: t in Split(ReplaceChar(rawFlags, ',', ' '), ' ') ==> t in COMPILE_CL_OPTIONS)
            <==> r == ReplaceChar(rawFlags, ',', ' ')
    ensures ',' !in r
    ensures forall t :: t in Split(r, ' ') ==> t in COMPILE_CL_OPTIONS
  {
    SplitSeparatorOnly(' ');
    var replaced := ReplaceChar(rawFlags, ',', ' ');
    if forall t :: t in Split(replaced, ' ') ==> t in COMPILE_CL_OPTIONS then replaced else " "
  }

  /** The loop of `composeBuiltOptions` as written: every token outside the whitelist resets the
      result to a single space. */
  method ComposeBuiltOptions(rawFlags: string) returns (r: string)
    ensures r == BuiltOptions(rawFlags)
  {
    r := ReplaceChar(rawFlags, ',', ' ');
    ghost var replaced := r;
    var temp := Split(r, ' ');
    var i := 0;
    while i < |temp|
      invariant 0 <= i <= |temp|
      invariant r == (if forall k :: 0 <= k < i ==> temp[k] in COMPILE_CL_OPTIONS then replaced else " ")
    {
      if temp[i] !in COMPILE_CL_OPTIONS {
        r := " ";
      }
      i := i + 1;
    }
  }

  lemma ReplaceAbsentChar(s: string, from: char, to: char)
    requires from !in s
    ensures ReplaceChar(s, from, to) == s
  {
  }

  /** Filtering what was already filtered changes nothing. */
  lemma BuiltOptionsIdempotent(rawFlags: string)
    ensures BuiltOptions(BuiltOptions(rawFlags)) == BuiltOptions(rawFlags)
  {
    var r := BuiltOptions(rawFlags);
    ReplaceAbsentChar(r, ',', ' ');
  }

  /** A device as the lookups see it: its platform and device names, and whether it is an accelerator. */
  datatype Device = Device(platformName: string, deviceName: string, isAcceleratorDevice: bool)

  predicate SameDevice(a: Device, b: Device) {
    a.platformName == b.platformName && a.deviceName == b.deviceName
  }

  /** The search loop of `getDeviceIndex` from position `i` on: the first matching position, or 0. */
  function SearchDevices(driverDevices: seq<Device>, device: Device, i: nat): (index: nat)
    requires i <= |driverDevices|
    ensures (exists k :: i <= k < |driverDevices| && SameDevice(driverDevices[k], device)) ==>
      && i <= index < |driverDevices|
      && SameDevice(driverDevices[index], device)
      && forall j :: i <= j < index ==> !SameDevice(driverDevices[j], device)
    ensures (forall k :: i <= k < |driverDevices| ==> !SameDevice(driverDevices[k], device)) ==> index == 0
    decreases |driverDevices| - i
  {
    if i == |driverDevices| then 0
    else if SameDevice(driverDevices[i], device) then i
    else SearchDevices(driverDevices, device, i + 1)
  }

  /** `getDeviceIndex(driverIndex, device)`, given the devices of that driver in order: the first index
      whose platform name and device name both match, or 0 when none does. */
  function GetDeviceIndex(driverDevices: seq<Device>, device: Device): (index: nat)
    ensures (exists k :: 0 <= k < |driverDevices| && SameDevice(driverDevices[k], device)) ==>
      && index < |driverDevices|
      && SameDevice(driverDevices[index], device)
      && forall j :: 0 <= j < index ==> !SameDevice(driverDevices[j], device)
    ensures (forall k :: 0 <= k < |driverDevices| ==> !SameDevice(driverDevices[k], device)) ==> index == 0
  {
    SearchDevices(driverDevices, device, 0)
  }

  /** The fields of a task's metadata object. `flags` holds the boolean settings of `BOOLEAN_DEFAULTS`. */
  datatype MetaData = MetaData(
    id: string,
    device: Option<Device>,
    shouldRecompile: bool,
    isDeviceDefined: bool,
    driverIndex: int,
    deviceIndex: int,
    deviceManuallySet: bool,
    flags: map<string, bool>,
    printKernelExecutionTime: bool,
    isEnableParallelizationDefined: bool,
    compilerFlags: string,
    isOpenclCompilerFlagsDefined: bool,
    openclGpuBlockX: Int32,
    isOpenclGpuBlockXDefined: bool,
    openclGpuBlock2DX: Int32,
    isOpenclGpuBlock2DXDefined: bool,
    openclGpuBlock2DY: Int32,
    isOpenclGpuBlock2DYDefined: bool,
    cpuConfig: Option<string>,
    isCpuConfigDefined: bool)

  datatype ConfigError =
    /** `Integer.parseInt` rejected a block-size setting. */
    | NumberFormat(keySuffix: string)

  /** The boolean settings whose built-in default is "True". */
  const TRUE_BY_DEFAULT: set<string> :=
    {"debug.kernelargs", "opencl.schedule", "parallelise", "vectors.enable", "events.dump"}

  /** A value `parseBoolean` reads as true. */
  predicate IsTrue(v: string) {
    ParseBoolean(Some(v))
  }

  /** The built-in defaults are true for exactly the options of `TRUE_BY_DEFAULT`. */
  lemma DefaultsTrueExactly(s: string)
    requires s in BOOLEAN_DEFAULTS
    ensures IsTrue(BOOLEAN_DEFAULTS[s]) <==> s in TRUE_BY_DEFAULT
  {
    assert BOOLEAN_DEFAULTS[s] == "True" || BOOLEAN_DEFAULTS[s] == "False";
    assert BOOLEAN_DEFAULTS[s] == "True" <==> s in TRUE_BY_DEFAULT;
  }

  /** The boolean settings of task `id`: each follows the task's own key if set, else the global
      `tornado.` key if set, else its built-in default, read by `parseBoolean`. */
  function Flags(props: Properties, id: string): (f: map<string, bool>)
    ensures f.Keys == BOOLEAN_DEFAULTS.Keys
    ensures forall s :: s in f && TaskKey(id, s) in props ==> (f[s] <==> IsTrue(props[TaskKey(id, s)]))
    ensures forall s :: s in f && TaskKey(id, s) !in props && GlobalKey(s) in props ==>
      (f[s] <==> IsTrue(props[GlobalKey(s)]))
    ensures forall s :: s in f && TaskKey(id, s) !in props && GlobalKey(s) !in props ==>
      (f[s] <==> s in TRUE_BY_DEFAULT)
  {
    var f := map s | s in BOOLEAN_DEFAULTS :: ParseBoolean(GetDefault(props, s, id, Some(BOOLEAN_DEFAULTS[s])));
    assert forall s :: s in BOOLEAN_DEFAULTS ==> (IsTrue(BOOLEAN_DEFAULTS[s]) <==> s in TRUE_BY_DEFAULT) by {
      forall s | s in BOOLEAN_DEFAULTS ensures IsTrue(BOOLEAN_DEFAULTS[s]) <==> s in TRUE_BY_DEFAULT {
        DefaultsTrueExactly(s);
      }
    }
    f
  }

  /** The constructor of task `id`. `resolveDriverDeviceIndexes` parses a `<driver>:<device>` value; it
      belongs to code outside this model and is a parameter here. */
  function New(props: Properties, id: string, resolveDriverDeviceIndexes: string -> (int, int)): (r: Result<MetaData, ConfigError>)
    ensures r.Success? <==>
      && ParseInt(Setting(props, BLOCK_X_SUFFIX, id, "256")).Some?
      && ParseInt(Setting(props, BLOCK_2D_X_SUFFIX, id, "4")).Some?
      && ParseInt(Setting(props, BLOCK_2D_Y_SUFFIX, id, "4")).Some?
    ensures ParseInt(Setting(props, BLOCK_X_SUFFIX, id, "256")).None? ==> r == Failure(NumberFormat(BLOCK_X_SUFFIX))
    ensures r.Success? ==> Some(r.value.openclGpuBlockX) == ParseInt(Setting(props, BLOCK_X_SUFFIX, id, "256"))
    ensures r.Success? ==> Some(r.value.openclGpuBlock2DX) == ParseInt(Setting(props, BLOCK_2D_X_SUFFIX, id, "4"))
    ensures r.Success? ==> Some(r.value.openclGpuBlock2DY) == ParseInt(Setting(props, BLOCK_2D_Y_SUFFIX, id, "4"))
    ensures r.Success? ==> r.value.id == id && r.value.shouldRecompile && r.value.device == None && !r.value.deviceManuallySet
    ensures r.Success? ==> (r.value.isDeviceDefined <==> TaskKey(id, DEVICE_SUFFIX) in props)
    ensures r.Success? ==> (TaskKey(id, DEVICE_SUFFIX) !in props ==> r.value.driverIndex == 0 && r.value.deviceIndex == 0)
    ensures r.Success? ==> (TaskKey(id, DEVICE_SUFFIX) in props ==> (r.value.driverIndex, r.value.deviceIndex) == resolveDriverDeviceIndexes(props[TaskKey(id, DEVICE_SUFFIX)]))
    ensures r.Success? ==> (COMPILER_OPTIONS_KEY !in props ==> r.value.compilerFlags == "-w")
    ensures r.Success? ==> (COMPILER_OPTIONS_KEY in props ==> r.value.compilerFlags == props[COMPILER_OPTIONS_KEY])
    ensures r.Success? ==> (r.value.isOpenclCompilerFlagsDefined <==> COMPILER_OPTIONS_KEY in props)
    ensures r.Success? ==> (r.value.isOpenclGpuBlockXDefined <==> TaskKey(id, BLOCK_X_SUFFIX) in props)
    ensures r.Success? ==> (r.value.isOpenclGpuBlock2DXDefined <==> TaskKey(id, BLOCK_2D_X_SUFFIX) in props)
    ensures r.Success? ==> (r.value.isOpenclGpuBlock2DYDefined <==> TaskKey(id, BLOCK_2D_Y_SUFFIX) in props)
    ensures r.Success? ==> (r.value.isCpuConfigDefined <==> TaskKey(id, CPU_CONFIG_SUFFIX) in props)
    ensures r.Success? ==> (r.value.isEnableParallelizationDefined <==> TaskKey(id, PARALLELISE_SUFFIX) in props)
    ensures r.Success? ==> r.value.cpuConfig == GetDefault(props, CPU_CONFIG_SUFFIX, id, None)
    ensures r.Success? ==> r.value.flags == Flags(props, id)
    ensures r.Success? ==> (r.value.printKernelExecutionTime <==> ParseBoolean(TS.GetProperty(props, EXECUTION_TIME_KEY)))
  {
    var deviceDefined := TS.GetProperty(props, TaskKey(id, DEVICE_SUFFIX)).Some?;
    var indexes := if deviceDefined then resolveDriverDeviceIndexes(props[TaskKey(id, DEVICE_SUFFIX)])
                   else (DEFAULT_DRIVER_INDEX, DEFAULT_DEVICE_INDEX);
    var blockX := ParseInt(Setting(props, BLOCK_X_SUFFIX, id, "256"));
    var block2DX := ParseInt(Setting(props, BLOCK_2D_X_SUFFIX, id, "4"));
    var block2DY := ParseInt(Setting(props, BLOCK_2D_Y_SUFFIX, id, "4"));
    if blockX.None? then Failure(NumberFormat(BLOCK_X_SUFFIX))
    else if block2DX.None? then Failure(NumberFormat(BLOCK_2D_X_SUFFIX))
    else if block2DY.None? then Failure(NumberFormat(BLOCK_2D_Y_SUFFIX))
    else
      Success(MetaData(
        id := id,
        device := None,
        shouldRecompile := true,
        isDeviceDefined := deviceDefined,
        driverIndex := indexes.0,
        deviceIndex := indexes.1,
        deviceManuallySet := false,
        flags := Flags(props, id),
        printKernelExecutionTime := ParseBoolean(TS.GetProperty(props, EXECUTION_TIME_KEY)),
        isEnableParallelizationDefined := TS.GetProperty(props, TaskKey(id, PARALLELISE_SUFFIX)).Some?,
        compilerFlags := TS.GetPropertyOr(props, COMPILER_OPTIONS_KEY, "-w"),
        isOpenclCompilerFlagsDefined := TS.GetProperty(props, COMPILER_OPTIONS_KEY).Some?,
        openclGpuBlockX := blockX.value,
        isOpenclGpuBlockXDefined := TS.GetProperty(props, TaskKey(id, BLOCK_X_SUFFIX)).Some?,
        openclGpuBlock2DX := block2DX.value,
        isOpenclGpuBlock2DXDefined := TS.GetProperty(props, TaskKey(id, BLOCK_2D_X_SUFFIX)).Some?,
        openclGpuBlock2DY := block2DY.value,
        isOpenclGpuBlock2DYDefined := TS.GetProperty(props, TaskKey(id, BLOCK_2D_Y_SUFFIX)).Some?,
        cpuConfig := GetDefault(props, CPU_CONFIG_SUFFIX, id, None),
        isCpuConfigDefined := TS.GetProperty(props, TaskKey(id, CPU_CONFIG_SUFFIX)).Some?))
  }

  /** With none of its keys set, a task gets the built-in defaults: driver 0, device 0, flags `-w`,
      GPU blocks of 256 and 4 by 4, nothing marked as defined, and a pending compilation. */
  lemma NewDefaults(id: string, resolveDriverDeviceIndexes: string -> (int, int))
    ensures New(map[], id, resolveDriverDeviceIndexes).Success?
    ensures var md := New(map[], id, resolveDriverDeviceIndexes).value;
      && md.driverIndex == 0 && md.deviceIndex == 0 && !md.isDeviceDefined
      && ShouldRecompile(md)
      && md.compilerFlags == "-w" && !md.isOpenclCompilerFlagsDefined
      && md.openclGpuBlockX == 256 && md.openclGpuBlock2DX == 4 && md.openclGpuBlock2DY == 4
      && !md.isOpenclGpuBlockXDefined && !md.isOpenclGpuBlock2DXDefined && !md.isOpenclGpuBlock2DYDefined
      && md.cpuConfig == None
  {
    DefaultLiteralsParse();
  }

  /** The default compiler flags pass the whitelist unchanged. */
  lemma DefaultFlagsPass()
    ensures BuiltOptions("-w") == "-w"
  {
    assert Split("-w", ' ') == ["-w"];
    ReplaceAbsentChar("-w", ',', ' ');
  }

  /** With no properties set, exactly the five default-true boolean options of a new task are on. */
  lemma NewFlagDefaults(id: string, resolveDriverDeviceIndexes: string -> (int, int))
    ensures New(map[], id, resolveDriverDeviceIndexes).Success?
    ensures var md := New(map[], id, resolveDriverDeviceIndexes).value;
      && md.flags.Keys == BOOLEAN_DEFAULTS.Keys
      && forall s :: s in md.flags ==> (md.flags[s] <==> s in TRUE_BY_DEFAULT)
  {
    NewDefaults(id, resolveDriverDeviceIndexes);
  }

  /** `shouldRecompile()`: whether the task still awaits compilation. */
  function ShouldRecompile(md: MetaData): bool {
    md.shouldRecompile
  }

  /** `setRecompiled()`: compilation is no longer pending; nothing else changes. */
  function SetRecompiled(md: MetaData): (r: MetaData)
    ensures !ShouldRecompile(r)
    ensures r.(shouldRecompile := md.shouldRecompile) == md
  {
    md.(shouldRecompile := false)
  }

  /** The pending-compilation flag over a task's life: a new task awaits compilation, `setRecompiled`
      clears the flag, and the setters of flags and devices leave it as it was. */
  lemma RecompileLifecycle(props: Properties, id: string, resolveDriverDeviceIndexes: string -> (int, int),
                           md: MetaData, flags: string, driverIndex: int, driverDevices: seq<Device>, device: Device)
    ensures New(props, id, resolveDriverDeviceIndexes).Success? ==>
            ShouldRecompile(New(props, id, resolveDriverDeviceIndexes).value)
    ensures !ShouldRecompile(SetRecompiled(md))
    ensures ShouldRecompile(SetCompilerFlags(md, flags)) == ShouldRecompile(md)
    ensures ShouldRecompile(SetDevice(md, driverDevices, device)) == ShouldRecompile(md)
    ensures device.isAcceleratorDevice ==>
            ShouldRecompile(SetDriverDevice(md, driverIndex, driverDevices, device)) == ShouldRecompile(md)
  {
    var created := New(props, id, resolveDriverDeviceIndexes);
    assert created.Success? ==> created.value.shouldRecompile;
  }

  /** `setCompilerFlags(value)`: stores the raw flags and marks them as defined. */
  function SetCompilerFlags(md: MetaData, value: string): (r: MetaData)
    ensures r.compilerFlags == value && r.isOpenclCompilerFlagsDefined
    ensures GetCompilerFlags(r) == BuiltOptions(value)
    ensures r.(compilerFlags := md.compilerFlags, isOpenclCompilerFlagsDefined := md.isOpenclCompilerFlagsDefined) == md
  {
    md.(compilerFlags := value, isOpenclCompilerFlagsDefined := true)
  }

  /** `getCompilerFlags()`: the stored flags filtered by `composeBuiltOptions`. */
  function GetCompilerFlags(md: MetaData): (r: string)
    ensures (forall t :: t in Split(ReplaceChar(md.compilerFlags, ',', ' '), ' ') ==> t in COMPILE_CL_OPTIONS) ==>
            r == ReplaceChar(md.compilerFlags, ',', ' ')
    ensures !(forall t :: t in Split(ReplaceChar(md.compilerFlags, ',', ' '), ' ') ==> t in COMPILE_CL_OPTIONS) ==>
            r == " "
    ensures ',' !in r
    ensures forall t :: t in Split(r, ' ') ==> t in COMPILE_CL_OPTIONS
  {
    BuiltOptions(md.compilerFlags)
  }

  /** `setDevice(device)`: the device is looked up in the default driver, and the choice is recorded as
      made by hand. Only an accelerator device replaces the cached device object. */
  function SetDevice(md: MetaData, defaultDriverDevices: seq<Device>, device: Device): (r: MetaData)
    ensures r.driverIndex == DEFAULT_DRIVER_INDEX && r.deviceManuallySet
    ensures r.deviceIndex == GetDeviceIndex(defaultDriverDevices, device)
    ensures r.device == (if device.isAcceleratorDevice then Some(device) else md.device)
    ensures r.(driverIndex := md.driverIndex, deviceIndex := md.deviceIndex, device := md.device,
               deviceManuallySet := md.deviceManuallySet) == md
  {
    md.(driverIndex := DEFAULT_DRIVER_INDEX,
        deviceIndex := GetDeviceIndex(defaultDriverDevices, device),
        device := if device.isAcceleratorDevice then Some(device) else md.device,
        deviceManuallySet := true)
  }

  /** `setDriverDevice(driverIndex, device)` as written: the new driver index is copied from the old
      device index, and the `driverIndex` argument only selects the driver searched for the device. */
  function SetDriverDevice(md: MetaData, driverIndex: int, driverDevices: seq<Device>, device: Device): (r: MetaData)
    requires device.isAcceleratorDevice
    ensures r.driverIndex == md.deviceIndex
    ensures r.deviceIndex == GetDeviceIndex(driverDevices, device)
    ensures r.device == Some(device)
    ensures r.(driverIndex := md.driverIndex, deviceIndex := md.deviceIndex, device := md.device) == md
  {
    md.(driverIndex := md.deviceIndex, deviceIndex := GetDeviceIndex(driverDevices, device), device := Some(device))
  }

  /** A freshly configured task (device index 0) asked to use driver 1 ends up on driver 0. */
  lemma SetDriverDeviceIgnoresDriver(md: MetaData, driverDevices: seq<Device>, device: Device)
    requires md.deviceIndex == 0 && device.isAcceleratorDevice
    ensures SetDriverDevice(md, 1, driverDevices, device).driverIndex == 0
    ensures SetDriverDeviceAsIntended(md, 1, driverDevices, device).driverIndex == 1
  {
  }

  /** `setDriverDevice` as evidently intended: the task moves to the given driver. */
  function SetDriverDeviceAsIntended(md: MetaData, driverIndex: int, driverDevices: seq<Device>, device: Device): (r: MetaData)
    requires device.isAcceleratorDevice
    ensures r.driverIndex == driverIndex
    ensures r.deviceIndex == GetDeviceIndex(driverDevices, device)
    ensures r.device == Some(device)
    ensures r.(driverIndex := md.driverIndex, deviceIndex := md.deviceIndex, device := md.device) == md
  {
    md.(driverIndex := driverIndex, deviceIndex := GetDeviceIndex(driverDevices, device), device := Some(device))
  }
}
