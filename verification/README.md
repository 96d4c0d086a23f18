# TornadoVM core: off-heap arrays, runtime settings, hello kernels

This project models three parts of TornadoVM's Java sources in Dafny.

**Off-heap arrays.** `LongArray`, `DoubleArray` and `CharArray` each keep their elements in a
memory segment. The segment starts with an `ARRAY_HEADER`-byte header. The element count is stored
as a 32-bit int at offset 0 of that header. Elements are addressed in element-sized slots, and
element `i` sits in slot `baseIndex + i`, where `baseIndex = ARRAY_HEADER / elementBytes`.
The module `NativeArrays` models that layout once, generically in the element type. The modules
`LongArrays`, `DoubleArrays` and `CharArrays` instantiate it with the class's own element width
and expose the class's operations. `NativeTypeElimination` states that the constant the compiler
folds in for `baseIndex` equals the one the constructors compute, provided the compiler sees the
class's element width and the runtime's header size.

**Runtime settings.** `TornadoSettings` models the global property store of `Tornado`. It covers
its get and set, the merge of a settings file under the system properties in `loadSettings`, and
the class-initialisation order that decides `FORCE_BLOCKING_API_CALLS`. `TaskMetaData` models
`AbstractMetaData`. The constructor resolves about twenty task options from the property store:
a task-specific key `<id>.<suffix>` wins over the global `tornado.<suffix>`, which wins over
the built-in default. The module also models the OpenCL compiler-option whitelist, device-index
lookup and the device setters.

**Hello kernels.** `HelloKernels` models the kernels of `TestHello` as sequential loops over
`IntArray`s. It also models the three test scenarios whose results the tests assert.

Java `int` arithmetic wraps modulo 2^32. This is written out in `JavaInts`. `JavaStrings` models
the parts of `String.replace`, `String.split`, `Boolean.parseBoolean` and `Integer.parseInt`
that the sources rely on. The file system, the process environment, the driver registry and the
memory allocator are not modelled. Where the model needs one of them, it is a parameter: the
settings file's contents, the list of a driver's devices, or the `<id>.device` index resolver.

Where the code and its description disagree, the model follows the code. The code of `fromSegment`
has no size-mismatch check. A segment whose byte size is not a multiple of the element width makes
`MemorySegment.copy` fail with an out-of-bounds error. The model reports that case as the error
value `SizeMismatch`.

## Model

| member | source | states |
|---|---|---|
| NativeArrays.New | tornado-api/src/main/java/uk/ac/manchester/tornado/api/types/arrays/LongArray.java:73-81 | the new array is well formed, holds n elements all zero, stores n in its header, has baseIndex * width = header, and takes n * width + header bytes, computed without overflow |
| NativeArrays.SegmentByteSizeAsWritten | tornado-api/src/main/java/uk/ac/manchester/tornado/api/types/arrays/LongArray.java:78 | the segment size as Java computes it, in 32-bit int: congruent to the exact size modulo 2^32, and equal to it whenever the exact size fits in an int |
| NativeArrays.IntSizeOverflow | tornado-api/src/main/java/uk/ac/manchester/tornado/api/types/arrays/LongArray.java:73-81 | for n = 2^29 eight-byte elements, the size Java computes equals the header size alone, whereas the exact size is 2^32 bytes larger |
| NativeArrays.Size | tornado-api/src/main/java/uk/ac/manchester/tornado/api/types/arrays/LongArray.java:181-183 | the size of a well-formed array equals both the number of payload elements and the count stored in the header |
| NativeArrays.Get | tornado-api/src/main/java/uk/ac/manchester/tornado/api/types/arrays/LongArray.java:154-156 | reading index i returns element i of the array's contents, found at slot baseIndex + i |
| NativeArrays.Set | tornado-api/src/main/java/uk/ac/manchester/tornado/api/types/arrays/LongArray.java:145-147 | writing index i keeps every layout field and the header count, and the new contents are the old ones with element i replaced by the value, so a later read of i returns it and every other index is unchanged |
| NativeArrays.NumBytesOfSegment | tornado-api/src/main/java/uk/ac/manchester/tornado/api/types/arrays/LongArray.java:199-201 | the segment's byte size is the header plus size * width |
| NativeArrays.NumBytesWithoutHeader | tornado-api/src/main/java/uk/ac/manchester/tornado/api/types/arrays/LongArray.java:209-211 | the bytes without the header are size * width, that is, the total minus the header |
| NativeArrays.Init | tornado-api/src/main/java/uk/ac/manchester/tornado/api/types/arrays/LongArray.java:170-174 | after init(v) every element is v; size, layout fields and header count are kept |
| NativeArrays.CreateSegment | tornado-api/src/main/java/uk/ac/manchester/tornado/api/types/arrays/LongArray.java:88-94 | with the exact-size constructor, an array built from a heap array has its length and its elements, in order |
| NativeArrays.ToHeapArray | tornado-api/src/main/java/uk/ac/manchester/tornado/api/types/arrays/LongArray.java:132-138 | the heap copy has the array's size and element i at position i |
| NativeArrays.HeapRoundTrip | tornado-api/src/main/java/uk/ac/manchester/tornado/api/types/arrays/LongArray.java:88-138 | with the exact-size constructor, converting a heap array to a native array and back returns the original values |
| NativeArrays.FromSegment | tornado-api/src/main/java/uk/ac/manchester/tornado/api/types/arrays/LongArray.java:119-125 | with the exact-size constructor, a raw segment is accepted exactly when its byte size is a multiple of the width; the array then holds byteSize / width elements, byteSize payload bytes and the segment's words in order |
| LongArrays.New | tornado-api/src/main/java/uk/ac/manchester/tornado/api/types/arrays/LongArray.java:73-81 | a new LongArray is well formed with 8-byte elements, n zero elements and n * 8 + header bytes |
| LongArrays.FromArray | tornado-api/src/main/java/uk/ac/manchester/tornado/api/types/arrays/LongArray.java:88-112 | with the exact-size constructor, fromArray and fromElements give a LongArray with the values in order |
| LongArrays.FromSegment | tornado-api/src/main/java/uk/ac/manchester/tornado/api/types/arrays/LongArray.java:119-125 | with the exact-size constructor, accepted exactly when the byte size is a multiple of 8; the result then holds byteSize / 8 longs equal to the segment's words |
| LongArrays.ToHeapArray | tornado-api/src/main/java/uk/ac/manchester/tornado/api/types/arrays/LongArray.java:132-138 | the heap copy equals the contents |
| LongArrays.RoundTrip | tornado-api/src/main/java/uk/ac/manchester/tornado/api/types/arrays/LongArray.java:88-138 | with the exact-size constructor, fromArray followed by toHeapArray returns the input |
| LongArrays.Set | tornado-api/src/main/java/uk/ac/manchester/tornado/api/types/arrays/LongArray.java:145-147 | read-after-write at the index, every other index unchanged, layout kept |
| LongArrays.Get | tornado-api/src/main/java/uk/ac/manchester/tornado/api/types/arrays/LongArray.java:154-156 | returns element i of the contents |
| LongArrays.Init | tornado-api/src/main/java/uk/ac/manchester/tornado/api/types/arrays/LongArray.java:170-174 | every element becomes the value; size and layout kept |
| LongArrays.Clear | tornado-api/src/main/java/uk/ac/manchester/tornado/api/types/arrays/LongArray.java:161-164 | every element becomes 0 |
| LongArrays.GetSize | tornado-api/src/main/java/uk/ac/manchester/tornado/api/types/arrays/LongArray.java:181-183 | equals the payload length and the count in the header |
| LongArrays.GetNumBytesOfSegment | tornado-api/src/main/java/uk/ac/manchester/tornado/api/types/arrays/LongArray.java:199-201 | header plus size * 8 |
| LongArrays.GetNumBytesWithoutHeader | tornado-api/src/main/java/uk/ac/manchester/tornado/api/types/arrays/LongArray.java:209-211 | size * 8 |
| DoubleArrays.New | tornado-api/src/main/java/uk/ac/manchester/tornado/api/types/arrays/DoubleArray.java:74-83 | a new DoubleArray is well formed with 8-byte elements, n elements with bit pattern 0 (0.0) and n * 8 + header bytes |
| DoubleArrays.FromArray | tornado-api/src/main/java/uk/ac/manchester/tornado/api/types/arrays/DoubleArray.java:90-114 | with the exact-size constructor, fromArray and fromElements give a DoubleArray with the values in order |
| DoubleArrays.FromSegment | tornado-api/src/main/java/uk/ac/manchester/tornado/api/types/arrays/DoubleArray.java:121-127 | with the exact-size constructor, accepted exactly when the byte size is a multiple of 8; the result holds the segment's words |
| DoubleArrays.ToHeapArray | tornado-api/src/main/java/uk/ac/manchester/tornado/api/types/arrays/DoubleArray.java:134-140 | the heap copy equals the contents |
| DoubleArrays.RoundTrip | tornado-api/src/main/java/uk/ac/manchester/tornado/api/types/arrays/DoubleArray.java:90-140 | with the exact-size constructor, fromArray followed by toHeapArray returns the input bit patterns |
| DoubleArrays.Set | tornado-api/src/main/java/uk/ac/manchester/tornado/api/types/arrays/DoubleArray.java:147-149 | read-after-write at the index, every other index unchanged, layout kept |
| DoubleArrays.Get | tornado-api/src/main/java/uk/ac/manchester/tornado/api/types/arrays/DoubleArray.java:156-158 | returns element i of the contents |
| DoubleArrays.Init | tornado-api/src/main/java/uk/ac/manchester/tornado/api/types/arrays/DoubleArray.java:172-176 | every element becomes the value; size and layout kept |
| DoubleArrays.Clear | tornado-api/src/main/java/uk/ac/manchester/tornado/api/types/arrays/DoubleArray.java:163-166 | every element becomes 0.0 |
| DoubleArrays.GetSize | tornado-api/src/main/java/uk/ac/manchester/tornado/api/types/arrays/DoubleArray.java:183-185 | equals the payload length and the count in the header |
| DoubleArrays.GetNumBytesOfSegment | tornado-api/src/main/java/uk/ac/manchester/tornado/api/types/arrays/DoubleArray.java:201-203 | header plus size * 8 |
| DoubleArrays.GetNumBytesWithoutHeader | tornado-api/src/main/java/uk/ac/manchester/tornado/api/types/arrays/DoubleArray.java:210-213 | size * 8 |
| CharArrays.New | tornado-api/src/main/java/uk/ac/manchester/tornado/api/data/nativetypes/CharArray.java:24-33 | a new CharArray has 2-byte elements, n zero chars, n * 2 + header bytes, and its size-header position is two char slots below baseIndex |
| CharArrays.CharSizeOverflow | tornado-api/src/main/java/uk/ac/manchester/tornado/api/data/nativetypes/CharArray.java:29 | for n = 2^30 the int size Java computes is header - 2^31, a negative size, while the exact size is 2^31 + header |
| CharArrays.Set | tornado-api/src/main/java/uk/ac/manchester/tornado/api/data/nativetypes/CharArray.java:35-37 | read-after-write at the index, every other index unchanged, byte size kept |
| CharArrays.Get | tornado-api/src/main/java/uk/ac/manchester/tornado/api/data/nativetypes/CharArray.java:39-41 | returns element i of the contents |
| CharArrays.Init | tornado-api/src/main/java/uk/ac/manchester/tornado/api/data/nativetypes/CharArray.java:43-47 | every element becomes the char; byte size kept |
| CharArrays.GetSize | tornado-api/src/main/java/uk/ac/manchester/tornado/api/data/nativetypes/CharArray.java:49-51 | equals the payload length and the count in the header |
| CharArrays.GetNumBytesOfSegment | tornado-api/src/main/java/uk/ac/manchester/tornado/api/data/nativetypes/CharArray.java:57-59 | header plus size * 2 |
| NativeTypeElimination.FoldedBaseIndexAgrees | tornado-runtime/src/main/java/uk/ac/manchester/tornado/runtime/graal/phases/TornadoNativeTypeElimination.java:78-84 | the compiler's folded constant header / elementKindSize is the baseIndex the array constructors compute |
| JavaStrings.ReplaceCharIdempotent | runtime/src/main/java/uk/ac/manchester/tornado/runtime/tasks/meta/AbstractMetaData.java:308 | replacing every ',' by ' ' twice is the same as once |
| JavaStrings.ReplaceChar | runtime/src/main/java/uk/ac/manchester/tornado/runtime/tasks/meta/AbstractMetaData.java:308 | replace(',', ' ') keeps the length and changes exactly the commas, each into a space |
| JavaStrings.JoinPieces | runtime/src/main/java/uk/ac/manchester/tornado/runtime/tasks/meta/AbstractMetaData.java:309 | joining the pieces between separators with the separator gives back the string, so splitting loses nothing |
| JavaStrings.Split | runtime/src/main/java/uk/ac/manchester/tornado/runtime/tasks/meta/AbstractMetaData.java:309 | split(" ") gives [s] when s has no space, otherwise the pieces with trailing empty pieces removed; no piece contains a space |
| JavaStrings.SplitSeparatorOnly | runtime/src/main/java/uk/ac/manchester/tornado/runtime/tasks/meta/AbstractMetaData.java:309 | " ".split(" ") is the empty array |
| JavaStrings.ParseBoolean | runtime/src/main/java/uk/ac/manchester/tornado/runtime/common/Tornado.java:122 | parseBoolean is true exactly for a present value equal to "true" ignoring ASCII case |
| JavaStrings.ParseInt | runtime/src/main/java/uk/ac/manchester/tornado/runtime/common/Tornado.java:67-68 | parseInt succeeds exactly for an optional sign followed by one or more ASCII digits whose signed value fits in an int, and then returns that signed value; every other string is a number-format failure |
| JavaStrings.ParseSignedDigits | runtime/src/main/java/uk/ac/manchester/tornado/runtime/common/Tornado.java:67-68 | a sign followed by the decimal digits of n parses back to -n (down to -2147483648) or +n (up to 2147483647) |
| JavaStrings.DigitsRoundTrip | runtime/src/main/java/uk/ac/manchester/tornado/runtime/common/Tornado.java:67-68 | the decimal digits of n parse back to n |
| JavaStrings.DefaultLiteralsParse | runtime/src/main/java/uk/ac/manchester/tornado/runtime/tasks/meta/AbstractMetaData.java:427-433 | the built-in default literals "1024", "256", "32" and "4" parse to their values |
| TornadoSettings.SetProperty | runtime/src/main/java/uk/ac/manchester/tornado/runtime/common/Tornado.java:45-47 | setProperty adds the key, binds it to the value, and leaves every other key's value unchanged |
| TornadoSettings.GetPropertyOr | runtime/src/main/java/uk/ac/manchester/tornado/runtime/common/Tornado.java:53-55 | getProperty(key, default) returns the stored value if present, the default otherwise |
| TornadoSettings.GetProperty | runtime/src/main/java/uk/ac/manchester/tornado/runtime/common/Tornado.java:49-51 | getProperty(key) is present exactly when the key is stored, and then returns its value; absent stands for null |
| TornadoSettings.SetThenGet | runtime/src/main/java/uk/ac/manchester/tornado/runtime/common/Tornado.java:45-55 | a value just set is what getProperty returns |
| TornadoSettings.Merge | runtime/src/main/java/uk/ac/manchester/tornado/runtime/common/Tornado.java:98-121 | the merged store's keys are the union; keys already in the store keep their value; keys only in the file take the file's value |
| TornadoSettings.Loaded | runtime/src/main/java/uk/ac/manchester/tornado/runtime/common/Tornado.java:100-107 | the properties to merge are the file's entries when it was read, and none otherwise |
| TornadoSettings.MergeLoop | runtime/src/main/java/uk/ac/manchester/tornado/runtime/common/Tornado.java:113-121 | the loop over the key difference computes the merge |
| TornadoSettings.MergeAddsOnlyNewKeys | runtime/src/main/java/uk/ac/manchester/tornado/runtime/common/Tornado.java:113-121 | the keys merging adds are exactly the file's keys missing from the store |
| TornadoSettings.MergeMissingFile | runtime/src/main/java/uk/ac/manchester/tornado/runtime/common/Tornado.java:101-107 | a missing file and a file that fails to load both leave the store unchanged |
| TornadoSettings.MergeIdempotent | runtime/src/main/java/uk/ac/manchester/tornado/runtime/common/Tornado.java:113-121 | loading the same file twice gives the same store as loading it once |
| TornadoSettings.LoadSettings | runtime/src/main/java/uk/ac/manchester/tornado/runtime/common/Tornado.java:98-123 | loadSettings fails exactly when the file holds a malformed escape (the uncaught IllegalArgumentException of Properties.load); otherwise it merges the file under the store and sets the blocking flag exactly when tornado.opencl.blocking parses as true; the int constants are untouched |
| TornadoSettings.ForceBlocking | runtime/src/main/java/uk/ac/manchester/tornado/runtime/common/Tornado.java:122 | the blocking flag is true exactly when tornado.opencl.blocking is stored and reads as "true" ignoring case; absent means the default "False" |
| TornadoSettings.ClassInitAsWritten | runtime/src/main/java/uk/ac/manchester/tornado/runtime/common/Tornado.java:39-105 | class initialisation in Java's textual order fails exactly when the settings file cannot be loaded (the warning dereferences a log not yet created), holds a malformed escape, or the merged store holds a malformed tornado.opencl.eventwindow or tornado.opencl.maxwaitevents; otherwise the store is the merge, EVENT_WINDOW and MAX_WAIT_EVENTS are the parsed values, and the blocking flag is false whatever the store says |
| TornadoSettings.BlockingRequestIgnored | runtime/src/main/java/uk/ac/manchester/tornado/runtime/common/Tornado.java:41-76 | with tornado.opencl.blocking=True and no settings file, the store asks for blocking calls but the flag after class initialisation is false |
| TornadoSettings.MalformedEventWindowAbortsInit | runtime/src/main/java/uk/ac/manchester/tornado/runtime/common/Tornado.java:67 | -Dtornado.opencl.eventwindow=abc makes class initialisation fail even without a settings file |
| TornadoSettings.UnreadableSettingsAbortInit | runtime/src/main/java/uk/ac/manchester/tornado/runtime/common/Tornado.java:41-105 | a settings file that fails to load makes class initialisation fail, whatever the system properties |
| TornadoSettings.ClassInit | runtime/src/main/java/uk/ac/manchester/tornado/runtime/common/Tornado.java:39-123 | corrected initialisation: an unreadable file no longer fails it, so it fails exactly when the file holds a malformed escape or eventwindow or maxwaitevents is malformed, and for a readable file exactly when the as-written one does; on success the store is the merge, EVENT_WINDOW and MAX_WAIT_EVENTS are the parsed values, and the blocking flag is true exactly when tornado.opencl.blocking parses as true |
| TornadoSettings.EventWindow | runtime/src/main/java/uk/ac/manchester/tornado/runtime/common/Tornado.java:67 | EVENT_WINDOW is 1024 when the key is absent, else the parse of its value (failure when malformed) |
| TornadoSettings.MaxWaitEvents | runtime/src/main/java/uk/ac/manchester/tornado/runtime/common/Tornado.java:68 | MAX_WAIT_EVENTS is 32 when the key is absent, else the parse of its value |
| TaskMetaData.GetDefault | runtime/src/main/java/uk/ac/manchester/tornado/runtime/tasks/meta/AbstractMetaData.java:364-370 | the task key's value if present, else the global tornado key's value if present, else the default |
| TaskMetaData.TaskValueWins | runtime/src/main/java/uk/ac/manchester/tornado/runtime/tasks/meta/AbstractMetaData.java:364-370 | a task-specific setting overrides both the global setting and the default |
| TaskMetaData.TaskKeysDistinct | runtime/src/main/java/uk/ac/manchester/tornado/runtime/tasks/meta/AbstractMetaData.java:364-370 | two different task ids give different keys for the same option suffix, so tasks do not share settings |
| TaskMetaData.SuffixKeysDistinct | runtime/src/main/java/uk/ac/manchester/tornado/runtime/tasks/meta/AbstractMetaData.java:364-370 | two different option suffixes give different keys for the same task, so options do not shadow each other |
| TaskMetaData.OtherTaskIrrelevant | runtime/src/main/java/uk/ac/manchester/tornado/runtime/tasks/meta/AbstractMetaData.java:364-370 | setting another task id's key (an id other than "tornado", whose keys are the global ones) never changes this task's option |
| TaskMetaData.BuiltOptions | runtime/src/main/java/uk/ac/manchester/tornado/runtime/tasks/meta/AbstractMetaData.java:306-317 | the result is the raw flags with commas turned into spaces when every space-separated token is whitelisted, and " " otherwise; a non-blank result contains only whitelisted tokens and no comma |
| TaskMetaData.ComposeBuiltOptions | runtime/src/main/java/uk/ac/manchester/tornado/runtime/tasks/meta/AbstractMetaData.java:306-317 | the Java loop over the tokens computes BuiltOptions |
| TaskMetaData.BuiltOptionsIdempotent | runtime/src/main/java/uk/ac/manchester/tornado/runtime/tasks/meta/AbstractMetaData.java:306-317 | composing the built options of an already composed string changes nothing |
| TaskMetaData.SearchDevices | runtime/src/main/java/uk/ac/manchester/tornado/runtime/tasks/meta/AbstractMetaData.java:72-83 | the search returns the first index whose device has the same platform and device name, or 0 when none does |
| TaskMetaData.GetDeviceIndex | runtime/src/main/java/uk/ac/manchester/tornado/runtime/tasks/meta/AbstractMetaData.java:72-83 | the index is 0 or within the driver's device list; when non-zero, the device there matches and no earlier one does |
| TaskMetaData.Flags | runtime/src/main/java/uk/ac/manchester/tornado/runtime/tasks/meta/AbstractMetaData.java:396-440 | the boolean options are exactly the twenty-two suffixes the constructor reads; each is true exactly when the task key, else the global key, reads as "true" ignoring case, and with neither set exactly when it is one of the five options that default to true |
| TaskMetaData.DefaultsTrueExactly | runtime/src/main/java/uk/ac/manchester/tornado/runtime/tasks/meta/AbstractMetaData.java:396-440 | the built-in defaults are "True" for debug.kernelargs, opencl.schedule, parallelise, vectors.enable and events.dump, and "False" for the other seventeen |
| TaskMetaData.New | runtime/src/main/java/uk/ac/manchester/tornado/runtime/tasks/meta/AbstractMetaData.java:382-441 | the constructor resolves every option by task key, then global key, then default; driver and device come from <id>.device or default to 0; compiler flags are the global option or "-w"; the block sizes are the parsed settings, the constructor fails with a number-format error exactly when one of them does not parse, and it names block.x first when that one fails |
| TaskMetaData.NewDefaults | runtime/src/main/java/uk/ac/manchester/tornado/runtime/tasks/meta/AbstractMetaData.java:382-441 | with no properties set, any task gets block sizes 256/4/4, flags "-w", indices 0:0, recompilation pending, and nothing marked as defined |
| TaskMetaData.NewFlagDefaults | runtime/src/main/java/uk/ac/manchester/tornado/runtime/tasks/meta/AbstractMetaData.java:396-440 | with no properties set, a new task has exactly the twenty-two boolean options, and exactly the five that default to true are on |
| TaskMetaData.DefaultFlagsPass | runtime/src/main/java/uk/ac/manchester/tornado/runtime/tasks/meta/AbstractMetaData.java:306-317 | the default compiler flags "-w" pass the whitelist unchanged, so a task with no flags configured builds with "-w" |
| TaskMetaData.SetRecompiled | runtime/src/main/java/uk/ac/manchester/tornado/runtime/tasks/meta/AbstractMetaData.java:159-165 | after setRecompiled, shouldRecompile is false and nothing else changes |
| TaskMetaData.RecompileLifecycle | runtime/src/main/java/uk/ac/manchester/tornado/runtime/tasks/meta/AbstractMetaData.java:159-165 | a newly built task reports a pending compilation, setRecompiled makes shouldRecompile false, and setCompilerFlags, setDevice and setDriverDevice leave what it reports unchanged |
| TaskMetaData.SetCompilerFlags | runtime/src/main/java/uk/ac/manchester/tornado/runtime/tasks/meta/AbstractMetaData.java:300-304 | the flags are stored and marked as defined, getCompilerFlags then returns them composed through the whitelist, and nothing else changes |
| TaskMetaData.GetCompilerFlags | runtime/src/main/java/uk/ac/manchester/tornado/runtime/tasks/meta/AbstractMetaData.java:167-169 | the stored flags with commas turned into spaces when every token is whitelisted, a single space otherwise; either way no comma and only whitelisted options |
| TaskMetaData.SetDevice | runtime/src/main/java/uk/ac/manchester/tornado/runtime/tasks/meta/AbstractMetaData.java:94-101 | the driver becomes 0, the device index is the device's position in driver 0, and the device is marked as set by hand |
| TaskMetaData.SetDriverDevice | runtime/src/main/java/uk/ac/manchester/tornado/runtime/tasks/meta/AbstractMetaData.java:109-113 | as written: the driver index takes the previous device index, whatever driver is passed |
| TaskMetaData.SetDriverDeviceIgnoresDriver | runtime/src/main/java/uk/ac/manchester/tornado/runtime/tasks/meta/AbstractMetaData.java:109-113 | on a task with device index 0, setDriverDevice(1, d) leaves the driver index at 0 |
| TaskMetaData.SetDriverDeviceAsIntended | runtime/src/main/java/uk/ac/manchester/tornado/runtime/tasks/meta/AbstractMetaData.java:109-113 | corrected: the driver index is the argument and the device index is the device's position in that driver |
| HelloKernels.Add | tornado-unittests/src/main/java/uk/ac/manchester/tornado/unittests/TestHello.java:52-56 | c[i] = a[i] + b[i] with int wrap-around for every index of c; layout kept |
| HelloKernels.Simple | tornado-unittests/src/main/java/uk/ac/manchester/tornado/unittests/TestHello.java:58-62 | b[i] = a[i] + 1 for every index of a; the rest of b unchanged |
| HelloKernels.ComputeInPlace | tornado-unittests/src/main/java/uk/ac/manchester/tornado/unittests/TestHello.java:64-68 | every element is doubled in place, the same result as running the iterations in index order |
| HelloKernels.Compute | tornado-unittests/src/main/java/uk/ac/manchester/tornado/unittests/TestHello.java:70-74 | b[i] = 2 * a[i] for every index of a; the rest of b unchanged |
| HelloKernels.ComputeHeap | tornado-unittests/src/main/java/uk/ac/manchester/tornado/unittests/TestHello.java:76-80 | the int[] variant computes the same doubling |
| HelloKernels.AnyOrderDoubles | tornado-unittests/src/main/java/uk/ac/manchester/tornado/unittests/TestHello.java:64-68 | running the independent iterations in any order that visits distinct in-range indices doubles exactly the visited indices, so the @Parallel loop's result does not depend on the schedule |
| HelloKernels.VectorAddition | tornado-unittests/src/main/java/uk/ac/manchester/tornado/unittests/TestHello.java:102-124 | with a = 1 and b = 2 over 16 elements, every c[i] is 3 = a[i] + b[i] |
| HelloKernels.SimpleCompute | tornado-unittests/src/main/java/uk/ac/manchester/tornado/unittests/TestHello.java:133-179 | with a = 10 over 256 elements, every b[i] is 20 = a[i] * 2 |
| HelloKernels.SimpleInOut | tornado-unittests/src/main/java/uk/ac/manchester/tornado/unittests/TestHello.java:181-199 | with a = 10 over 256 elements, after computing in place every a[i] is 20 |

## Left out

- Allocation through `Arena`, alignment, segment lifetime and `getSegment()` are not modelled. The last hands out the segment for aliasing.
- NativeArrays.Set: requires 0 <= i < size. Java also accepts a negative index down to -baseIndex, which overwrites header bytes, and fails on larger ones.
- NativeArrays.Get: requires 0 <= i < size, for the same reason as NativeArrays.Set.
- NativeArrays.New: requires 0 <= n <= INT_MAX. For a negative count Java, depending on n * width + header, fails to allocate a negative size, or allocates fewer than four bytes and then fails writing the size header (n = -1 with an 8-byte header and 8-byte elements gives 0 bytes), or builds a degenerate array whose size is negative; none of these is modelled.
- NativeArrays.FromSegment: requires byteSize / width <= INT_MAX. Java's `(int)` cast of a larger count wraps, and that is not modelled. It also builds on the exact-size constructor of the LongArray.java:78 finding: when byteSize + header exceeds INT_MAX, Java's wrapped int size makes `allocate` fail or `MemorySegment.copy` go out of bounds, where the model returns the complete array.
- NativeArrays.CreateSegment: builds on the exact-size constructor of the LongArray.java:78 finding. When |values| * width + header exceeds INT_MAX, Java's wrapped int size makes `allocate` fail or the `set` calls go out of bounds, where the model returns the complete array.
- NativeArrays.HeapRoundTrip: holds for the exact-size constructor; when |values| * width + header exceeds INT_MAX, Java's `fromArray` fails before the round trip completes (LongArray.java:78 finding).
- LongArrays.FromArray: as NativeArrays.CreateSegment, for |values| * 8 + header above INT_MAX.
- LongArrays.RoundTrip: as NativeArrays.HeapRoundTrip, for |values| * 8 + header above INT_MAX.
- DoubleArrays.FromArray: as NativeArrays.CreateSegment, for |values| * 8 + header above INT_MAX (DoubleArray.java line 79).
- DoubleArrays.RoundTrip: as NativeArrays.HeapRoundTrip, for |values| * 8 + header above INT_MAX.
- LongArrays.New: requires 0 <= n <= INT_MAX, as NativeArrays.New.
- DoubleArrays.New: requires 0 <= n <= INT_MAX, as NativeArrays.New.
- CharArrays.New: requires 0 <= n <= INT_MAX, as NativeArrays.New; it returns the exact size where Java's int size wraps (see Findings).
- LongArrays.Get: requires 0 <= index < size, as NativeArrays.Get.
- DoubleArrays.Get: requires 0 <= index < size, as NativeArrays.Get.
- CharArrays.Get: requires 0 <= index < size, as NativeArrays.Get.
- LongArrays.Set: requires 0 <= index < size, as NativeArrays.Set.
- DoubleArrays.Set: requires 0 <= index < size, as NativeArrays.Set.
- CharArrays.Set: requires 0 <= index < size, as NativeArrays.Set.
- LongArrays.FromSegment: requires byteSize / 8 <= INT_MAX, and returns the complete array where Java fails for byteSize + header above INT_MAX, as NativeArrays.FromSegment.
- DoubleArrays.FromSegment: requires byteSize / 8 <= INT_MAX, and returns the complete array where Java fails for byteSize + header above INT_MAX, as NativeArrays.FromSegment.
- DoubleArrays: elements are raw 64-bit patterns. Floating-point arithmetic and NaN canonicalisation are not modelled.
- `IntArray` is not part of this model. The kernels use the same layout with 4-byte int elements.
- TornadoSettings.Merge: a file that fails to load with an `IOException` contributes no entries. `Properties.load` may keep entries it parsed before the error.
- The `warn` log call, `TORNADO_SDK` lookup and file reading of `tryLoadSettings` are replaced by the file contents as a parameter.
- The other boolean constants of `Tornado` (lines 59-90) are not listed one by one. They follow the pattern that ForceBlocking and ParseBoolean model.
- NativeTypeElimination.FoldedBaseIndexAgrees: assumes that the element-kind size the compiler reads equals the class's element width and that its object-header size equals the array header. `getElementKindSize` reads only `@PanamaElementSize`; of the arrays modelled here only `CharArray` carries it, while `LongArray` and `DoubleArray` carry `@SegmentElementSize`, for which the phase finds 0 and line 81 divides by zero.
- JavaStrings.ParseInt: ASCII digits only. `Integer.parseInt` also accepts other Unicode decimal digits.
- TaskMetaData.New: `MetaDataUtils.resolveDriverDeviceIndexes` is a parameter, because its source is not part of this model. `getDevice`, `resolveDevice`, the profiler, `numThreads` and the plain field getters are not modelled.
- TaskMetaData.SearchDevices: the driver is a list of devices passed in. The `TornadoCoreRuntime` registry is not modelled.
- HelloKernels.Add: requires a and b to be at least as long as c. Java fails with an out-of-bounds error part way through the loop instead.
- HelloKernels.Simple: requires b to be at least as long as a, for the same reason.
- HelloKernels.Compute: requires b to be at least as long as a, for the same reason.
- HelloKernels.ComputeHeap: requires |a| <= |b|. Java writes b[0..|b|) and then fails with an out-of-bounds error, which is not modelled.
- HelloKernels.Add: the arguments are assumed distinct arrays. Aliased arguments are not modelled.
- `printHello` and `testHello` only print, so they are not modelled.
- Task graphs, execution plans and host-device transfers are not modelled. Kernels run sequentially on the host, and the @Parallel loop is covered by HelloKernels.AnyOrderDoubles.
- The Graal compiler phases, code emitters, benchmarks, `PrebuiltTest` and `TornadoDevice` are not modelled. They are outside the modelled core.

## Findings

| source | as written | input that shows it | evidently intended | confidence | as-written member | corrected member |
|---|---|---|---|---|---|---|
| tornado-api/src/main/java/uk/ac/manchester/tornado/api/types/arrays/LongArray.java:78 | `numberOfElements * LONG_BYTES + arrayHeaderSize` is computed in 32-bit int before it is stored in the long field (DoubleArray.java line 79 is the same) | n = 536870912 (2^29): the segment size wraps to the header size, so the array claims 2^29 elements with no room for any | the size computed in long arithmetic, n * 8 + header | medium, not executed | NativeArrays.IntSizeOverflow | NativeArrays.New |
| runtime/src/main/java/uk/ac/manchester/tornado/runtime/common/Tornado.java:41-76 | the static block runs `loadSettings`, which sets `FORCE_BLOCKING_API_CALLS`; the initializer `= false` of that non-final field runs later in textual order and overwrites it | -Dtornado.opencl.blocking=True and no settings file: after class initialisation the flag is false | the flag reflects tornado.opencl.blocking after initialisation | medium, not executed | TornadoSettings.BlockingRequestIgnored | TornadoSettings.ClassInit |
| runtime/src/main/java/uk/ac/manchester/tornado/runtime/tasks/meta/AbstractMetaData.java:110 | `this.driverIndex = deviceIndex` copies the old device index into the driver index; the driverIndex argument only chooses the driver in which the device is looked up | setDriverDevice(1, d) on a task whose device index is 0: the driver index stays 0 | `this.driverIndex = driverIndex` | high, not executed | TaskMetaData.SetDriverDeviceIgnoresDriver | TaskMetaData.SetDriverDeviceAsIntended |
| runtime/src/main/java/uk/ac/manchester/tornado/runtime/common/Tornado.java:41-105 | the static block runs `loadSettings` before `log` is initialised at line 92; when the file exists but fails to load, the catch calls `warn`, which dereferences the null `log` | a settings file that exists but cannot be read: class initialisation ends in an `ExceptionInInitializerError` instead of a warning | the warning is logged and loading continues with the system properties | high, not executed | TornadoSettings.UnreadableSettingsAbortInit | TornadoSettings.ClassInit |
| tornado-api/src/main/java/uk/ac/manchester/tornado/api/data/nativetypes/CharArray.java:29 | `numberOfElements * CHAR_BYTES + arrayHeaderSize` is computed in 32-bit int before it is stored in the long field | n = 1073741824 (2^30): the size wraps to header - 2^31, a negative size that `allocate` rejects | the size computed in long arithmetic, n * 2 + header | medium, not executed | CharArrays.CharSizeOverflow | CharArrays.New |
