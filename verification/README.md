# Verified model of the Intercept Layer for OpenCL Applications

A Dafny 4.11 model of the parts of the intercept layer that keep state between calls or write a file
that another program has to understand, with proofs of what they promise. `dafny verify dfyconfig.toml`
checks the whole project.

| files | what they model |
|---|---|
| `CommandBuffer`, `CommandBufferOrder`, `CommandBufferSize`, `CommandBufferText`, `CommandBufferMeaning`, `CommandBufferRecord`, `DotText`, `Graphs` | the command-buffer recorder: the state kept between commands and barriers, the sparse graph it writes, the ordering that graph stands for, and its DOT text |
| `ChromeTrace`, `TraceMeaning`, `ChromeTracer`, `TraceFormats`, `TraceLines`, `TraceFile`, `Json`, `Micros` | the Chrome tracer: eight kinds of timing record with a write-behind buffer, metadata, the printed lines, the closed file as one JSON array (sections 2, 5 and 7 of RFC 8259), and double-precision printing of nanoseconds as microseconds |
| `MetricStream`, `MetricTable`, `MetricCsv`, `MetricAggregation`, `QueueProperties` | metrics collection: the report buffer and its drain loop, the table and its reading as CSV, the running totals, and the rewriting of queue properties (section 5.1 of the OpenCL API specification) |
| `ConfigFile`, `Trimming` | controls read from the environment and configuration files |
| `IconStates` | the configuration application: values, icons and the sparse registry |
| `TraceMerge`, `TraceMergeText`, `TraceMergeLine`, `TraceMergeFile`, `TraceMergeFilter`, `MergedTrace` | the script that merges traces onto one timeline: its searches and substitutions in text, what they do to a printed object, what its filters keep, and the merged file |
| `Text`, `Words` | decimal text, concatenation, machine words |

Objects that the original updates in place are classes here, with the same fields. Each class keeps a ghost
history of its calls; its `Valid()` says that the fields, and the text written so far, are what a function
of that history gives (`CommandBuffer.Run`, `ChromeTrace.Run`, `MetricAggregation.ValuesFor`), and the
theorems are about that function, for every history.

## Main results

* **The recorded graph means the full ordering.** For every run of commands and barriers, in either queue
  mode and from any initial counter, the edges written have exactly the transitive closure of the dense graph
  of all explicit waits and all implied orderings (`ClosureIsPreserved`). It needs no assumption on names,
  which may even collide. When names are distinct and waits look back, the graph is acyclic, and an in-order
  queue is totally ordered. Names are distinct, despite the 32-bit wrap, exactly up to 2^32 internal nodes.
* **Nothing is lost or repeated by the recorder.** Sources of barrier edges followed by the outstanding ids
  are the commands, in order; the graph is linear in size; the DOT text reads back as what was recorded,
  exactly when no label needs escaping.
* **Buffering is invisible.** For every buffer size and every placement of flushes, the closed trace holds the
  same timing objects in the same order as an unbuffered one, whatever the uninitialised parts of the record
  union held; and the file is one JSON array of exactly the objects written, precisely when every name is plain.
* **Microsecond printing is exact up to 1000 * 2^43 ns and no further.** All times up to a bound print exactly
  if and only if the bound is at most 8796093022208000 ns (about 101.8 days); the very next nanosecond is
  printed wrong. Within the range the three stage slices of a command tile its interval with no gap.
* **Merged traces are one array on one clock.** Merging the closed traces of any runs with plain names succeeds
  exactly when no process and no queue is named `ts`, and then gives one JSON array of the objects that pass the
  filters, less each trace's first, with the text of every time moved so that its absolute time is kept.
* **Each report exactly once.** Draining a stream ends, and batches, saved reports and pending reports always
  concatenate to the whole stream, in batches of 16 to 256; each read asks for all the free room, so a driver that
  delivers what it is asked for is drained completely.
* **What is written says what was passed in.** Nodes, edges, slices, metadata, table fields, kept lines, rewritten pairs
  and stored values are each described without the functions that produce them: `NodesSay`, `TimingMeans`,
  `MetaMeans`, `MetricField`, `TraceFiltered`, `PairsRewritten`, `LineGives` and `ReadingMeans`.

## Findings

* A value row of the metric table lines up with the header exactly when every value has one of `PrintValue`'s four
  types and nothing in it prints with a comma (`ValuesLineUp`). A value of another type is not even followed by its
  comma (`intercept/mdapi/MetricsDiscoveryHelper.cpp:1083`, `UnknownTypeShiftsRow`). A kernel's name is written as
  it is (`intercept/mdapi/MetricsDiscoveryHelper.cpp:990`), and tracking global work offsets puts a comma in it for
  two dimensions or more (`intercept/src/intercept.cpp:5977-6001`, `CommaInNameShiftsRow`).
* Neither printer escapes: both read-back theorems hold exactly when names need no escaping.
* A string control survives writing to and reading from the registry exactly when it has its default or is
  128 characters long (`StringsRestored`): the reader assigns its whole buffer
  (`cliconfig/CLIConfig.cpp:197-227`), and longer values do not fit it.
* A registry set by hand can hold what the configuration application would not have written, such as a default or a
  bool stored as 2. The application loads it and its icons tell the truth, but the registry then holds exactly the
  saved non-default numbers only if all it held was canonical, or from the first apply or reset on
  (`HandSetRegistries`, `LoadedTells`).
* Floats are truncated before they are summed (`intercept/mdapi/MetricsDiscoveryHelper.cpp:1121`), so 0.5 and 1.5
  average to a printed 0 (`FloatsPrintLess`). The printed average is the measured one rounded down exactly when the
  truncated sum is below 2^64 and what truncation cut off does not carry (`AverageExact`).
* The merge script takes any line with the text `"ts"` in it for one with a time (`scripts/combine_chrome_traces.py:111`).
  It fails on the metadata of a process or queue named `ts`, and on nothing else the tracer writes (`UntimedLine`).
* The merge script writes each file's kept records from the second on (`scripts/combine_chrome_traces.py:129`).
  What is lost is the first line that passes the filter, for a trace of the interceptor the name of its process
  (`FirstRecordsNotWritten`, `ProcessNamesLost`).

## Model

| member | source | states |
|---|---|---|
| CommandBufferOrder.ClosureIsPreserved | intercept/src/cmdbufrecorder.h:29-129 | the recorded edges reach exactly what the dense ordering graph reaches, for every run, queue mode and counter |
| CommandBufferOrder.RunKeepsInv | intercept/src/cmdbufrecorder.h:58-128 | after every event: at most one implicit dependency; every node is outstanding or is or reaches it; all required orderings are reached; every edge is a dense one |
| CommandBufferOrder.BarriersSynchronise | intercept/src/cmdbufrecorder.h:92-128 | every earlier node reaches a barrier with no wait list, and every barrier reaches every later node |
| CommandBufferOrder.NamesDistinct | intercept/src/cmdbufrecorder.h:152-173 | node ids are pairwise distinct iff sync points are and at most 2^32 nodes are internal, from any counter |
| CommandBufferOrder.ReachIsForward | intercept/src/cmdbufrecorder.h:53-74 | with fresh sync points and waits on earlier ones, whatever is reached was recorded later |
| CommandBufferOrder.Acyclic | intercept/src/cmdbufrecorder.h:53-74 | under the same conditions no node reaches itself |
| CommandBufferOrder.InOrderIsTotal | intercept/src/cmdbufrecorder.h:66-70 | in an in-order queue, node i reaches node j iff i was recorded before j |
| CommandBufferOrder.InOrderState | intercept/src/cmdbufrecorder.h:66-74 | in-order: the only implicit dependency is the latest node and nothing is ever outstanding |
| CommandBufferSize.NodesRecorded | intercept/src/cmdbufrecorder.h:42-48 | exactly one node per event, in order |
| CommandBufferMeaning.NodesSay | intercept/src/cmdbufrecorder.h:37-48 | node k has the sync point of event k, or the 32-bit number of earlier events without one counted from the initial counter; it is an octagon iff the event is a barrier, and its caption is the command with its tag in parentheses, if any |
| CommandBufferMeaning.EventSays | intercept/src/cmdbufrecorder.h:29-129 | item by item: an event writes its node, an explicit edge per wait, a barrier edge per outstanding id if it is a bare barrier, and an implicit edge if there is a dependency; and what it leaves outstanding and as dependency |
| CommandBufferMeaning.ItemSays | intercept/src/cmdbufrecorder.h:42-64 | the text of every item: names, shapes, captions, and the style and comment of each kind of edge |
| CommandBufferMeaning.DocumentSays | intercept/src/cmdbufrecorder.h:25-134 | the text around the items, with the queue mode in words |
| CommandBufferSize.WaitsRecorded | intercept/src/cmdbufrecorder.h:50-56 | exactly one explicit edge per wait-list entry, in order |
| CommandBufferSize.OutstandingConserved | intercept/src/cmdbufrecorder.h:71-115 | barrier-edge sources followed by outstanding ids are the out-of-order commands in order: each command has at most one barrier edge ever |
| CommandBufferSize.ImplicitEdgesFew | intercept/src/cmdbufrecorder.h:117-124 | at most one implicit edge per event but the first |
| CommandBufferSize.LinearSize | intercept/src/cmdbufrecorder.h:29-129 | edges number at most wait entries plus nodes plus commands |
| CommandBufferText.RecordingReadsBack | intercept/src/cmdbufrecorder.h:25-134 | the finished text of any run reads back as exactly the nodes, labels and edges written iff no label has a quote or backslash |
| CommandBufferText.PrintedNamesDistinct | intercept/src/cmdbufrecorder.h:42-56 | printed node names are pairwise distinct under the same exact condition as ids |
| DotText.DocumentReadsBack | intercept/src/cmdbufrecorder.h:42-64 | text of any items reads back, with header and edge kinds, iff labels are clean |
| CommandBufferRecord.Recorder.RecordCreate | intercept/src/cmdbufrecorder.h:20-27 | starts a document of the given queue mode with an empty history |
| CommandBufferRecord.Recorder.MakeId | intercept/src/cmdbufrecorder.h:159-174 | the sync point, or the counter, which then advances with 32-bit wrap |
| CommandBufferRecord.Recorder.RecordCommand | intercept/src/cmdbufrecorder.h:29-75 | fields and text are those of the run extended by this command |
| CommandBufferRecord.Recorder.RecordBarrier | intercept/src/cmdbufrecorder.h:77-129 | fields and text are those of the run extended by this barrier |
| CommandBufferRecord.Recorder.RecordFinalize | intercept/src/cmdbufrecorder.h:131-134 | the text is the closed document of the run |
| ChromeTrace.BufferingInvisible | intercept/src/chrometracer.h:104-374 | for every buffer size and run, timing objects and metadata objects of the closed file equal the unbuffered tracer's, each in call order |
| ChromeTrace.RunKeepsInv | intercept/src/chrometracer.h:506-512 | written timing objects followed by buffered ones are all those added; the buffer holds fewer records than its size |
| TraceFile.RunReadsBack | intercept/src/chrometracer.h:27-101 | the closed file of any run is one JSON array that reads back as exactly the objects written and the end object iff every name and tag is plain |
| ChromeTrace.FileReadsBack | intercept/src/chrometracer.cpp:24-27 | the bracket, a line per object and the end object form one array with no missing or extra comma |
| Json.ArrayReadsBack | intercept/src/chrometracer.h:31-38 | an array file printed element by element reads back iff its strings are plain |
| ChromeTrace.StagesTile | intercept/src/chrometracer.cpp:228-254 | for ordered times in the exact range, the printed stage slices read back as adjacent intervals from queued to end |
| TraceMeaning.TimingMeans | intercept/src/chrometracer.cpp:38-292 | for every kind of timing call: each object's kind, process, track, name, printed times, id, colour and stage; the duration of device work is end minus start, wrapping at 64 bits; a flow start follows a call's slice, a flow end precedes a device's |
| TraceMeaning.TimingSpans | intercept/src/chrometracer.cpp:38-292 | within the exact range the printed slices read back as start to end, or start to start plus duration, for every kind of call |
| TraceMeaning.MetaMeans | intercept/src/chrometracer.h:47-101 | for every kind of metadata call: each object's track, name and argument; the thread sort index is the number plus 10000, wrapping at 32 bits |
| TraceMeaning.BufferedAreLatest | intercept/src/chrometracer.h:366-374 | what is buffered is exactly the calls since the last flush without the full buffers among them: the file is written in whole buffers and at flushes, at no other time |
| Micros.ExactUpTo | intercept/src/chrometracer.cpp:44-51 | all times up to a bound print exactly with `%.3f` iff the bound is at most 1000 * 2^43 ns |
| Micros.PrintsExactly | intercept/src/chrometracer.cpp:266-275 | a time within the limit prints as itself |
| Micros.HalfUlp | intercept/src/chrometracer.cpp:50 | division in double precision is off by at most half the spacing of doubles there |
| ChromeTracer.Store | intercept/src/chrometracer.h:414-434 | a 64-bit field stored in the union reads back and leaves other words alone |
| ChromeTracer.Tracer.Init | intercept/src/chrometracer.cpp:9-28 | opens the array with an empty history |
| ChromeTracer.Tracer.AddProcessMetadata | intercept/src/chrometracer.h:47-56 | writes the process name object at once |
| ChromeTracer.Tracer.AddThreadMetadata | intercept/src/chrometracer.h:58-73 | writes the thread's name and sort index, which wraps at 32 bits |
| ChromeTracer.Tracer.AddStartTimeMetadata | intercept/src/chrometracer.h:75-84 | writes the start time object at once |
| ChromeTracer.Tracer.AddQueueMetadata | intercept/src/chrometracer.h:86-101 | writes the queue's name and sort index |
| ChromeTracer.Tracer.AddCallLogging | intercept/src/chrometracer.h:104-130 | the tracer is in the state of the run extended by this call, whatever the union held |
| ChromeTracer.Tracer.AddCallLoggingTag | intercept/src/chrometracer.h:133-161 | the same, with a tag |
| ChromeTracer.Tracer.AddCallLoggingId | intercept/src/chrometracer.h:164-193 | the same, with an id and its flow event |
| ChromeTracer.Tracer.AddCallLoggingTagId | intercept/src/chrometracer.h:196-227 | the same, with both |
| ChromeTracer.Tracer.AddDeviceTiming | intercept/src/chrometracer.h:230-259 | the same, for device timing on a queue track |
| ChromeTracer.Tracer.AddDeviceTimingPerKernel | intercept/src/chrometracer.h:262-288 | the same, on a kernel track |
| ChromeTracer.Tracer.AddDeviceTimingInStages | intercept/src/chrometracer.h:291-329 | the same, in three stages |
| ChromeTracer.Tracer.AddDeviceTimingInStagesPerKernel | intercept/src/chrometracer.h:332-364 | the same, in three stages on a kernel track |
| ChromeTracer.Tracer.CheckFlushRecords | intercept/src/chrometracer.h:506-512 | flushes exactly when the buffer has reached its size |
| ChromeTracer.Tracer.FlushBuffer | intercept/src/chrometracer.h:366-374 | the run extended by a flush |
| ChromeTracer.Tracer.Close | intercept/src/chrometracer.h:27-39 | the file is the closed file of the whole run |
| ChromeTracer.Tracer.FlushRecords | intercept/src/chrometracer.cpp:294-374 | writes the objects of all buffered records in order and empties the buffer |
| ChromeTracer.Tracer.WriteCallLogging | intercept/src/chrometracer.cpp:38-53 | the printed line is the text of the call's object |
| ChromeTracer.Tracer.WriteCallLoggingTag | intercept/src/chrometracer.cpp:56-73 | the same, with the tag in the name |
| ChromeTracer.Tracer.WriteCallLoggingId | intercept/src/chrometracer.cpp:76-105 | the same, with its id and a flow start after it when flows are on |
| ChromeTracer.Tracer.WriteCallLoggingTagId | intercept/src/chrometracer.cpp:108-139 | the same, with both |
| ChromeTracer.Tracer.WriteDeviceTiming | intercept/src/chrometracer.cpp:142-171 | a flow end before the slice when flows are on; the duration wraps at 64 bits |
| ChromeTracer.Tracer.WriteDeviceTimingPerKernel | intercept/src/chrometracer.cpp:174-202 | the same, on the kernel's track |
| ChromeTracer.Tracer.WriteDeviceTimingInStages | intercept/src/chrometracer.cpp:218-255 | three slices with their suffixes and colours |
| ChromeTracer.Tracer.WriteDeviceTimingInStagesPerKernel | intercept/src/chrometracer.cpp:258-292 | the same, on the kernel's track |
| MetricStream.Helper.SaveReportsFromStream | intercept/mdapi/MetricsDiscoveryHelper.cpp:775-828 | asks once, for exactly the free room behind the saved reports; what is delivered is saved behind them; saved followed by pending is unchanged; ready iff at least 16 |
| MetricStream.Helper.GetCountersFromStream | intercept/mdapi/intercept_mdapi.cpp:374-412 | the drain ends with a read that leaves fewer than 16 saved; batches, saved and pending are the whole stream in order; the dump has every batch's rows; with a driver that delivers all it is asked for, nothing is left pending |
| MetricStream.BatchesBounded | intercept/mdapi/intercept_mdapi.cpp:385-410 | reports handed on number between 16 and 256 per batch, so batches are finite |
| MetricTable.PrintMetricNames | intercept/mdapi/MetricsDiscoveryHelper.cpp:882-921 | the row of the names of all columns |
| MetricTable.PrintMetricUnits | intercept/mdapi/MetricsDiscoveryHelper.cpp:926-964 | the row of the units of the same columns |
| MetricTable.PrintMetricValues | intercept/mdapi/MetricsDiscoveryHelper.cpp:969-1022 | one row per result, of the values of the same columns |
| MetricTable.EveryValuePrintedOnce | intercept/mdapi/MetricsDiscoveryHelper.cpp:988-1021 | every result value is read by exactly one field of exactly one row, every maximum value likewise when those are printed, every stream value by one field of each row, and no field reads anything else |
| MetricTable.CellShowsSource | intercept/mdapi/MetricsDiscoveryHelper.cpp:992-1016 | a field shows the value its source index holds, in bounds |
| MetricCsv.ShownDenotes | intercept/mdapi/MetricsDiscoveryHelper.cpp:1063-1086 | what is shown denotes the value: digits that read back as the number, `TRUE` or `FALSE`, the library's text of a float; only other types are not shown |
| MetricCsv.ShownDiffers | intercept/mdapi/MetricsDiscoveryHelper.cpp:1063-1086 | different numbers, and different bools, show differently |
| MetricCsv.NameField | intercept/mdapi/MetricsDiscoveryHelper.cpp:990 | the first field of a readable row is the kernel's name |
| MetricCsv.MetricField | intercept/mdapi/MetricsDiscoveryHelper.cpp:992-996 | in a readable row the field of metric i, at its place, denotes its element of the result array |
| MetricCsv.MaxField | intercept/mdapi/MetricsDiscoveryHelper.cpp:997-999 | the field after it denotes its maximum |
| MetricCsv.InfoField | intercept/mdapi/MetricsDiscoveryHelper.cpp:1003-1006 | the same of information values, after an empty field |
| MetricCsv.IoField | intercept/mdapi/MetricsDiscoveryHelper.cpp:1008-1018 | the same of the stream's information values |
| MetricCsv.HeadersSay | intercept/mdapi/MetricsDiscoveryHelper.cpp:888-960 | how many header fields there are, and what the fields that belong to no value hold |
| MetricCsv.MetricHeader | intercept/mdapi/MetricsDiscoveryHelper.cpp:892-899 | the headers over metric i and over its maximum |
| MetricCsv.InfoHeader | intercept/mdapi/MetricsDiscoveryHelper.cpp:903-906 | the headers over information value i |
| MetricCsv.IoHeader | intercept/mdapi/MetricsDiscoveryHelper.cpp:908-918 | the headers over the stream's information value i |
| MetricCsv.HeadersLineUp | intercept/mdapi/MetricsDiscoveryHelper.cpp:882-964 | read as CSV, the names are the columns' names one for one iff none has a comma; the same of units |
| MetricCsv.ValuesLineUp | intercept/mdapi/MetricsDiscoveryHelper.cpp:988-1086 | for any kernel name, field k of a value row is the value of the column named in field k iff every value is printable and none prints with a comma; the exact number of fields otherwise |
| MetricCsv.UnknownTypeShiftsRow | intercept/mdapi/MetricsDiscoveryHelper.cpp:1083-1085 | a concrete row that a value of another type makes too short |
| MetricCsv.CommaInNameShiftsRow | intercept/mdapi/MetricsDiscoveryHelper.cpp:990 | a concrete row that a comma in the kernel's name makes too long |
| MetricCsv.DumpReadsBack | intercept/mdapi/MetricsDiscoveryHelper.cpp:882-1022 | the whole dump, both headers and all value rows, reads back row by row and field by field iff everything is printable without comma or newline |
| MetricAggregation.Aggregator.AggregateMetrics | intercept/mdapi/MetricsDiscoveryHelper.cpp:1027-1058 | after any calls every entry summarises exactly the values given for its kernel and metric, with 64-bit wrap, and no other entries exist |
| MetricAggregation.CastMeans | intercept/mdapi/MetricsDiscoveryHelper.cpp:1105-1129 | conversion to an integer rounds down, and a bool is 0 or 1 |
| MetricAggregation.KernelsShareMetrics | intercept/mdapi/intercept_mdapi.cpp:503-509 | all kernels have entries for the same metrics, so the first one's columns fit every row |
| MetricAggregation.MetricsShareCount | intercept/mdapi/intercept_mdapi.cpp:519-521 | with distinct metric names, every metric of a kernel has counted every call |
| MetricAggregation.AverageOfConverted | intercept/mdapi/intercept_mdapi.cpp:524-529 | the printed average is that of the converted values iff their sum is below 2^64, and then lies between minimum and maximum |
| MetricAggregation.AverageExact | intercept/mdapi/intercept_mdapi.cpp:524-529 | it is the real average of the measured values rounded down iff, besides, what truncation cut off does not carry; below 2^64 it is never above that average and less than 2 below |
| MetricAggregation.FloatsPrintLess | intercept/mdapi/MetricsDiscoveryHelper.cpp:1120-1121 | two floats that average 1 and print 0 |
| QueueProperties.CreateMDAPICommandQueueProperties | intercept/mdapi/intercept_mdapi.cpp:52-137 | the new array is exactly the terminated encoding of the rewritten pairs, with no element unset |
| QueueProperties.PairsRewritten | intercept/mdapi/intercept_mdapi.cpp:64-132 | pair by pair: all keep place and key, only the values of 0x425E and 0x425F change, and what is added at the end is the missing ones of these |
| QueueProperties.EncodedAt | intercept/mdapi/intercept_mdapi.cpp:100-135 | keys at even places, their values after them, a zero at the end |
| QueueProperties.OthersPreserved | intercept/mdapi/intercept_mdapi.cpp:100-119 | pairs that are not about metrics survive unchanged and in order |
| QueueProperties.MetricsProvided | intercept/mdapi/intercept_mdapi.cpp:103-132 | any lookup of 0x425E finds 1, and of 0x425F the configuration |
| QueueProperties.RewritingIdempotent | intercept/mdapi/intercept_mdapi.cpp:52-137 | rewriting a rewritten list changes nothing |
| QueueProperties.RewrittenReadsBack | intercept/mdapi/intercept_mdapi.cpp:134-135 | the array read up to its first zero key is the rewritten list |
| QueueProperties.ConvertPropertiesArrayToBitfield | intercept/mdapi/intercept_mdapi.cpp:18-48 | succeeds iff every pair is a known queue property value, and then has or-ed in all of them |
| QueueProperties.ConvertibleIs | intercept/mdapi/intercept_mdapi.cpp:26-41 | convertible are exactly lists of 0x1093 with values 0 to 3 |
| QueueProperties.BitsAreUnion | intercept/mdapi/intercept_mdapi.cpp:35 | the bits are those of the 0x1093 values, all of them and no others |
| QueueProperties.BitsSurviveRewriting | intercept/mdapi/intercept_mdapi.cpp:311-341 | the bits equal those of the queue properties still in the rewritten list |
| ConfigFile.GetControlFromFile | intercept/OS/OS_linux.cpp:112-172 | the first line with an acceptable value decides; a value too long is passed over |
| ConfigFile.GetControl | intercept/OS/OS_linux.cpp:26-96 | an acceptable environment value, else the first acceptable line of the home file then the system file |
| ConfigFile.LineGives | intercept/OS/OS_linux.cpp:133-151 | a line gives a value for a name iff it is no comment and is the name, an equals sign and the value with spaces and tabs around both |
| ConfigFile.CommentsAre | intercept/OS/OS_linux.cpp:138-142 | comments begin with a semicolon, a hash or two slashes |
| ConfigFile.AcceptMeans | intercept/OS/OS_linux.cpp:151-168 | a size of 4 asks for a number; text is accepted iff it fits with its terminator |
| ConfigFile.LinesJoin | intercept/OS/OS_linux.cpp:129-131 | the lines have no newlines, and joined by newlines they are the file |
| ConfigFile.FileReadsBack | intercept/OS/OS_linux.cpp:129-168 | in a file of padded assignments to distinct names among comments and blank lines, the first match for each name can only be its trimmed value; that is the value written iff it has no outer blanks |
| Trimming.TrimPadded | intercept/OS/OS_linux.cpp:98-110 | blanks around a string do not matter to trimming it |
| Trimming.TrimTrimmed | intercept/OS/OS_linux.cpp:98-110 | trimming changes a string iff it has outer blanks |
| Trimming.TrimIs | intercept/OS/OS_linux.cpp:98-110 | the trimmed string is the only one without outer blanks that blanks around it make into the original |
| IconStates.Page.constructor | cliconfig/CLIConfig.cpp:100-145 | after loading any registry, icons tell the truth and saved numbers are what it gives; it holds exactly the non-default ones iff its entries are canonical |
| IconStates.LoadedTells | cliconfig/CLIConfig.cpp:197-220 | for one control and any stored bytes: the registry holds exactly the loaded non-default value iff what it holds is canonical |
| IconStates.HandSetRegistries | cliconfig/CLIConfig.cpp:205-218 | two registries that are loaded but that the application would not have written |
| IconStates.Page.SetDefaultStates | cliconfig/CLIConfig.cpp:45-56 | every value is the default and every icon says so |
| IconStates.Page.UpdateIconStates | cliconfig/CLIConfig.cpp:59-91 | icons as if the current values were the saved ones |
| IconStates.Page.UpdateVarState | cliconfig/CLIConfig.cpp:409-503 | an edit changes one value and its icon by the transition; every icon still encodes saved and current state |
| IconStates.Page.ApplyChanges | cliconfig/CLIConfig.cpp:506-514 | current values become the saved ones; the registry holds exactly the non-default numbers |
| IconStates.Page.ResetDefaults | cliconfig/CLIConfig.cpp:170-180 | everything is default, saved and absent from the registry |
| IconStates.Page.Reload | cliconfig/CLIConfig.cpp:183-241 | from any registry, every value is what reading into defaults gives, and every saved number is back |
| IconStates.IconEncodesPair | cliconfig/CLIConfig.cpp:447-502 | an icon encodes exactly whether saved and current differ from default, and an edit moves only the second |
| IconStates.IconsMean | cliconfig/CLIConfig.cpp:447-502 | which icon stands for which pair |
| IconStates.ReadingMeans | cliconfig/CLIConfig.cpp:197-228 | from a stored value of any type: nothing if it is longer than 256 bytes; else the first four bytes as a number, whether they are not zero, or 128 units, with zeros past the value's end |
| IconStates.BytesMean | cliconfig/CLIConfig.cpp:293-320 | numbers are stored in four bytes and text in two bytes a unit, lowest first |
| IconStates.NumbersRestored | cliconfig/CLIConfig.cpp:284-309 | a numeric control written and read into its default is restored |
| IconStates.StringsRestored | cliconfig/CLIConfig.cpp:195-228 | a string control is restored iff it has its default or 128 characters |
| IconStates.StringComesBack | cliconfig/CLIConfig.cpp:195-228 | shorter text comes back padded with zeros to 128 units, longer text not at all |
| IconStates.OthersUntouched | cliconfig/CLIConfig.cpp:284-332 | writing leaves every registry value alone that is not a control's |
| TraceMerge.Combine | scripts/combine_chrome_traces.py:71-132 | the merged text as a function of the files' texts, or a failure: too few files, no start time, a time that is no number |
| TraceMerge.CombineFails | scripts/combine_chrome_traces.py:71-119 | it fails iff there are fewer than two files, a file has no start time, or a kept line is taken to have a time and has no number for it |
| TraceMerge.KeptInOrder | scripts/combine_chrome_traces.py:101-104 | kept lines are in file order, once each, changed only by the fix at the end |
| TraceMerge.KeptIffPasses | scripts/combine_chrome_traces.py:101-104 | a line is kept iff it passes the filter |
| TraceMergeFilter.KeptIffOccurs | scripts/combine_chrome_traces.py:14-24 | it passes iff the key of an event's kind occurs in it and, unless there are no filters or it is metadata, one of the filters does |
| TraceMergeFilter.EventKept | scripts/combine_chrome_traces.py:14-24 | of the tracer's events, all are kept without filters, metadata always, and others iff some filter occurs in their printed line |
| TraceMergeFilter.TraceFiltered | scripts/combine_chrome_traces.py:101-104 | what is kept of a closed trace, in order, object by object |
| TraceMerge.FixupEndsInComma | scripts/combine_chrome_traces.py:26-29 | a fixed line ends in the comma it had, or one added to a line without; fixing twice is fixing once |
| TraceMerge.FirstRecordsNotWritten | scripts/combine_chrome_traces.py:128-130 | of every file with a kept line all but one is written, and the one lost is the first line that passes the filter |
| TraceMergeText.TimeFound | scripts/combine_chrome_traces.py:112 | splitting the text of an object with one time at its key and the next comma gives that time |
| TraceMergeText.SubstitutedText | scripts/combine_chrome_traces.py:114-118 | substituting in the text of an object replaces the values of the key and nothing else, not even inside strings |
| TraceMergeText.NoNumberCopied | scripts/combine_chrome_traces.py:114-118 | a key that no number follows is left alone |
| TraceMerge.StartSpanOf | scripts/combine_chrome_traces.py:118 | a start time is matched with the quotes around it, or without |
| TraceMergeLine.MicroAmount | intercept/src/chrometracer.cpp:44-51 | what the tracer prints for a time in the exact range amounts to its microseconds |
| TraceMergeLine.TimesKept | scripts/combine_chrome_traces.py:107-114 | the rewritten line reads back as the old object but for its time; new time plus epoch is old time plus start, and it is no earlier |
| TraceMergeLine.UntimedLine | scripts/combine_chrome_traces.py:111-118 | a line of metadata has its start time replaced, iff no string in it is `ts`; else the script fails |
| MergedTrace.StartFound | scripts/combine_chrome_traces.py:90-92 | the third line of a closed trace that began with process name and start time gives that start time |
| MergedTrace.StartIsRead | scripts/combine_chrome_traces.py:92 | in any file the start time is the number, in quotes or not, between the last colon and a brace of the third line |
| MergedTrace.StartNamesEpoch | scripts/combine_chrome_traces.py:116-118 | the start object comes back naming the epoch |
| MergedTrace.MergedFileReadsBack | scripts/combine_chrome_traces.py:87-132 | for the closed traces of any runs with plain names: merging succeeds iff no process or queue is named `ts`, and then the file is one JSON array of the kept objects but each trace's first, with their times moved, and the end object |
| MergedTrace.MergedEndMeans | scripts/combine_chrome_traces.py:131 | the end object of the merged file |
| MergedTrace.ProcessNamesLost | scripts/combine_chrome_traces.py:128-130 | the object lost from each such trace is its process name |

## Left out

- Locks, files, the registry's handles and the environment: calls under a lock are single steps, the trace file and the recording are strings, a configuration file is its text, the registry is a map whose calls succeed.
- CommandBufferRecord.Recorder.RecordFinalize: recording after finalizing is not modelled, since the driver refuses such commands.
- CommandBufferOrder.ReachIsForward: assumes fresh sync points and waits on earlier ones, which the driver guarantees for calls that succeed; the closure theorem assumes neither.
- ChromeTracer.Tracer.Write: truncation at the 16 KiB print buffer is not modelled, and names are taken to hold no NUL character.
- ChromeTrace.BufferingInvisible: claims order within timing objects and within metadata objects, not between them, because metadata bypasses the buffer.
- Micros.ToDouble: rounding is modelled for zero and for magnitudes from 0.001 up to 2^64, to nearest with ties to even, which covers every quotient the tracer prints.
- Json.ReadArray: the reader accepts a subset of the grammar (no escapes, exponents, literals or nested arrays), which is all the tracer writes; what it accepts is well formed.
- MetricStream.Stream.ReadIoStream: the foreign driver is a nondeterministic reader that delivers at most what was asked; its result code does not affect the caller, as in the original. Reports have a fixed size, so offsets are counted in reports.
- MetricStream.Helper.GetCountersFromStream: the metrics library is an arbitrary function from a batch to rows, and the guards for a library that failed to initialise are one flag.
- MetricTable.PrintMetricValues: the guards for an uninitialised helper or a bad stream are not modelled, and floats are printed by an arbitrary function.
- MetricAggregation.CastToUInt64: a float outside the 64-bit range is undefined in the original and excluded by the type of readings; a value of another type counts as zero, as in the original.
- MetricAggregation.AverageExact: a kernel whose metric set is empty has no entry to average; the original reads past the map there.
- ConfigFile.GetControl: the conversion of a number's text is the library's, so a number is returned as its text; the Android directory is a compile-time variant left out.
- IconStates.Page.constructor: the registry key exists and its calls succeed; names are compared exactly.
- IconStates.Page.Reload: does not give string controls back, which do not survive in general; `StringsRestored` says exactly when they do.
- TraceMerge.Combine: digits are ASCII digits; times are exact decimal numbers rather than Python floats, printed with at least one digit after the point and no zeros at the end; a time that is not digits, or digits around one point, counts as a failure, and so does a start time that is not digits. Lines end in newlines only.
- MergedTrace.MergedFileReadsBack: assumes that each trace begins with its process name and start time, as the interceptor writes them (`intercept/src/intercept.cpp:447-648`); the script takes the start from the third line.
- User interface, process launching, kernel replay, plotting and documentation scripts: no state or format of their own.
