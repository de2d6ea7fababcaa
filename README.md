# SpikeInterface core pieces, modelled in Dafny

This project models three small pieces of SpikeInterface, a Python library that
reads electrophysiology recordings through one common API.

- **Binary container extractor** (`binary_recording.dfy`, with `layout.dfy`,
  `samples.dfy` and `arith.dfy`). A recording is a list of segments. Each
  segment is one raw file that holds `num_samples x num_channels` integer
  elements in time-major order: sample `t`, channel `c` is element
  `t * num_channels + c`. Files are little-endian two's-complement bytes in an
  in-memory file store. The module covers opening a list of files (or one
  path) as a recording, reading a segment's traces, and `write_recording`.
  `write_recording` is a method that fills one buffer per segment, sample by
  sample, then stores it. The central result is the round trip: write, then
  reopen with the same sampling frequency, channel count and dtype, and the
  traces come back unchanged.
- **SpikeGLX adapter** (`spikeglx.dfy`). For one stream, the constructor
  decides whether to attach a probe and the per-channel `inter_sample_shift`
  property. The decisions are pure functions: the `nidq`/sync-channel test,
  the stream-table lookup (the last entry with a name wins), Python's
  `str.replace` for the `.lf` to `.ap` rewrite, and the channels-per-ADC rule.
  `ProbeSetup` combines them into a specification. The method
  `SpikeGLXRecordingExtractor.AttachMetadata` runs the constructor's steps on
  the extractor's fields and is proved to change exactly what `ProbeSetup`
  says.
- **Widget backend registry** (`widgets.dfy`). This is a `BackendDefaults`
  object for the module global `default_backend_`, plus widget classes that
  map backend names to plotter classes. `check_backend` resolves the backend
  and fails when it is not registered. `do_plot` creates a plotter instance.
  `update_backend_kwargs` merges keyword dictionaries. A `to_attr` object
  reads dictionary entries as attributes.

The vendor parser (neo) and the probe reader (probeinterface) are inputs. A
stream list stands for `signals_info_list`. A map from meta-file path to
`Probe` stands for `probeinterface.read_spikeglx`; a path missing from the map
is a file the reader cannot open. The stream id and channel count that the
parser base class resolves, and the properties and keyword arguments it sets
up, come in through the extractor's constructor.

Python exceptions are `Result`/`Option` error values. `SpikeGLXError` covers a
`KeyError` in the stream table, an unreadable meta file and a missing
`imDatPrb_type` annotation. `BinaryError` covers a bad channel count, a missing
file, a size that is not whole frames, a path/segment count mismatch and a bad
segment index. `WidgetError` is the `check_backend` assertion. `ToAttr` returns
the missing key as its error.

**Assumption:** the body of `get_neuropixels_sample_shifts` is not modelled. `SampleShifts` states it as the round-robin rule:
channel `i` gets shift `(i mod n) / n` over the reals, where `n` is the number
of channels per ADC.

The implementation of `BinaryRecordingExtractor` is not part of this model
either. Its modelled behaviour follows the way its tests use it. Three
behaviours are modelling choices, not read from code:
- a file whose size is not a whole number of frames is rejected on open;
- a missing file is rejected on open;
- a path count that differs from the segment count is rejected on write, before
  any file is written.

`get_traces()` without a segment index is accepted only for a single-segment
recording, as the base recording class does.

## Model

| member | source | states |
|---|---|---|
| `BinaryRecording.Open` | src/spikeinterface/core/tests/test_binaryrecordingextractor.py:26 | opening succeeds exactly when the channel count is positive and every path names an existing file whose size is a whole number of frames; the result has one segment per path, in path order, each holding that file's bytes, with the given sampling frequency, channel count and dtype; a non-positive channel count is its own error; otherwise the error names the first failing path, as `FileNotFound` when the file is missing and as `DimensionMismatch` with its size when it is not whole frames |
| `BinaryRecording.OpenSegments` | src/spikeinterface/core/tests/test_binaryrecordingextractor.py:22-26 | the files are taken in path order; the open fails exactly when some path is missing or its size is not whole frames, and the error is `FileNotFound` or `DimensionMismatch` for the first such path |
| `BinaryRecording.GetTraces` | src/spikeinterface/core/tests/test_binaryrecordingextractor.py:50 | without a segment index it succeeds exactly for a single-segment recording, and fails with `SegmentIndexRequired`; with an index it succeeds exactly when the index is in range, and fails with `SegmentOutOfRange` naming the index; a result is that segment's decoded traces, with its sample count, rows of `num_channels` values, all within the dtype |
| `BinaryRecording.SegmentTraces` | src/spikeinterface/core/tests/test_binaryrecordingextractor.py:24-26 | decoding a segment file gives file size / frame size samples, each of `num_channels` values of the dtype |
| `BinaryRecording.AsRecording` | src/spikeinterface/core/tests/test_binaryrecordingextractor.py:26 | an opened extractor is a well-formed recording with one segment per file, the same sampling frequency, channel count and dtype, and `get_traces(segment_index=i)` returns segment `i` of that recording |
| `BinaryRecording.FileShape` | src/spikeinterface/core/tests/test_binaryrecordingextractor.py:24-26 | a file of `n x num_chan x itemsize` bytes opens as a segment of exactly `n` samples |
| `BinaryRecording.TimeMajorIndex` | src/spikeinterface/core/tests/test_binaryrecordingextractor.py:24 | sample `t`, channel `c` of a segment is element `t * num_chan + c` of its file (memmap shape `(num_samples, num_chan)`) |
| `BinaryRecording.FillSegment` | src/spikeinterface/core/tests/test_binaryrecordingextractor.py:24 | filling a fresh `(num_samples, num_chan)` buffer sample by sample leaves it holding the time-major flattening of the traces, cast into the target dtype |
| `BinaryRecording.FillRow` | src/spikeinterface/core/tests/test_binaryrecordingextractor.py:24 | one sample frame is stored channel by channel at its offset, cast into the dtype; the earlier and the later cells of the buffer are kept |
| `BinaryRecording.WriteSegment` | src/spikeinterface/core/tests/test_binaryrecordingextractor.py:30 | one segment's file is created at its path with the segment's encoding; no other file changes |
| `BinaryRecording.WriteRecording` | src/spikeinterface/core/tests/test_binaryrecordingextractor.py:30 | with as many paths as segments, segment `k` is written to path `k` in the given dtype, or in the source's dtype when none is given; otherwise it reports the mismatch and the store is left as it was |
| `BinaryRecording.WriteDtype` | src/spikeinterface/core/tests/test_binaryrecordingextractor.py:30 | the dtype written is the one given, or the source recording's own dtype when none is given |
| `BinaryRecording.WrittenFiles` | src/spikeinterface/core/tests/test_binaryrecordingextractor.py:29-33 | writing never removes a file from the store |
| `BinaryRecording.WrittenFilesKeys` | src/spikeinterface/core/tests/test_binaryrecordingextractor.py:29-33 | after writing, the store holds exactly the old files plus one file per target path |
| `BinaryRecording.WrittenFilesAt` | src/spikeinterface/core/tests/test_binaryrecordingextractor.py:29-33 | with distinct paths, each target path holds its own segment's encoding |
| `BinaryRecording.WrittenFilesElsewhere` | src/spikeinterface/core/tests/test_binaryrecordingextractor.py:29-33 | files at other paths are untouched by a write |
| `BinaryRecording.WrittenOpens` | src/spikeinterface/core/tests/test_binaryrecordingextractor.py:29-33 | every written path exists afterwards, and the written files open as a recording with as many segments as the source |
| `BinaryRecording.EncodeSegmentLength` | src/spikeinterface/core/tests/test_binaryrecordingextractor.py:24 | a written segment file has `num_samples x num_chan x itemsize` bytes |
| `BinaryRecording.DecodeSegment` | src/spikeinterface/core/tests/test_binaryrecordingextractor.py:24-26 | a file decodes into rows of `num_chan` values whose concatenation is the file's elements in order, dropping fewer than `num_chan` of them at the end |
| `BinaryRecording.EncodedSegmentFits` | src/spikeinterface/core/tests/test_binaryrecordingextractor.py:24-26 | a written segment file's size is a whole number of frames, so it passes the open check |
| `BinaryRecording.SegmentRoundTrip` | src/spikeinterface/core/tests/test_binaryrecordingextractor.py:42-50 | decoding a segment written in a dtype, with the same channel count and dtype, gives the source traces cast into that dtype |
| `BinaryRecording.RoundTrip` | src/spikeinterface/core/tests/test_binaryrecordingextractor.py:41-50 | writing a recording in its own dtype to distinct paths and reopening with its sampling frequency, channel count and dtype gives back the same recording, and every segment's traces are equal to the source's |
| `BinaryRecording.SinglePathRoundTrip` | src/spikeinterface/core/tests/test_binaryrecordingextractor.py:40-50 | a single path, not a list, writes and reopens a single-segment recording, and `get_traces()` with no index returns the source's traces |
| `BinaryRecording.CastRoundTrip` | src/spikeinterface/core/tests/test_binaryrecordingextractor.py:42 | written and read back in another dtype, the traces are the source's values cast with wrap-around into that dtype |
| `BinaryRecording.CopyScenario` | src/spikeinterface/core/tests/test_binaryrecordingextractor.py:15-33 | `original` is what `BinaryRecordingExtractor(file_paths, 10000, 3, "int16")` opens from two zero-filled int16 files of 30 x 3: 2 segments of 30 samples and 3 channels; `written` is exactly the store `write_recording` leaves when the recording's segments are written in int16 to the two new paths; it holds both copied files (`_copied_0` included) besides the originals, and the copied files open as the same recording |
| `BinaryRecording.BytesRoundTrip` | src/spikeinterface/core/tests/test_binaryrecordingextractor.py:24 | elements stored as bytes of a dtype read back as the elements cast into that dtype |
| `BinaryRecording.CastTracesIdentity` | src/spikeinterface/core/tests/test_binaryrecordingextractor.py:41-42 | casting traces into the dtype they already fit changes nothing |
| `Layout.ChunkFlatten` | src/spikeinterface/core/tests/test_binaryrecordingextractor.py:24 | cutting a flattened buffer of `k`-wide rows back into rows of `k` restores the rows |
| `Layout.FlattenChunk` | src/spikeinterface/core/tests/test_binaryrecordingextractor.py:24 | flattening the rows of a buffer of `n x k` elements restores the buffer |
| `Layout.FlattenChunkPrefix` | src/spikeinterface/core/tests/test_binaryrecordingextractor.py:24 | cutting into rows of `k` and flattening again keeps the elements in order and drops fewer than `k` of them, all at the end |
| `Layout.FlattenIndex` | src/spikeinterface/core/tests/test_binaryrecordingextractor.py:24 | in the flattened buffer, row `t`, column `c` is at index `t * k + c` |
| `Samples.SampleRoundTrip` | src/spikeinterface/core/tests/test_binaryrecordingextractor.py:20-24 | a value of a dtype, stored as its little-endian two's-complement bytes, decodes back to itself |
| `Samples.Cast` | src/spikeinterface/core/tests/test_binaryrecordingextractor.py:42 | the cast into a dtype lands in its range, is congruent to the input modulo 2^bits, and is the identity on values already in range |
| `Samples.LittleEndianRoundTrip` | src/spikeinterface/core/tests/test_binaryrecordingextractor.py:24 | the `n` little-endian base-256 digits of a number below 256^n give back the number |
| `SpikeGLX.ContainsOccurrence` | spikeinterface/extractors/neoextractors/spikeglx.py:51 | the substring test `sub in s` holds exactly when `sub` occurs at some position of `s` |
| `SpikeGLX.Contains` | spikeinterface/extractors/neoextractors/spikeglx.py:51 | Python's `sub in s`: the empty string is in every string, and a string longer than `s` is not in it |
| `SpikeGLX.Replace` | spikeinterface/extractors/neoextractors/spikeglx.py:58 | Python's `str.replace`: with an empty pattern the length grows by `(len(s) + 1) * len(rep)`; with a non-empty pattern, replacing in the empty string gives the empty string (the rewrite itself is stated by `LfReplacedLeftmost`) |
| `SpikeGLX.UsesProbe` | spikeinterface/extractors/neoextractors/spikeglx.py:51 | the probe logic runs exactly when the sync channel is not loaded and `"nidq"` occurs at no position of the stream id |
| `SpikeGLX.StreamTable` | spikeinterface/extractors/neoextractors/spikeglx.py:52-54 | each entry of the dictionary is filed under its own stream name, and is an entry of the signal list |
| `SpikeGLX.MetaFileOf` | spikeinterface/extractors/neoextractors/spikeglx.py:55 | the stream's meta file is found exactly when some signal-list entry has that stream name, and it is the meta file of such an entry |
| `SpikeGLX.ProbeMetaFile` | spikeinterface/extractors/neoextractors/spikeglx.py:57-58 | the meta-file path the probe is read from has the length of the listed meta-file name (what the rewrite does is stated by `ProbeMetaFileLeftmost` and `ProbeMetaFileRewrite`) |
| `SpikeGLX.ChannelsPerAdc` | spikeinterface/extractors/neoextractors/spikeglx.py:68-73 | 16 channels per ADC exactly for probe type code 2, and 12 for every other code |
| `SpikeGLX.ProbeSetup` | spikeinterface/extractors/neoextractors/spikeglx.py:51-76 | nothing is attached exactly when `"nidq"` is in the stream id or the sync channel is loaded; once the logic runs, an unknown stream is an error exactly when the stream is absent from the table; for a known stream, with its (rewritten) meta-file path, a probe is attached exactly when the path is readable and its probe has an `imDatPrb_type` code, `MetaFileNotFound` is returned exactly when the path is unreadable, and `MissingProbeType` exactly when it is readable without the code; an attachment carries the probe read from that path and the shift helper's result for the channel count and the ADC size for the probe's type code (no failure for unknown codes) |
| `SpikeGLX.StreamTableKeys` | spikeinterface/extractors/neoextractors/spikeglx.py:52-55 | a stream id is found in the table exactly when some entry of the signal list has that stream name |
| `SpikeGLX.StreamTableLastWins` | spikeinterface/extractors/neoextractors/spikeglx.py:52-55 | when names repeat, the table maps the name to the last entry carrying it |
| `SpikeGLX.ReplaceAbsent` | spikeinterface/extractors/neoextractors/spikeglx.py:58 | `str.replace` with a non-empty pattern that does not occur leaves the string unchanged |
| `SpikeGLX.ReplaceShape` | spikeinterface/extractors/neoextractors/spikeglx.py:58 | replacing by a string of the same length keeps the length, and keeps the first character when pattern and replacement start alike |
| `SpikeGLX.LfReplacedEverywhere` | spikeinterface/extractors/neoextractors/spikeglx.py:58 | after `.replace(".lf", ".ap")` no `".lf"` occurrence is left |
| `SpikeGLX.LfReplacedLeftmost` | spikeinterface/extractors/neoextractors/spikeglx.py:58 | for a name `a + ".lf" + b` where `a` holds no `".lf"`, `.replace(".lf", ".ap")` keeps `a`, turns that `".lf"` into `".ap"`, and rewrites `b` the same way: every other character is kept |
| `SpikeGLX.ProbeMetaFileLeftmost` | spikeinterface/extractors/neoextractors/spikeglx.py:57-58 | for an `lf` stream the probe's meta-file path is the listed name with its first `".lf"` turned into `".ap"`, the text before it kept and the rest rewritten the same way |
| `SpikeGLX.ProbeMetaFileRewrite` | spikeinterface/extractors/neoextractors/spikeglx.py:57-58 | when `"lf"` is not in the stream id the meta-file name is used unchanged; when it is, no `".lf"` remains; a name without `".lf"` is never changed; the length is kept |
| `SpikeGLX.SampleShifts` | spikeinterface/extractors/neoextractors/spikeglx.py:75 | (assumed rule) one shift per channel, each in [0, 1) |
| `SpikeGLX.ShiftsPeriodic` | spikeinterface/extractors/neoextractors/spikeglx.py:75 | (assumed rule) channels one ADC group apart share their shift, and the first channel of each group has shift 0 |
| `SpikeGLX.ShiftsWithinGroup` | spikeinterface/extractors/neoextractors/spikeglx.py:75 | (assumed rule) within one ADC group a later channel has a strictly larger shift |
| `SpikeGLX.ShiftsExample` | spikeinterface/extractors/neoextractors/spikeglx.py:75 | (assumed rule) with 24 channels and 12 per ADC, channels 0 and 12 have shift 0, channel 13 has 1/12 and channel 23 has 11/12 |
| `SpikeGLX.OneShiftPerChannel` | spikeinterface/extractors/neoextractors/spikeglx.py:75-76 | whenever shifts are attached there is exactly one per channel, each in [0, 1) |
| `SpikeGLX.ShiftsIgnoreShanks` | spikeinterface/extractors/neoextractors/spikeglx.py:61-76 | changing the probe's shank ids changes neither whether the setup succeeds nor the attached shifts |
| `SpikeGLX.SpikeGLXRecordingExtractor.constructor` | spikeinterface/extractors/neoextractors/spikeglx.py:47 | the state after the parser base class's constructor, whose stream id, channel count, properties and keyword arguments are parameters of the model: they are kept as given, no probe is attached and the group mode is the default |
| `SpikeGLX.SpikeGLXRecordingExtractor.SetProbe` | spikeinterface/extractors/neoextractors/spikeglx.py:61-65 | the probe and group mode are replaced; properties and keyword arguments are kept |
| `SpikeGLX.SpikeGLXRecordingExtractor.SetProperty` | spikeinterface/extractors/neoextractors/spikeglx.py:76 | the property is set to the given per-channel values and nothing else changes |
| `SpikeGLX.SpikeGLXRecordingExtractor.AttachMetadata` | spikeinterface/extractors/neoextractors/spikeglx.py:42-78 | when `ProbeSetup` attaches nothing, probe and properties are unchanged; when it attaches, the probe is set with the default group mode (the `by_shank` call is overwritten) and `inter_sample_shift` holds the shifts; in both cases `_kwargs` gains `folder_path` and `load_sync_channel`; a missing type code leaves the probe attached and raises; other errors change nothing |
| `Widgets.BackendDefaults.constructor` | spikeinterface/widgets/base.py:3-4 | the default backend starts as `'matplotlib'` |
| `Widgets.BackendDefaults.GetDefaultPlotterBackend` | spikeinterface/widgets/base.py:6-15 | returns the current default backend |
| `Widgets.BackendDefaults.SetDefaultPlotterBackend` | spikeinterface/widgets/base.py:18-20 | the default backend becomes the given value |
| `Widgets.DefaultAfterCalls` | spikeinterface/widgets/base.py:3-20 | after any series of `set_default_plotter_backend` calls, the getter returns `'matplotlib'` if there were none and otherwise the last value set |
| `Widgets.Widget.constructor` | spikeinterface/widgets/base.py:28-32 | a widget keeps its plot data, requested backend and backend keywords |
| `Widgets.ResolveBackend` | spikeinterface/widgets/base.py:36-37 | an explicit backend is used as given; `None` stands for the current default |
| `Widgets.Widget.CheckBackend` | spikeinterface/widgets/base.py:35-40 | `None` resolves to the current default; the check succeeds exactly when the resolved name is registered for the widget class, and then returns that name and the keywords unchanged; the failure names the backend and the available ones |
| `Widgets.Widget.DoPlot` | spikeinterface/widgets/base.py:42-46 | on success `plotter` is a fresh instance of the plotter class registered under the resolved backend; on failure the plotter is unchanged; plot data, backend and keywords are never changed |
| `Widgets.WidgetClass.constructor` | spikeinterface/widgets/base.py:25-26 | the table a widget subclass sets up in place of the base class's `None` starts with no registered backends |
| `Widgets.WidgetClass.RegisterBackend` | spikeinterface/widgets/base.py:48-50 | the plotter's backend name maps to that plotter, replacing an earlier registration, and every other name keeps its entry or absence |
| `Widgets.PlotterClass.Register` | spikeinterface/widgets/base.py:56-59 | registering a plotter class with a widget class has the effect of `register_backend` |
| `Widgets.Plotter.UpdateBackendKwargs` | spikeinterface/widgets/base.py:61-64 | the result has the keys of both the class defaults and the given keywords; the class defaults are not modified |
| `Widgets.Merged` | spikeinterface/widgets/base.py:62-63 | the merged dictionary has the keys of both; given keywords win on conflict; other keys keep their default values |
| `Widgets.MergedIdempotent` | spikeinterface/widgets/base.py:62-63 | merging the same keywords twice is merging them once, and merging none gives the defaults |
| `Widgets.ToAttr.constructor` | spikeinterface/widgets/base.py:74-84 | the object wraps exactly the given dictionary |
| `Widgets.ToAttr.GetAttribute` | spikeinterface/widgets/base.py:86-88 | attribute `k` is `d[k]` when `k` is a key, and a `KeyError` on `k` otherwise |

## Left out

- `get_neuropixels_sample_shifts` is not part of this model; `SampleShifts` assumes the round-robin rule stated above, over reals rather than floats.
- The neo parser (`NeoBaseRecordingExtractor.__init__`, `SpikeGLXRawIO`) and `probeinterface.read_spikeglx` are inputs: the resolved stream id, the channel count, the signal list and the probes readable from each meta file.
- `SpikeGLX.SpikeGLXRecordingExtractor.SetProbe`: does not model what `set_probe` does beyond storing the probe and group mode (channel wiring, the `location` and `group` properties), because that code is not part of this model.
- Channel-major files (`time_axis`), `file_offset` headers, gain and offset properties, chunked and parallel writing, and `get_traces` with a sample range or a channel subset are not exercised by the modelled tests and are not modelled.
- Floating-point sample types and `np.allclose` tolerance: samples are integers and equality is exact.
- Reading a file with a dtype other than the one it was written in reinterprets its bytes; the model decodes such files the same way, but its round-trip lemmas are stated for matching dtypes only.
- `BinaryRecording.WriteRecording`: writes over a file already at a target path without complaint, and casts into a narrower dtype with wrap-around without reporting the loss; a refusal to overwrite and a warning on lossy casts are not modelled, because the extractor's code that would decide them is not part of this model.
- Real file I/O, `np.memmap` laziness, `download_dataset` and the MEArec extractor: files are byte sequences in an in-memory store, and the recording being written is an abstract value.
- `BaseWidget.possible_backends = None` on the base class itself: only widget subclasses, which set a dictionary, are modelled.
- Plotter rendering (`plotter.do_plot`), `copy_signature`, `define_widget_function_from_class` and `define_function_from_class`: rendering and `inspect`-based signature glue.
- `src/spikeinterface/benchmark/benchmark_plot_tools.py`: plotting and floating-point curve fitting.
