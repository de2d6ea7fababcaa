/** The binary container extractor: a recording whose segments are flat raw
    files, one per segment, holding `num_samples x num_channels` elements of one
    fixed-width integer type in time-major order (sample `t`, channel `c` is
    element `t * num_channels + c`).  Files live in an in-memory file store
    mapping each path to its bytes. */
module BinaryRecording {
  import opened Wrappers
  import opened Layout
  import opened Samples
  import opened Arith

  /** One segment's traces: `traces[t][c]` is sample `t` of channel `c`. */
  type Traces = seq<seq<int>>

  /** Any recording, seen through the capabilities the writer uses: segment
      count, traces per segment, sampling frequency, channel count, dtype. */
  datatype Recording = Recording(samplingFrequency: real, numChannels: nat, dtype: Dtype, segments: seq<Traces>)

  /** Traces of `nc` channels whose values all belong to type `d`. */
  predicate TracesFit(tr: Traces, nc: nat, d: Dtype)
  {
    Uniform(tr, nc) && forall t, c | 0 <= t < |tr| && 0 <= c < |tr[t]| :: InRange(tr[t][c], d)
  }

  /** What every recording guarantees of its own traces. */
  predicate WellFormed(rec: Recording)
  {
    forall i | 0 <= i < |rec.segments| :: TracesFit(rec.segments[i], rec.numChannels, rec.dtype)
  }

  /** `file_paths` is either one path (a single-segment recording) or a list. */
  datatype FilePaths = One(path: string) | Many(paths: seq<string>)

  function PathList(p: FilePaths): seq<string>
  {
    match p
    case One(path) => [path]
    case Many(paths) => paths
  }

  predicate Distinct(ps: seq<string>)
  {
    forall i, j | 0 <= i < j < |ps| :: ps[i] != ps[j]
  }

  datatype BinaryError =
    | InvalidChannelCount(numChannels: int)
    | FileNotFound(path: string)
    | DimensionMismatch(path: string, size: nat)
    | SegmentCountMismatch(numPaths: nat, numSegments: nat)
    | SegmentIndexRequired(numSegments: nat)
    | SegmentOutOfRange(index: nat, numSegments: nat)

  // ---------------------------------------------------------------- codec

  /** The bytes of a run of elements of type `d`, each cast into `d`. */
  function ToBytes(elems: seq<int>, d: Dtype): seq<byte>
  {
    Flatten(seq(|elems|, i requires 0 <= i < |elems| => EncodeSample(elems[i], d)))
  }

  /** The elements a run of bytes denotes under type `d`. */
  function FromBytes(bs: seq<byte>, d: Dtype): seq<int>
  {
    var cells := Chunk(bs, ItemSize(d));
    seq(|cells|, i requires 0 <= i < |cells| => DecodeSample(cells[i], d))
  }

  lemma BytesLength(elems: seq<int>, d: Dtype)
    ensures |ToBytes(elems, d)| == |elems| * ItemSize(d)
  {
    FlattenLength(seq(|elems|, i requires 0 <= i < |elems| => EncodeSample(elems[i], d)), ItemSize(d));
  }

  lemma FromBytesLength(bs: seq<byte>, d: Dtype, n: nat)
    requires |bs| == n * ItemSize(d)
    ensures |FromBytes(bs, d)| == n
  {
    ChunkLength(bs, ItemSize(d), n);
  }

  /** Reading back bytes written under `d` yields the elements cast into `d`. */
  lemma BytesRoundTrip(elems: seq<int>, d: Dtype)
    ensures FromBytes(ToBytes(elems, d), d) == seq(|elems|, i requires 0 <= i < |elems| => Cast(elems[i], d))
  {
    var cells := seq(|elems|, i requires 0 <= i < |elems| => EncodeSample(elems[i], d));
    assert Chunk(ToBytes(elems, d), ItemSize(d)) == cells by {
      ChunkFlatten(cells, ItemSize(d));
    }
    forall i | 0 <= i < |elems|
      ensures DecodeSample(cells[i], d) == Cast(elems[i], d)
    {
      SampleCastRoundTrip(elems[i], d);
    }
  }

  /** One element survives encoding, as its cast into `d`. */
  lemma SampleCastRoundTrip(v: int, d: Dtype)
    ensures DecodeSample(EncodeSample(v, d), d) == Cast(v, d)
  {
    SampleRoundTrip(Cast(v, d), d);
    assert Cast(Cast(v, d), d) == Cast(v, d);
  }

  function CastTraces(tr: Traces, d: Dtype): (r: Traces)
    ensures |r| == |tr|
    ensures forall t | 0 <= t < |tr| :: |r[t]| == |tr[t]|
  {
    seq(|tr|, t requires 0 <= t < |tr| => seq(|tr[t]|, c requires 0 <= c < |tr[t]| => Cast(tr[t][c], d)))
  }

  lemma CastTracesFit(tr: Traces, nc: nat, d: Dtype)
    requires Uniform(tr, nc)
    ensures TracesFit(CastTraces(tr, d), nc, d)
  {
  }

  lemma CastTracesIdentity(tr: Traces, nc: nat, d: Dtype)
    requires TracesFit(tr, nc, d)
    ensures CastTraces(tr, d) == tr
  {
    forall t | 0 <= t < |tr| ensures CastTraces(tr, d)[t] == tr[t] {
    }
  }

  /** The file contents `write_recording` produces for one segment. */
  function EncodeSegment(tr: Traces, d: Dtype): seq<byte>
  {
    ToBytes(Flatten(CastTraces(tr, d)), d)
  }

  /** The traces of a segment file of `nc` channels read as type `d`. */
  function DecodeSegment(bs: seq<byte>, nc: nat, d: Dtype): (tr: Traces)
    requires nc > 0
    ensures Uniform(tr, nc)
    ensures |Flatten(tr)| <= |FromBytes(bs, d)| < |Flatten(tr)| + nc
    ensures Flatten(tr) == FromBytes(bs, d)[..|Flatten(tr)|]
  {
    FlattenChunkPrefix(FromBytes(bs, d), nc);
    Chunk(FromBytes(bs, d), nc)
  }

  lemma EncodeSegmentLength(tr: Traces, nc: nat, d: Dtype)
    requires Uniform(tr, nc)
    ensures |EncodeSegment(tr, d)| == |tr| * (nc * ItemSize(d))
  {
    FlattenLength(CastTraces(tr, d), nc);
    BytesLength(Flatten(CastTraces(tr, d)), d);
    MulAssoc(|tr|, nc, ItemSize(d));
  }

  /** A segment written under `d` and read back with the same channel count
      and `d` gives the traces cast into `d`. */
  lemma {:induction false} SegmentRoundTrip(tr: Traces, nc: nat, d: Dtype)
    requires nc > 0 && Uniform(tr, nc)
    ensures DecodeSegment(EncodeSegment(tr, d), nc, d) == CastTraces(tr, d)
  {
    var flat := Flatten(CastTraces(tr, d));
    BytesRoundTrip(flat, d);
    FlattenLength(CastTraces(tr, d), nc);
    CastTracesFit(tr, nc, d);
    forall i | 0 <= i < |flat| ensures Cast(flat[i], d) == flat[i] {
      FlatInRange(CastTraces(tr, d), nc, d, i);
    }
    assert seq(|flat|, i requires 0 <= i < |flat| => Cast(flat[i], d)) == flat;
    ChunkFlatten(CastTraces(tr, d), nc);
  }

  lemma {:induction false} FlatInRange(tr: Traces, nc: nat, d: Dtype, i: nat)
    requires TracesFit(tr, nc, d) && i < |Flatten(tr)|
    ensures InRange(Flatten(tr)[i], d)
  {
    if i < |tr[0]| {
    } else {
      FlatInRange(tr[1..], nc, d, i - |tr[0]|);
    }
  }

  // ------------------------------------------------------------ extractor

  /** An opened binary recording: one memory-mapped buffer per segment. */
  datatype BinaryExtractor = BinaryExtractor(samplingFrequency: real, numChannels: nat, dtype: Dtype, buffers: seq<seq<byte>>)

  /** Bytes per sample frame (all channels of one time step). */
  function FrameSize(nc: nat, d: Dtype): nat
  {
    nc * ItemSize(d)
  }

  predicate Valid(b: BinaryExtractor)
  {
    b.numChannels > 0 &&
    forall i | 0 <= i < |b.buffers| :: |b.buffers[i]| % FrameSize(b.numChannels, b.dtype) == 0
  }

  /** Path `ps[i]` is the first that is missing or not a whole number of
      frames long. */
  predicate FirstFailure(fs: map<string, seq<byte>>, ps: seq<string>, frame: nat, i: nat)
    requires frame > 0 && i < |ps|
  {
    (ps[i] !in fs || |fs[ps[i]]| % frame != 0) &&
    forall j | 0 <= j < i :: ps[j] in fs && |fs[ps[j]]| % frame == 0
  }

  /** The error for a path that cannot be opened: a missing file is an I/O
      error, a present one of the wrong size a dimension mismatch. */
  function OpenError(fs: map<string, seq<byte>>, p: string): BinaryError
  {
    if p !in fs then FileNotFound(p) else DimensionMismatch(p, |fs[p]|)
  }

  /** The given files in path order; fails on the first missing file or file
      whose size is not a whole number of frames. */
  function OpenSegments(fs: map<string, seq<byte>>, ps: seq<string>, frame: nat): (r: Result<seq<seq<byte>>, BinaryError>)
    requires frame > 0
    ensures r.Ok? <==> forall i | 0 <= i < |ps| :: ps[i] in fs && |fs[ps[i]]| % frame == 0
    ensures r.Ok? ==> |r.value| == |ps| && forall i | 0 <= i < |ps| :: r.value[i] == fs[ps[i]]
    ensures r.Err? ==> exists i | 0 <= i < |ps| :: FirstFailure(fs, ps, frame, i) && r.error == OpenError(fs, ps[i])
  {
    if ps == [] then Ok([])
    else if ps[0] !in fs then Err(FileNotFound(ps[0]))
    else if |fs[ps[0]]| % frame != 0 then Err(DimensionMismatch(ps[0], |fs[ps[0]]|))
    else match OpenSegments(fs, ps[1..], frame)
      case Err(e) => Err(e)
      case Ok(rest) => Ok([fs[ps[0]]] + rest)
  }

  /** `BinaryRecordingExtractor(file_paths, sampling_frequency, num_chan, dtype)`. */
  function Open(fs: map<string, seq<byte>>, paths: FilePaths, samplingFrequency: real, numChannels: int, d: Dtype): (r: Result<BinaryExtractor, BinaryError>)
    ensures numChannels <= 0 ==> r == Err(InvalidChannelCount(numChannels))
    ensures r.Ok? <==> (numChannels > 0 &&
      forall i | 0 <= i < |PathList(paths)| ::
        PathList(paths)[i] in fs && |fs[PathList(paths)[i]]| % FrameSize(numChannels, d) == 0)
    ensures r.Ok? ==> (Valid(r.value) && r.value.numChannels == numChannels &&
      r.value.samplingFrequency == samplingFrequency && r.value.dtype == d &&
      |r.value.buffers| == |PathList(paths)| &&
      forall i | 0 <= i < |PathList(paths)| :: r.value.buffers[i] == fs[PathList(paths)[i]])
    ensures r.Err? && numChannels > 0 ==>
      exists i | 0 <= i < |PathList(paths)| ::
        FirstFailure(fs, PathList(paths), FrameSize(numChannels, d), i) &&
        r.error == OpenError(fs, PathList(paths)[i])
  {
    if numChannels <= 0 then Err(InvalidChannelCount(numChannels))
    else match OpenSegments(fs, PathList(paths), FrameSize(numChannels, d))
      case Err(e) => Err(e)
      case Ok(bufs) => Ok(BinaryExtractor(samplingFrequency, numChannels, d, bufs))
  }

  function NumSegments(b: BinaryExtractor): nat
  {
    |b.buffers|
  }

  /** Samples in segment `i`: the file size divided by the frame size. */
  function NumSamples(b: BinaryExtractor, i: nat): nat
    requires Valid(b) && i < NumSegments(b)
  {
    |b.buffers[i]| / FrameSize(b.numChannels, b.dtype)
  }

  /** `get_traces(segment_index=...)` over the whole segment; without an index
      only a single-segment recording is accepted. */
  function GetTraces(b: BinaryExtractor, segmentIndex: Option<nat>): (r: Result<Traces, BinaryError>)
    requires Valid(b)
    ensures segmentIndex.None? ==> (r.Ok? <==> NumSegments(b) == 1)
    ensures segmentIndex.Some? ==> (r.Ok? <==> segmentIndex.value < NumSegments(b))
    ensures r.Ok? ==> |r.value| == NumSamples(b, if segmentIndex.Some? then segmentIndex.value else 0)
    ensures r.Ok? ==> TracesFit(r.value, b.numChannels, b.dtype)
    ensures r.Ok? ==> r.value == SegmentTraces(b, if segmentIndex.Some? then segmentIndex.value else 0)
    ensures segmentIndex.None? && r.Err? ==> r.error == SegmentIndexRequired(NumSegments(b))
    ensures segmentIndex.Some? && r.Err? ==> r.error == SegmentOutOfRange(segmentIndex.value, NumSegments(b))
  {
    match segmentIndex
    case None =>
      if NumSegments(b) == 1 then Ok(SegmentTraces(b, 0)) else Err(SegmentIndexRequired(NumSegments(b)))
    case Some(i) =>
      if i < NumSegments(b) then Ok(SegmentTraces(b, i)) else Err(SegmentOutOfRange(i, NumSegments(b)))
  }

  function SegmentTraces(b: BinaryExtractor, i: nat): (tr: Traces)
    requires Valid(b) && i < NumSegments(b)
    ensures |tr| == NumSamples(b, i) && TracesFit(tr, b.numChannels, b.dtype)
  {
    var n := NumSamples(b, i);
    var elems := FromBytes(b.buffers[i], b.dtype);
    Multiple(|b.buffers[i]|, FrameSize(b.numChannels, b.dtype));
    assert |b.buffers[i]| == (n * b.numChannels) * ItemSize(b.dtype);
    FromBytesLength(b.buffers[i], b.dtype, n * b.numChannels);
    ChunkLength(elems, b.numChannels, n);
    var tr := DecodeSegment(b.buffers[i], b.numChannels, b.dtype);
    assert forall t, c | 0 <= t < |tr| && 0 <= c < |tr[t]| :: InRange(tr[t][c], b.dtype) by {
      forall t, c | 0 <= t < |tr| && 0 <= c < |tr[t]| ensures InRange(tr[t][c], b.dtype) {
        FlattenIndex(tr, b.numChannels, t, c);
        FlattenChunk(elems, b.numChannels, n);
      }
    }
    tr
  }

  /** The opened extractor viewed as a recording. */
  function AsRecording(b: BinaryExtractor): (rec: Recording)
    requires Valid(b)
    ensures WellFormed(rec) && |rec.segments| == NumSegments(b)
    ensures rec.samplingFrequency == b.samplingFrequency && rec.numChannels == b.numChannels && rec.dtype == b.dtype
    ensures forall i | 0 <= i < NumSegments(b) :: GetTraces(b, Some(i)) == Ok(rec.segments[i])
  {
    Recording(b.samplingFrequency, b.numChannels, b.dtype,
              seq(NumSegments(b), i requires 0 <= i < NumSegments(b) => SegmentTraces(b, i)))
  }

  /** A file of `n * nc * ItemSize(d)` bytes opens as a segment of `n`
      samples of `nc` channels. */
  lemma FileShape(b: BinaryExtractor, i: nat, n: nat)
    requires Valid(b) && i < NumSegments(b)
    requires |b.buffers[i]| == n * FrameSize(b.numChannels, b.dtype)
    ensures NumSamples(b, i) == n
    ensures GetTraces(b, Some(i)).Ok? && |GetTraces(b, Some(i)).value| == n
  {
    assert |b.buffers[i]| / FrameSize(b.numChannels, b.dtype) == n;
  }

  /** Time-major layout: sample `t`, channel `c` of a segment is element
      `t * num_channels + c` of its file. */
  lemma TimeMajorIndex(b: BinaryExtractor, i: nat, t: nat, c: nat)
    requires Valid(b) && i < NumSegments(b)
    requires t < NumSamples(b, i) && c < b.numChannels
    ensures t * b.numChannels + c < |FromBytes(b.buffers[i], b.dtype)|
    ensures SegmentTraces(b, i)[t][c] == FromBytes(b.buffers[i], b.dtype)[t * b.numChannels + c]
  {
    var n := NumSamples(b, i);
    var elems := FromBytes(b.buffers[i], b.dtype);
    Multiple(|b.buffers[i]|, FrameSize(b.numChannels, b.dtype));
    assert |b.buffers[i]| == (n * b.numChannels) * ItemSize(b.dtype);
    FromBytesLength(b.buffers[i], b.dtype, n * b.numChannels);
    ChunkLength(elems, b.numChannels, n);
    FlattenChunk(elems, b.numChannels, n);
    FlattenIndex(Chunk(elems, b.numChannels), b.numChannels, t, c);
  }

  // ---------------------------------------------------------------- write

  /** The file store after writing segment `k` of `segs` to path `ps[k]`,
      in order. */
  function WrittenFiles(fs: map<string, seq<byte>>, ps: seq<string>, segs: seq<Traces>, d: Dtype): (written: map<string, seq<byte>>)
    requires |ps| == |segs|
    ensures fs.Keys <= written.Keys
  {
    if ps == [] then fs
    else WrittenFiles(fs, ps[..|ps| - 1], segs[..|segs| - 1], d)[ps[|ps| - 1] := EncodeSegment(segs[|segs| - 1], d)]
  }

  /** Exactly the given paths are added to the store. */
  lemma {:induction false} WrittenFilesKeys(fs: map<string, seq<byte>>, ps: seq<string>, segs: seq<Traces>, d: Dtype)
    requires |ps| == |segs|
    ensures forall p :: p in WrittenFiles(fs, ps, segs, d) <==> p in fs || p in ps
  {
    if ps != [] {
      var m := |ps| - 1;
      WrittenFilesKeys(fs, ps[..m], segs[..m], d);
      assert ps == ps[..m] + [ps[m]];
    }
  }

  /** With distinct paths, each path holds its segment's encoding. */
  lemma {:induction false} WrittenFilesAt(fs: map<string, seq<byte>>, ps: seq<string>, segs: seq<Traces>, d: Dtype)
    requires |ps| == |segs| && Distinct(ps)
    ensures forall i | 0 <= i < |ps| ::
      ps[i] in WrittenFiles(fs, ps, segs, d) && WrittenFiles(fs, ps, segs, d)[ps[i]] == EncodeSegment(segs[i], d)
  {
    if ps != [] {
      var m := |ps| - 1;
      var w := WrittenFiles(fs, ps, segs, d);
      WrittenFilesAt(fs, ps[..m], segs[..m], d);
      forall i | 0 <= i < |ps| ensures ps[i] in w && w[ps[i]] == EncodeSegment(segs[i], d) {
        if i < m {
          assert ps[..m][i] == ps[i] && ps[i] != ps[m];
          assert segs[..m][i] == segs[i];
        }
      }
    }
  }

  /** Files at paths not written to are untouched. */
  lemma {:induction false} WrittenFilesElsewhere(fs: map<string, seq<byte>>, ps: seq<string>, segs: seq<Traces>, d: Dtype, p: string)
    requires |ps| == |segs| && p in fs && p !in ps
    ensures p in WrittenFiles(fs, ps, segs, d) && WrittenFiles(fs, ps, segs, d)[p] == fs[p]
  {
    if ps != [] {
      var m := |ps| - 1;
      assert p !in ps[..m] && p != ps[m];
      WrittenFilesElsewhere(fs, ps[..m], segs[..m], d, p);
    }
  }

  /** The dtype `write_recording` uses: the given one, else the source's. */
  function WriteDtype(rec: Recording, dtype: Option<Dtype>): (d: Dtype)
    ensures dtype.Some? ==> d == dtype.value
    ensures dtype.None? ==> d == rec.dtype
  {
    if dtype.Some? then dtype.value else rec.dtype
  }

  /** Holds the files of the model's file system. */
  class FileStore {
    var files: map<string, seq<byte>>

    constructor (files: map<string, seq<byte>>)
      ensures this.files == files
    {
      this.files := files;
    }
  }

  /** Fills a freshly created segment buffer (`np.memmap(..., mode="w+")` of
      shape `(num_samples, num_chan)`) sample by sample. */
  method FillSegment(buf: array<int>, tr: Traces, nc: nat, d: Dtype)
    requires Uniform(tr, nc) && buf.Length == |tr| * nc
    modifies buf
    ensures buf[..] == Flatten(CastTraces(tr, d))
  {
    ghost var cast := CastTraces(tr, d);
    var t, base := 0, 0;
    while t < |tr|
      invariant 0 <= t <= |tr| && base == t * nc
      invariant base <= buf.Length
      invariant buf[..base] == Flatten(cast[..t])
    {
      MulMonotone(t + 1, |tr|, nc);
      FillFrame(buf, tr, t, base, nc, d);
      t, base := t + 1, base + nc;
    }
    assert cast[..t] == cast;
  }

  /** Stores frame `t` after the `t` frames already filled. */
  method FillFrame(buf: array<int>, tr: Traces, t: nat, base: nat, nc: nat, d: Dtype)
    requires Uniform(tr, nc) && t < |tr| && base + nc <= buf.Length
    requires buf[..base] == Flatten(CastTraces(tr, d)[..t])
    modifies buf
    ensures buf[..base + nc] == Flatten(CastTraces(tr, d)[..t + 1])
  {
    ghost var cast := CastTraces(tr, d);
    assert |tr[t]| == nc;
    FillRow(buf, base, tr[t], d);
    assert cast[t] == seq(|tr[t]|, c requires 0 <= c < |tr[t]| => Cast(tr[t][c], d));
    FilledPrefix(buf[..], cast, t, base);
  }

  /** A filled prefix followed by the next filled frame is a longer filled
      prefix. */
  lemma FilledPrefix(s: seq<int>, cast: Traces, t: nat, base: nat)
    requires t < |cast| && base + |cast[t]| <= |s|
    requires s[..base] == Flatten(cast[..t]) && s[base..base + |cast[t]|] == cast[t]
    ensures s[..base + |cast[t]|] == Flatten(cast[..t + 1])
  {
    assert s[..base + |cast[t]|] == s[..base] + s[base..base + |cast[t]|];
    assert cast[..t + 1] == cast[..t] + [cast[t]];
    FlattenSnoc(cast[..t], cast[t]);
  }

  /** Stores one sample frame, channel by channel, at `buf[base..]`. */
  method FillRow(buf: array<int>, base: nat, row: seq<int>, d: Dtype)
    requires base + |row| <= buf.Length
    modifies buf
    ensures buf[base..base + |row|] == seq(|row|, c requires 0 <= c < |row| => Cast(row[c], d))
    ensures buf[..base] == old(buf[..base])
    ensures buf[base + |row|..] == old(buf[base + |row|..])
  {
    var c := 0;
    while c < |row|
      invariant 0 <= c <= |row|
      invariant buf[..base] == old(buf[..base])
      invariant buf[base + c..] == old(buf[base + c..])
      invariant buf[base..base + c] == seq(c, j requires 0 <= j < c => Cast(row[j], d))
    {
      buf[base + c] := Cast(row[c], d);
      c := c + 1;
    }
  }

  /** Creates the file of one segment: a buffer of `num_samples x num_chan`
      elements is filled and stored at `path` in type `d`. */
  method WriteSegment(store: FileStore, path: string, tr: Traces, nc: nat, d: Dtype)
    requires Uniform(tr, nc)
    modifies store
    ensures store.files == old(store.files)[path := EncodeSegment(tr, d)]
  {
    var buf := new int[|tr| * nc];
    FillSegment(buf, tr, nc, d);
    store.files := store.files[path := ToBytes(buf[..], d)];
  }

  /** `BinaryRecordingExtractor.write_recording(recording, file_paths, dtype)`:
      one file per segment, segment `k` to path `k`, in `dtype` (default: the
      source's dtype). */
  method WriteRecording(store: FileStore, rec: Recording, paths: FilePaths, dtype: Option<Dtype>) returns (err: Option<BinaryError>)
    requires WellFormed(rec)
    modifies store
    ensures |PathList(paths)| == |rec.segments| ==>
      err == None &&
      store.files == WrittenFiles(old(store.files), PathList(paths), rec.segments, WriteDtype(rec, dtype))
    ensures |PathList(paths)| != |rec.segments| ==>
      err == Some(SegmentCountMismatch(|PathList(paths)|, |rec.segments|)) && store.files == old(store.files)
  {
    var ps := PathList(paths);
    if |ps| != |rec.segments| {
      return Some(SegmentCountMismatch(|ps|, |rec.segments|));
    }
    var d := WriteDtype(rec, dtype);
    ghost var fs0 := store.files;
    var k := 0;
    while k < |ps|
      invariant 0 <= k <= |ps|
      invariant store.files == WrittenFiles(fs0, ps[..k], rec.segments[..k], d)
    {
      assert TracesFit(rec.segments[k], rec.numChannels, rec.dtype);
      WriteSegment(store, ps[k], rec.segments[k], rec.numChannels, d);
      WrittenFilesStep(fs0, ps, rec.segments, d, k);
      k := k + 1;
    }
    assert ps[..k] == ps && rec.segments[..k] == rec.segments;
    err := None;
  }

  lemma WrittenFilesStep(fs: map<string, seq<byte>>, ps: seq<string>, segs: seq<Traces>, d: Dtype, k: nat)
    requires |ps| == |segs| && k < |ps|
    ensures WrittenFiles(fs, ps[..k + 1], segs[..k + 1], d) ==
            WrittenFiles(fs, ps[..k], segs[..k], d)[ps[k] := EncodeSegment(segs[k], d)]
  {
    assert ps[..k + 1][..k] == ps[..k];
    assert segs[..k + 1][..k] == segs[..k];
  }

  // ----------------------------------------------------------- round trip

  /** Every written path exists afterwards and opens as a recording with one
      segment per path, in path order. */
  lemma WrittenOpens(fs: map<string, seq<byte>>, rec: Recording, paths: FilePaths, d: Dtype)
    requires WellFormed(rec) && rec.numChannels > 0
    requires |PathList(paths)| == |rec.segments| && Distinct(PathList(paths))
    ensures forall p | p in PathList(paths) :: p in WrittenFiles(fs, PathList(paths), rec.segments, d)
    ensures Open(WrittenFiles(fs, PathList(paths), rec.segments, d), paths, rec.samplingFrequency, rec.numChannels, d).Ok?
    ensures NumSegments(Open(WrittenFiles(fs, PathList(paths), rec.segments, d), paths, rec.samplingFrequency, rec.numChannels, d).value) == |rec.segments|
  {
    var ps := PathList(paths);
    WrittenFilesFit(fs, rec, ps, d);
    OpenWholeFrames(WrittenFiles(fs, ps, rec.segments, d), paths, rec.samplingFrequency, rec.numChannels, d);
  }

  /** Files that all exist and all hold whole frames open, one segment each. */
  lemma OpenWholeFrames(fs: map<string, seq<byte>>, paths: FilePaths, samplingFrequency: real, numChannels: nat, d: Dtype)
    requires numChannels > 0
    requires forall i | 0 <= i < |PathList(paths)| ::
      PathList(paths)[i] in fs && |fs[PathList(paths)[i]]| % FrameSize(numChannels, d) == 0
    ensures forall p | p in PathList(paths) :: p in fs
    ensures Open(fs, paths, samplingFrequency, numChannels, d).Ok?
    ensures NumSegments(Open(fs, paths, samplingFrequency, numChannels, d).value) == |PathList(paths)|
  {
  }

  /** Every written path holds a whole number of frames. */
  lemma WrittenFilesFit(fs: map<string, seq<byte>>, rec: Recording, ps: seq<string>, d: Dtype)
    requires WellFormed(rec) && rec.numChannels > 0
    requires |ps| == |rec.segments| && Distinct(ps)
    ensures forall i | 0 <= i < |ps| ::
      ps[i] in WrittenFiles(fs, ps, rec.segments, d) &&
      |WrittenFiles(fs, ps, rec.segments, d)[ps[i]]| % FrameSize(rec.numChannels, d) == 0
  {
    var w := WrittenFiles(fs, ps, rec.segments, d);
    var frame := FrameSize(rec.numChannels, d);
    WrittenFilesAt(fs, ps, rec.segments, d);
    forall i | 0 <= i < |ps| ensures ps[i] in w && |w[ps[i]]| % frame == 0 {
      assert w[ps[i]] == EncodeSegment(rec.segments[i], d);
      SegmentFits(rec, d, i);
    }
  }

  lemma SegmentFits(rec: Recording, d: Dtype, i: nat)
    requires WellFormed(rec) && rec.numChannels > 0 && i < |rec.segments|
    ensures |EncodeSegment(rec.segments[i], d)| % FrameSize(rec.numChannels, d) == 0
  {
    assert TracesFit(rec.segments[i], rec.numChannels, rec.dtype);
    EncodedSegmentFits(rec.segments[i], rec.numChannels, d);
  }

  /** A written segment file holds a whole number of frames. */
  lemma EncodedSegmentFits(tr: Traces, nc: nat, d: Dtype)
    requires nc > 0 && Uniform(tr, nc)
    ensures |EncodeSegment(tr, d)| % FrameSize(nc, d) == 0
  {
    EncodeSegmentLength(tr, nc, d);
    MultipleMod(|tr|, FrameSize(nc, d));
  }

  /** Round trip: writing every segment of a recording with its own dtype and
      reopening the files with the same sampling frequency, channel count and
      dtype gives back the same recording, traces included. */
  lemma {:induction false} RoundTrip(fs: map<string, seq<byte>>, rec: Recording, paths: FilePaths)
    requires WellFormed(rec) && rec.numChannels > 0
    requires |PathList(paths)| == |rec.segments| && Distinct(PathList(paths))
    ensures var r := Open(WrittenFiles(fs, PathList(paths), rec.segments, rec.dtype), paths,
                          rec.samplingFrequency, rec.numChannels, rec.dtype);
            r.Ok? && AsRecording(r.value) == rec &&
            forall i | 0 <= i < |rec.segments| :: GetTraces(r.value, Some(i)) == Ok(rec.segments[i])
  {
    var ps := PathList(paths);
    var out := WrittenFiles(fs, ps, rec.segments, rec.dtype);
    WrittenOpens(fs, rec, paths, rec.dtype);
    WrittenFilesAt(fs, ps, rec.segments, rec.dtype);
    var b := Open(out, paths, rec.samplingFrequency, rec.numChannels, rec.dtype).value;
    forall i | 0 <= i < |rec.segments| ensures SegmentTraces(b, i) == rec.segments[i] {
      SegmentRoundTrip(rec.segments[i], rec.numChannels, rec.dtype);
      CastTracesIdentity(rec.segments[i], rec.numChannels, rec.dtype);
    }
    assert AsRecording(b).segments == rec.segments;
  }

  /** A single path, not a list, writes and reopens a single-segment
      recording, and `get_traces()` needs no segment index. */
  lemma SinglePathRoundTrip(fs: map<string, seq<byte>>, rec: Recording, path: string)
    requires WellFormed(rec) && rec.numChannels > 0 && |rec.segments| == 1
    ensures var r := Open(WrittenFiles(fs, [path], rec.segments, rec.dtype), One(path),
                          rec.samplingFrequency, rec.numChannels, rec.dtype);
            r.Ok? && GetTraces(r.value, None) == Ok(rec.segments[0])
  {
    RoundTrip(fs, rec, One(path));
  }

  /** Writing under another dtype and reading back under it gives the source
      traces cast (with wrap-around) into that dtype. */
  lemma CastRoundTrip(fs: map<string, seq<byte>>, rec: Recording, paths: FilePaths, d: Dtype)
    requires WellFormed(rec) && rec.numChannels > 0
    requires |PathList(paths)| == |rec.segments| && Distinct(PathList(paths))
    ensures var r := Open(WrittenFiles(fs, PathList(paths), rec.segments, d), paths,
                          rec.samplingFrequency, rec.numChannels, d);
            r.Ok? && forall i | 0 <= i < |rec.segments| :: GetTraces(r.value, Some(i)) == Ok(CastTraces(rec.segments[i], d))
  {
    WrittenOpens(fs, rec, paths, d);
    WrittenFilesAt(fs, PathList(paths), rec.segments, d);
    forall i | 0 <= i < |rec.segments| {
      SegmentRoundTrip(rec.segments[i], rec.numChannels, d);
    }
  }

  // ------------------------------------------------------------- scenario

  /** The file names of the copy test. */
  const Source0: string := "rec_0.raw"
  const Source1: string := "rec_1.raw"
  const Copied0: string := "rec_copied_0.raw"
  const Copied1: string := "rec_copied_1.raw"

  /** A zero-filled int16 file of 30 samples x 3 channels. */
  const ZeroFile: seq<byte> := seq(30 * 3 * 2, _ => 0)

  /** Two zero-filled int16 files of 30 samples x 3 channels, created as
      `np.memmap(path, dtype="int16", mode="w+", shape=(30, 3))`, open as a
      recording of 2 segments of 30 samples; writing it to two new paths
      creates both files, and they reopen as the same recording. */
  method CopyScenario() returns (original: BinaryExtractor, written: map<string, seq<byte>>, copy: BinaryExtractor)
    ensures Open(map[Source0 := ZeroFile, Source1 := ZeroFile], Many([Source0, Source1]), 10000.0, 3, Int16) == Ok(original)
    ensures Valid(original) && NumSegments(original) == 2 && original.numChannels == 3
    ensures NumSamples(original, 0) == 30 && NumSamples(original, 1) == 30
    ensures Copied0 in written && Copied1 in written && Source0 in written && Source1 in written
    ensures Open(written, Many([Copied0, Copied1]), 10000.0, 3, Int16) == Ok(copy)
    ensures Valid(copy) && AsRecording(copy) == AsRecording(original)
    ensures written == WrittenFiles(map[Source0 := ZeroFile, Source1 := ZeroFile], [Copied0, Copied1],
                                    AsRecording(original).segments, Int16)
  {
    var store := new FileStore(map[Source0 := ZeroFile, Source1 := ZeroFile]);
    TwoFilesOpen(store.files, Source0, Source1, 30, 10000.0, 3, Int16);
    original := Open(store.files, Many([Source0, Source1]), 10000.0, 3, Int16).value;
    var rec := AsRecording(original);
    var targets := Many([Copied0, Copied1]);
    ghost var before := store.files;
    var err := WriteRecording(store, rec, targets, None);
    assert Distinct(PathList(targets)) by {
      assert Copied0[11] != Copied1[11];
    }
    assert Source0 !in PathList(targets) && Source1 !in PathList(targets) by {
      assert |Source0| != |Copied0|;
    }
    CopyWritten(before, rec, targets, [Source0, Source1]);
    written := store.files;
    copy := Open(written, targets, 10000.0, 3, Int16).value;
  }

  /** Two files of `n` frames each open as a two-segment recording of `n`
      samples per segment. */
  lemma TwoFilesOpen(fs: map<string, seq<byte>>, a: string, b: string, n: nat, samplingFrequency: real, nc: nat, d: Dtype)
    requires nc > 0 && a in fs && b in fs
    requires |fs[a]| == n * FrameSize(nc, d) && |fs[b]| == n * FrameSize(nc, d)
    ensures var r := Open(fs, Many([a, b]), samplingFrequency, nc, d);
            r.Ok? && Valid(r.value) && NumSegments(r.value) == 2 && r.value.numChannels == nc &&
            NumSamples(r.value, 0) == n && NumSamples(r.value, 1) == n
  {
    MultipleMod(n, FrameSize(nc, d));
    var r := Open(fs, Many([a, b]), samplingFrequency, nc, d);
    assert r.Ok?;
    FileShape(r.value, 0, n);
    FileShape(r.value, 1, n);
  }

  /** Copying a recording to new paths keeps the files at the other paths,
      creates every target, and the targets reopen as the same recording. */
  lemma CopyWritten(fs: map<string, seq<byte>>, rec: Recording, targets: FilePaths, kept: seq<string>)
    requires WellFormed(rec) && rec.numChannels > 0
    requires |PathList(targets)| == |rec.segments| && Distinct(PathList(targets))
    requires forall p | p in kept :: p in fs && p !in PathList(targets)
    ensures var w := WrittenFiles(fs, PathList(targets), rec.segments, rec.dtype);
            (forall p | p in PathList(targets) :: p in w) && (forall p | p in kept :: p in w) &&
            Open(w, targets, rec.samplingFrequency, rec.numChannels, rec.dtype).Ok? &&
            AsRecording(Open(w, targets, rec.samplingFrequency, rec.numChannels, rec.dtype).value) == rec
  {
    WrittenFilesKeys(fs, PathList(targets), rec.segments, rec.dtype);
    RoundTrip(fs, rec, targets);
  }
}
