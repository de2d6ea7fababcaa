/** The SpikeGLX recording adapter: for one stream of a SpikeGLX folder it
    decides whether to attach a probe and the per-channel `inter_sample_shift`
    property, which meta file describes the probe, and how many channels share
    one ADC.  The vendor parser (neo) and the probe reader (probeinterface) are
    collaborators: their results are inputs to the model. */
module SpikeGLX {
  import opened Wrappers
  import Arith

  // ------------------------------------------------- Python string operations

  predicate IsPrefix(pre: string, s: string)
  {
    |pre| <= |s| && s[..|pre|] == pre
  }

  /** Python's `sub in s`. */
  predicate Contains(s: string, sub: string): (b: bool)
    ensures |sub| == 0 ==> b
    ensures b ==> |sub| <= |s|
    decreases |s|
  {
    IsPrefix(sub, s) || (|s| > 0 && Contains(s[1..], sub))
  }

  /** `sub in s` holds exactly when `sub` occurs at some position of `s`. */
  lemma {:induction false} ContainsOccurrence(s: string, sub: string)
    ensures Contains(s, sub) <==> exists i | 0 <= i <= |s| :: IsPrefix(sub, s[i..])
    decreases |s|
  {
    if IsPrefix(sub, s) {
      assert s[0..] == s;
    } else if |s| > 0 {
      ContainsOccurrence(s[1..], sub);
      if exists i | 0 <= i <= |s[1..]| :: IsPrefix(sub, s[1..][i..]) {
        var i :| 0 <= i <= |s[1..]| && IsPrefix(sub, s[1..][i..]);
        assert s[1..][i..] == s[i + 1..];
      }
      if exists i | 0 <= i <= |s| :: IsPrefix(sub, s[i..]) {
        var i :| 0 <= i <= |s| && IsPrefix(sub, s[i..]);
        assert i > 0 by { assert s[0..] == s; }
        assert s[1..][i - 1..] == s[i..];
      }
    } else {
      assert forall i | 0 <= i <= |s| :: s[i..] == s;
    }
  }

  /** Python's `s.replace(pat, rep)`: every non-overlapping occurrence of
      `pat`, scanning left to right, is replaced by `rep` (an empty `pat`
      inserts `rep` before every character and at the end). */
  function Replace(s: string, pat: string, rep: string): (r: string)
    ensures |pat| == 0 ==> |r| == |s| + (|s| + 1) * |rep|
    ensures |pat| > 0 && s == [] ==> r == []
    decreases |s|
  {
    if |pat| == 0 then
      if s == [] then rep else rep + [s[0]] + Replace(s[1..], pat, rep)
    else if IsPrefix(pat, s) then rep + Replace(s[|pat|..], pat, rep)
    else if s == [] then []
    else [s[0]] + Replace(s[1..], pat, rep)
  }

  /** Without an occurrence of a non-empty `pat` there is nothing to replace. */
  lemma {:induction false} ReplaceAbsent(s: string, pat: string, rep: string)
    requires |pat| > 0 && !Contains(s, pat)
    ensures Replace(s, pat, rep) == s
    decreases |s|
  {
    if s != [] {
      ReplaceAbsent(s[1..], pat, rep);
    }
  }

  /** Replacing by a string of the same length keeps the length and the first
      character when both strings start alike. */
  lemma {:induction false} ReplaceShape(s: string, pat: string, rep: string)
    requires |pat| == |rep| > 0 && pat[0] == rep[0]
    ensures |Replace(s, pat, rep)| == |s|
    ensures s != [] ==> Replace(s, pat, rep)[0] == s[0]
    decreases |s|
  {
    if IsPrefix(pat, s) {
      ReplaceShape(s[|pat|..], pat, rep);
    } else if s != [] {
      ReplaceShape(s[1..], pat, rep);
    }
  }

  /** A non-empty string whose first character cannot start `sub`, and
      whose tail lacks `sub`, lacks `sub`. */
  lemma NotContainsStep(s: string, sub: string)
    requires |s| > 0 && |sub| > 0 && s[0] != sub[0] && !Contains(s[1..], sub)
    ensures !Contains(s, sub)
  {
    assert !IsPrefix(sub, s) by {
      if |sub| <= |s| {
        assert s[..|sub|][0] == s[0];
      }
    }
  }

  /** After `.replace(".lf", ".ap")` no `".lf"` is left. */
  lemma {:induction false} LfReplacedEverywhere(s: string)
    ensures !Contains(Replace(s, ".lf", ".ap"), ".lf")
    decreases |s|
  {
    if IsPrefix(".lf", s) {
      LfReplacedEverywhere(s[3..]);
      LfReplacedAtPrefix(s);
    } else if s != [] {
      LfReplacedEverywhere(s[1..]);
      LfReplacedAfterFirst(s);
    }
  }

  /** An occurrence at the front becomes `".ap"`, which cannot start or
      overlap a new `".lf"`. */
  lemma LfReplacedAtPrefix(s: string)
    requires IsPrefix(".lf", s) && !Contains(Replace(s[3..], ".lf", ".ap"), ".lf")
    ensures !Contains(Replace(s, ".lf", ".ap"), ".lf")
  {
    var r := Replace(s, ".lf", ".ap");
    var rest := Replace(s[3..], ".lf", ".ap");
    assert r == ".ap" + rest;
    assert r[1..] == "ap" + rest && r[2..] == "p" + rest && r[3..] == rest;
    assert r[1..][1..] == r[2..] && r[2..][1..] == r[3..];
    assert r[2..][0] == 'p' && r[1..][0] == 'a' && r[1] == 'a';
    NotContainsStep(r[2..], ".lf");
    NotContainsStep(r[1..], ".lf");
    assert !IsPrefix(".lf", r) by {
      assert r[..3][1] == r[1];
    }
  }

  /** A first character that does not start `".lf"` is kept, and no `".lf"`
      can start there after the rest is rewritten. */
  lemma LfReplacedAfterFirst(s: string)
    requires s != [] && !IsPrefix(".lf", s) && !Contains(Replace(s[1..], ".lf", ".ap"), ".lf")
    ensures !Contains(Replace(s, ".lf", ".ap"), ".lf")
  {
    var r := Replace(s, ".lf", ".ap");
    var rest := Replace(s[1..], ".lf", ".ap");
    assert r == [s[0]] + rest && r[1..] == rest;
    ReplaceShape(s[1..], ".lf", ".ap");
    if |s| >= 3 && s[1] == 'l' {
      assert !IsPrefix(".lf", s[1..]);
      assert rest == [s[1]] + Replace(s[2..], ".lf", ".ap");
      ReplaceShape(s[2..], ".lf", ".ap");
      assert s[..3] != ".lf";
    }
    assert !IsPrefix(".lf", r);
  }

  /** Text before the first `".lf"` cannot begin another one that overlaps
      it: `".lf"` has no proper prefix that is also a suffix. */
  lemma LfNotAtFront(a: string, b: string)
    requires a != [] && !Contains(a, ".lf")
    ensures !IsPrefix(".lf", a + ".lf" + b)
  {
    var s := a + ".lf" + b;
    if |a| >= 3 {
      assert s[..3] == a[..3];
      assert !IsPrefix(".lf", a);
    } else {
      assert s[|a|] == '.' && s[..3][|a|] == s[|a|];
    }
  }

  /** The leftmost `".lf"` becomes `".ap"`: the text before it is kept and
      the rewrite goes on after it.  With `ReplaceAbsent` this fixes the
      rewrite of every name. */
  lemma {:induction false} LfReplacedLeftmost(a: string, b: string)
    requires !Contains(a, ".lf")
    ensures Replace(a + ".lf" + b, ".lf", ".ap") == a + ".ap" + Replace(b, ".lf", ".ap")
    decreases |a|
  {
    var s := a + ".lf" + b;
    if a == [] {
      assert s == ".lf" + b && IsPrefix(".lf", s);
      assert s[3..] == b;
    } else {
      assert !Contains(a[1..], ".lf");
      LfReplacedLeftmost(a[1..], b);
      LfKeptBeforeLeftmost(a, b);
    }
  }

  /** One character before the first `".lf"` is copied through. */
  lemma LfKeptBeforeLeftmost(a: string, b: string)
    requires a != [] && !Contains(a, ".lf")
    requires Replace(a[1..] + ".lf" + b, ".lf", ".ap") == a[1..] + ".ap" + Replace(b, ".lf", ".ap")
    ensures Replace(a + ".lf" + b, ".lf", ".ap") == a + ".ap" + Replace(b, ".lf", ".ap")
  {
    var s, t, r := a + ".lf" + b, a[1..], Replace(b, ".lf", ".ap");
    LfNotAtFront(a, b);
    assert s[1..] == t + ".lf" + b;
    assert Replace(s, ".lf", ".ap") == [s[0]] + (t + ".ap" + r);
    assert a == [a[0]] + t;
  }

  // ------------------------------------------------------ vendor metadata

  /** One entry of the parser's `signals_info_list`. */
  datatype SignalInfo = SignalInfo(streamName: string, metaFile: string)

  /** `{e["stream_name"]: e for e in signals_info_list}`: entries inserted in
      list order, so a repeated stream name keeps its last entry. */
  function StreamTable(signals: seq<SignalInfo>): (table: map<string, SignalInfo>)
    ensures forall name | name in table :: table[name].streamName == name
    ensures forall name | name in table :: table[name] in signals
  {
    if signals == [] then map[]
    else StreamTable(signals[..|signals| - 1])[signals[|signals| - 1].streamName := signals[|signals| - 1]]
  }

  /** A stream name is a key exactly when some entry carries it. */
  lemma {:induction false} StreamTableKeys(signals: seq<SignalInfo>, name: string)
    ensures name in StreamTable(signals) <==> exists i | 0 <= i < |signals| :: signals[i].streamName == name
  {
    if signals != [] {
      var m := |signals| - 1;
      StreamTableKeys(signals[..m], name);
      if exists i | 0 <= i < m :: signals[..m][i].streamName == name {
        var i :| 0 <= i < m && signals[..m][i].streamName == name;
        assert signals[i].streamName == name;
      }
      if exists i | 0 <= i < |signals| :: signals[i].streamName == name {
        var i :| 0 <= i < |signals| && signals[i].streamName == name;
        if i < m {
          assert signals[..m][i].streamName == name;
        }
      }
    }
  }

  /** The entry a name maps to is the last entry carrying that name. */
  lemma {:induction false} StreamTableLastWins(signals: seq<SignalInfo>, i: nat)
    requires i < |signals|
    requires forall j | i < j < |signals| :: signals[j].streamName != signals[i].streamName
    ensures signals[i].streamName in StreamTable(signals)
    ensures StreamTable(signals)[signals[i].streamName] == signals[i]
  {
    var m := |signals| - 1;
    if i < m {
      StreamTableLastWins(signals[..m], i);
    }
  }

  /** The stream's meta file, or `None` where the lookup raises `KeyError`. */
  function MetaFileOf(signals: seq<SignalInfo>, streamId: string): (r: Option<string>)
    ensures r.Some? <==> exists i | 0 <= i < |signals| :: signals[i].streamName == streamId
    ensures r.Some? ==> exists i | 0 <= i < |signals| :: signals[i].streamName == streamId && signals[i].metaFile == r.value
  {
    StreamTableKeys(signals, streamId);
    var table := StreamTable(signals);
    if streamId in table then Some(table[streamId].metaFile) else None
  }

  /** The meta file the probe is read from: a low-frequency (`lf`) stream
      takes the action-potential (`.ap`) file's name. */
  function ProbeMetaFile(streamId: string, metaFile: string): (path: string)
    ensures |path| == |metaFile|
  {
    ReplaceShape(metaFile, ".lf", ".ap");
    if Contains(streamId, "lf") then Replace(metaFile, ".lf", ".ap") else metaFile
  }

  lemma ProbeMetaFileRewrite(streamId: string, metaFile: string)
    ensures !Contains(streamId, "lf") ==> ProbeMetaFile(streamId, metaFile) == metaFile
    ensures Contains(streamId, "lf") ==> !Contains(ProbeMetaFile(streamId, metaFile), ".lf")
    ensures !Contains(metaFile, ".lf") ==> ProbeMetaFile(streamId, metaFile) == metaFile
    ensures |ProbeMetaFile(streamId, metaFile)| == |metaFile|
  {
    LfReplacedEverywhere(metaFile);
    ReplaceShape(metaFile, ".lf", ".ap");
    if !Contains(metaFile, ".lf") {
      ReplaceAbsent(metaFile, ".lf", ".ap");
    }
  }

  /** For an `lf` stream, the first `".lf"` of the meta-file name becomes
      `".ap"`, the text before it is kept, and the rest is rewritten the
      same way. */
  lemma ProbeMetaFileLeftmost(streamId: string, a: string, b: string)
    requires Contains(streamId, "lf") && !Contains(a, ".lf")
    ensures ProbeMetaFile(streamId, a + ".lf" + b) == a + ".ap" + Replace(b, ".lf", ".ap")
  {
    LfReplacedLeftmost(a, b);
  }

  // ------------------------------------------------------------ the probe

  /** What the probe reader returns: optional shank ids and annotations. */
  datatype Probe = Probe(shankIds: Option<seq<int>>, annotations: map<string, int>)

  const ProbeTypeKey := "imDatPrb_type"

  /** Channels multiplexed through one ADC for a probe type code: 16 for
      type 2, 12 for every other code (unknown codes included). */
  function ChannelsPerAdc(probeType: int): (n: nat)
    ensures n == 16 <==> probeType == 2
    ensures n != 16 ==> n == 12
  {
    if probeType == 2 then 16 else 12
  }

  /** Per-channel sample shift, ASSUMED round robin: channel `i` is
      digitised in slot `i mod perAdc` of its ADC, so its shift is that slot
      over `perAdc`, a fraction of one sample period. */
  function SampleShifts(numChannels: nat, perAdc: nat): (shifts: seq<real>)
    requires perAdc > 0
    ensures |shifts| == numChannels
    ensures forall i | 0 <= i < numChannels :: 0.0 <= shifts[i] < 1.0
  {
    forall i | 0 <= i < numChannels ensures 0.0 <= (i % perAdc) as real / perAdc as real < 1.0 {
      FractionBelowOne(i % perAdc, perAdc);
    }
    seq(numChannels, i requires 0 <= i < numChannels => (i % perAdc) as real / perAdc as real)
  }

  lemma FractionBelowOne(a: nat, n: nat)
    requires a < n
    ensures 0.0 <= a as real / n as real < 1.0
  {
  }

  /** Channels one ADC period apart share their shift; the first channel of
      each ADC group has shift zero. */
  lemma ShiftsPeriodic(numChannels: nat, perAdc: nat, i: nat)
    requires perAdc > 0 && i + perAdc < numChannels
    ensures SampleShifts(numChannels, perAdc)[i + perAdc] == SampleShifts(numChannels, perAdc)[i]
    ensures i % perAdc == 0 ==> SampleShifts(numChannels, perAdc)[i] == 0.0
  {
    Arith.ModAddPeriod(i, perAdc);
  }

  /** Channels of one ADC group are digitised one after another: within a
      group, a later channel has a strictly larger shift. */
  lemma ShiftsWithinGroup(numChannels: nat, perAdc: nat, i: nat, j: nat)
    requires perAdc > 0 && i < j < numChannels && i / perAdc == j / perAdc
    ensures SampleShifts(numChannels, perAdc)[i] < SampleShifts(numChannels, perAdc)[j]
  {
    var q := i / perAdc;
    assert i == q * perAdc + i % perAdc && j == q * perAdc + j % perAdc;
    assert i % perAdc < j % perAdc;
    var a, b, n := (i % perAdc) as real, (j % perAdc) as real, perAdc as real;
    assert b / n - a / n == (b - a) / n;
  }

  /** Twenty-four channels in groups of twelve: channels 0 and 12 have
      shift 0, channel 13 shift 1/12 and channel 23 shift 11/12. */
  lemma ShiftsExample()
    ensures var s := SampleShifts(24, 12);
            s[0] == 0.0 && s[12] == 0.0 && s[13] == 1.0 / 12.0 && s[23] == 11.0 / 12.0
  {
  }

  // ------------------------------------------- the decision, as a function

  datatype SpikeGLXError =
    | UnknownStream(streamId: string)       // KeyError in the stream table
    | MetaFileNotFound(path: string)         // the probe reader cannot open it
    | MissingProbeType(path: string)         // KeyError on the annotation

  /** What the adapter attaches: the probe and one shift per channel. */
  datatype Attachment = Attachment(probe: Probe, shifts: seq<real>)

  /** The probe and shift logic runs unless the stream is the `nidq` stream
      or the sync channel is loaded. */
  predicate UsesProbe(streamId: string, loadSync: bool): (b: bool)
    ensures b <==> (!loadSync && forall i | 0 <= i <= |streamId| :: !IsPrefix("nidq", streamId[i..]))
  {
    ContainsOccurrence(streamId, "nidq");
    !Contains(streamId, "nidq") && !loadSync
  }

  /** What the constructor attaches for a stream, `Ok(None)` when it
      attaches nothing; `probeFiles` maps each readable meta file to the probe
      the reader builds from it. */
  function ProbeSetup(streamId: string, loadSync: bool, signals: seq<SignalInfo>,
                      probeFiles: map<string, Probe>, numChannels: nat): (r: Result<Option<Attachment>, SpikeGLXError>)
    ensures (r == Ok(None)) <==> !UsesProbe(streamId, loadSync)
    ensures r == Err(UnknownStream(streamId)) <==> (UsesProbe(streamId, loadSync) && MetaFileOf(signals, streamId).None?)
    ensures r.Ok? && r.value.Some? ==> UsesProbe(streamId, loadSync) && MetaFileOf(signals, streamId).Some?
    ensures r.Err? ==> UsesProbe(streamId, loadSync)
    ensures UsesProbe(streamId, loadSync) && MetaFileOf(signals, streamId).Some? ==>
      var path := ProbeMetaFile(streamId, MetaFileOf(signals, streamId).value);
      ((r.Ok? && r.value.Some?) <==> (path in probeFiles && ProbeTypeKey in probeFiles[path].annotations)) &&
      (r == Err(MetaFileNotFound(path)) <==> path !in probeFiles) &&
      (r == Err(MissingProbeType(path)) <==> (path in probeFiles && ProbeTypeKey !in probeFiles[path].annotations))
    ensures r.Ok? && r.value.Some? ==>
      var path := ProbeMetaFile(streamId, MetaFileOf(signals, streamId).value);
      path in probeFiles && r.value.value.probe == probeFiles[path] && ProbeTypeKey in probeFiles[path].annotations &&
      r.value.value.shifts == SampleShifts(numChannels, ChannelsPerAdc(probeFiles[path].annotations[ProbeTypeKey]))
  {
    if !UsesProbe(streamId, loadSync) then Ok(None)
    else match MetaFileOf(signals, streamId)
      case None => Err(UnknownStream(streamId))
      case Some(meta) =>
        var path := ProbeMetaFile(streamId, meta);
        if path !in probeFiles then Err(MetaFileNotFound(path))
        else if ProbeTypeKey !in probeFiles[path].annotations then Err(MissingProbeType(path))
        else Ok(Some(Attachment(probeFiles[path],
                                SampleShifts(numChannels, ChannelsPerAdc(probeFiles[path].annotations[ProbeTypeKey])))))
  }

  /** Every channel gets exactly one shift, whenever shifts are attached. */
  lemma OneShiftPerChannel(streamId: string, loadSync: bool, signals: seq<SignalInfo>,
                           probeFiles: map<string, Probe>, numChannels: nat)
    ensures var r := ProbeSetup(streamId, loadSync, signals, probeFiles, numChannels);
            r.Ok? && r.value.Some? ==> (|r.value.value.shifts| == numChannels &&
              forall i | 0 <= i < numChannels :: 0.0 <= r.value.value.shifts[i] < 1.0)
  {
  }

  /** Neither the probe's shank ids nor anything but its type code affects
      the attached shifts. */
  lemma ShiftsIgnoreShanks(streamId: string, loadSync: bool, signals: seq<SignalInfo>,
                           probeFiles: map<string, Probe>, numChannels: nat, path: string, shanks: Option<seq<int>>)
    requires path in probeFiles
    ensures var other := probeFiles[path := probeFiles[path].(shankIds := shanks)];
            var r, r' := ProbeSetup(streamId, loadSync, signals, probeFiles, numChannels),
                         ProbeSetup(streamId, loadSync, signals, other, numChannels);
            r.Ok? == r'.Ok? &&
            (r.Ok? ==> (r.value.Some? == r'.value.Some? &&
               (r.value.Some? ==> r.value.value.shifts == r'.value.value.shifts)))
  {
  }

  // ------------------------------------------------------- the extractor

  /** Values of the `_kwargs` dictionary that the model writes. */
  datatype Kwarg = KwStr(s: string) | KwBool(b: bool)

  /** How `set_probe` groups channels. */
  datatype GroupMode = ByProbe | ByShank

  /** The extractor state the constructor touches; the channel count and the
      resolved stream id come from the parser base class. */
  class SpikeGLXRecordingExtractor {
    const streamId: string
    const numChannels: nat
    var probe: Option<Probe>
    var groupMode: GroupMode
    var properties: map<string, seq<real>>
    var kwargs: map<string, Kwarg>

    /** The state left by the parser base class's constructor: the stream id,
        channel count, properties and keyword arguments it set up are
        parameters, and no probe is attached yet. */
    constructor (streamId: string, numChannels: nat, baseProperties: map<string, seq<real>>, baseKwargs: map<string, Kwarg>)
      ensures this.streamId == streamId && this.numChannels == numChannels
      ensures probe == None && groupMode == ByProbe && properties == baseProperties && kwargs == baseKwargs
    {
      this.streamId := streamId;
      this.numChannels := numChannels;
      probe := None;
      groupMode := ByProbe;
      properties := baseProperties;
      kwargs := baseKwargs;
    }

    /** `set_probe(probe, in_place=True, group_mode=...)`. */
    method SetProbe(p: Probe, mode: GroupMode)
      modifies this
      ensures probe == Some(p) && groupMode == mode
      ensures properties == old(properties) && kwargs == old(kwargs)
    {
      probe := Some(p);
      groupMode := mode;
    }

    /** `set_property(key, values)`. */
    method SetProperty(key: string, values: seq<real>)
      modifies this
      ensures properties == old(properties)[key := values]
      ensures probe == old(probe) && groupMode == old(groupMode) && kwargs == old(kwargs)
    {
      properties := properties[key := values];
    }

    /** The body of `SpikeGLXRecordingExtractor.__init__` after the base
        class's constructor.  An error stands for the exception raised, with
        the state changes made up to that point. */
    method AttachMetadata(folderPath: string, loadSync: bool, signals: seq<SignalInfo>, probeFiles: map<string, Probe>)
      returns (err: Option<SpikeGLXError>)
      modifies this
      ensures var plan := ProbeSetup(streamId, loadSync, signals, probeFiles, numChannels);
        match plan
        case Ok(None) =>
          err == None && probe == old(probe) && groupMode == old(groupMode) && properties == old(properties) &&
          kwargs == old(kwargs)["folder_path" := KwStr(folderPath)]["load_sync_channel" := KwBool(loadSync)]
        case Ok(Some(a)) =>
          err == None && probe == Some(a.probe) && groupMode == ByProbe &&
          properties == old(properties)["inter_sample_shift" := a.shifts] &&
          kwargs == old(kwargs)["folder_path" := KwStr(folderPath)]["load_sync_channel" := KwBool(loadSync)]
        case Err(MissingProbeType(path)) =>
          err == Some(MissingProbeType(path)) && path in probeFiles && probe == Some(probeFiles[path]) &&
          groupMode == ByProbe && properties == old(properties) && kwargs == old(kwargs)
        case Err(e) =>
          err == Some(e) && probe == old(probe) && groupMode == old(groupMode) &&
          properties == old(properties) && kwargs == old(kwargs)
    {
      if !Contains(streamId, "nidq") && !loadSync {
        var table := StreamTable(signals);
        if streamId !in table {
          return Some(UnknownStream(streamId));
        }
        var metaFilename := table[streamId].metaFile;
        if Contains(streamId, "lf") {
          metaFilename := Replace(metaFilename, ".lf", ".ap");
        }
        if metaFilename !in probeFiles {
          return Some(MetaFileNotFound(metaFilename));
        }
        var p := probeFiles[metaFilename];
        if p.shankIds.Some? {
          SetProbe(p, ByShank);
        } else {
          SetProbe(p, ByProbe);
        }
        SetProbe(p, ByProbe);
        if ProbeTypeKey !in p.annotations {
          return Some(MissingProbeType(metaFilename));
        }
        var probeType := p.annotations[ProbeTypeKey];
        var perAdc;
        if probeType == 2 {
          perAdc := 16;
        } else {
          perAdc := 12;
        }
        var shifts := SampleShifts(numChannels, perAdc);
        SetProperty("inter_sample_shift", shifts);
      }
      kwargs := kwargs["folder_path" := KwStr(folderPath)]["load_sync_channel" := KwBool(loadSync)];
      err := None;
    }
  }
}
