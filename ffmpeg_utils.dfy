/**
 * ffmpeg_utils.py: building ffmpeg's argument list from a configuration,
 * and reading the encoder names out of the text `ffmpeg -encoders` prints.
 * Running ffmpeg itself is not modelled: its captured output is an input.
 */
module FfmpegUtils {
  import opened Wrappers
  import opened PyStr
  import opened PySorted
  import opened Config

  // ---------------------------------------------------------------------
  // build_ffmpeg_args
  // ---------------------------------------------------------------------

  /** A configuration: setting key to chosen value, as parsed from JSON. */
  type Options = map<string, string>

  /** Subscripting a key that is not there raises KeyError naming it. */
  datatype ConfigError = MissingKey(key: string)

  /** Video encoders given both a quality (CRF) and a speed (preset) flag. */
  const PresetEncoders: seq<string> := ["libx264", "libx265"]

  /** Video encoders given a quality (CRF) flag only. */
  const CrfOnlyEncoders: seq<string> := ["libvpx-vp9", "libsvtav1"]

  /** Every flag the builder can emit. */
  const Flags: set<string> := {"-i", "-c:v", "-crf", "-preset", "-an", "-c:a", "-map_metadata", "-y", "-n"}

  /** The keys the quality flags of video encoder `v` read, in order. */
  function QualityKeys(v: string): seq<string>
  {
    if v in PresetEncoders then ["crf", "preset"]
    else if v in CrfOnlyEncoders then ["crf"]
    else []
  }

  /** The keys the builder subscripts (rather than reads with `.get`), in the order it reads them. */
  function KeysRead(cfg: Options): (r: seq<string>)
    ensures |r| >= 3 && r[0] == "video_encoder" && r[|r| - 2..] == ["audio_encoder", "on_conflict"]
    ensures "crf" in r <==> ("video_encoder" in cfg
      && (cfg["video_encoder"] in PresetEncoders || cfg["video_encoder"] in CrfOnlyEncoders))
    ensures "preset" in r <==> "video_encoder" in cfg && cfg["video_encoder"] in PresetEncoders
  {
    ["video_encoder"]
    + (if "video_encoder" in cfg then QualityKeys(cfg["video_encoder"]) else [])
    + ["audio_encoder", "on_conflict"]
  }

  /** Position of the first of `keys` that `cfg` lacks. */
  function FirstMissing(keys: seq<string>, cfg: Options): (r: Option<nat>)
    ensures r.None? <==> forall i :: 0 <= i < |keys| ==> keys[i] in cfg
    ensures r.Some? ==> r.value < |keys| && keys[r.value] !in cfg
    ensures r.Some? ==> forall j :: 0 <= j < r.value ==> keys[j] in cfg
  {
    if keys == [] then None
    else if keys[0] !in cfg then Some(0)
    else
      match FirstMissing(keys[1..], cfg)
      case None =>
        assert forall i :: 1 <= i < |keys| ==> keys[i] == keys[1..][i - 1];
        None
      case Some(i) =>
        assert forall j :: 1 <= j <= i ==> keys[j] == keys[1..][j - 1];
        Some(i + 1)
  }

  lemma {:induction false} FirstMissingAt(keys: seq<string>, cfg: Options, i: nat)
    requires i < |keys| && keys[i] !in cfg
    requires forall j :: 0 <= j < i ==> keys[j] in cfg
    ensures FirstMissing(keys, cfg) == Some(i)
  {
  }

  predicate PreserveMetadata(cfg: Options)
  {
    "preserve_metadata" in cfg && cfg["preserve_metadata"] == "Yes"
  }

  /** Number of arguments the quality flags of encoder `v` take. */
  function QualityLength(v: string): nat
  {
    if v in PresetEncoders then 4 else if v in CrfOnlyEncoders then 2 else 0
  }

  function AudioLength(audio: string): nat
  {
    if audio == "None" then 1 else 2
  }

  function MetadataLength(cfg: Options): nat
  {
    if PreserveMetadata(cfg) then 2 else 0
  }

  function QualityFlags(v: string, cfg: Options): (r: seq<string>)
    requires forall k :: k in QualityKeys(v) ==> k in cfg
    ensures |r| == QualityLength(v)
  {
    if v in PresetEncoders then ["-crf", cfg["crf"], "-preset", cfg["preset"]]
    else if v in CrfOnlyEncoders then ["-crf", cfg["crf"]]
    else []
  }

  function AudioFlags(audio: string): (r: seq<string>)
    ensures |r| == AudioLength(audio)
  {
    if audio == "None" then ["-an"] else ["-c:a", audio]
  }

  function MetadataFlags(cfg: Options): (r: seq<string>)
    ensures |r| == MetadataLength(cfg)
  {
    if PreserveMetadata(cfg) then ["-map_metadata", "0"] else []
  }

  /** "-y" overwrites an existing output; "Skip" and "Rename" both give "-n". */
  function ConflictFlag(onConflict: string): (r: string)
    ensures r == "-y" || r == "-n"
    ensures r == "-y" <==> onConflict == "Overwrite"
  {
    if onConflict == "Overwrite" then "-y" else "-n"
  }

  /**
   * The argument list for `ffmpeg`, or the first key whose absence makes
   * the builder fail: a key it names is absent, and on success every key
   * it subscripted is present (ArgsErrors says exactly when it fails).
   */
  function Args(inPath: string, outPath: string, cfg: Options): (r: Result<seq<string>, ConfigError>)
    ensures r.Err? ==> r.error.key !in cfg
    ensures r.Ok? ==> "video_encoder" in cfg && "audio_encoder" in cfg && "on_conflict" in cfg
    ensures r.Ok? ==> forall k :: k in QualityKeys(cfg["video_encoder"]) ==> k in cfg
  {
    var keys := KeysRead(cfg);
    match FirstMissing(keys, cfg)
    case Some(i) => Err(MissingKey(keys[i]))
    case None =>
      assert keys[0] == "video_encoder";
      var v := cfg["video_encoder"];
      assert forall k :: k in QualityKeys(v) ==> k in cfg by {
        assert forall i :: 0 <= i < |QualityKeys(v)| ==> QualityKeys(v)[i] == keys[1 + i];
      }
      assert keys[|keys| - 2] == "audio_encoder" && keys[|keys| - 1] == "on_conflict";
      Ok(["-i", inPath, "-c:v", v] + QualityFlags(v, cfg) + AudioFlags(cfg["audio_encoder"])
         + MetadataFlags(cfg) + [ConflictFlag(cfg["on_conflict"]), outPath])
  }

  /**
   * The builder fails exactly when a key it subscripts is absent, and then
   * names the first absent one in the order it reads them.
   */
  lemma {:induction false} ArgsErrors(inPath: string, outPath: string, cfg: Options)
    ensures var r, keys := Args(inPath, outPath, cfg), KeysRead(cfg);
      && (r.Err? <==> exists i :: 0 <= i < |keys| && keys[i] !in cfg)
      && (r.Err? ==> exists i :: (0 <= i < |keys| && keys[i] == r.error.key
                                  && forall j :: 0 <= j < i ==> keys[j] in cfg))
  {
  }

  lemma {:induction false} ArgsFailsAt(inPath: string, outPath: string, cfg: Options, i: nat)
    requires i < |KeysRead(cfg)| && KeysRead(cfg)[i] !in cfg
    requires forall j :: 0 <= j < i ==> KeysRead(cfg)[j] in cfg
    ensures Args(inPath, outPath, cfg) == Err(MissingKey(KeysRead(cfg)[i]))
  {
    FirstMissingAt(KeysRead(cfg), cfg, i);
  }

  /** Each key the builder subscripts fails it when absent and every key before it is present. */
  lemma {:induction false} ArgsMissing(inPath: string, outPath: string, cfg: Options, k: string)
    requires k !in cfg
    requires k == "video_encoder"
      || ("video_encoder" in cfg && k in QualityKeys(cfg["video_encoder"])
          && (k == "preset" ==> "crf" in cfg))
      || ("video_encoder" in cfg && (forall q :: q in QualityKeys(cfg["video_encoder"]) ==> q in cfg)
          && (k == "audio_encoder" || ("audio_encoder" in cfg && k == "on_conflict")))
    ensures Args(inPath, outPath, cfg) == Err(MissingKey(k))
  {
    var keys := KeysRead(cfg);
    if k == "video_encoder" {
      ArgsFailsAt(inPath, outPath, cfg, 0);
    } else {
      var q := QualityKeys(cfg["video_encoder"]);
      assert keys == ["video_encoder"] + q + ["audio_encoder", "on_conflict"];
      if k in q {
        if k == "crf" {
          ArgsFailsAt(inPath, outPath, cfg, 1);
        } else {
          ArgsFailsAt(inPath, outPath, cfg, 2);
        }
      } else if k == "audio_encoder" {
        ArgsFailsAt(inPath, outPath, cfg, |keys| - 2);
      } else {
        ArgsFailsAt(inPath, outPath, cfg, |keys| - 1);
      }
    }
  }

  lemma {:induction false} ArgsSucceeds(inPath: string, outPath: string, cfg: Options)
    requires "video_encoder" in cfg
    requires forall k :: k in QualityKeys(cfg["video_encoder"]) ==> k in cfg
    requires "audio_encoder" in cfg && "on_conflict" in cfg
    ensures Args(inPath, outPath, cfg)
      == Ok(["-i", inPath, "-c:v", cfg["video_encoder"]] + QualityFlags(cfg["video_encoder"], cfg)
            + AudioFlags(cfg["audio_encoder"]) + MetadataFlags(cfg)
            + [ConflictFlag(cfg["on_conflict"]), outPath])
  {
    var keys := KeysRead(cfg);
    assert forall j :: 0 <= j < |keys| ==> keys[j] in cfg;
  }

  /**
   * `build_ffmpeg_args`: grows the argument list the way the source does,
   * stopping at the first missing key as the KeyError would.
   */
  method BuildFfmpegArgs(inPath: string, outPath: string, cfg: Options) returns (res: Result<seq<string>, ConfigError>)
    ensures res == Args(inPath, outPath, cfg)
  {
    var args := ["-i", inPath];

    if "video_encoder" !in cfg {
      ArgsMissing(inPath, outPath, cfg, "video_encoder");
      return Err(MissingKey("video_encoder"));
    }
    var video := cfg["video_encoder"];
    args := args + ["-c:v", video];
    if video in PresetEncoders {
      if "crf" !in cfg {
        ArgsMissing(inPath, outPath, cfg, "crf");
        return Err(MissingKey("crf"));
      }
      if "preset" !in cfg {
        ArgsMissing(inPath, outPath, cfg, "preset");
        return Err(MissingKey("preset"));
      }
      args := args + ["-crf", cfg["crf"], "-preset", cfg["preset"]];
    } else if video in CrfOnlyEncoders {
      if "crf" !in cfg {
        ArgsMissing(inPath, outPath, cfg, "crf");
        return Err(MissingKey("crf"));
      }
      args := args + ["-crf", cfg["crf"]];
    }
    assert args == ["-i", inPath, "-c:v", video] + QualityFlags(video, cfg);

    if "audio_encoder" !in cfg {
      ArgsMissing(inPath, outPath, cfg, "audio_encoder");
      return Err(MissingKey("audio_encoder"));
    }
    if cfg["audio_encoder"] == "None" {
      args := args + ["-an"];
    } else {
      args := args + ["-c:a", cfg["audio_encoder"]];
    }

    assert args == ["-i", inPath, "-c:v", video] + QualityFlags(video, cfg) + AudioFlags(cfg["audio_encoder"]);

    if "preserve_metadata" in cfg && cfg["preserve_metadata"] == "Yes" {
      args := args + ["-map_metadata", "0"];
    }
    ghost var head := ["-i", inPath, "-c:v", video] + QualityFlags(video, cfg) + AudioFlags(cfg["audio_encoder"])
                      + MetadataFlags(cfg);
    assert args == head;

    if "on_conflict" !in cfg {
      ArgsMissing(inPath, outPath, cfg, "on_conflict");
      return Err(MissingKey("on_conflict"));
    }
    if cfg["on_conflict"] == "Overwrite" {
      args := args + ["-y"];
    } else {
      args := args + ["-n"];
    }

    args := args + [outPath];
    assert args == head + [ConflictFlag(cfg["on_conflict"]), outPath];
    ArgsSucceeds(inPath, outPath, cfg);
    return Ok(args);
  }

  /** On success every key the builder subscripts is present, and the list is its seven parts in order. */
  lemma {:induction false} ArgsOk(inPath: string, outPath: string, cfg: Options)
    requires Args(inPath, outPath, cfg).Ok?
    ensures forall k :: k in QualityKeys(cfg["video_encoder"]) ==> k in cfg
    ensures Args(inPath, outPath, cfg).value
      == ["-i", inPath, "-c:v", cfg["video_encoder"]] + QualityFlags(cfg["video_encoder"], cfg)
         + AudioFlags(cfg["audio_encoder"]) + MetadataFlags(cfg)
         + [ConflictFlag(cfg["on_conflict"]), outPath]
  {
    var keys := KeysRead(cfg);
    var q := QualityKeys(cfg["video_encoder"]);
    assert forall i :: 0 <= i < |q| ==> q[i] == keys[1 + i];
    ArgsSucceeds(inPath, outPath, cfg);
  }

  /** A successful list starts with the input and the video codec and ends with the output path. */
  lemma {:induction false} ArgsEnds(inPath: string, outPath: string, cfg: Options)
    requires Args(inPath, outPath, cfg).Ok?
    ensures var a := Args(inPath, outPath, cfg).value;
      |a| >= 7 && a[..4] == ["-i", inPath, "-c:v", cfg["video_encoder"]] && a[|a| - 1] == outPath
  {
    ArgsOk(inPath, outPath, cfg);
    ArgsLength(inPath, outPath, cfg);
  }

  /**
   * After "-i in -c:v encoder": "-crf crf -preset preset" for libx264 and
   * libx265, "-crf crf" for libvpx-vp9 and libsvtav1, and for any other
   * encoder neither; the audio flag comes next.
   */
  lemma {:induction false} ArgsQualityFlags(inPath: string, outPath: string, cfg: Options)
    requires Args(inPath, outPath, cfg).Ok?
    ensures var a, v := Args(inPath, outPath, cfg).value, cfg["video_encoder"];
      && (v in PresetEncoders ==> a[4..8] == ["-crf", cfg["crf"], "-preset", cfg["preset"]] && a[8] in {"-an", "-c:a"})
      && (v in CrfOnlyEncoders ==> a[4..6] == ["-crf", cfg["crf"]] && a[6] in {"-an", "-c:a"})
      && (v !in PresetEncoders && v !in CrfOnlyEncoders ==> a[4] in {"-an", "-c:a"})
  {
    ArgsOk(inPath, outPath, cfg);
    var a, v := Args(inPath, outPath, cfg).value, cfg["video_encoder"];
    var q, au := QualityFlags(v, cfg), AudioFlags(cfg["audio_encoder"]);
    var rest := au + MetadataFlags(cfg) + [ConflictFlag(cfg["on_conflict"]), outPath];
    assert a == ["-i", inPath, "-c:v", v] + q + rest;
    assert a[4..4 + |q|] == q && a[4 + |q|] == rest[0] == au[0];
  }

  /** Exactly one audio choice: "-an" alone for "None", else "-c:a encoder". */
  lemma {:induction false} ArgsAudioFlags(inPath: string, outPath: string, cfg: Options)
    requires Args(inPath, outPath, cfg).Ok?
    ensures var a, au := Args(inPath, outPath, cfg).value, cfg["audio_encoder"];
      var p := 4 + QualityLength(cfg["video_encoder"]);
      && (au == "None" ==> a[p] == "-an" && a[p + 1] in {"-map_metadata", "-y", "-n"})
      && (au != "None" ==> a[p..p + 2] == ["-c:a", au] && a[p + 2] in {"-map_metadata", "-y", "-n"})
  {
    ArgsOk(inPath, outPath, cfg);
  }

  /** "-map_metadata 0" follows the audio flags when, and only when, preserve_metadata is "Yes". */
  lemma {:induction false} ArgsMetadataFlags(inPath: string, outPath: string, cfg: Options)
    requires Args(inPath, outPath, cfg).Ok?
    ensures var a := Args(inPath, outPath, cfg).value;
      var m := 4 + QualityLength(cfg["video_encoder"]) + AudioLength(cfg["audio_encoder"]);
      && (PreserveMetadata(cfg) ==> a[m..m + 2] == ["-map_metadata", "0"])
      && (!PreserveMetadata(cfg) ==> m == |a| - 2)
  {
    ArgsOk(inPath, outPath, cfg);
  }

  /** The second-to-last argument is "-y" exactly for "Overwrite" and "-n" otherwise. */
  lemma {:induction false} ArgsConflictFlag(inPath: string, outPath: string, cfg: Options)
    requires Args(inPath, outPath, cfg).Ok?
    ensures var a := Args(inPath, outPath, cfg).value;
      && (a[|a| - 2] == "-y" <==> cfg["on_conflict"] == "Overwrite")
      && (a[|a| - 2] == "-n" <==> cfg["on_conflict"] != "Overwrite")
  {
    ArgsOk(inPath, outPath, cfg);
  }

  /** 4, then 4, 2 or 0 quality arguments, 1 or 2 audio, 2 or 0 metadata, the conflict flag and the output. */
  lemma {:induction false} ArgsLength(inPath: string, outPath: string, cfg: Options)
    requires Args(inPath, outPath, cfg).Ok?
    ensures |Args(inPath, outPath, cfg).value|
      == 4 + QualityLength(cfg["video_encoder"]) + AudioLength(cfg["audio_encoder"]) + MetadataLength(cfg) + 1 + 1
  {
    ArgsOk(inPath, outPath, cfg);
  }

  /** Neither path, nor the value of any key the builder subscripts, is itself one of its flags. */
  predicate NoFlagSupplied(inPath: string, outPath: string, cfg: Options)
  {
    inPath !in Flags && outPath !in Flags && forall k :: k in KeysRead(cfg) && k in cfg ==> cfg[k] !in Flags
  }

  lemma {:induction false} ArgsFlagSegments(inPath: string, outPath: string, cfg: Options, f: string)
    requires Args(inPath, outPath, cfg).Ok?
    requires NoFlagSupplied(inPath, outPath, cfg)
    requires f in Flags && f != "-i" && f != "-c:v"
    ensures var v := cfg["video_encoder"];
      f in Args(inPath, outPath, cfg).value <==>
        || (f == "-crf" && (v in PresetEncoders || v in CrfOnlyEncoders))
        || (f == "-preset" && v in PresetEncoders)
        || f in AudioFlags(cfg["audio_encoder"])
        || f in MetadataFlags(cfg)
        || f == ConflictFlag(cfg["on_conflict"])
  {
    ArgsOk(inPath, outPath, cfg);
    var v := cfg["video_encoder"];
    assert v !in Flags;
    if v in PresetEncoders {
      assert cfg["crf"] !in Flags && cfg["preset"] !in Flags;
    } else if v in CrfOnlyEncoders {
      assert cfg["crf"] !in Flags;
    }
  }

  /**
   * When no supplied string looks like a flag, "-crf" is present exactly
   * for the encoders given a quality flag, and "-preset" exactly for
   * libx264 and libx265.
   */
  lemma {:induction false} ArgsQualityFlagPresence(inPath: string, outPath: string, cfg: Options)
    requires Args(inPath, outPath, cfg).Ok?
    requires NoFlagSupplied(inPath, outPath, cfg)
    ensures var a, v := Args(inPath, outPath, cfg).value, cfg["video_encoder"];
      && ("-crf" in a <==> v in PresetEncoders || v in CrfOnlyEncoders)
      && ("-preset" in a <==> v in PresetEncoders)
  {
    assert cfg["audio_encoder"] !in Flags;
    ArgsFlagSegments(inPath, outPath, cfg, "-crf");
    ArgsFlagSegments(inPath, outPath, cfg, "-preset");
  }

  /** Under the same hypothesis, exactly one of "-an" and "-c:a" is present, as the audio choice says. */
  lemma {:induction false} ArgsAudioFlagPresence(inPath: string, outPath: string, cfg: Options)
    requires Args(inPath, outPath, cfg).Ok?
    requires NoFlagSupplied(inPath, outPath, cfg)
    ensures var a := Args(inPath, outPath, cfg).value;
      && ("-an" in a <==> cfg["audio_encoder"] == "None")
      && ("-c:a" in a <==> cfg["audio_encoder"] != "None")
  {
    assert cfg["audio_encoder"] !in Flags;
    ArgsFlagSegments(inPath, outPath, cfg, "-an");
    ArgsFlagSegments(inPath, outPath, cfg, "-c:a");
  }

  /**
   * Under the same hypothesis, "-map_metadata" is present exactly when
   * metadata is preserved, and exactly one of "-y" and "-n" is, as
   * on_conflict says.
   */
  lemma {:induction false} ArgsOutputFlagPresence(inPath: string, outPath: string, cfg: Options)
    requires Args(inPath, outPath, cfg).Ok?
    requires NoFlagSupplied(inPath, outPath, cfg)
    ensures var a := Args(inPath, outPath, cfg).value;
      && ("-map_metadata" in a <==> PreserveMetadata(cfg))
      && ("-y" in a <==> cfg["on_conflict"] == "Overwrite")
      && ("-n" in a <==> cfg["on_conflict"] != "Overwrite")
  {
    assert cfg["audio_encoder"] !in Flags;
    ArgsFlagSegments(inPath, outPath, cfg, "-map_metadata");
    ArgsFlagSegments(inPath, outPath, cfg, "-y");
    ArgsFlagSegments(inPath, outPath, cfg, "-n");
  }

  /** libx264 with CRF 30, preset fast, audio copied, metadata kept, overwrite on. */
  lemma ArgsExample()
    ensures Args("in.mp4", "out.mp4",
                 map["video_encoder" := "libx264", "crf" := "30", "preset" := "fast",
                     "audio_encoder" := "copy", "on_conflict" := "Overwrite", "preserve_metadata" := "Yes"])
      == Ok(["-i", "in.mp4", "-c:v", "libx264", "-crf", "30", "-preset", "fast",
             "-c:a", "copy", "-map_metadata", "0", "-y", "out.mp4"])
  {
    var cfg := map["video_encoder" := "libx264", "crf" := "30", "preset" := "fast",
                   "audio_encoder" := "copy", "on_conflict" := "Overwrite", "preserve_metadata" := "Yes"];
    assert cfg["video_encoder"] == "libx264" && "libx264" in PresetEncoders;
    assert QualityFlags("libx264", cfg) == ["-crf", "30", "-preset", "fast"];
    assert PreserveMetadata(cfg);
    assert cfg["audio_encoder"] == "copy" && cfg["on_conflict"] == "Overwrite";
    ArgsSucceeds("in.mp4", "out.mp4", cfg);
    assert ["-i", "in.mp4", "-c:v", "libx264"] + ["-crf", "30", "-preset", "fast"] + ["-c:a", "copy"]
           + ["-map_metadata", "0"] + ["-y", "out.mp4"]
        == ["-i", "in.mp4", "-c:v", "libx264", "-crf", "30", "-preset", "fast",
            "-c:a", "copy", "-map_metadata", "0", "-y", "out.mp4"];
  }

  /** libx264 without a CRF value fails on "crf", although "preset" is missing too. */
  lemma ArgsMissingCrf()
    ensures Args("in.mp4", "out.mp4",
                 map["video_encoder" := "libx264", "audio_encoder" := "None", "on_conflict" := "Skip"])
      == Err(MissingKey("crf"))
  {
    var cfg := map["video_encoder" := "libx264", "audio_encoder" := "None", "on_conflict" := "Skip"];
    ArgsFailsAt("in.mp4", "out.mp4", cfg, 1);
  }

  /** A passthrough encoder needs neither "crf" nor "preset"; "Rename" gives "-n". */
  lemma ArgsCopyRename()
    ensures Args("a.mkv", "b.mkv",
                 map["video_encoder" := "copy", "audio_encoder" := "None", "on_conflict" := "Rename"])
      == Ok(["-i", "a.mkv", "-c:v", "copy", "-an", "-n", "b.mkv"])
  {
    var cfg := map["video_encoder" := "copy", "audio_encoder" := "None", "on_conflict" := "Rename"];
    assert cfg["video_encoder"] == "copy" && QualityKeys("copy") == [];
    assert QualityFlags("copy", cfg) == [];
    assert !PreserveMetadata(cfg);
    assert cfg["audio_encoder"] == "None" && cfg["on_conflict"] == "Rename";
    ArgsSucceeds("a.mkv", "b.mkv", cfg);
    assert ["-i", "a.mkv", "-c:v", "copy"] + [] + ["-an"] + [] + ["-n", "b.mkv"]
        == ["-i", "a.mkv", "-c:v", "copy", "-an", "-n", "b.mkv"];
  }

  // ---------------------------------------------------------------------
  // get_available_encoders
  // ---------------------------------------------------------------------

  /** A line holding this marks the end of the header of `ffmpeg -encoders`. */
  const Separator: string := "-------"

  /**
   * Where the encoder table starts: just after the first line that holds
   * the separator, or at line 0 when no line does.
   */
  function ListStart(lines: seq<string>): (start: nat)
    ensures start <= |lines|
    ensures start == 0 <==> forall i :: 0 <= i < |lines| ==> !Contains(lines[i], Separator)
    ensures start > 0 ==> Contains(lines[start - 1], Separator)
    ensures forall i :: 0 <= i < start - 1 ==> !Contains(lines[i], Separator)
  {
    if lines == [] then 0
    else if Contains(lines[0], Separator) then 1
    else
      var s := ListStart(lines[1..]);
      assert forall i :: 1 <= i < |lines| ==> lines[i] == lines[1..][i - 1];
      if s == 0 then 0 else s + 1
  }

  /** The first loop of `get_available_encoders`. */
  method FindListStart(lines: seq<string>) returns (start: nat)
    ensures start == ListStart(lines)
  {
    start := 0;
    for i := 0 to |lines|
      invariant start == 0
      invariant forall j :: 0 <= j < i ==> !Contains(lines[j], Separator)
    {
      if Contains(lines[i], Separator) {
        start := i + 1;
        break;
      }
    }
  }

  /** The name column of a line: its second whitespace-separated word, if it has one. */
  function EncoderName(line: string): (r: Option<string>)
    ensures AllSpace(line) ==> r.None?
    ensures r.Some? ==> r.value != [] && NoSpace(r.value)
  {
    SplitWords(line);
    var parts := Split(line);
    if |parts| > 1 then Some(parts[1]) else None
  }

  /**
   * The source strips the line, skips it when nothing is left, and splits
   * what is left; that is the same as EncoderName. A blank line names
   * nothing, and a name is a non-empty word without whitespace.
   */
  lemma {:induction false} EncoderNameAsWritten(line: string)
    ensures EncoderName(line)
      == if Strip(line) == [] then None
         else var parts := Split(Strip(line)); if |parts| > 1 then Some(parts[1]) else None
    ensures AllSpace(line) ==> EncoderName(line).None?
    ensures EncoderName(line).Some? ==> EncoderName(line).value != [] && NoSpace(EncoderName(line).value)
  {
    SplitStrip(line);
    SplitWords(line);
  }

  /** Some line of `lines` names encoder `e`. */
  predicate Listed(lines: seq<string>, e: string)
  {
    lines != [] && (Listed(lines[..|lines| - 1], e) || EncoderName(lines[|lines| - 1]) == Some(e))
  }

  lemma {:induction false} ListedAt(lines: seq<string>, e: string)
    ensures Listed(lines, e) <==> exists i :: 0 <= i < |lines| && EncoderName(lines[i]) == Some(e)
  {
    if lines != [] {
      var init := lines[..|lines| - 1];
      ListedAt(init, e);
      assert forall i :: 0 <= i < |init| ==> init[i] == lines[i];
    }
  }

  /** What a line naming `nm` adds to the video list. */
  function VideoPart(nm: Option<string>): seq<string>
  {
    if nm.Some? && nm.value in SupportedVideoEncoders then [nm.value] else []
  }

  /** What a line naming `nm` adds to the audio list (a video name is never one). */
  function AudioPart(nm: Option<string>): seq<string>
  {
    if nm.Some? && nm.value !in SupportedVideoEncoders && nm.value in SupportedAudioEncoders then [nm.value] else []
  }

  function VideoOf(line: string): seq<string>
  {
    VideoPart(EncoderName(line))
  }

  function AudioOf(line: string): seq<string>
  {
    AudioPart(EncoderName(line))
  }

  /** The video encoders the second loop appends, in line order. */
  function VideoFound(lines: seq<string>): seq<string>
  {
    if lines == [] then [] else VideoFound(lines[..|lines| - 1]) + VideoOf(lines[|lines| - 1])
  }

  /** The audio encoders the second loop appends, in line order. */
  function AudioFound(lines: seq<string>): seq<string>
  {
    if lines == [] then [] else AudioFound(lines[..|lines| - 1]) + AudioOf(lines[|lines| - 1])
  }

  /** The video list holds exactly the supported video encoders some line names. */
  lemma {:induction false} VideoFoundMembers(lines: seq<string>)
    ensures forall e :: e in VideoFound(lines) <==> e in SupportedVideoEncoders && Listed(lines, e)
  {
    if lines != [] {
      VideoFoundMembers(lines[..|lines| - 1]);
    }
  }

  /** The audio list holds exactly the supported audio encoders, not video ones, some line names. */
  lemma {:induction false} AudioFoundMembers(lines: seq<string>)
    ensures forall e :: e in AudioFound(lines) <==>
      e !in SupportedVideoEncoders && e in SupportedAudioEncoders && Listed(lines, e)
  {
    if lines != [] {
      AudioFoundMembers(lines[..|lines| - 1]);
    }
  }

  /** Taking one more line appends what that line adds, after the seeded entries `pv` and `pa`. */
  lemma {:induction false} FoundStep(done: seq<string>, line: string, pv: seq<string>, pa: seq<string>)
    ensures pv + VideoFound(done + [line]) == (pv + VideoFound(done)) + VideoOf(line)
    ensures pa + AudioFound(done + [line]) == (pa + AudioFound(done)) + AudioOf(line)
  {
    assert (done + [line])[..|done|] == done;
  }

  /** One pass of the second loop: the line is stripped, split, and its name filed. */
  method AddEncoder(video: seq<string>, audio: seq<string>, line: string)
    returns (video': seq<string>, audio': seq<string>)
    ensures video' == video + VideoOf(line)
    ensures audio' == audio + AudioOf(line)
  {
    video', audio' := video, audio;
    var stripped := Strip(line);
    SplitStrip(line);
    if stripped == [] {
      SplitWords(line);
      assert EncoderName(line) == None;
      return;
    }
    var parts := Split(stripped);
    if |parts| > 1 {
      var name := parts[1];
      assert EncoderName(line) == Some(name);
      if name in SupportedVideoEncoders {
        video' := video + [name];
      } else if name in SupportedAudioEncoders {
        audio' := audio + [name];
      }
    } else {
      assert EncoderName(line) == None;
    }
  }

  /** The second loop of `get_available_encoders`, from the seeded lists on. */
  method CollectEncoders(lines: seq<string>, start: nat) returns (video: seq<string>, audio: seq<string>)
    requires start <= |lines|
    ensures video == ["copy"] + VideoFound(lines[start..])
    ensures audio == ["None", "copy"] + AudioFound(lines[start..])
  {
    video := ["copy"];
    audio := ["None", "copy"];
    var i := start;
    ghost var done: seq<string> := [];
    while i < |lines|
      invariant start <= i <= |lines|
      invariant done == lines[start..i]
      invariant video == ["copy"] + VideoFound(done)
      invariant audio == ["None", "copy"] + AudioFound(done)
    {
      FoundStep(done, lines[i], ["copy"], ["None", "copy"]);
      video, audio := AddEncoder(video, audio, lines[i]);
      done := done + [lines[i]];
      i := i + 1;
    }
    assert done == lines[start..];
  }

  /** Encoder names found, sorted and without duplicates. */
  datatype EncoderLists = EncoderLists(video: seq<string>, audio: seq<string>)

  /**
   * `get_available_encoders`, given what `ffmpeg -encoders` printed, or
   * None when ffmpeg could not be run or failed (the source's
   * `(None, None)`). Both lists come out strictly increasing, so without
   * duplicates; "copy" is always a video choice, "None" and "copy" always
   * audio choices, and otherwise exactly the supported encoders that the
   * table after the header names.
   */
  method GetAvailableEncoders(toolOutput: Option<string>) returns (res: Option<EncoderLists>)
    ensures toolOutput.None? <==> res.None?
    ensures res.Some? ==>
      var lines := SplitLines(toolOutput.value);
      var table := lines[ListStart(lines)..];
      && StrictlySorted(res.value.video) && StrictlySorted(res.value.audio)
      && (forall i, j :: 0 <= i < j < |res.value.video| ==> res.value.video[i] != res.value.video[j])
      && (forall i, j :: 0 <= i < j < |res.value.audio| ==> res.value.audio[i] != res.value.audio[j])
      && (forall e :: e in res.value.video <==>
            e == "copy" || (e in SupportedVideoEncoders && Listed(table, e)))
      && (forall e :: e in res.value.audio <==>
            e == "None" || e == "copy"
            || (e !in SupportedVideoEncoders && e in SupportedAudioEncoders && Listed(table, e)))
  {
    if toolOutput.None? {
      return None;
    }
    var lines := SplitLines(toolOutput.value);
    var start := FindListStart(lines);
    var video, audio := CollectEncoders(lines, start);
    VideoFoundMembers(lines[start..]);
    AudioFoundMembers(lines[start..]);
    var lists := EncoderLists(SortedSet(video), SortedSet(audio));
    StrictlySortedDistinct(lists.video);
    StrictlySortedDistinct(lists.audio);
    return Some(lists);
  }
}
