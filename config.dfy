/**
 * config.py: the static encoder tables, the settings catalog shown by the
 * terminal UI, and the filter that hides the quality settings an encoder
 * does not use.
 */
module Config {
  import opened Wrappers

  /** Video encoders looked for in ffmpeg's encoder list. */
  const SupportedVideoEncoders: seq<string> :=
    ["libx264", "libx265", "libvpx-vp9", "librav1e", "libsvtav1"]

  /** Audio encoders looked for in ffmpeg's encoder list. */
  const SupportedAudioEncoders: seq<string> := ["aac", "libopus", "libvorbis"]

  /** One setting of the UI: its label, its choices, the chosen one, and its key. */
  datatype Setting = Setting(name: string, opts: seq<string>, focusedOption: int, key: string)

  const VideoEncoderName: string := "Video Encoder"
  const PresetName: string := "Preset"
  const CrfName: string := "Constant Rate Factor (CRF)"

  /** The catalog as the program starts with it (encoder choices before discovery). */
  const Configs: seq<Setting> := [
    Setting("Delete old video(s)?", ["No", "Yes"], 1, "delete_old"),
    Setting("Preserve Metadata?", ["Yes", "No"], 0, "preserve_metadata"),
    Setting("On name conflict?", ["Skip", "Overwrite", "Rename"], 0, "on_conflict"),
    Setting(VideoEncoderName, ["copy"], 0, "video_encoder"),
    Setting("Audio Encoder", ["None", "copy"], 1, "audio_encoder"),
    Setting(PresetName,
            ["ultrafast", "superfast", "veryfast", "faster", "fast", "medium", "slow", "slower", "veryslow"],
            4, "preset"),
    Setting(CrfName, ["10", "15", "20", "25", "30", "35", "40", "45", "50"], 4, "crf")
  ]

  predicate FocusInRange(c: Setting)
  {
    0 <= c.focusedOption < |c.opts|
  }

  /** Every catalog entry selects an existing option; keys and names are unique; the tables are disjoint. */
  lemma CatalogWellFormed()
    ensures forall i :: 0 <= i < |Configs| ==> FocusInRange(Configs[i])
    ensures forall i, j :: 0 <= i < j < |Configs| ==> Configs[i].key != Configs[j].key
    ensures forall i, j :: 0 <= i < j < |Configs| ==> Configs[i].name != Configs[j].name
    ensures forall e :: e in SupportedVideoEncoders ==> e !in SupportedAudioEncoders
  {
  }

  /** How looking up the selected video encoder fails in the source. */
  datatype LookupError =
    | NoVideoEncoderSetting                            // `next(...)` finds no entry
    | FocusedOptionOutOfRange(focused: int, count: nat) // `opts[focused_option]` is out of range

  /** Position of the first entry labelled `name`, the one `next(...)` returns. */
  function FirstNamed(configs: seq<Setting>, name: string): (r: Option<nat>)
    ensures r.Some? ==> r.value < |configs| && configs[r.value].name == name
    ensures r.Some? ==> forall j :: 0 <= j < r.value ==> configs[j].name != name
    ensures r.None? <==> forall j :: 0 <= j < |configs| ==> configs[j].name != name
  {
    if configs == [] then None
    else if configs[0].name == name then Some(0)
    else
      match FirstNamed(configs[1..], name)
      case None =>
        assert forall j :: 1 <= j < |configs| ==> configs[j] == configs[1..][j - 1];
        None
      case Some(i) =>
        assert forall j :: 1 <= j <= i ==> configs[j] == configs[1..][j - 1];
        Some(i + 1)
  }

  /** `opts[i]` with Python's indexing, where a negative index counts from the end. */
  function PyIndex(opts: seq<string>, i: int): (r: Option<string>)
    ensures r.Some? <==> -|opts| <= i < |opts|
    ensures r.Some? ==> r.value == opts[i % |opts|]
  {
    if 0 <= i < |opts| then Some(opts[i])
    else if -|opts| <= i < 0 then Some(opts[|opts| + i])
    else None
  }

  /** The option chosen in the first "Video Encoder" entry, or why there is none. */
  function SelectedVideoEncoder(configs: seq<Setting>): (r: Result<string, LookupError>)
    ensures FirstNamed(configs, VideoEncoderName).None? ==> r == Err(NoVideoEncoderSetting)
    ensures FirstNamed(configs, VideoEncoderName).Some? ==>
      var c := configs[FirstNamed(configs, VideoEncoderName).value];
      && (r.Ok? <==> -|c.opts| <= c.focusedOption < |c.opts|)
      && (r.Ok? ==> r.value == c.opts[c.focusedOption % |c.opts|])
      && (FocusInRange(c) ==> r == Ok(c.opts[c.focusedOption]))
      && (r.Err? ==> r.error == FocusedOptionOutOfRange(c.focusedOption, |c.opts|))
  {
    match FirstNamed(configs, VideoEncoderName)
    case None => Err(NoVideoEncoderSetting)
    case Some(i) =>
      var c := configs[i];
      match PyIndex(c.opts, c.focusedOption)
      case None => Err(FocusedOptionOutOfRange(c.focusedOption, |c.opts|))
      case Some(e) => Ok(e)
  }

  /** The labels hidden for a video encoder. */
  function HiddenOptions(encoder: string): (r: seq<string>)
    ensures PresetName in r <==> encoder in ["copy", "librav1e", "libvpx-vp9", "libsvtav1"]
    ensures CrfName in r <==> encoder in ["copy", "librav1e"]
    ensures forall n :: n in r ==> n == PresetName || n == CrfName
  {
    if encoder in ["copy", "librav1e"] then [PresetName, CrfName]
    else if encoder in ["libvpx-vp9", "libsvtav1"] then [PresetName]
    else []
  }

  /** The list comprehension: the entries whose label is not hidden, in order. */
  function KeepVisible(configs: seq<Setting>, hidden: seq<string>): (r: seq<Setting>)
    ensures |r| <= |configs|
  {
    if configs == [] then []
    else (if configs[0].name in hidden then [] else [configs[0]]) + KeepVisible(configs[1..], hidden)
  }

  lemma {:induction false} KeepVisibleMembers(configs: seq<Setting>, hidden: seq<string>)
    ensures forall c :: c in KeepVisible(configs, hidden) <==> c in configs && c.name !in hidden
    decreases |configs|
  {
    if configs != [] {
      KeepVisibleMembers(configs[1..], hidden);
      assert configs == [configs[0]] + configs[1..];
    }
  }

  /** Every entry whose label is not hidden is kept as often as it occurs; a hidden one never is. */
  lemma {:induction false} KeepVisibleCount(configs: seq<Setting>, hidden: seq<string>)
    ensures forall c :: (multiset(KeepVisible(configs, hidden))[c]
                         == if c.name in hidden then 0 else multiset(configs)[c])
    decreases |configs|
  {
    if configs != [] {
      var head := if configs[0].name in hidden then [] else [configs[0]];
      KeepVisibleCount(configs[1..], hidden);
      assert configs == [configs[0]] + configs[1..];
      assert multiset(configs) == multiset([configs[0]]) + multiset(configs[1..]);
      assert multiset(KeepVisible(configs, hidden)) == multiset(head) + multiset(KeepVisible(configs[1..], hidden));
    }
  }

  /** `get_visible_configs` */
  function GetVisibleConfigs(configs: seq<Setting>): (r: Result<seq<Setting>, LookupError>)
    ensures r.Err? <==> SelectedVideoEncoder(configs).Err?
    ensures r.Err? ==> r.error == SelectedVideoEncoder(configs).error
    ensures r.Ok? ==> forall c :: c in r.value <==>
      c in configs && c.name !in HiddenOptions(SelectedVideoEncoder(configs).value)
    ensures r.Ok? ==> forall c :: (multiset(r.value)[c]
      == if c.name in HiddenOptions(SelectedVideoEncoder(configs).value) then 0 else multiset(configs)[c])
  {
    match SelectedVideoEncoder(configs)
    case Err(e) => Err(e)
    case Ok(encoder) =>
      KeepVisibleMembers(configs, HiddenOptions(encoder));
      KeepVisibleCount(configs, HiddenOptions(encoder));
      Ok(KeepVisible(configs, HiddenOptions(encoder)))
  }

  /** `a` is `b` with some elements left out, the rest in their order. */
  predicate IsSubsequence(a: seq<Setting>, b: seq<Setting>)
    decreases |b|
  {
    if a == [] then true
    else if b == [] then false
    else if a[0] == b[0] then IsSubsequence(a[1..], b[1..])
    else IsSubsequence(a, b[1..])
  }

  lemma {:induction false} KeepVisibleIsSubsequence(configs: seq<Setting>, hidden: seq<string>)
    ensures IsSubsequence(KeepVisible(configs, hidden), configs)
    decreases |configs|
  {
    if configs != [] {
      KeepVisibleIsSubsequence(configs[1..], hidden);
      var rest := KeepVisible(configs[1..], hidden);
      if configs[0].name !in hidden {
        assert KeepVisible(configs, hidden) == [configs[0]] + rest;
        assert ([configs[0]] + rest)[1..] == rest;
      } else {
        assert KeepVisible(configs, hidden) == rest;
        KeepVisibleMembers(configs[1..], hidden);
        assert rest != [] ==> rest[0] in rest && rest[0] != configs[0];
      }
    }
  }

  lemma {:induction false} KeepVisibleAll(configs: seq<Setting>, hidden: seq<string>)
    requires forall i :: 0 <= i < |configs| ==> configs[i].name !in hidden
    ensures KeepVisible(configs, hidden) == configs
    decreases |configs|
  {
    if configs != [] {
      KeepVisibleAll(configs[1..], hidden);
    }
  }

  lemma {:induction false} KeepVisibleTwice(configs: seq<Setting>, hidden: seq<string>)
    ensures KeepVisible(KeepVisible(configs, hidden), hidden) == KeepVisible(configs, hidden)
    decreases |configs|
  {
    if configs != [] {
      KeepVisibleTwice(configs[1..], hidden);
      var rest := KeepVisible(configs[1..], hidden);
      if configs[0].name !in hidden {
        var r := [configs[0]] + rest;
        assert KeepVisible(configs, hidden) == r;
        assert r[0] == configs[0] && r[1..] == rest;
        assert KeepVisible(r, hidden) == [configs[0]] + KeepVisible(rest, hidden);
      } else {
        assert KeepVisible(configs, hidden) == rest;
      }
    }
  }

  lemma {:induction false} FirstNamedCons(c: Setting, rest: seq<Setting>, name: string)
    ensures FirstNamed([c] + rest, name)
      == if c.name == name then Some(0)
         else if FirstNamed(rest, name).None? then None
         else Some(FirstNamed(rest, name).value + 1)
  {
    assert ([c] + rest)[1..] == rest;
  }

  /** Filtering keeps the first entry of every label that is not hidden. */
  lemma {:induction false} KeepVisibleFirstNamed(configs: seq<Setting>, hidden: seq<string>, name: string)
    requires name !in hidden
    ensures FirstNamed(configs, name).Some? == FirstNamed(KeepVisible(configs, hidden), name).Some?
    ensures FirstNamed(configs, name).Some? ==>
      KeepVisible(configs, hidden)[FirstNamed(KeepVisible(configs, hidden), name).value]
        == configs[FirstNamed(configs, name).value]
    decreases |configs|
  {
    if configs != [] {
      var c, tail := configs[0], configs[1..];
      var rest := KeepVisible(tail, hidden);
      var kept := KeepVisible(configs, hidden);
      assert configs == [c] + tail;
      FirstNamedCons(c, tail, name);
      if c.name != name {
        KeepVisibleFirstNamed(tail, hidden, name);
      }
      if c.name !in hidden {
        assert kept == [c] + rest;
        FirstNamedCons(c, rest, name);
      } else {
        assert kept == rest;
      }
    }
  }

  /** The result keeps the input's order and only leaves entries out. */
  lemma {:induction false} VisibleIsSubsequence(configs: seq<Setting>)
    requires GetVisibleConfigs(configs).Ok?
    ensures IsSubsequence(GetVisibleConfigs(configs).value, configs)
  {
    KeepVisibleIsSubsequence(configs, HiddenOptions(SelectedVideoEncoder(configs).value));
  }

  /** "copy" and "librav1e" hide both Preset and CRF, and nothing else. */
  lemma {:induction false} VisibleWithoutQualityControls(configs: seq<Setting>)
    requires SelectedVideoEncoder(configs).Ok?
    requires SelectedVideoEncoder(configs).value in ["copy", "librav1e"]
    ensures forall c :: c in GetVisibleConfigs(configs).value <==>
      c in configs && c.name != PresetName && c.name != CrfName
  {
  }

  /** "libvpx-vp9" and "libsvtav1" hide Preset only: every CRF entry stays. */
  lemma {:induction false} VisibleWithCrfOnly(configs: seq<Setting>)
    requires SelectedVideoEncoder(configs).Ok?
    requires SelectedVideoEncoder(configs).value in ["libvpx-vp9", "libsvtav1"]
    ensures forall c :: c in GetVisibleConfigs(configs).value <==> c in configs && c.name != PresetName
  {
  }

  /** Any other encoder hides nothing. */
  lemma {:induction false} VisibleUnchanged(configs: seq<Setting>)
    requires SelectedVideoEncoder(configs).Ok?
    requires SelectedVideoEncoder(configs).value !in ["copy", "librav1e", "libvpx-vp9", "libsvtav1"]
    ensures GetVisibleConfigs(configs) == Ok(configs)
  {
    KeepVisibleAll(configs, HiddenOptions(SelectedVideoEncoder(configs).value));
  }

  /** Entries labelled other than Preset and CRF, "Video Encoder" among them, are always kept. */
  lemma {:induction false} VisibleKeepsOtherSettings(configs: seq<Setting>, c: Setting)
    requires GetVisibleConfigs(configs).Ok?
    requires c in configs && c.name != PresetName && c.name != CrfName
    ensures c in GetVisibleConfigs(configs).value
  {
  }

  /** Filtering the visible settings again changes nothing. */
  lemma {:induction false} VisibleIdempotent(configs: seq<Setting>)
    requires GetVisibleConfigs(configs).Ok?
    ensures GetVisibleConfigs(GetVisibleConfigs(configs).value) == GetVisibleConfigs(configs)
  {
    var hidden := HiddenOptions(SelectedVideoEncoder(configs).value);
    KeepVisibleFirstNamed(configs, hidden, VideoEncoderName);
    KeepVisibleTwice(configs, hidden);
  }

  lemma {:induction false} KeepVisibleAppend(a: seq<Setting>, b: seq<Setting>, hidden: seq<string>)
    ensures KeepVisible(a + b, hidden) == KeepVisible(a, hidden) + KeepVisible(b, hidden)
    decreases |a|
  {
    if a != [] {
      KeepVisibleAppend(a[1..], b, hidden);
      assert (a + b)[0] == a[0] && (a + b)[1..] == a[1..] + b;
    } else {
      assert a + b == b;
    }
  }

  /** Before discovery the catalog's video encoder is "copy". */
  lemma CatalogSelectsCopy()
    ensures SelectedVideoEncoder(Configs) == Ok("copy")
  {
    var n := VideoEncoderName;
    assert FirstNamed(Configs[3..], n) == Some(0);
    assert Configs[2..][1..] == Configs[3..];
    assert FirstNamed(Configs[2..], n) == Some(1);
    assert Configs[1..][1..] == Configs[2..];
    assert FirstNamed(Configs[1..], n) == Some(2);
  }

  /** Leaving out Preset and CRF leaves the first five catalog entries. */
  lemma CatalogWithoutQualityControls()
    ensures KeepVisible(Configs, [PresetName, CrfName]) == Configs[..5]
  {
    var hidden := [PresetName, CrfName];
    assert KeepVisible(Configs[5..], hidden) == [] by {
      assert Configs[5..][1..] == Configs[6..];
      assert KeepVisible(Configs[6..], hidden) == [];
    }
    assert KeepVisible(Configs[..5], hidden) == Configs[..5] by {
      KeepVisibleAll(Configs[..5], hidden);
    }
    KeepVisibleAppend(Configs[..5], Configs[5..], hidden);
    assert Configs == Configs[..5] + Configs[5..];
  }

  /** With its initial encoder choice ("copy"), the catalog shows all but Preset and CRF. */
  lemma CatalogInitiallyVisible()
    ensures GetVisibleConfigs(Configs) == Ok(Configs[..5])
  {
    CatalogSelectsCopy();
    CatalogWithoutQualityControls();
  }
}
