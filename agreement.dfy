/**
 * The settings screen and the argument builder agree: for every encoder
 * the screen can offer ("copy" or one of the supported video encoders),
 * the Preset setting is shown exactly when the builder passes "-preset",
 * and the CRF setting exactly when it passes "-crf".
 */
module Agreement {
  import opened Wrappers
  import opened Config
  import opened FfmpegUtils

  /** Some entry of `cs` carries the label `name`. */
  predicate HasSetting(cs: seq<Setting>, name: string)
  {
    exists c :: c in cs && c.name == name
  }

  /** An encoder the Video Encoder setting can hold: the passthrough or a discovered supported one. */
  predicate Offered(e: string)
  {
    e == "copy" || e in SupportedVideoEncoders
  }

  /** The flags the builder emits for an offered encoder are the settings the screen leaves visible. */
  lemma {:induction false} OfferedAgreement(e: string)
    requires Offered(e)
    ensures PresetName !in HiddenOptions(e) <==> e in PresetEncoders
    ensures CrfName !in HiddenOptions(e) <==> e in PresetEncoders || e in CrfOnlyEncoders
  {
  }

  /** A setting labelled `name` that the encoder does not hide stays visible, and a hidden one never does. */
  lemma {:induction false} VisibleLabel(configs: seq<Setting>, name: string)
    requires GetVisibleConfigs(configs).Ok?
    requires HasSetting(configs, name)
    ensures HasSetting(GetVisibleConfigs(configs).value, name)
      <==> name !in HiddenOptions(SelectedVideoEncoder(configs).value)
  {
    var c :| c in configs && c.name == name;
    if name !in HiddenOptions(SelectedVideoEncoder(configs).value) {
      assert c in GetVisibleConfigs(configs).value;
    }
  }

  /**
   * With the encoder the screen selected written into the configuration,
   * the Preset setting is visible exactly when the arguments hold
   * "-preset", and the CRF setting exactly when they hold "-crf".
   */
  lemma {:induction false} ScreenMatchesArguments(configs: seq<Setting>, inPath: string, outPath: string, cfg: Options)
    requires GetVisibleConfigs(configs).Ok?
    requires Offered(SelectedVideoEncoder(configs).value)
    requires HasSetting(configs, PresetName) && HasSetting(configs, CrfName)
    requires "video_encoder" in cfg && cfg["video_encoder"] == SelectedVideoEncoder(configs).value
    requires Args(inPath, outPath, cfg).Ok?
    requires NoFlagSupplied(inPath, outPath, cfg)
    ensures HasSetting(GetVisibleConfigs(configs).value, PresetName) <==> "-preset" in Args(inPath, outPath, cfg).value
    ensures HasSetting(GetVisibleConfigs(configs).value, CrfName) <==> "-crf" in Args(inPath, outPath, cfg).value
  {
    var e := SelectedVideoEncoder(configs).value;
    OfferedAgreement(e);
    VisibleLabel(configs, PresetName);
    VisibleLabel(configs, CrfName);
    ArgsQualityFlagPresence(inPath, outPath, cfg);
  }
}
