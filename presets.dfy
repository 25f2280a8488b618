/** `AudioProcessorPresets.get_preset` and `create_processor_from_preset` of
    src/audio_filter.py: a fixed table of named configurations, with
    'voice_chat' standing in for any unknown name. */
module Presets {
  import opened Wrappers
  import opened AudioFilter

  datatype Preset = Preset(name: string, filterType: string, freqLow: real, freqHigh: real, gainDb: real)

  const DEFAULT_PRESET: string := "voice_chat"

  const PRESETS: map<string, Preset> := map[
    "voice_chat" := Preset("语音聊天", BANDPASS, 100.0, 3000.0, 20.0),
    "meeting" := Preset("会议模式", BANDPASS, 150.0, 2800.0, 22.0),
    "noisy_environment" := Preset("嘈杂环境", BANDPASS, 200.0, 2500.0, 25.0),
    "low_noise" := Preset("去除低频噪音", HIGHPASS, 200.0, 3000.0, 18.0),
    "high_noise" := Preset("去除高频噪音", LOWPASS, 100.0, 2000.0, 18.0),
    "raw" := Preset("原始音频", NONE, 20.0, 20000.0, 16.0)
  ]

  /** `get_preset`: the named entry, or the 'voice_chat' entry for a name
      the table does not hold. */
  function GetPreset(presetName: string): (p: Preset)
    ensures presetName in PRESETS ==> p == PRESETS[presetName]
    ensures presetName !in PRESETS ==> p == PRESETS[DEFAULT_PRESET]
    ensures p in PRESETS.Values
  {
    assert DEFAULT_PRESET in PRESETS;
    if presetName in PRESETS then PRESETS[presetName] else PRESETS[DEFAULT_PRESET]
  }

  /** Whatever the name, the preset returned has its low cutoff below its
      high cutoff, and at 48 kHz its filter is either 'none' or a design
      that `butter` accepts, so creating a processor from it cannot raise. */
  lemma PresetsAreDesignable(presetName: string)
    ensures var p := GetPreset(presetName);
      p.freqLow < p.freqHigh
      && (p.filterType == NONE || (
            var d := PlannedDesign(p.filterType, p.freqLow, p.freqHigh, 24000.0);
            d.Some? && ButterAccepts(d.value)))
  {
    var p := GetPreset(presetName);
    if p.filterType != NONE {
      DesignRules(p.filterType, p.freqLow, p.freqHigh, 24000.0);
      ButterRaisesOnlyOnLowpass(p.filterType, p.freqLow, p.freqHigh, 24000.0);
    }
  }

  /** `create_processor_from_preset`: a processor built by the constructor
      from the preset's fields, failing exactly when the preset's design is
      one `butter` rejects at the given rate (never at 48 kHz). */
  method CreateProcessorFromPreset(scipy: Scipy, presetName: string, sampleRate: real)
    returns (r: Result<SimpleAudioProcessor, FilterError>)
    requires sampleRate > 0.0
    ensures sampleRate == 48000.0 ==> r.Success?
    ensures var p := GetPreset(presetName);
      var d := PlannedDesign(p.filterType, p.freqLow, p.freqHigh, sampleRate / 2.0);
      r.Failure? <==> d.Some? && !ButterAccepts(d.value)
    ensures r.Success? ==>
      var p := GetPreset(presetName);
      var d := PlannedDesign(p.filterType, p.freqLow, p.freqHigh, sampleRate / 2.0);
      fresh(r.value) && r.value.Valid() && r.value.scipy == scipy && r.value.sampleRate == sampleRate
      && r.value.filterType == p.filterType && r.value.freqLow == p.freqLow
      && r.value.freqHigh == p.freqHigh && r.value.gainDb == p.gainDb
      && (d.None? ==> r.value.b.None? && r.value.a.None? && r.value.zi.None?)
      && (d.Some? ==>
            r.value.b == Some(scipy.butter(BUTTER_ORDER, d.value).0)
            && r.value.a == Some(scipy.butter(BUTTER_ORDER, d.value).1)
            && r.value.zi == Some(scipy.lfilterZi(r.value.b.value, r.value.a.value)))
  {
    var p := GetPreset(presetName);
    PresetsAreDesignable(presetName);
    r := SimpleAudioProcessor.Create(scipy, sampleRate, p.filterType, p.freqLow, p.freqHigh, p.gainDb);
  }
}
