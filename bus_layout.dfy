/**
 * isBusesLayoutSupported: which main input/output channel layouts the plugin
 * accepts, depending on how it is built (as a MIDI effect, as a synth, or as
 * an audio effect). A channel set is the set of speaker positions it carries,
 * so two sets are equal exactly when they carry the same channels.
 */
module BusLayout {
  import opened Optional

  datatype ChannelType = Left | Right | Centre | LFE | LeftSurround | RightSurround | Discrete(index: nat)

  type ChannelSet = set<ChannelType>

  const Disabled: ChannelSet := {}
  const Mono: ChannelSet := {Centre}
  const Stereo: ChannelSet := {Left, Right}

  /** The build flags JucePlugin_IsMidiEffect and JucePlugin_IsSynth. */
  datatype PluginConfig = PluginConfig(isMidiEffect: bool, isSynth: bool)

  datatype BusesLayout = BusesLayout(mainInput: ChannelSet, mainOutput: ChannelSet)

  /** A MIDI effect accepts every layout; otherwise the output must be mono or stereo and, unless a synth, equal the input. */
  predicate IsBusesLayoutSupported(cfg: PluginConfig, layouts: BusesLayout)
    ensures IsBusesLayoutSupported(cfg, layouts) && !cfg.isMidiEffect ==>
      |layouts.mainOutput| == 1 || |layouts.mainOutput| == 2
  {
    ChannelCounts();
    if cfg.isMidiEffect then true
    else if layouts.mainOutput != Mono && layouts.mainOutput != Stereo then false
    else if !cfg.isSynth && layouts.mainOutput != layouts.mainInput then false
    else true
  }

  /** Mono carries one channel and stereo two. */
  lemma ChannelCounts()
    ensures |Mono| == 1 && |Stereo| == 2
  {
    assert |Stereo| == |{Left} + {Right}| == 2;
  }

  /** A bus as BusesProperties declares it: its channel set and whether it starts active. */
  datatype BusDeclaration = BusDeclaration(channels: ChannelSet, activeByDefault: bool)

  /** The constructor's BusesProperties: the main input and main output, each declared or not. */
  datatype BusesProperties = BusesProperties(input: Option<BusDeclaration>, output: Option<BusDeclaration>)

  /**
   * The buses the constructor declares: none for a MIDI effect; otherwise a
   * stereo output active from the start and, unless a synth, a stereo input
   * declared with isActivatedByDefault false.
   */
  function DeclaredBuses(cfg: PluginConfig): (p: BusesProperties)
    ensures p.output.Some? <==> !cfg.isMidiEffect
    ensures p.input.Some? <==> !cfg.isMidiEffect && !cfg.isSynth
    ensures p.output.Some? ==> p.output.value == BusDeclaration(Stereo, true)
    ensures p.input.Some? ==> p.input.value == BusDeclaration(Stereo, false)
  {
    if cfg.isMidiEffect then BusesProperties(None, None)
    else if cfg.isSynth then BusesProperties(None, Some(BusDeclaration(Stereo, true)))
    else BusesProperties(Some(BusDeclaration(Stereo, false)), Some(BusDeclaration(Stereo, true)))
  }

  /** An active bus carries its declared channels; an inactive or undeclared one is disabled. */
  function StartingChannels(b: Option<BusDeclaration>): ChannelSet {
    if b.Some? && b.value.activeByDefault then b.value.channels else Disabled
  }

  /** A declared bus once the host has activated it, at its declared channel set. */
  function ActivatedChannels(b: Option<BusDeclaration>): ChannelSet {
    if b.Some? then b.value.channels else Disabled
  }

  /** The layout the processor starts in, before the host changes any bus. */
  function StartingLayout(p: BusesProperties): BusesLayout {
    BusesLayout(StartingChannels(p.input), StartingChannels(p.output))
  }

  /** The layout with every declared bus active at its declared channel set. */
  function ActivatedLayout(p: BusesProperties): BusesLayout {
    BusesLayout(ActivatedChannels(p.input), ActivatedChannels(p.output))
  }

  /** Accepted exactly when the output is mono or stereo and, unless a synth, the input matches it; a MIDI effect accepts all. */
  lemma SupportedCharacterised(cfg: PluginConfig, layouts: BusesLayout)
    ensures IsBusesLayoutSupported(cfg, layouts) <==>
      cfg.isMidiEffect ||
      ((layouts.mainOutput == Mono || layouts.mainOutput == Stereo) &&
       (cfg.isSynth || layouts.mainInput == layouts.mainOutput))
  {
  }

  /** As a synth the input layout plays no part: only the output decides. */
  lemma SynthIgnoresInput(cfg: PluginConfig, input: ChannelSet, other: ChannelSet, output: ChannelSet)
    requires cfg.isSynth
    ensures IsBusesLayoutSupported(cfg, BusesLayout(input, output)) ==
            IsBusesLayoutSupported(cfg, BusesLayout(other, output))
  {
  }

  /** As an audio effect exactly two layouts are accepted: mono to mono and stereo to stereo. */
  lemma EffectLayouts(cfg: PluginConfig, layouts: BusesLayout)
    requires !cfg.isMidiEffect && !cfg.isSynth
    ensures IsBusesLayoutSupported(cfg, layouts) <==>
      layouts == BusesLayout(Mono, Mono) || layouts == BusesLayout(Stereo, Stereo)
  {
  }

  /** Built as a synth or a MIDI effect, the layout the processor starts in is accepted. */
  lemma StartingLayoutSupported(cfg: PluginConfig)
    requires cfg.isMidiEffect || cfg.isSynth
    ensures IsBusesLayoutSupported(cfg, StartingLayout(DeclaredBuses(cfg)))
  {
  }

  /**
   * Built as an audio effect, the processor starts with its input inactive, and
   * that starting layout (no input, stereo output) is one it rejects.
   */
  lemma EffectStartingLayoutRejected(cfg: PluginConfig)
    requires !cfg.isMidiEffect && !cfg.isSynth
    ensures StartingLayout(DeclaredBuses(cfg)) == BusesLayout(Disabled, Stereo)
    ensures !IsBusesLayoutSupported(cfg, StartingLayout(DeclaredBuses(cfg)))
  {
    assert Left in Stereo && Left !in Disabled;
  }

  /** Whatever the build, once the host activates every declared bus at its declared set, the layout is accepted. */
  lemma ActivatedLayoutSupported(cfg: PluginConfig)
    ensures IsBusesLayoutSupported(cfg, ActivatedLayout(DeclaredBuses(cfg)))
  {
  }
}
