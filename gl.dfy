/**
  The headless-EGL OpenGL backend's bootstrap: take the first rendering device,
  pick a configuration by a reduction over sample counts, and create a context with
  one fallback. Every call into EGL, glutin, Skia or the framebuffer is an input.
*/
module Gl {
  import opened Outcomes
  import opened Lifecycle

  datatype EglDevice = EglDevice(id: nat)

  /** A configuration matching the template, with its multisample count. */
  datatype Config = Config(id: nat, numSamples: nat)

  datatype SurfaceType = Window | Pixmap | Pbuffer

  /** The two fields of the configuration template the backend sets; the rest keep glutin's defaults. */
  datatype ConfigTemplate = ConfigTemplate(alphaSize: nat, surfaceTypes: set<SurfaceType>)

  /** `config_template`: an 8-bit alpha channel and no surface type, as rendering is off-screen. */
  function OffscreenConfigTemplate(): (t: ConfigTemplate)
    ensures t.alphaSize == 8
    ensures forall k: SurfaceType :: k !in t.surfaceTypes
  {
    ConfigTemplate(8, {})
  }

  /** `devices.first()`: the first device found, if any. */
  function FirstDevice(devices: seq<EglDevice>): (r: Option<EglDevice>)
    ensures r.Some? <==> |devices| > 0
    ensures r.Some? ==> r.value == devices[0] && r.value in devices
  {
    if |devices| == 0 then None else Some(devices[0])
  }

  /**
    The reduction's closure. `Iterator::reduce` passes (accumulator, item); the
    accumulator survives only when it has strictly more samples than the item.
  */
  function KeepMoreSamples(acc: Config, item: Config): Config {
    if acc.numSamples > item.numSamples then acc else item
  }

  function Fold(acc: Config, rest: seq<Config>): (r: Config)
    ensures r == acc || r in rest
    ensures acc.numSamples <= r.numSamples
    ensures forall j :: 0 <= j < |rest| ==> rest[j].numSamples <= r.numSamples
    decreases |rest|
  {
    if |rest| == 0 then acc else Fold(KeepMoreSamples(acc, rest[0]), rest[1..])
  }

  /** `Iterator::reduce` over the matching configurations; `None` when there are none. */
  function ReduceConfigs(configs: seq<Config>): (r: Option<Config>)
    ensures r.Some? <==> |configs| > 0
    ensures r.Some? ==> r.value in configs && forall j :: 0 <= j < |configs| ==> configs[j].numSamples <= r.value.numSamples
  {
    if |configs| == 0 then None else Some(Fold(configs[0], configs[1..]))
  }

  /**
    Among the first `n` configurations, `k` has the most samples, and every later one
    among them has strictly fewer: `k` is the LAST with the maximum sample count.
  */
  ghost predicate LastMaxBefore(configs: seq<Config>, k: nat, n: nat) {
    && k < n <= |configs|
    && (forall j :: 0 <= j < n ==> configs[j].numSamples <= configs[k].numSamples)
    && (forall j :: k < j < n ==> configs[j].numSamples < configs[k].numSamples)
  }

  /** One step of the reduction keeps the accumulator the last maximum so far. */
  lemma LastMaxExtends(configs: seq<Config>, a: nat, i: nat)
    requires LastMaxBefore(configs, a, i) && i < |configs|
    ensures LastMaxBefore(configs, if configs[a].numSamples > configs[i].numSamples then a else i, i + 1)
  {
  }

  /** One unfolding of the reduction over the suffix starting at `i`. */
  lemma FoldStep(configs: seq<Config>, acc: Config, i: nat)
    requires i < |configs|
    ensures Fold(acc, configs[i..]) == Fold(KeepMoreSamples(acc, configs[i]), configs[i + 1..])
  {
    assert configs[i..][0] == configs[i] && configs[i..][1..] == configs[i + 1..];
  }

  /** The position the reduction ends on, when it starts from position `a` with `i` items consumed. */
  ghost function ReducedPosition(configs: seq<Config>, a: nat, i: nat): (k: nat)
    requires a < i <= |configs|
    ensures k < |configs|
    decreases |configs| - i
  {
    if i == |configs| then a
    else ReducedPosition(configs, if configs[a].numSamples > configs[i].numSamples then a else i, i + 1)
  }

  /** The reduction over values ends on the configuration at the reduced position. */
  lemma {:induction false} FoldAtReducedPosition(configs: seq<Config>, a: nat, i: nat)
    requires a < i <= |configs|
    ensures Fold(configs[a], configs[i..]) == configs[ReducedPosition(configs, a, i)]
    decreases |configs| - i
  {
    if i < |configs| {
      var next := if configs[a].numSamples > configs[i].numSamples then a else i;
      assert KeepMoreSamples(configs[a], configs[i]) == configs[next];
      FoldStep(configs, configs[a], i);
      FoldAtReducedPosition(configs, next, i + 1);
    }
  }

  /** Started from the last maximum so far, the reduction ends on the last maximum overall. */
  lemma {:induction false} ReducedPositionIsLastMax(configs: seq<Config>, a: nat, i: nat)
    requires LastMaxBefore(configs, a, i)
    ensures LastMaxBefore(configs, ReducedPosition(configs, a, i), |configs|)
    decreases |configs| - i
  {
    if i < |configs| {
      LastMaxExtends(configs, a, i);
      ReducedPositionIsLastMax(configs, if configs[a].numSamples > configs[i].numSamples then a else i, i + 1);
    }
  }

  /**
    On a tie for the most samples the reduction picks the last of the tied
    configurations.
  */
  lemma ReducePicksLastMax(configs: seq<Config>)
    ensures ReduceConfigs(configs).Some? ==>
      exists k: nat :: LastMaxBefore(configs, k, |configs|) && ReduceConfigs(configs).value == configs[k]
  {
    if |configs| > 0 {
      assert LastMaxBefore(configs, 0, 1);
      FoldAtReducedPosition(configs, 0, 1);
      ReducedPositionIsLastMax(configs, 0, 1);
      var k := ReducedPosition(configs, 0, 1);
      assert LastMaxBefore(configs, k, |configs|) && ReduceConfigs(configs).value == configs[k];
    }
  }

  /** Only one position can be the last maximum. */
  lemma LastMaxIsUnique(configs: seq<Config>, k: nat, k': nat)
    requires LastMaxBefore(configs, k, |configs|) && LastMaxBefore(configs, k', |configs|)
    ensures k == k'
  {
    var samples, samples' := configs[k].numSamples, configs[k'].numSamples;
    assert samples <= samples' && samples' <= samples;
  }

  /** Sample counts [1, 4, 2, 4]: the second configuration with 4 samples is chosen. */
  lemma TieGoesToLater()
    ensures ReduceConfigs([Config(0, 1), Config(1, 4), Config(2, 2), Config(3, 4)]) == Some(Config(3, 4))
  {
  }

  datatype ContextApi = PlatformDefault | OpenGl(version: Option<(nat, nat)>)

  datatype ContextAttributes = ContextAttributes(api: ContextApi, rawWindowHandle: Option<nat>)

  /** `ContextAttributesBuilder::new().build(None)`: the platform's default API, no window. */
  const CORE_ATTRIBUTES := ContextAttributes(PlatformDefault, None)

  /** `.with_context_api(ContextApi::OpenGl(None))`, no window. */
  const FALLBACK_ATTRIBUTES := ContextAttributes(OpenGl(None), None)

  datatype NotCurrentContext = NotCurrentContext(id: nat, attributes: ContextAttributes)

  /** The context creation calls made, in order, and the context obtained. */
  datatype ContextCreation = ContextCreation(attempts: seq<ContextAttributes>, context: Option<NotCurrentContext>)

  /**
    `create_context(core).unwrap_or_else(|_| create_context(fallback).expect(..))`:
    the fallback is tried only after the first attempt failed, and there is no third.
  */
  function CreateContext(display: (Config, ContextAttributes) -> Option<NotCurrentContext>, config: Config): (r: ContextCreation)
    ensures 1 <= |r.attempts| <= 2 && r.attempts[0] == CORE_ATTRIBUTES
    ensures display(config, CORE_ATTRIBUTES).Some? ==>
      r.attempts == [CORE_ATTRIBUTES] && r.context == display(config, CORE_ATTRIBUTES)
    ensures display(config, CORE_ATTRIBUTES).None? ==>
      r.attempts == [CORE_ATTRIBUTES, FALLBACK_ATTRIBUTES] && r.context == display(config, FALLBACK_ATTRIBUTES)
    ensures r.context.None? <==> display(config, CORE_ATTRIBUTES).None? && display(config, FALLBACK_ATTRIBUTES).None?
  {
    match display(config, CORE_ATTRIBUTES)
    case Some(context) => ContextCreation([CORE_ATTRIBUTES], Some(context))
    case None => ContextCreation([CORE_ATTRIBUTES, FALLBACK_ATTRIBUTES], display(config, FALLBACK_ATTRIBUTES))
  }

  /** The platform's answers to each step of `wrap`. */
  datatype GlPlatform = GlPlatform(
    queryDevices: Option<seq<EglDevice>>,
    displayCreated: bool,
    findConfigs: ConfigTemplate -> Option<seq<Config>>,
    display: (Config, ContextAttributes) -> Option<NotCurrentContext>,
    makeCurrentSurfaceless: bool,
    interfaceLoaded: bool,
    softBufferCreated: bool,
    skiaContextCreated: bool)

  /** The `wrap` step that failed; each one is fatal. */
  datatype GlFailure =
    | QueryDevices | NoDevices | DisplayCreation | FindConfigs | NoConfigs
    | ContextCreationFailed | MakeCurrent | InterfaceLoad | SoftBuffer | SkiaContext

  /** What `wrap` chose and the wrapper's starting state. */
  datatype GlWindow = GlWindow(device: EglDevice, config: Config, context: NotCurrentContext, phase: Phase)

  /**
    `wrap`: the steps in source order, the first failure fatal. The framebuffer is
    set up before the Skia GL context, which is built inside the struct literal.
  */
  function Wrap(p: GlPlatform): (r: Result<GlWindow, GlFailure>)
    ensures p.queryDevices.Some? && |p.queryDevices.value| == 0 ==> r == Err(NoDevices)
    ensures r.Ok? ==>
      var configs := p.findConfigs(OffscreenConfigTemplate());
      && p.queryDevices.Some? && |p.queryDevices.value| > 0
      && r.value.device == p.queryDevices.value[0]
      && configs.Some? && r.value.config in configs.value
      && r.value.config == ReduceConfigs(configs.value).value
      && (forall j :: 0 <= j < |configs.value| ==> configs.value[j].numSamples <= r.value.config.numSamples)
      && Some(r.value.context) == CreateContext(p.display, r.value.config).context
      && r.value.phase == Unready
    ensures (&& p.queryDevices.Some? && |p.queryDevices.value| > 0 && p.displayCreated
             && p.findConfigs(OffscreenConfigTemplate()) == Some([])) ==> r == Err(NoConfigs)
  {
    match p.queryDevices
    case None => Err(QueryDevices)
    case Some(devices) =>
      match FirstDevice(devices)
      case None => Err(NoDevices)
      case Some(device) =>
        if !p.displayCreated then Err(DisplayCreation)
        else match p.findConfigs(OffscreenConfigTemplate())
        case None => Err(FindConfigs)
        case Some(configs) =>
          match ReduceConfigs(configs)
          case None => Err(NoConfigs)
          case Some(config) =>
            match CreateContext(p.display, config).context
            case None => Err(ContextCreationFailed)
            case Some(context) =>
              if !p.makeCurrentSurfaceless then Err(MakeCurrent)
              else if !p.interfaceLoaded then Err(InterfaceLoad)
              else if !p.softBufferCreated then Err(SoftBuffer)
              else if !p.skiaContextCreated then Err(SkiaContext)
              else Ok(GlWindow(device, config, context, Unready))
  }
}
