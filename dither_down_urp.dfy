/** The dither-down renderer feature: a pass that hands the dither settings
    and a threshold table to a material, copies the camera image into a temp
    texture and draws it back through that material. */
module DitherDownURPFeature {
  import opened Wrappers
  import opened Rendering
  import DT = DitherTextures
  import DS = DitherDownURPSettings
  import PixelateFeature

  /** The name Create looks the shader up by. */
  const ShaderName := "CustomPostProcessing/DitherDownURP"

  /** Converts the settings component's DitherType to the pass's enum of the
      same name by its underlying integer, as the C# cast does. */
  function CastDitherType(t: DS.DitherType): (p: DT.DitherType)
    ensures p as int == t as int
    ensures DT.IsNamed(p) <==> DS.Bayer2x2 <= t <= DS.Bayer8x8
    ensures t == DS.Bayer2x2 ==> p == DT.Bayer2x2
    ensures t == DS.Bayer3x3 ==> p == DT.Bayer3x3
    ensures t == DS.Bayer4x4 ==> p == DT.Bayer4x4
    ensures t == DS.Bayer8x8 ==> p == DT.Bayer8x8
  {
    t as int as DT.DitherType
  }

  /** The threshold texture Execute hands to the material for a settings
      dither type: for each of the four named types a table of the matching
      side that is a permutation of the evenly spaced levels, 0 and 255
      included; for any other value, null. */
  lemma {:induction false} TextureForSettings(t: DS.DitherType)
    ensures DT.GenerateDitherTexture(CastDitherType(t)).Some? <==> DS.Bayer2x2 <= t <= DS.Bayer8x8
    ensures DS.Bayer2x2 <= t <= DS.Bayer8x8 ==>
      var tex := DT.GenerateDitherTexture(CastDitherType(t)).value;
      var n := [2, 3, 4, 8][t as int];
      tex.width == n && tex.height == n && DT.IsLevelPermutation(tex.data, n) &&
      0 in tex.data && 255 in tex.data
  {
    var p := CastDitherType(t);
    if DT.IsNamed(p) {
      DT.GeneratedTextureIsLevelPermutation(p);
    }
  }

  /** The dither pass's temp texture: the camera's descriptor without a depth
      buffer, at full resolution. */
  function TempDescriptor(camera: RenderTextureDescriptor): (d: RenderTextureDescriptor)
    ensures d.width == camera.width && d.height == camera.height && d.depthBufferBits == 0
    ensures d.graphicsFormat == camera.graphicsFormat && d.msaaSamples == camera.msaaSamples
    ensures d.volumeDepth == camera.volumeDepth && d.useMipMap == camera.useMipMap
  {
    camera.(depthBufferBits := 0)
  }

  /** It is the pixelate pass's rule without the division: the two agree at a
      pixel size of 1. */
  lemma TempDescriptorIsUnitPixelate(camera: RenderTextureDescriptor)
    ensures TempDescriptor(camera) == PixelateFeature.TempDescriptor(camera, 1)
  {
    PixelateFeature.TempDescriptorUnitPixel(camera);
  }

  /** The material settings Execute makes, in order: dithering, levels,
      downsampling and the threshold texture. */
  function ParameterEvents(s: DS.Settings): seq<Event>
  {
    [SetFloat(Dithering, s.dithering.value),
     SetFloat(Levels, s.colorLevels.value as real),
     SetFloat(Downsampling, s.downsampling.value),
     SetTexture(DitherTexture, DT.GenerateDitherTexture(CastDitherType(s.ditherType)))]
  }

  /** What Execute issues when the effect is active: a command buffer taken
      from the pool, and nothing more without a material; with one, the
      material's parameters set and then a profiled copy camera → temp →
      camera whose second blit goes through the material. */
  function ExecuteEvents(tag: string, s: DS.Settings, material: Option<Material>, temp: Option<RTHandle>): seq<Event>
  {
    if material.None? then [GetCommandBuffer(tag)]
    else PooledCommandBuffer(tag, ParameterEvents(s), CopyThroughTemp(temp, material))
  }

  /** Without a material Execute issues no blit, and the command buffer it
      took from the pool is never given back. */
  lemma {:induction false} ExecuteWithoutMaterial(tag: string, s: DS.Settings, temp: Option<RTHandle>)
    ensures var es := ExecuteEvents(tag, s, None, temp);
      Blits(es) == [] &&
      Count(es, GetCommandBuffer(tag)) == 1 && Count(es, ReleaseCommandBuffer(tag)) == 0 &&
      !CommandBufferReturned(es, tag)
  {
    NoBlits([GetCommandBuffer(tag)]);
  }

  /** With a material Execute issues exactly two blits, camera → temp without
      a material and then temp → camera through pass 0 of the material, both
      inside the profiling scope; every parameter, the threshold texture
      included, is set before the first of them; the command buffer is taken
      once and given back. */
  lemma {:induction false} ExecuteWithMaterial(tag: string, s: DS.Settings, m: Material, temp: Option<RTHandle>)
    ensures var es := ExecuteEvents(tag, s, Some(m), temp);
      Blits(es) == [Blit(CameraColorTarget, TempTarget(temp), None, 0), Blit(TempTarget(temp), CameraColorTarget, Some(m), 0)] &&
      (forall e | e in ParameterEvents(s) :: e in es) &&
      SetsBeforeBlits(es) &&
      BlitsProfiled(es, tag) &&
      Count(es, GetCommandBuffer(tag)) == 1 && CommandBufferReturned(es, tag)
  {
    var params, copies := ParameterEvents(s), CopyThroughTemp(temp, Some(m));
    PooledBlits(tag, params, copies);
    assert Blits(copies) == copies by {
      assert copies[1..][1..] == [];
    }
    PooledScope(tag, params, copies);
    PooledSetsFirst(tag, params, copies);
    PooledReturned(tag, params, copies);
    PooledLayout(tag, params, copies);
  }

  /** DitherDownURP.DitherDownURPPass. */
  class DitherDownURPPass {
    var material: Option<Material>
    /** The volume stack's DitherDownURPSettings component, or null. */
    var settings: Option<DS.Settings>
    var tempTexDescriptor: RenderTextureDescriptor
    var tempTexHandle: Option<RTHandle>
    const profilerTag: string
    const renderPassEvent: RenderPassEvent

    /** The component found on the volume stack is passed in. */
    constructor (material: Option<Material>, settings: Option<DS.Settings>)
      ensures this.material == material && this.settings == settings
      ensures tempTexDescriptor == DefaultDescriptor && tempTexHandle == None
      ensures profilerTag == "DitherDownURP" && renderPassEvent == AfterRenderingPostProcessing
    {
      this.material := material;
      profilerTag := "DitherDownURP";
      this.settings := settings;
      renderPassEvent := AfterRenderingPostProcessing;
      tempTexDescriptor := DefaultDescriptor;
      tempTexHandle := None;
    }

    /** Whether the pass takes part in the frame. */
    predicate Enabled()
      reads this
    {
      settings.Some? && DS.IsActive(settings.value)
    }

    method EnqueuePass(renderer: CommandLog)
      modifies renderer
      ensures renderer.events == old(renderer.events) + (if Enabled() then [Event.EnqueuePass(profilerTag)] else [])
    {
      if settings.Some? && DS.IsActive(settings.value) {
        renderer.Record(Event.EnqueuePass(profilerTag));
      }
    }

    method Configure(camera: RenderTextureDescriptor, log: CommandLog)
      modifies this, log
      ensures settings == old(settings) && material == old(material)
      ensures settings.None? ==>
        tempTexDescriptor == old(tempTexDescriptor) && tempTexHandle == old(tempTexHandle) &&
        log.events == old(log.events)
      ensures settings.Some? ==>
        tempTexDescriptor == TempDescriptor(camera) &&
        tempTexHandle == Some(RTHandle(tempTexDescriptor)) &&
        log.events == old(log.events) + [ReAllocateIfNeeded(tempTexDescriptor)]
    {
      if settings.None? {
        return;
      }
      tempTexDescriptor := camera;
      tempTexDescriptor := tempTexDescriptor.(depthBufferBits := 0);
      log.Record(ReAllocateIfNeeded(tempTexDescriptor));
      tempTexHandle := Some(RTHandle(tempTexDescriptor));
    }

    /** Throws when there are no settings; does nothing when inactive;
        otherwise issues ExecuteEvents. */
    method Execute(log: CommandLog) returns (outcome: Outcome<Exception>)
      modifies log
      ensures settings.None? ==> outcome == Fail(NullReferenceException) && log.events == old(log.events)
      ensures settings.Some? ==> outcome == Pass
      ensures settings.Some? && !DS.IsActive(settings.value) ==> log.events == old(log.events)
      ensures Enabled() ==>
        log.events == old(log.events) + ExecuteEvents(profilerTag, settings.value, material, tempTexHandle)
    {
      if settings.None? {
        return Fail(NullReferenceException);
      }
      var s := settings.value;
      if !DS.IsActive(s) {
        return Pass;
      }
      ghost var before := log.events;
      log.Record(GetCommandBuffer(profilerTag));
      if material.None? {
        return Pass;
      }
      log.Record(SetFloat(Dithering, s.dithering.value));
      log.Record(SetFloat(Levels, s.colorLevels.value as real));
      log.Record(SetFloat(Downsampling, s.downsampling.value));
      var texture := DT.GenerateDitherTexture(CastDitherType(s.ditherType));
      log.Record(SetTexture(DitherTexture, texture));
      ghost var head := log.events;
      assert head == before + ([GetCommandBuffer(profilerTag)] + ParameterEvents(s));
      ProfiledCopy(profilerTag, tempTexHandle, material, log);
      SubmitCommandBuffer(profilerTag, log);
      assert log.events == before + ExecuteEvents(profilerTag, s, material, tempTexHandle);
      return Pass;
    }

    /** Destroys the material, then releases the temp handle if there is one. */
    method Dispose(log: CommandLog)
      modifies log
      ensures log.events == old(log.events) + [DestroyMaterial(material)] +
        (if tempTexHandle.Some? then [ReleaseHandle(tempTexHandle.value)] else [])
    {
      log.Record(DestroyMaterial(material));
      if tempTexHandle.Some? {
        log.Record(ReleaseHandle(tempTexHandle.value));
      }
    }
  }

  /** The renderer feature DitherDownURP that owns the pass. */
  class DitherDownURP {
    var pass: Option<DitherDownURPPass>
    var name: string

    constructor (name: string)
      ensures pass == None && this.name == name
    {
      pass := None;
      this.name := name;
    }

    /** `shader` is what the lookup by ShaderName found. Without it the error
        is logged and the feature is left as it was, its pass possibly null. */
    method Create(shader: Option<Shader>, settings: Option<DS.Settings>, log: CommandLog)
      modifies this, log
      ensures shader.None? ==>
        pass == old(pass) && name == old(name) &&
        log.events == old(log.events) + [LogError(ShaderName + " shader not found.")]
      ensures shader.Some? ==>
        pass.Some? && fresh(pass.value) && name == "Dither Down URP" && log.events == old(log.events) &&
        pass.value.material == Some(Material(shader.value)) && pass.value.settings == settings &&
        pass.value.tempTexHandle == None && pass.value.tempTexDescriptor == DefaultDescriptor &&
        pass.value.profilerTag == "DitherDownURP" && pass.value.renderPassEvent == AfterRenderingPostProcessing
    {
      if shader.None? {
        log.Record(LogError(ShaderName + " shader not found."));
        return;
      }
      var material := Material(shader.value);
      var p := new DitherDownURPPass(Some(material), settings);
      pass := Some(p);
      name := "Dither Down URP";
    }

    /** Enqueues the pass for game cameras only, when its settings are present
        and active; for a game camera it throws while the pass is null. */
    method AddRenderPasses(cameraType: CameraType, renderer: CommandLog) returns (outcome: Outcome<Exception>)
      modifies renderer
      ensures cameraType != Game ==> outcome == Pass && renderer.events == old(renderer.events)
      ensures cameraType == Game && pass.None? ==>
        outcome == Fail(NullReferenceException) && renderer.events == old(renderer.events)
      ensures cameraType == Game && pass.Some? ==> outcome == Pass
      ensures cameraType == Game && pass.Some? ==>
        renderer.events == old(renderer.events) + (if pass.value.Enabled() then [Event.EnqueuePass(pass.value.profilerTag)] else [])
    {
      if cameraType == Game {
        if pass.None? {
          return Fail(NullReferenceException);
        }
        pass.value.EnqueuePass(renderer);
      }
      return Pass;
    }

    method Dispose(log: CommandLog) returns (outcome: Outcome<Exception>)
      modifies log
      ensures pass.None? ==> outcome == Fail(NullReferenceException) && log.events == old(log.events)
      ensures pass.Some? ==> outcome == Pass
      ensures pass.Some? ==>
        log.events == old(log.events) + [DestroyMaterial(pass.value.material)] +
          (if pass.value.tempTexHandle.Some? then [ReleaseHandle(pass.value.tempTexHandle.value)] else [])
    {
      if pass.None? {
        return Fail(NullReferenceException);
      }
      pass.value.Dispose(log);
      return Pass;
    }
  }
}
