/** The pixelate renderer feature: a pass that copies the camera image into a
    temp texture whose sides are the camera's divided by the pixel size,
    rounded down, and back at full size. */
module PixelateFeature {
  import opened Wrappers
  import opened Rendering
  import PS = PixelateSettings

  /** C#'s `/` on int, which truncates toward zero. */
  function TruncatedDiv(a: int, b: int): (q: int)
    requires b > 0
    ensures a >= 0 ==> 0 <= q <= a && q * b <= a < q * b + b
    ensures a < 0 ==> a <= q <= 0 && q * b - b < a <= q * b
  {
    if a >= 0 then FloorDiv(a, b) as int else -(FloorDiv(-a, b) as int)
  }

  lemma MulLeft(x: int, y: int, z: int)
    requires x <= y && z >= 0
    ensures x * z <= y * z
  {
    assert y * z - x * z == (y - x) * z;
  }

  lemma DivisionFacts(a: nat, b: int)
    requires b > 0
    ensures 0 <= a / b <= a && (a / b) * b <= a < (a / b) * b + b
  {
    var q, r := a / b, a % b;
    assert a == q * b + r && 0 <= r < b;
    if q < 0 {
      MulLeft(q, -1, b);
    }
    MulLeft(1, b, q);
  }

  /** Division of a natural number, rounding down. */
  function FloorDiv(a: nat, b: int): (q: nat)
    requires b > 0
    ensures q <= a && q * b <= a < q * b + b
  {
    DivisionFacts(a, b);
    a / b
  }

  /** The temp texture's descriptor for a camera descriptor: width and height
      divided by the pixel size, no depth buffer, everything else copied. */
  function TempDescriptor(camera: RenderTextureDescriptor, pixelSize: int): (d: RenderTextureDescriptor)
    requires pixelSize >= 1
    ensures d.depthBufferBits == 0
    ensures d.graphicsFormat == camera.graphicsFormat && d.msaaSamples == camera.msaaSamples
    ensures d.volumeDepth == camera.volumeDepth && d.useMipMap == camera.useMipMap
    ensures camera.width >= 0 ==>
      0 <= d.width <= camera.width && d.width * pixelSize <= camera.width < d.width * pixelSize + pixelSize
    ensures camera.height >= 0 ==>
      0 <= d.height <= camera.height && d.height * pixelSize <= camera.height < d.height * pixelSize + pixelSize
  {
    camera.(width := TruncatedDiv(camera.width, pixelSize),
            height := TruncatedDiv(camera.height, pixelSize),
            depthBufferBits := 0)
  }

  /** With a pixel size of 1 the temp texture is as large as the camera's. */
  lemma TempDescriptorUnitPixel(camera: RenderTextureDescriptor)
    ensures TempDescriptor(camera, 1) == camera.(depthBufferBits := 0)
  {
  }

  /** Nothing keeps the temp size at 1 or more: a camera side shorter than the
      pixel size gives a temp side of 0. */
  lemma TempDescriptorMayBeEmpty(camera: RenderTextureDescriptor, pixelSize: int)
    requires pixelSize >= 1
    ensures 0 <= camera.width < pixelSize ==> TempDescriptor(camera, pixelSize).width == 0
    ensures 0 <= camera.height < pixelSize ==> TempDescriptor(camera, pixelSize).height == 0
  {
  }

  /** Dividing by a larger number never gives a larger quotient. */
  lemma {:induction false} FloorDivAntitone(a: nat, b: int, b2: int)
    requires 1 <= b <= b2
    ensures FloorDiv(a, b2) <= FloorDiv(a, b)
  {
    var q, q2 := FloorDiv(a, b), FloorDiv(a, b2);
    if q < q2 {
      MulLeft(q + 1, q2, b);
      MulLeft(b, b2, q2);
      assert false;
    }
  }

  /** A larger pixel size never gives a larger temp texture. */
  lemma {:induction false} TempDescriptorShrinks(camera: RenderTextureDescriptor, p: int, p2: int)
    requires 1 <= p <= p2 && camera.width >= 0 && camera.height >= 0
    ensures TempDescriptor(camera, p2).width <= TempDescriptor(camera, p).width
    ensures TempDescriptor(camera, p2).height <= TempDescriptor(camera, p).height
  {
    FloorDivAntitone(camera.width, p, p2);
    FloorDivAntitone(camera.height, p, p2);
  }

  /** What Execute issues when the effect is active: a pooled command buffer
      whose profiled body copies camera → temp → camera without a material. */
  function ExecuteEvents(tag: string, temp: Option<RTHandle>): seq<Event>
  {
    PooledCommandBuffer(tag, [], CopyThroughTemp(temp, None))
  }

  /** Execute issues exactly two blits, both without a material, first
      camera → temp and then temp → camera, inside its profiling scope; it
      sets no material property and gives back the command buffer it took. */
  lemma {:induction false} ExecuteEventsShape(tag: string, temp: Option<RTHandle>)
    ensures var es := ExecuteEvents(tag, temp);
      Blits(es) == [Blit(CameraColorTarget, TempTarget(temp), None, 0), Blit(TempTarget(temp), CameraColorTarget, None, 0)] &&
      (forall i | 0 <= i < |es| :: !es[i].SetFloat? && !es[i].SetTexture?) &&
      BlitsProfiled(es, tag) &&
      Count(es, GetCommandBuffer(tag)) == 1 && CommandBufferReturned(es, tag)
  {
    var copies := CopyThroughTemp(temp, None);
    PooledBlits(tag, [], copies);
    assert Blits(copies) == copies by {
      assert copies[1..][1..] == [];
    }
    PooledScope(tag, [], copies);
    PooledReturned(tag, [], copies);
    PooledLayout(tag, [], copies);
  }

  /** Pixelate.PixelateRenderPass. */
  class PixelateRenderPass {
    /** The volume stack's PixelateSettings component, or null. */
    var settings: Option<PS.Settings>
    var tempTexDescriptor: RenderTextureDescriptor
    var tempTexHandle: Option<RTHandle>
    const profilerTag: string
    const renderPassEvent: RenderPassEvent

    /** The component found on the volume stack is passed in. */
    constructor (settings: Option<PS.Settings>)
      requires settings.Some? ==> PS.Valid(settings.value)
      ensures Valid()
      ensures this.settings == settings
      ensures tempTexDescriptor == DefaultDescriptor && tempTexHandle == None
      ensures profilerTag == "Pixelate" && renderPassEvent == BeforeRenderingPostProcessing
    {
      this.settings := settings;
      tempTexDescriptor := DefaultDescriptor;
      tempTexHandle := None;
      profilerTag := "Pixelate";
      renderPassEvent := BeforeRenderingPostProcessing;
    }

    /** The settings, when present, keep their pixel size in [1, 256]. */
    predicate Valid()
      reads this
    {
      settings.Some? ==> PS.Valid(settings.value)
    }

    /** Whether the pass takes part in the frame. */
    predicate Enabled()
      reads this
    {
      settings.Some? && PS.IsActive(settings.value)
    }

    method EnqueuePass(renderer: CommandLog)
      modifies renderer
      ensures renderer.events == old(renderer.events) + (if Enabled() then [Event.EnqueuePass(profilerTag)] else [])
    {
      if settings.Some? && PS.IsActive(settings.value) {
        renderer.Record(Event.EnqueuePass(profilerTag));
      }
    }

    method Configure(camera: RenderTextureDescriptor, log: CommandLog)
      requires Valid()
      modifies this, log
      ensures settings == old(settings) && Valid()
      ensures settings.None? ==>
        tempTexDescriptor == old(tempTexDescriptor) && tempTexHandle == old(tempTexHandle) &&
        log.events == old(log.events)
      ensures settings.Some? ==>
        tempTexDescriptor == TempDescriptor(camera, settings.value.pixelSize.value) &&
        tempTexHandle == Some(RTHandle(tempTexDescriptor)) &&
        log.events == old(log.events) + [ReAllocateIfNeeded(tempTexDescriptor)]
    {
      if settings.None? {
        return;
      }
      var pixelSize := settings.value.pixelSize.value;
      var width := TruncatedDiv(camera.width, pixelSize);
      var height := TruncatedDiv(camera.height, pixelSize);
      tempTexDescriptor := camera;
      tempTexDescriptor := tempTexDescriptor.(width := width);
      tempTexDescriptor := tempTexDescriptor.(height := height);
      tempTexDescriptor := tempTexDescriptor.(depthBufferBits := 0);
      log.Record(ReAllocateIfNeeded(tempTexDescriptor));
      tempTexHandle := Some(RTHandle(tempTexDescriptor));
    }

    /** Throws when there are no settings; otherwise issues the two blits when
        active and nothing when not. */
    method Execute(log: CommandLog) returns (outcome: Outcome<Exception>)
      modifies log
      ensures settings.None? ==> outcome == Fail(NullReferenceException) && log.events == old(log.events)
      ensures settings.Some? ==> outcome == Pass
      ensures settings.Some? && !PS.IsActive(settings.value) ==> log.events == old(log.events)
      ensures Enabled() ==> log.events == old(log.events) + ExecuteEvents(profilerTag, tempTexHandle)
    {
      if settings.None? {
        return Fail(NullReferenceException);
      }
      if !PS.IsActive(settings.value) {
        return Pass;
      }
      ghost var before := log.events;
      log.Record(GetCommandBuffer(profilerTag));
      ProfiledCopy(profilerTag, tempTexHandle, None, log);
      SubmitCommandBuffer(profilerTag, log);
      assert log.events == before + ExecuteEvents(profilerTag, tempTexHandle);
      return Pass;
    }

    /** Releases the temp handle if there is one; safe before any Configure. */
    method Dispose(log: CommandLog)
      modifies log
      ensures log.events == old(log.events) + (if tempTexHandle.Some? then [ReleaseHandle(tempTexHandle.value)] else [])
    {
      if tempTexHandle.Some? {
        log.Record(ReleaseHandle(tempTexHandle.value));
      }
    }
  }

  /** The renderer feature Pixelate that owns the pass. */
  class Pixelate {
    var pass: Option<PixelateRenderPass>
    var name: string

    constructor (name: string)
      ensures pass == None && this.name == name
    {
      pass := None;
      this.name := name;
    }

    /** Builds a new pass around the settings found on the volume stack. */
    method Create(settings: Option<PS.Settings>)
      requires settings.Some? ==> PS.Valid(settings.value)
      modifies this
      ensures pass.Some? && fresh(pass.value) && name == "Pixelate" && pass.value.Valid()
      ensures pass.value.settings == settings && pass.value.tempTexHandle == None
      ensures pass.value.tempTexDescriptor == DefaultDescriptor
      ensures pass.value.profilerTag == "Pixelate" && pass.value.renderPassEvent == BeforeRenderingPostProcessing
    {
      var p := new PixelateRenderPass(settings);
      pass := Some(p);
      name := "Pixelate";
    }

    /** Enqueues the pass whenever its settings are present and active, for
        every camera type alike; throws before Create. */
    method AddRenderPasses(cameraType: CameraType, renderer: CommandLog) returns (outcome: Outcome<Exception>)
      modifies renderer
      ensures pass.None? ==> outcome == Fail(NullReferenceException) && renderer.events == old(renderer.events)
      ensures pass.Some? ==> outcome == Pass
      ensures pass.Some? ==>
        renderer.events == old(renderer.events) + (if pass.value.Enabled() then [Event.EnqueuePass(pass.value.profilerTag)] else [])
    {
      if pass.None? {
        return Fail(NullReferenceException);
      }
      pass.value.EnqueuePass(renderer);
      return Pass;
    }

    method Dispose(log: CommandLog) returns (outcome: Outcome<Exception>)
      modifies log
      ensures pass.None? ==> outcome == Fail(NullReferenceException) && log.events == old(log.events)
      ensures pass.Some? ==> outcome == Pass
      ensures pass.Some? ==>
        log.events == old(log.events) +
          (if pass.value.tempTexHandle.Some? then [ReleaseHandle(pass.value.tempTexHandle.value)] else [])
    {
      if pass.None? {
        return Fail(NullReferenceException);
      }
      pass.value.Dispose(log);
      return Pass;
    }
  }
}
