/** The parts of Unity's rendering API that the two post-processing passes
    touch, reduced to values: render-texture descriptors, handles, textures,
    materials, and a log of the calls the passes issue to the engine. */
module Rendering {
  import opened Wrappers

  /** An unsigned 8-bit texel, as stored in an R8 texture. */
  type byte = x: int | 0 <= x < 256

  /** The fields of a RenderTextureDescriptor. The passes touch only width,
      height and depthBufferBits; the others stand for everything copied
      unchanged. */
  datatype RenderTextureDescriptor = RenderTextureDescriptor(
    width: int,
    height: int,
    depthBufferBits: int,
    graphicsFormat: int,
    msaaSamples: int,
    volumeDepth: int,
    useMipMap: bool)

  /** The zero-initialised value of the C# struct. */
  const DefaultDescriptor := RenderTextureDescriptor(0, 0, 0, 0, 0, 0, false)

  /** A render-texture handle; only the descriptor it was (re)allocated for is
      observable here. */
  datatype RTHandle = RTHandle(descriptor: RenderTextureDescriptor)

  datatype TextureFormat = R8

  /** A CPU-side texture with its raw texel data in row-major order. */
  datatype Texture2D = Texture2D(
    width: nat,
    height: nat,
    format: TextureFormat,
    mipChain: bool,
    linear: bool,
    data: seq<byte>)

  /** A shader, identified by the name it was found under. */
  datatype Shader = Shader(name: string)

  /** An engine material created from a shader. */
  datatype Material = Material(shader: Shader)

  /** The shader properties the dither pass sets. */
  datatype ShaderProperty = Dithering | Downsampling | DitherTexture | Levels

  datatype CameraType = Game | SceneView | Preview | VR | Reflection

  datatype RenderPassEvent = BeforeRenderingPostProcessing | AfterRenderingPostProcessing

  /** A blit endpoint: the camera's colour target or a pass's temp texture
      (whose handle is null until the pass has been configured). */
  datatype RenderTarget = CameraColorTarget | TempTarget(handle: Option<RTHandle>)

  /** One call issued to the engine, in the order issued. */
  datatype Event =
    | EnqueuePass(pass: string)
    | ReAllocateIfNeeded(descriptor: RenderTextureDescriptor)
    | GetCommandBuffer(tag: string)
    | SetFloat(property: ShaderProperty, value: real)
    | SetTexture(property: ShaderProperty, texture: Option<Texture2D>)
    | BeginSample(tag: string)
    | Blit(source: RenderTarget, destination: RenderTarget, material: Option<Material>, passIndex: int)
    | EndSample(tag: string)
    | ExecuteCommandBuffer(tag: string)
    | ClearCommandBuffer(tag: string)
    | ReleaseCommandBuffer(tag: string)
    | DestroyMaterial(material: Option<Material>)
    | ReleaseHandle(handle: RTHandle)
    | LogError(message: string)

  /** The blits of an event sequence, in order. */
  function Blits(events: seq<Event>): (r: seq<Event>)
    ensures |r| <= |events|
    ensures forall i | 0 <= i < |r| :: r[i].Blit?
  {
    if events == [] then []
    else (if events[0].Blit? then [events[0]] else []) + Blits(events[1..])
  }

  lemma {:induction false} BlitsAppend(a: seq<Event>, b: seq<Event>)
    ensures Blits(a + b) == Blits(a) + Blits(b)
  {
    if a == [] {
      assert a + b == b;
    } else {
      assert (a + b)[1..] == a[1..] + b;
      BlitsAppend(a[1..], b);
    }
  }

  lemma {:induction false} NoBlits(events: seq<Event>)
    requires forall i | 0 <= i < |events| :: !events[i].Blit?
    ensures Blits(events) == []
  {
    if events != [] {
      NoBlits(events[1..]);
    }
  }

  /** Number of occurrences of `e` in `events`. */
  function Count(events: seq<Event>, e: Event): (n: nat)
    ensures n <= |events|
    ensures n == 0 <==> e !in events
  {
    if events == [] then 0
    else (if events[0] == e then 1 else 0) + Count(events[1..], e)
  }

  lemma {:induction false} CountAppend(a: seq<Event>, b: seq<Event>, e: Event)
    ensures Count(a + b, e) == Count(a, e) + Count(b, e)
  {
    if a == [] {
      assert a + b == b;
    } else {
      assert (a + b)[1..] == a[1..] + b;
      CountAppend(a[1..], b, e);
    }
  }

  /** Every blit is issued inside the profiling scope `tag`: a BeginSample
      precedes it and an EndSample follows it. */
  predicate BlitsProfiled(events: seq<Event>, tag: string)
  {
    forall i | 0 <= i < |events| && events[i].Blit? ::
      BeginSample(tag) in events[..i] && EndSample(tag) in events[i + 1..]
  }

  /** The command buffer taken from the pool under `tag` is given back as
      often as it is taken. */
  predicate CommandBufferReturned(events: seq<Event>, tag: string)
  {
    Count(events, GetCommandBuffer(tag)) == Count(events, ReleaseCommandBuffer(tag))
  }

  /** No event after a blit sets a material property: every SetFloat and
      SetTexture comes before every blit. */
  predicate SetsBeforeBlits(events: seq<Event>)
  {
    forall i, j | 0 <= i < j < |events| && events[i].Blit? :: !events[j].SetFloat? && !events[j].SetTexture?
  }

  /** Copy the camera image into the temp texture without a material, then
      back through pass 0 of `material`. */
  function CopyThroughTemp(temp: Option<RTHandle>, material: Option<Material>): seq<Event>
  {
    [Blit(CameraColorTarget, TempTarget(temp), None, 0), Blit(TempTarget(temp), CameraColorTarget, material, 0)]
  }

  /** Run the command buffer on the render context, clear it and give it
      back to the pool. */
  function Submit(tag: string): seq<Event>
  {
    [ExecuteCommandBuffer(tag), ClearCommandBuffer(tag), ReleaseCommandBuffer(tag)]
  }

  /** The life of a pooled command buffer in a pass's Execute: taken from the
      pool under `tag`, `before` issued, `body` recorded inside the profiling
      scope `tag`, then submitted. */
  function PooledCommandBuffer(tag: string, before: seq<Event>, body: seq<Event>): seq<Event>
  {
    [GetCommandBuffer(tag)] + before + ([BeginSample(tag)] + body + [EndSample(tag)]) + Submit(tag)
  }

  /** The blits of a pooled command buffer are those of its profiled body. */
  lemma {:induction false} PooledBlits(tag: string, before: seq<Event>, body: seq<Event>)
    requires forall i | 0 <= i < |before| :: !before[i].Blit?
    ensures Blits(PooledCommandBuffer(tag, before, body)) == Blits(body)
  {
    var head, scope := [GetCommandBuffer(tag)] + before, [BeginSample(tag)] + body + [EndSample(tag)];
    BlitsAppend(head + scope, Submit(tag));
    BlitsAppend(head, scope);
    BlitsAppend([GetCommandBuffer(tag)], before);
    BlitsAppend([BeginSample(tag)] + body, [EndSample(tag)]);
    BlitsAppend([BeginSample(tag)], body);
    NoBlits(before);
    NoBlits(Submit(tag));
    NoBlits([GetCommandBuffer(tag)]);
    NoBlits([BeginSample(tag)]);
    NoBlits([EndSample(tag)]);
  }

  /** Position facts about a pooled command buffer. */
  lemma PooledLayout(tag: string, before: seq<Event>, body: seq<Event>)
    ensures var es, b, e := PooledCommandBuffer(tag, before, body), 1 + |before|, 2 + |before| + |body|;
      |es| == e + 4 &&
      es[0] == GetCommandBuffer(tag) && es[b] == BeginSample(tag) && es[e] == EndSample(tag) &&
      (forall i | 1 <= i < b :: es[i] == before[i - 1]) &&
      (forall i | b < i < e :: es[i] == body[i - b - 1]) &&
      (forall i | e < i < |es| :: es[i] == Submit(tag)[i - e - 1])
  {
  }

  /** Every blit of a pooled command buffer is recorded inside its profiling
      scope, provided none is issued before the scope opens. */
  lemma {:induction false} PooledScope(tag: string, before: seq<Event>, body: seq<Event>)
    requires forall i | 0 <= i < |before| :: !before[i].Blit?
    ensures BlitsProfiled(PooledCommandBuffer(tag, before, body), tag)
  {
    var es, b, e := PooledCommandBuffer(tag, before, body), 1 + |before|, 2 + |before| + |body|;
    PooledLayout(tag, before, body);
    assert forall k | 0 <= k <= b || e <= k < |es| :: !es[k].Blit?;
    forall i | 0 <= i < |es| && es[i].Blit?
      ensures BeginSample(tag) in es[..i] && EndSample(tag) in es[i + 1..]
    {
      assert es[..i][b] == BeginSample(tag);
      assert es[i + 1..][e - i - 1] == EndSample(tag);
    }
  }

  /** Material properties set before the scope opens precede every blit,
      provided the scope itself sets none. */
  lemma {:induction false} PooledSetsFirst(tag: string, before: seq<Event>, body: seq<Event>)
    requires forall i | 0 <= i < |before| :: !before[i].Blit?
    requires forall i | 0 <= i < |body| :: !body[i].SetFloat? && !body[i].SetTexture?
    ensures SetsBeforeBlits(PooledCommandBuffer(tag, before, body))
  {
    var es, b, e := PooledCommandBuffer(tag, before, body), 1 + |before|, 2 + |before| + |body|;
    PooledLayout(tag, before, body);
    assert forall k | 0 <= k <= b :: !es[k].Blit?;
    assert forall k | b < k < |es| :: !es[k].SetFloat? && !es[k].SetTexture?;
  }

  /** A pooled command buffer is taken once and given back once, provided
      neither `before` nor `body` touches the pool under the same tag. */
  lemma {:induction false} PooledReturned(tag: string, before: seq<Event>, body: seq<Event>)
    requires GetCommandBuffer(tag) !in before && ReleaseCommandBuffer(tag) !in before
    requires GetCommandBuffer(tag) !in body && ReleaseCommandBuffer(tag) !in body
    ensures Count(PooledCommandBuffer(tag, before, body), GetCommandBuffer(tag)) == 1
    ensures CommandBufferReturned(PooledCommandBuffer(tag, before, body), tag)
  {
    var get, release := GetCommandBuffer(tag), ReleaseCommandBuffer(tag);
    var head, scope := [get] + before, [BeginSample(tag)] + body + [EndSample(tag)];
    var tail := Submit(tag);
    assert tail == [ExecuteCommandBuffer(tag), ClearCommandBuffer(tag)] + [release];
    assert get !in scope && release !in scope;
    CountAppend(head + scope, tail, get);
    CountAppend(head + scope, tail, release);
    CountAppend(head, scope, get);
    CountAppend(head, scope, release);
    CountAppend([get], before, get);
    CountAppend([get], before, release);
    CountAppend([ExecuteCommandBuffer(tag), ClearCommandBuffer(tag)], [release], release);
    assert Count([ExecuteCommandBuffer(tag), ClearCommandBuffer(tag)], release) == 0;
  }

  /** The engine side of the model: every call a pass issues is appended here. */
  class CommandLog {
    var events: seq<Event>

    constructor ()
      ensures events == []
    {
      events := [];
    }

    method Record(e: Event)
      modifies this
      ensures events == old(events) + [e]
    {
      events := events + [e];
    }
  }

  /** The profiling scope `tag` around the two blits of CopyThroughTemp. */
  method ProfiledCopy(tag: string, temp: Option<RTHandle>, material: Option<Material>, log: CommandLog)
    modifies log
    ensures log.events == old(log.events) + ([BeginSample(tag)] + CopyThroughTemp(temp, material) + [EndSample(tag)])
  {
    log.Record(BeginSample(tag));
    log.Record(Blit(CameraColorTarget, TempTarget(temp), None, 0));
    log.Record(Blit(TempTarget(temp), CameraColorTarget, material, 0));
    log.Record(EndSample(tag));
  }

  /** Executing the command buffer, clearing it and releasing it to the pool. */
  method SubmitCommandBuffer(tag: string, log: CommandLog)
    modifies log
    ensures log.events == old(log.events) + Submit(tag)
  {
    log.Record(ExecuteCommandBuffer(tag));
    log.Record(ClearCommandBuffer(tag));
    log.Record(ReleaseCommandBuffer(tag));
  }
}
