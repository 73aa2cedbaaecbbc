// The deferred-shading frame: models, lights and light-emitting models are
// queued, then the passes run in turn. The geometry pass draws the queued
// models into the G-buffer; the lighting pass shades a screen quad from the
// G-buffer's three colour textures and the queued lights; the light geometry
// pass draws the emissive models; the blur pass ping-pongs ten times between
// two one-texture framebuffers; the final pass binds the textures it is
// given to units 0, 1, … and draws the quad to the screen.
//
// A pass issues calls and changes nothing the pipeline holds, so it is a
// method that returns the calls it makes, next to the framebuffer the
// source returns.

module Pipelines {
  import opened Wrappers
  import opened GL
  import opened Vectors
  import opened Framebuffers
  import opened VertexArrays
  import opened Meshes
  import opened Models

  /** A light as the passes see it: the name of its uniform struct and its
      colours; what it writes into that struct is one `SetLightUniforms`. */
  datatype Light = Light(name: string, ambient: Vec3, color: Vec3)

  /** A model queued for the geometry pass. The queue holds a copy of the
      model, so its meshes are fixed when it is queued; the transform is a
      matrix uniform and is recorded by name only. */
  datatype Renderable = Renderable(meshes: seq<Mesh>)

  /** A model queued for the light geometry pass, drawn in its light's
      colour. */
  datatype Emissive = Emissive(meshes: seq<Mesh>, light: Light)

  /** Size in bytes of the screen quad: four vertices of five floats. */
  const QUAD_SIZE: int := 80
  /** Bytes from one quad vertex to the next. */
  const QUAD_STRIDE: int := 20
  /** Number of blur steps. */
  const BLUR_STEPS: nat := 10

  /** The calls `Renderable::Draw` makes. */
  function RenderableDraw(r: Renderable): seq<Command>
  {
    [SetMat4("model")] + DrawMeshes(r.meshes, |r.meshes|)
  }

  /** The calls `Emissive::Draw` makes: the light's colour is set too. */
  function EmissiveDraw(e: Emissive): seq<Command>
  {
    [SetMat4("model"), SetVec3("color")] + DrawMeshes(e.meshes, |e.meshes|)
  }

  /** A queued model draws each of its meshes once, in order. */
  lemma RenderableDrawsEachMesh(r: Renderable)
    ensures DrawCalls(RenderableDraw(r)) == ElementDraws(r.meshes, |r.meshes|)
  {
    NoDrawCalls([SetMat4("model")]);
    DrawMeshesDrawEach(r.meshes, |r.meshes|);
    DrawCallsCompose([SetMat4("model")], DrawMeshes(r.meshes, |r.meshes|));
  }

  /** A queued emissive model draws each of its meshes once, in order. */
  lemma EmissiveDrawsEachMesh(e: Emissive)
    ensures DrawCalls(EmissiveDraw(e)) == ElementDraws(e.meshes, |e.meshes|)
  {
    NoDrawCalls([SetMat4("model"), SetVec3("color")]);
    DrawMeshesDrawEach(e.meshes, |e.meshes|);
    DrawCallsCompose([SetMat4("model"), SetVec3("color")], DrawMeshes(e.meshes, |e.meshes|));
  }

  /** The calls drawing the first `n` queued models, in queue order. */
  function GeometryDraws(queue: seq<Renderable>, n: nat): seq<Command>
    requires n <= |queue|
  {
    if n == 0 then [] else GeometryDraws(queue, n - 1) + RenderableDraw(queue[n - 1])
  }

  /** The draws of the first `n` queued models: each model's meshes, model
      after model. */
  function GeometryElementDraws(queue: seq<Renderable>, n: nat): seq<Command>
    requires n <= |queue|
  {
    if n == 0 then []
    else GeometryElementDraws(queue, n - 1) + ElementDraws(queue[n - 1].meshes, |queue[n - 1].meshes|)
  }

  /** The geometry pass draws every queued model exactly once, in the order
      they were queued. */
  lemma {:induction false} GeometryDrawsInOrder(queue: seq<Renderable>, n: nat)
    requires n <= |queue|
    ensures DrawCalls(GeometryDraws(queue, n)) == GeometryElementDraws(queue, n)
  {
    if n > 0 {
      GeometryDrawsInOrder(queue, n - 1);
      RenderableDrawsEachMesh(queue[n - 1]);
      DrawCallsCompose(GeometryDraws(queue, n - 1), RenderableDraw(queue[n - 1]));
    }
  }

  /** The calls drawing the first `n` queued emissive models, in queue
      order. */
  function EmissiveDraws(queue: seq<Emissive>, n: nat): seq<Command>
    requires n <= |queue|
  {
    if n == 0 then [] else EmissiveDraws(queue, n - 1) + EmissiveDraw(queue[n - 1])
  }

  /** The draws of the first `n` queued emissive models, model after
      model. */
  function EmissiveElementDraws(queue: seq<Emissive>, n: nat): seq<Command>
    requires n <= |queue|
  {
    if n == 0 then []
    else EmissiveElementDraws(queue, n - 1) + ElementDraws(queue[n - 1].meshes, |queue[n - 1].meshes|)
  }

  /** The light geometry pass draws every queued emissive model exactly
      once, in the order they were queued. */
  lemma {:induction false} EmissiveDrawsInOrder(queue: seq<Emissive>, n: nat)
    requires n <= |queue|
    ensures DrawCalls(EmissiveDraws(queue, n)) == EmissiveElementDraws(queue, n)
  {
    if n > 0 {
      EmissiveDrawsInOrder(queue, n - 1);
      EmissiveDrawsEachMesh(queue[n - 1]);
      DrawCallsCompose(EmissiveDraws(queue, n - 1), EmissiveDraw(queue[n - 1]));
    }
  }

  /** The uniform writes of the first `n` queued lights. */
  function LightUniforms(lights: seq<Light>, n: nat): (cmds: seq<Command>)
    requires n <= |lights|
    ensures |cmds| == n
  {
    if n == 0 then [] else LightUniforms(lights, n - 1) + [SetLightUniforms(lights[n - 1].name)]
  }

  /** Light k writes its uniforms k-th: every queued light once, in queue
      order. */
  lemma {:induction false} LightUniformsAt(lights: seq<Light>, n: nat, k: nat)
    requires k < n <= |lights|
    ensures LightUniforms(lights, n)[k] == SetLightUniforms(lights[k].name)
  {
    if k < n - 1 {
      LightUniformsAt(lights, n - 1, k);
    }
  }

  /** Writing light uniforms draws nothing. */
  lemma LightUniformsDrawNothing(lights: seq<Light>, n: nat)
    requires n <= |lights|
    ensures DrawCalls(LightUniforms(lights, n)) == []
  {
    forall k | 0 <= k < n
      ensures !IsDraw(LightUniforms(lights, n)[k])
    {
      LightUniformsAt(lights, n, k);
    }
    NoDrawCalls(LightUniforms(lights, n));
  }

  /** The calls binding texture k of `textures` to unit k, for k < n. */
  function UnitBindings(textures: seq<Name>, n: nat): (cmds: seq<Command>)
    requires n <= |textures|
    ensures |cmds| == 2 * n
  {
    if n == 0 then [] else UnitBindings(textures, n - 1) + [ActiveTexture(n - 1), BindTexture(textures[n - 1])]
  }

  /** Unit i is made active and texture i is bound right after. */
  lemma {:induction false} UnitBindingsAt(textures: seq<Name>, n: nat, i: nat)
    requires i < n <= |textures|
    ensures UnitBindings(textures, n)[2 * i] == ActiveTexture(i)
    ensures UnitBindings(textures, n)[2 * i + 1] == BindTexture(textures[i])
  {
    if i < n - 1 {
      UnitBindingsAt(textures, n - 1, i);
    }
  }

  /** Binding textures to units draws nothing. */
  lemma UnitBindingsDrawNothing(textures: seq<Name>, n: nat)
    requires n <= |textures|
    ensures DrawCalls(UnitBindings(textures, n)) == []
  {
    forall k | 0 <= k < 2 * n
      ensures !IsDraw(UnitBindings(textures, n)[k])
    {
      UnitBindingsAt(textures, n, k / 2);
    }
    NoDrawCalls(UnitBindings(textures, n));
  }

  /** Drawing the screen quad from vertex array `vao` and unbinding it. */
  function QuadDraw(vao: Name): seq<Command>
  {
    [BindVertexArray(vao), DrawArrays(TRIANGLE_STRIP, 0, 4), BindVertexArray(0)]
  }

  /** The quad draw is one four-vertex strip and leaves no vertex array
      bound. */
  lemma QuadDrawOnce(vao: Name, init: nat)
    ensures DrawCalls(QuadDraw(vao)) == [DrawArrays(TRIANGLE_STRIP, 0, 4)]
    ensures VertexArrayBinding(QuadDraw(vao), init) == 0
  {
    OneDrawCall(QuadDraw(vao), 1);
    VertexArrayLast(QuadDraw(vao), 2, init);
  }

  /** Calls before any draws, followed by the quad, draw the quad once. */
  lemma ThenQuadDrawsOnce(setup: seq<Command>, vao: Name)
    requires DrawCalls(setup) == []
    ensures DrawCalls(setup + QuadDraw(vao)) == [DrawArrays(TRIANGLE_STRIP, 0, 4)]
  {
    QuadDrawOnce(vao, 0);
    DrawCallsCompose(setup, QuadDraw(vao));
  }

  /** The calls of the lighting pass into framebuffer `target`, sampling
      the G-buffer textures `gTextures`. */
  function LightingCommands(target: Name, shader: nat, gTextures: seq<Name>, lights: seq<Light>, vao: Name): seq<Command>
    requires |gTextures| >= 3
  {
    [BindFramebuffer(FRAMEBUFFER, target), Clear(COLOR_AND_DEPTH_BUFFER_BITS), UseProgram(shader)]
    + UnitBindings(gTextures, 3)
    + LightUniforms(lights, |lights|)
    + [SetVec3("viewPos")] + QuadDraw(vao)
  }

  /** The lighting pass draws the quad once, whatever the lights. */
  lemma LightingDrawsOnce(target: Name, shader: nat, gTextures: seq<Name>, lights: seq<Light>, vao: Name)
    requires |gTextures| >= 3
    ensures DrawCalls(LightingCommands(target, shader, gTextures, lights, vao)) == [DrawArrays(TRIANGLE_STRIP, 0, 4)]
  {
    var setup := [BindFramebuffer(FRAMEBUFFER, target), Clear(COLOR_AND_DEPTH_BUFFER_BITS), UseProgram(shader)];
    var units, uniforms := UnitBindings(gTextures, 3), LightUniforms(lights, |lights|);
    NoDrawCalls(setup);
    UnitBindingsDrawNothing(gTextures, 3);
    LightUniformsDrawNothing(lights, |lights|);
    NoDrawCalls([SetVec3("viewPos")]);
    DrawCallsCompose(setup, units);
    DrawCallsCompose(setup + units, uniforms);
    DrawCallsCompose(setup + units + uniforms, [SetVec3("viewPos")]);
    ThenQuadDrawsOnce(setup + units + uniforms + [SetVec3("viewPos")], vao);
  }

  /** The G-buffer's three textures bound to units 0, 1 and 2, one after
      the other. */
  lemma GBufferUnits(g: seq<Name>)
    requires |g| >= 3
    ensures UnitBindings(g, 3) == [ActiveTexture(0), BindTexture(g[0]), ActiveTexture(1), BindTexture(g[1]),
                                   ActiveTexture(2), BindTexture(g[2])]
  {
    assert UnitBindings(g, 1) == [ActiveTexture(0), BindTexture(g[0])];
    assert UnitBindings(g, 2) == [ActiveTexture(0), BindTexture(g[0]), ActiveTexture(1), BindTexture(g[1])];
  }

  // ---------------------------------------------------------------------
  // The blur schedule

  /** The `horizontal` flag at blur step `i`: it starts true and flips after
      every step. */
  predicate Horizontal(i: nat)
  {
    i % 2 == 0
  }

  /** The ping-pong target step `i` renders into: the flag indexes the pair. */
  function BlurTarget(i: nat): nat
  {
    if Horizontal(i) then 1 else 0
  }

  /** The ping-pong target step `i` samples once it is not the first step:
      the one the negated flag indexes. */
  function BlurSource(i: nat): nat
  {
    if Horizontal(i) then 0 else 1
  }

  /** The calls of blur step `i`, given the ping-pong framebuffers
      `targets`, their colour textures `textures` and the input texture
      `first` that the first step samples. */
  function BlurStep(i: nat, first: Name, targets: seq<Name>, textures: seq<Name>): seq<Command>
    requires |targets| == 2 && |textures| == 2
  {
    [ BindFramebuffer(FRAMEBUFFER, targets[BlurTarget(i)]),
      SetInt("horizontal", if Horizontal(i) then 1 else 0),
      ActiveTexture(0),
      BindTexture(if i == 0 then first else textures[BlurSource(i)]),
      DrawArrays(TRIANGLE_STRIP, 0, 4) ]
  }

  /** The first `n` blur steps, one after the other. */
  function BlurSteps(n: nat, first: Name, targets: seq<Name>, textures: seq<Name>): (cmds: seq<Command>)
    requires |targets| == 2 && |textures| == 2
    ensures |cmds| == 5 * n
  {
    if n == 0 then [] else BlurSteps(n - 1, first, targets, textures) + BlurStep(n - 1, first, targets, textures)
  }

  /** Step i occupies calls 5i to 5i + 4 of the schedule. */
  lemma {:induction false} BlurStepsAt(n: nat, first: Name, targets: seq<Name>, textures: seq<Name>, i: nat)
    requires |targets| == 2 && |textures| == 2 && i < n
    ensures BlurSteps(n, first, targets, textures)[5 * i..5 * i + 5] == BlurStep(i, first, targets, textures)
  {
    var steps := BlurSteps(n, first, targets, textures);
    var before := BlurSteps(n - 1, first, targets, textures);
    if i < n - 1 {
      BlurStepsAt(n - 1, first, targets, textures, i);
      assert steps[5 * i..5 * i + 5] == before[5 * i..5 * i + 5];
    } else {
      assert steps[5 * i..5 * i + 5] == steps[|before|..];
    }
  }

  /** Step i renders into ping-pong target 1 - i mod 2, the `horizontal`
      uniform is 1 on even steps and 0 on odd ones, and every step after
      the first samples the texture of the target the previous step
      rendered into. */
  lemma BlurSchedule(i: nat)
    ensures BlurTarget(i) == 1 - i % 2
    ensures Horizontal(i) <==> i % 2 == 0
    ensures i > 0 ==> BlurSource(i) == BlurTarget(i - 1)
  {
  }

  /** Each blur step draws the quad once. */
  lemma {:induction false} BlurStepsDraws(n: nat, first: Name, targets: seq<Name>, textures: seq<Name>)
    requires |targets| == 2 && |textures| == 2
    ensures DrawCalls(BlurSteps(n, first, targets, textures)) == seq(n, _ => DrawArrays(TRIANGLE_STRIP, 0, 4))
  {
    if n > 0 {
      var step := BlurStep(n - 1, first, targets, textures);
      BlurStepsDraws(n - 1, first, targets, textures);
      OneDrawCall(step, 4);
      DrawCallsCompose(BlurSteps(n - 1, first, targets, textures), step);
    }
  }

  // ---------------------------------------------------------------------
  // The pipeline

  /** A vertex array with no buffers yet and a fresh buffer are the
      reference-count invariant's whole world. */
  lemma QuadAdmitted(quad: VertexArray, b: Buffer)
    requires quad.buffers == [] && b.live && b.uses == 0
    ensures RefCountsExact([quad], {b})
  {
    AdmitVertexArray([], {}, quad);
    AdmitBuffer([quad], {}, b);
    assert {} + {b} == {b};
  }

  /** The quad's vertex array refers, through attributes 0 and 1, to one
      array buffer named `name` and holding both references to it. */
  ghost predicate QuadReady(quad: VertexArray, name: Name)
    reads quad, quad.buffers
  {
    |quad.buffers| == 2 && quad.buffers[0] == quad.buffers[1] &&
    quad.buffers[0].id == name && quad.buffers[0].target == ARRAY_BUFFER &&
    RefCountsExact([quad], {quad.buffers[0]}) && quad.buffers[0].uses == 2
  }

  /** The G-buffer holds three colour textures named from `n` on, drawn to
      through attachments 0 to 2, and the depth buffer `n + 3`; the blur
      targets hold one colour texture each, `n + 4` and `n + 5`. */
  ghost predicate TargetsReady(g: Framebuffer, pp0: Framebuffer, pp1: Framebuffer, n: Name)
    reads g, pp0, pp1
  {
    g.colorBuffers == Fresh(n, 3) && g.drawAttachments == Attachments(3) &&
    g.depthBuffer == Some(n + 3) &&
    pp0.colorBuffers == [n + 4] && pp0.depthBuffer == None &&
    pp1.colorBuffers == [n + 5] && pp1.depthBuffer == None
  }

  /** A vertex array with no buffers, and three distinct framebuffers with
      nothing attached. */
  ghost predicate Blank(quad: VertexArray, g: Framebuffer, pp0: Framebuffer, pp1: Framebuffer)
    reads quad, g, pp0, pp1
  {
    quad.buffers == [] &&
    g.Valid() && pp0.Valid() && pp1.Valid() &&
    g.colorBuffers == [] && pp0.colorBuffers == [] && pp1.colorBuffers == [] &&
    g.depthBuffer == None && pp0.depthBuffer == None && pp1.depthBuffer == None &&
    g != pp0 && g != pp1 && pp0 != pp1
  }

  /** The first part of the pipeline's constructor: the blur targets, the
      G-buffer and the quad's vertex array, named in member order. */
  method CreateParts(gl: Context) returns (pp0: Framebuffer, pp1: Framebuffer, g: Framebuffer, quad: VertexArray)
    modifies gl
    ensures fresh(pp0) && fresh(pp1) && fresh(g) && fresh(quad)
    ensures pp0.id == old(gl.next) && pp1.id == old(gl.next) + 1
    ensures g.id == old(gl.next) + 2 && quad.id == old(gl.next) + 3
    ensures gl.next == old(gl.next) + 4 && gl.trace == old(gl.trace)
    ensures Blank(quad, g, pp0, pp1)
  {
    pp0 := new Framebuffer(gl);
    pp1 := new Framebuffer(gl);
    g := new Framebuffer(gl);
    quad := new VertexArray(gl);
  }

  /** The parts named from `n` on: the blur targets `n` and `n + 1`, the
      G-buffer `n + 2`, the quad's vertex array `n + 3` and its buffer
      `n + 4`, then the textures and the depth buffer. */
  ghost predicate PartsBuilt(quad: VertexArray, g: Framebuffer, pp0: Framebuffer, pp1: Framebuffer, n: Name)
    reads quad, quad.buffers, g, pp0, pp1
  {
    pp0.id == n && pp1.id == n + 1 && g.id == n + 2 && quad.id == n + 3 &&
    QuadReady(quad, n + 4) &&
    TargetsReady(g, pp0, pp1, n + 5)
  }

  /** What the pipeline's constructor does, on the objects it creates. */
  method Assemble(width: int, height: int, gl: Context)
    returns (pp0: Framebuffer, pp1: Framebuffer, g: Framebuffer, quad: VertexArray)
    modifies gl
    ensures PartsBuilt(quad, g, pp0, pp1, old(gl.next))
    ensures gl.next == old(gl.next) + 11
    ensures DrawFramebuffer(gl.trace, 0) == 0
  {
    pp0, pp1, g, quad := CreateParts(gl);
    SetUp(quad, g, pp0, pp1, width, height, gl);
  }

  /** The body of the pipeline's constructor, after the blur targets, the
      G-buffer and the quad's vertex array have been created: the quad is
      uploaded into one array buffer that attribute 0 (three floats of
      position) and attribute 1 (two floats of texture coordinates) of
      `quad` both refer to; the G-buffer gets three half-float colour
      textures and a depth buffer, then each blur target one colour
      texture. */
  method SetUp(quad: VertexArray, g: Framebuffer, pp0: Framebuffer, pp1: Framebuffer,
               width: int, height: int, gl: Context)
    requires Blank(quad, g, pp0, pp1)
    modifies quad`buffers, g, pp0, pp1, gl
    ensures QuadReady(quad, old(gl.next))
    ensures TargetsReady(g, pp0, pp1, old(gl.next) + 1)
    ensures gl.next == old(gl.next) + 7
    ensures DrawFramebuffer(gl.trace, 0) == 0
  {
    SetUpQuad(quad, gl);
    SetUpTargets(g, pp0, pp1, width, height, gl);
  }

  /** Uploads the quad and points `quad`'s two attributes at it. */
  method SetUpQuad(quad: VertexArray, gl: Context)
    requires quad.buffers == []
    modifies quad`buffers, gl
    ensures |quad.buffers| == 2 && quad.buffers[0] == quad.buffers[1] && fresh(quad.buffers[0])
    ensures quad.buffers[0].id == old(gl.next) && quad.buffers[0].target == ARRAY_BUFFER
    ensures RefCountsExact([quad], {quad.buffers[0]}) && quad.buffers[0].uses == 2
    ensures gl.next == old(gl.next) + 1
  {
    var quadBuffer := new Buffer(ARRAY_BUFFER, QUAD_SIZE, gl);
    AddQuadAttributes(quad, quadBuffer, gl);
  }

  /** Attaches the G-buffer's textures and depth buffer, then each blur
      target's texture. */
  method SetUpTargets(g: Framebuffer, pp0: Framebuffer, pp1: Framebuffer, width: int, height: int, gl: Context)
    requires g.Valid() && pp0.Valid() && pp1.Valid()
    requires g.colorBuffers == [] && pp0.colorBuffers == [] && pp1.colorBuffers == []
    requires g.depthBuffer == None && pp0.depthBuffer == None && pp1.depthBuffer == None
    requires g != pp0 && g != pp1 && pp0 != pp1
    modifies g, pp0, pp1, gl
    ensures g.colorBuffers == Fresh(old(gl.next), 3) && g.drawAttachments == Attachments(3)
    ensures g.depthBuffer == Some(old(gl.next) + 3)
    ensures pp0.colorBuffers == [old(gl.next) + 4] && pp0.depthBuffer == None
    ensures pp1.colorBuffers == [old(gl.next) + 5] && pp1.depthBuffer == None
    ensures gl.next == old(gl.next) + 6
    ensures DrawFramebuffer(gl.trace, 0) == 0
  {
    g.AttachColorBuffers(3, width, height, RGBA16F, gl);
    g.AttachDepthBuffer(width, height, gl);
    pp0.AttachColorBuffers(1, width, height, RGBA16F, gl);
    pp1.AttachColorBuffers(1, width, height, RGBA16F, gl);
  }

  /** Points attributes 0 and 1 of `quad` at the quad's buffer. */
  method AddQuadAttributes(quad: VertexArray, quadBuffer: Buffer, gl: Context)
    requires quad.buffers == [] && quadBuffer.live && quadBuffer.uses == 0
    modifies quad`buffers, quadBuffer`uses, gl`trace
    ensures quad.buffers == [quadBuffer, quadBuffer] && quadBuffer.uses == 2
    ensures RefCountsExact([quad], {quadBuffer})
  {
    QuadAdmitted(quad, quadBuffer);
    quad.AddBuffer(quadBuffer, 0, 3, QUAD_STRIDE, 0, gl, [quad], {quadBuffer}, 0);
    quad.AddBuffer(quadBuffer, 1, 2, QUAD_STRIDE, 12, gl, [quad], {quadBuffer}, 0);
  }

  class Pipeline {
    var geometryQueue: seq<Renderable>
    var lightQueue: seq<Light>
    var emissiveQueue: seq<Emissive>
    /** The two blur targets, indexed by the `horizontal` flag. */
    const pingPong: seq<Framebuffer>
    const gBuffer: Framebuffer
    /** The screen quad. */
    const quadVAO: VertexArray

    /** The pair of blur targets, and the colour textures the passes
        sample: three in the G-buffer, one in each blur target. */
    ghost predicate Valid()
      reads pingPong, gBuffer
    {
      |pingPong| == 2 &&
      |gBuffer.colorBuffers| >= 3 &&
      |pingPong[0].colorBuffers| >= 1 && |pingPong[1].colorBuffers| >= 1
    }

    /** The objects the constructor leaves behind, named from `n` on. */
    ghost predicate Built(n: Name)
      reads pingPong, gBuffer, quadVAO, quadVAO.buffers
    {
      |pingPong| == 2 && PartsBuilt(quadVAO, gBuffer, pingPong[0], pingPong[1], n)
    }

    /** Creates the blur targets, the G-buffer and the quad's vertex array
        in member order, uploads the quad into one buffer that both quad
        attributes refer to, gives the G-buffer three half-float colour
        textures and a depth buffer and each blur target one colour
        texture. */
    constructor (width: int, height: int, gl: Context)
      modifies gl
      ensures Valid()
      ensures geometryQueue == [] && lightQueue == [] && emissiveQueue == []
      ensures Built(old(gl.next))
      ensures gl.next == old(gl.next) + 11
      ensures DrawFramebuffer(gl.trace, 0) == 0
    {
      var pp0, pp1, g, quad := Assemble(width, height, gl);
      geometryQueue, lightQueue, emissiveQueue := [], [], [];
      pingPong, gBuffer, quadVAO := [pp0, pp1], g, quad;
    }

    /** Queues a model for the geometry pass. */
    method PushToGeometryQueue(model: Renderable)
      modifies this`geometryQueue
      ensures geometryQueue == old(geometryQueue) + [model]
      ensures lightQueue == old(lightQueue) && emissiveQueue == old(emissiveQueue)
    {
      geometryQueue := geometryQueue + [model];
    }

    /** Queues a light for the lighting pass. */
    method PushToLightQueue(light: Light)
      modifies this`lightQueue
      ensures lightQueue == old(lightQueue) + [light]
      ensures geometryQueue == old(geometryQueue) && emissiveQueue == old(emissiveQueue)
    {
      lightQueue := lightQueue + [light];
    }

    /** Queues a light-emitting model for the light geometry pass. */
    method PushToEmissiveQueue(model: Emissive)
      modifies this`emissiveQueue
      ensures emissiveQueue == old(emissiveQueue) + [model]
      ensures geometryQueue == old(geometryQueue) && lightQueue == old(lightQueue)
    {
      emissiveQueue := emissiveQueue + [model];
    }

    /** Draws every queued model into the G-buffer, in queue order, after
        clearing it and setting the camera uniforms; returns the G-buffer. */
    method GeometryPass(shader: nat) returns (target: Framebuffer, cmds: seq<Command>)
      ensures target == gBuffer
      ensures cmds == [ BindFramebuffer(FRAMEBUFFER, gBuffer.id), Clear(COLOR_AND_DEPTH_BUFFER_BITS),
                        UseProgram(shader), SetMat4("projection"), SetMat4("view"), SetVec3("viewPos") ]
                      + GeometryDraws(geometryQueue, |geometryQueue|)
      ensures DrawCalls(cmds) == GeometryElementDraws(geometryQueue, |geometryQueue|)
    {
      var setup := [ BindFramebuffer(FRAMEBUFFER, gBuffer.id), Clear(COLOR_AND_DEPTH_BUFFER_BITS),
                     UseProgram(shader), SetMat4("projection"), SetMat4("view"), SetVec3("viewPos") ];
      var draws := [];
      var i := 0;
      while i < |geometryQueue|
        invariant i <= |geometryQueue|
        invariant draws == GeometryDraws(geometryQueue, i)
      {
        draws := draws + RenderableDraw(geometryQueue[i]);
        i := i + 1;
      }
      target, cmds := gBuffer, setup + draws;
      NoDrawCalls(setup);
      GeometryDrawsInOrder(geometryQueue, |geometryQueue|);
      DrawCallsCompose(setup, draws);
    }

    /** Clears `target`, binds the G-buffer's three colour textures to units
        0 to 2, writes every queued light's uniforms in queue order and
        draws the quad once; returns `target`. */
    method LightingPass(target: Framebuffer, shader: nat) returns (result: Framebuffer, cmds: seq<Command>)
      requires Valid()
      ensures result == target
      ensures cmds == LightingCommands(target.id, shader, gBuffer.colorBuffers, lightQueue, quadVAO.id)
      ensures DrawCalls(cmds) == [DrawArrays(TRIANGLE_STRIP, 0, 4)]
    {
      var g := gBuffer.colorBuffers;
      var setup := [BindFramebuffer(FRAMEBUFFER, target.id), Clear(COLOR_AND_DEPTH_BUFFER_BITS), UseProgram(shader)];
      var units := [ActiveTexture(0), BindTexture(g[0]), ActiveTexture(1), BindTexture(g[1]),
                    ActiveTexture(2), BindTexture(g[2])];
      GBufferUnits(g);
      var lights := [];
      var i := 0;
      while i < |lightQueue|
        invariant i <= |lightQueue|
        invariant lights == LightUniforms(lightQueue, i)
      {
        lights := lights + [SetLightUniforms(lightQueue[i].name)];
        i := i + 1;
      }
      result, cmds := target, setup + units + lights + [SetVec3("viewPos")] + QuadDraw(quadVAO.id);
      LightingDrawsOnce(target.id, shader, g, lightQueue, quadVAO.id);
    }

    /** Copies the G-buffer's depth into `target` and unbinds both. */
    method BlitGBuffer(target: Framebuffer, width: int, height: int) returns (cmds: seq<Command>)
      ensures cmds == [ BindFramebuffer(READ_FRAMEBUFFER, gBuffer.id), BindFramebuffer(DRAW_FRAMEBUFFER, target.id),
                        BlitFramebuffer(width, height, DEPTH_BUFFER_BIT, NEAREST), BindFramebuffer(FRAMEBUFFER, 0) ]
      ensures forall init: nat :: ReadFramebuffer(cmds[..2], init) == gBuffer.id && DrawFramebuffer(cmds[..2], init) == target.id
      ensures forall init: nat :: ReadFramebuffer(cmds, init) == 0 && DrawFramebuffer(cmds, init) == 0
    {
      cmds := [ BindFramebuffer(READ_FRAMEBUFFER, gBuffer.id), BindFramebuffer(DRAW_FRAMEBUFFER, target.id),
                BlitFramebuffer(width, height, DEPTH_BUFFER_BIT, NEAREST), BindFramebuffer(FRAMEBUFFER, 0) ];
      var head := cmds[..2];
      assert head == [cmds[0], cmds[1]];
      forall init: nat
        ensures ReadFramebuffer(head, init) == gBuffer.id && DrawFramebuffer(head, init) == target.id
        ensures ReadFramebuffer(cmds, init) == 0 && DrawFramebuffer(cmds, init) == 0
      {
        ReadFramebufferLast(head, 0, init);
        DrawFramebufferLast(head, 1, init);
        ReadFramebufferLast(cmds, 3, init);
        DrawFramebufferLast(cmds, 3, init);
      }
    }

    /** Draws every queued emissive model into `target`, in queue order;
        returns `target`. */
    method LightGeometryPass(target: Framebuffer, shader: nat) returns (result: Framebuffer, cmds: seq<Command>)
      ensures result == target
      ensures cmds == [BindFramebuffer(FRAMEBUFFER, target.id), UseProgram(shader), SetMat4("projection"), SetMat4("view")]
                      + EmissiveDraws(emissiveQueue, |emissiveQueue|)
      ensures DrawCalls(cmds) == EmissiveElementDraws(emissiveQueue, |emissiveQueue|)
    {
      var setup := [BindFramebuffer(FRAMEBUFFER, target.id), UseProgram(shader), SetMat4("projection"), SetMat4("view")];
      var draws := [];
      var i := 0;
      while i < |emissiveQueue|
        invariant i <= |emissiveQueue|
        invariant draws == EmissiveDraws(emissiveQueue, i)
      {
        draws := draws + EmissiveDraw(emissiveQueue[i]);
        i := i + 1;
      }
      result, cmds := target, setup + draws;
      NoDrawCalls(setup);
      EmissiveDrawsInOrder(emissiveQueue, |emissiveQueue|);
      DrawCallsCompose(setup, draws);
    }

    /** Blurs colour texture 1 of `input` by ten passes that alternate
        between the two blur targets; returns the target the last pass
        rendered into. */
    method BlurPass(input: Framebuffer, shader: nat) returns (result: Framebuffer, cmds: seq<Command>)
      requires Valid() && |input.colorBuffers| >= 2
      ensures result == pingPong[BlurTarget(BLUR_STEPS - 1)]
      ensures cmds == [BindFramebuffer(FRAMEBUFFER, input.id), UseProgram(shader), BindVertexArray(quadVAO.id)]
                      + BlurSteps(BLUR_STEPS, input.colorBuffers[1], [pingPong[0].id, pingPong[1].id],
                                  [pingPong[0].colorBuffers[0], pingPong[1].colorBuffers[0]])
                      + [BindVertexArray(0)]
      ensures DrawCalls(cmds) == seq(BLUR_STEPS, _ => DrawArrays(TRIANGLE_STRIP, 0, 4))
    {
      var targets := [pingPong[0].id, pingPong[1].id];
      var textures := [pingPong[0].colorBuffers[0], pingPong[1].colorBuffers[0]];
      var setup := [BindFramebuffer(FRAMEBUFFER, input.id), UseProgram(shader), BindVertexArray(quadVAO.id)];
      var horizontal, firstIteration := true, true;
      var amount := BLUR_STEPS;
      var steps := [];
      var i := 0;
      while i < amount
        invariant i <= amount
        invariant horizontal == Horizontal(i) && firstIteration == (i == 0)
        invariant steps == BlurSteps(i, input.colorBuffers[1], targets, textures)
      {
        var index := if horizontal then 1 else 0;
        var source := if firstIteration then input.colorBuffers[1] else pingPong[1 - index].colorBuffers[0];
        steps := steps + [ BindFramebuffer(FRAMEBUFFER, pingPong[index].id),
                           SetInt("horizontal", if horizontal then 1 else 0),
                           ActiveTexture(0), BindTexture(source),
                           DrawArrays(TRIANGLE_STRIP, 0, 4) ];
        horizontal := !horizontal;
        if firstIteration {
          firstIteration := false;
        }
        i := i + 1;
      }
      result := pingPong[if horizontal then 0 else 1];
      cmds := setup + steps + [BindVertexArray(0)];
      NoDrawCalls(setup);
      NoDrawCalls([BindVertexArray(0)]);
      BlurStepsDraws(BLUR_STEPS, input.colorBuffers[1], targets, textures);
      DrawCallsCompose(setup, steps);
      DrawCallsCompose(setup + steps, [BindVertexArray(0)]);
    }

    /** Renders to the screen: binds `textures[i]` to unit i for every i and
        draws the quad once. */
    method FinalPass(textures: seq<Name>, shader: nat) returns (cmds: seq<Command>)
      ensures cmds == [BindFramebuffer(FRAMEBUFFER, 0), Clear(COLOR_AND_DEPTH_BUFFER_BITS), UseProgram(shader)]
                      + UnitBindings(textures, |textures|) + QuadDraw(quadVAO.id)
      ensures DrawCalls(cmds) == [DrawArrays(TRIANGLE_STRIP, 0, 4)]
    {
      var setup := [BindFramebuffer(FRAMEBUFFER, 0), Clear(COLOR_AND_DEPTH_BUFFER_BITS), UseProgram(shader)];
      var units := [];
      var i := 0;
      while i < |textures|
        invariant i <= |textures|
        invariant units == UnitBindings(textures, i)
      {
        units := units + [ActiveTexture(i), BindTexture(textures[i])];
        i := i + 1;
      }
      cmds := setup + units + QuadDraw(quadVAO.id);
      NoDrawCalls(setup);
      UnitBindingsDrawNothing(textures, |textures|);
      DrawCallsCompose(setup, units);
      ThenQuadDrawsOnce(setup + units, quadVAO.id);
    }
  }
}
