// An off-screen render target: a framebuffer object, the colour textures
// attached to it in order, an optional depth renderbuffer, and the list of
// draw buffers it renders into. Colour attachments can be added in several
// calls; numbering continues from the number already attached.

module Framebuffers {
  import opened GL
  import opened Wrappers

  /** The draw-buffer list of a framebuffer with `n` colour textures:
      `GL_COLOR_ATTACHMENT0`, `GL_COLOR_ATTACHMENT0 + 1`, ... */
  function Attachments(n: nat): (r: seq<nat>)
    ensures |r| == n
  {
    if n == 0 then [] else Attachments(n - 1) + [COLOR_ATTACHMENT0 + n - 1]
  }

  /** Draw buffer `k` of the list is `GL_COLOR_ATTACHMENT0 + k`. */
  lemma {:induction false} AttachmentsAt(n: nat, k: nat)
    requires k < n
    ensures Attachments(n)[k] == COLOR_ATTACHMENT0 + k
  {
    if k < n - 1 {
      AttachmentsAt(n - 1, k);
    }
  }

  /** The calls one round of the attach loop makes for texture `tex`. */
  function ColorTextureSetup(tex: Name, attachment: nat, internalFormat: nat, width: int, height: int): seq<Command>
  {
    [ BindTexture(tex),
      TexImage2D(internalFormat, width, height, RGBA, FLOAT),
      TexParameter(TEXTURE_MIN_FILTER, NEAREST),
      TexParameter(TEXTURE_MAG_FILTER, NEAREST),
      TexParameter(TEXTURE_WRAP_S, CLAMP_TO_EDGE),
      TexParameter(TEXTURE_WRAP_T, CLAMP_TO_EDGE),
      FramebufferTexture2D(attachment, tex) ]
  }

  /** The calls the attach loop makes for the first `n` of the new textures
      `ids` on a framebuffer that already holds `base` colour textures. */
  function ColorSetups(ids: seq<Name>, n: nat, base: nat, internalFormat: nat, width: int, height: int): (cmds: seq<Command>)
    requires n <= |ids|
    ensures |cmds| == 7 * n
  {
    if n == 0 then []
    else
      ColorSetups(ids, n - 1, base, internalFormat, width, height)
      + ColorTextureSetup(ids[n - 1], COLOR_ATTACHMENT0 + base + n - 1, internalFormat, width, height)
  }

  /** The i-th new texture is bound, given its storage and attached at
      `GL_COLOR_ATTACHMENT0 + base + i`: numbering continues after the
      textures attached by earlier calls. */
  lemma {:induction false} ColorSetupAttachesAt(ids: seq<Name>, n: nat, base: nat, internalFormat: nat, width: int, height: int, i: nat)
    requires i < n <= |ids|
    ensures ColorSetups(ids, n, base, internalFormat, width, height)[7 * i] == BindTexture(ids[i])
    ensures ColorSetups(ids, n, base, internalFormat, width, height)[7 * i + 1]
         == TexImage2D(internalFormat, width, height, RGBA, FLOAT)
    ensures ColorSetups(ids, n, base, internalFormat, width, height)[7 * i + 6]
         == FramebufferTexture2D(COLOR_ATTACHMENT0 + base + i, ids[i])
  {
    if i < n - 1 {
      ColorSetupAttachesAt(ids, n - 1, base, internalFormat, width, height, i);
    }
  }

  class Framebuffer {
    /** The framebuffer object's name, fixed when it is created. */
    const id: Name
    var colorBuffers: seq<Name>
    /** `None` until a depth renderbuffer is attached (the C++ member is
        left uninitialised until then). */
    var depthBuffer: Option<Name>
    var drawAttachments: seq<nat>

    /** The draw-buffer list always names exactly the attached colour
        textures, in attachment order. */
    ghost predicate Valid()
      reads this
    {
      drawAttachments == Attachments(|colorBuffers|)
    }

    constructor (gl: Context)
      modifies gl
      ensures Valid()
      ensures id == old(gl.next) && gl.next == old(gl.next) + 1 && gl.trace == old(gl.trace)
      ensures colorBuffers == [] && drawAttachments == [] && depthBuffer == None
    {
      var name := gl.Gen();
      id := name;
      colorBuffers := [];
      depthBuffer := None;
      drawAttachments := [];
    }

    /** Creates `count` colour textures of the given size and format,
        attaches them after the ones already present, points the draw
        buffers at every attachment so far and unbinds the framebuffer. */
    method AttachColorBuffers(count: nat, width: int, height: int, internalFormat: nat, gl: Context)
      requires Valid()
      modifies this`colorBuffers, this`drawAttachments, gl
      ensures Valid()
      ensures colorBuffers == old(colorBuffers) + Fresh(old(gl.next), count)
      ensures |drawAttachments| == |colorBuffers| == |old(colorBuffers)| + count
      ensures gl.next == old(gl.next) + count
      ensures gl.trace == old(gl.trace) + [BindFramebuffer(FRAMEBUFFER, id)]
                          + ColorSetups(Fresh(old(gl.next), count), count, |old(colorBuffers)|, internalFormat, width, height)
                          + [DrawBuffers(drawAttachments), BindFramebuffer(FRAMEBUFFER, 0)]
      ensures DrawFramebuffer(gl.trace, 0) == 0 && ReadFramebuffer(gl.trace, 0) == 0
    {
      gl.Issue([BindFramebuffer(FRAMEBUFFER, id)]);
      ghost var start := gl.trace;
      var buffers := gl.GenMany(count);
      var base := |colorBuffers|;
      var i := 0;
      while i < count
        invariant 0 <= i <= count
        invariant colorBuffers == old(colorBuffers)
        invariant drawAttachments == Attachments(base + i)
        invariant gl.next == old(gl.next) + count
        invariant gl.trace == start + ColorSetups(buffers, i, base, internalFormat, width, height)
      {
        gl.Issue(ColorTextureSetup(buffers[i], COLOR_ATTACHMENT0 + i + base, internalFormat, width, height));
        drawAttachments := drawAttachments + [COLOR_ATTACHMENT0 + i + base];
        i := i + 1;
      }
      colorBuffers := colorBuffers + buffers;
      gl.Issue([DrawBuffers(drawAttachments)]);
      UnbindsFramebuffer(gl.trace);
      gl.Issue([BindFramebuffer(FRAMEBUFFER, 0)]);
    }

    /** Creates a depth renderbuffer of the given size, attaches it and
        unbinds the framebuffer; the colour attachments are untouched. */
    method AttachDepthBuffer(width: int, height: int, gl: Context)
      modifies this`depthBuffer, gl
      ensures depthBuffer == Some(old(gl.next)) && gl.next == old(gl.next) + 1
      ensures colorBuffers == old(colorBuffers) && drawAttachments == old(drawAttachments)
      ensures gl.trace == old(gl.trace)
                          + [ BindFramebuffer(FRAMEBUFFER, id),
                              BindRenderbuffer(old(gl.next)),
                              RenderbufferStorage(DEPTH_COMPONENT, width, height),
                              FramebufferRenderbuffer(DEPTH_ATTACHMENT, old(gl.next)),
                              BindFramebuffer(FRAMEBUFFER, 0) ]
      ensures DrawFramebuffer(gl.trace, 0) == 0 && ReadFramebuffer(gl.trace, 0) == 0
    {
      gl.Issue([BindFramebuffer(FRAMEBUFFER, id)]);
      var rb := gl.Gen();
      depthBuffer := Some(rb);
      gl.Issue([ BindRenderbuffer(rb),
                 RenderbufferStorage(DEPTH_COMPONENT, width, height),
                 FramebufferRenderbuffer(DEPTH_ATTACHMENT, rb) ]);
      gl.Issue([BindFramebuffer(FRAMEBUFFER, 0)]);
    }
  }
}
