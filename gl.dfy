// The slice of the graphics API that the renderer's bookkeeping talks to.
// Object names come from a generator that hands out fresh positive numbers;
// every other call is recorded as a `Command` so that what a method issues,
// and in what order, can be stated and proved. The driver's own behaviour
// (rasterisation, storage, shader compilation) is not modelled.

module Wrappers {
  datatype Option<+T> = None | Some(value: T)
}

module GL {

  /** A name handed out by a `glGen*` call; 0 is never handed out. */
  type Name = n: nat | 0 < n witness 1

  // Enumerants, with the values the OpenGL headers give them.
  const FRAMEBUFFER: nat := 0x8D40
  const READ_FRAMEBUFFER: nat := 0x8CA8
  const DRAW_FRAMEBUFFER: nat := 0x8CA9
  const RENDERBUFFER: nat := 0x8D41
  const COLOR_ATTACHMENT0: nat := 0x8CE0
  const DEPTH_ATTACHMENT: nat := 0x8D00
  const DEPTH_COMPONENT: nat := 0x1902
  const ARRAY_BUFFER: nat := 0x8892
  const ELEMENT_ARRAY_BUFFER: nat := 0x8893

  const RED: nat := 0x1903
  const RGB: nat := 0x1907
  const RGBA: nat := 0x1908
  const SRGB: nat := 0x8C40
  const SRGB_ALPHA: nat := 0x8C42
  const RGBA16F: nat := 0x881A

  const FLOAT: nat := 0x1406
  const UNSIGNED_BYTE: nat := 0x1401
  const UNSIGNED_INT: nat := 0x1405

  const TEXTURE_MIN_FILTER: nat := 0x2801
  const TEXTURE_MAG_FILTER: nat := 0x2800
  const TEXTURE_WRAP_S: nat := 0x2802
  const TEXTURE_WRAP_T: nat := 0x2803
  const NEAREST: nat := 0x2600
  const LINEAR: nat := 0x2601
  const LINEAR_MIPMAP_LINEAR: nat := 0x2703
  const REPEAT: nat := 0x2901
  const CLAMP_TO_EDGE: nat := 0x812F

  const TRIANGLES: nat := 0x0004
  const TRIANGLE_STRIP: nat := 0x0005

  const COLOR_BUFFER_BIT: nat := 0x4000
  const DEPTH_BUFFER_BIT: nat := 0x0100
  const COLOR_AND_DEPTH_BUFFER_BITS: nat := 0x4100

  /** One call into the graphics API. Texture units are numbered from 0
      (`ActiveTexture(i)` is `glActiveTexture(GL_TEXTURE0 + i)`); matrix and
      vector uniform values are numerics and are recorded by name only. */
  datatype Command =
    | BindFramebuffer(target: nat, framebuffer: nat)
    | FramebufferTexture2D(attachment: nat, texture: nat)
    | FramebufferRenderbuffer(attachment: nat, renderbuffer: nat)
    | DrawBuffers(attachments: seq<nat>)
    | BlitFramebuffer(width: int, height: int, mask: nat, filter: nat)
    | BindRenderbuffer(renderbuffer: nat)
    | RenderbufferStorage(internalFormat: nat, width: int, height: int)
    | ActiveTexture(unit: nat)
    | BindTexture(texture: nat)
    | TexImage2D(internalFormat: nat, width: int, height: int, format: nat, dataType: nat)
    | TexParameter(parameter: nat, setting: nat)
    | GenerateMipmap
    | BindVertexArray(vertexArray: nat)
    | BindBuffer(target: nat, buffer: nat)
    | BufferData(target: nat, bytes: int)
    | VertexAttribPointer(index: nat, size: nat, stride: int, offset: int)
    | EnableVertexAttribArray(index: nat)
    | DeleteBuffer(buffer: nat)
    | DeleteVertexArray(vertexArray: nat)
    | UseProgram(program: nat)
    | SetInt(uniform: string, value: int)
    | SetMat4(uniform: string)
    | SetVec3(uniform: string)
    | SetLightUniforms(light: string)
    | Clear(mask: nat)
    | DrawArrays(mode: nat, first: nat, count: nat)
    | DrawElements(mode: nat, count: nat, indexType: nat)
    | DrawElementsInstanced(mode: nat, count: nat, indexType: nat, instances: int)

  // Each binding below is a fold over the calls issued: the value after
  // the first `n` calls of `cmds`, starting from `init`, where the last of
  // those calls to set it wins.

  /** The framebuffer that draw calls go to after `cmds`, starting from `init`:
      `GL_FRAMEBUFFER` sets both the read and the draw binding. */
  function DrawFramebuffer(cmds: seq<Command>, init: nat): nat
  {
    DrawFramebufferAfter(cmds, |cmds|, init)
  }

  function DrawFramebufferAfter(cmds: seq<Command>, n: nat, init: nat): nat
    requires n <= |cmds|
  {
    if n == 0 then init
    else match cmds[n - 1]
      case BindFramebuffer(target, fb) =>
        if target == FRAMEBUFFER || target == DRAW_FRAMEBUFFER then fb
        else DrawFramebufferAfter(cmds, n - 1, init)
      case _ => DrawFramebufferAfter(cmds, n - 1, init)
  }

  /** The framebuffer that reads and blits take from after `cmds`. */
  function ReadFramebuffer(cmds: seq<Command>, init: nat): nat
  {
    ReadFramebufferAfter(cmds, |cmds|, init)
  }

  function ReadFramebufferAfter(cmds: seq<Command>, n: nat, init: nat): nat
    requires n <= |cmds|
  {
    if n == 0 then init
    else match cmds[n - 1]
      case BindFramebuffer(target, fb) =>
        if target == FRAMEBUFFER || target == READ_FRAMEBUFFER then fb
        else ReadFramebufferAfter(cmds, n - 1, init)
      case _ => ReadFramebufferAfter(cmds, n - 1, init)
  }

  /** The vertex array bound after `cmds`. */
  function VertexArrayBinding(cmds: seq<Command>, init: nat): nat
  {
    VertexArrayAfter(cmds, |cmds|, init)
  }

  function VertexArrayAfter(cmds: seq<Command>, n: nat, init: nat): nat
    requires n <= |cmds|
  {
    if n == 0 then init
    else match cmds[n - 1]
      case BindVertexArray(vao) => vao
      case _ => VertexArrayAfter(cmds, n - 1, init)
  }

  /** The buffer bound to `GL_ARRAY_BUFFER` after `cmds`. */
  function ArrayBufferBinding(cmds: seq<Command>, init: nat): nat
  {
    ArrayBufferAfter(cmds, |cmds|, init)
  }

  function ArrayBufferAfter(cmds: seq<Command>, n: nat, init: nat): nat
    requires n <= |cmds|
  {
    if n == 0 then init
    else match cmds[n - 1]
      case BindBuffer(target, buf) =>
        if target == ARRAY_BUFFER then buf else ArrayBufferAfter(cmds, n - 1, init)
      case _ => ArrayBufferAfter(cmds, n - 1, init)
  }

  /** The active texture unit after `cmds`. */
  function ActiveUnit(cmds: seq<Command>, init: nat): nat
  {
    ActiveUnitAfter(cmds, |cmds|, init)
  }

  function ActiveUnitAfter(cmds: seq<Command>, n: nat, init: nat): nat
    requires n <= |cmds|
  {
    if n == 0 then init
    else match cmds[n - 1]
      case ActiveTexture(u) => u
      case _ => ActiveUnitAfter(cmds, n - 1, init)
  }

  predicate IsDraw(c: Command)
  {
    c.DrawArrays? || c.DrawElements? || c.DrawElementsInstanced?
  }

  /** The draw calls among `cmds`, in the order they are issued. */
  function DrawCalls(cmds: seq<Command>): (draws: seq<Command>)
    ensures |draws| <= |cmds|
  {
    DrawCallsAmong(cmds, |cmds|)
  }

  /** The draw calls among the first `n` of `cmds`. */
  function DrawCallsAmong(cmds: seq<Command>, n: nat): (draws: seq<Command>)
    requires n <= |cmds|
    ensures |draws| <= n
  {
    if n == 0 then []
    else DrawCallsAmong(cmds, n - 1) + (if IsDraw(cmds[n - 1]) then [cmds[n - 1]] else [])
  }

  /** Within the first list, a concatenation draws as the first list does. */
  lemma {:induction false} DrawCallsPrefix(a: seq<Command>, b: seq<Command>, n: nat)
    requires n <= |a|
    ensures DrawCallsAmong(a + b, n) == DrawCallsAmong(a, n)
  {
    if n > 0 {
      DrawCallsPrefix(a, b, n - 1);
    }
  }

  /** Past the first list, a concatenation adds the second list's draws. */
  lemma {:induction false} DrawCallsSuffix(a: seq<Command>, b: seq<Command>, k: nat)
    requires k <= |b|
    ensures DrawCallsAmong(a + b, |a| + k) == DrawCalls(a) + DrawCallsAmong(b, k)
  {
    if k == 0 {
      DrawCallsPrefix(a, b, |a|);
    } else {
      DrawCallsSuffix(a, b, k - 1);
      assert (a + b)[|a| + k - 1] == b[k - 1];
    }
  }

  /** The draw calls of two command lists run one after the other are those
      of the first followed by those of the second. */
  lemma DrawCallsCompose(a: seq<Command>, b: seq<Command>)
    ensures DrawCalls(a + b) == DrawCalls(a) + DrawCalls(b)
  {
    DrawCallsSuffix(a, b, |b|);
  }

  /** A list with no draw command in it draws nothing. */
  lemma NoDrawCalls(cmds: seq<Command>)
    requires forall k :: 0 <= k < |cmds| ==> !IsDraw(cmds[k])
    ensures DrawCalls(cmds) == []
  {
    NoDrawCallsAmong(cmds, |cmds|);
  }

  lemma {:induction false} NoDrawCallsAmong(cmds: seq<Command>, n: nat)
    requires n <= |cmds|
    requires forall k :: 0 <= k < n ==> !IsDraw(cmds[k])
    ensures DrawCallsAmong(cmds, n) == []
  {
    if n > 0 {
      NoDrawCallsAmong(cmds, n - 1);
    }
  }

  /** A list that binds nothing to `GL_ARRAY_BUFFER` keeps its binding. */
  lemma KeepsArrayBuffer(cmds: seq<Command>, init: nat)
    requires forall k :: 0 <= k < |cmds| ==> !(cmds[k].BindBuffer? && cmds[k].target == ARRAY_BUFFER)
    ensures ArrayBufferBinding(cmds, init) == init
  {
    KeepsArrayBufferAmong(cmds, |cmds|, init);
  }

  lemma {:induction false} KeepsArrayBufferAmong(cmds: seq<Command>, n: nat, init: nat)
    requires n <= |cmds|
    requires forall k :: 0 <= k < n ==> !(cmds[k].BindBuffer? && cmds[k].target == ARRAY_BUFFER)
    ensures ArrayBufferAfter(cmds, n, init) == init
  {
    if n > 0 {
      KeepsArrayBufferAmong(cmds, n - 1, init);
    }
  }

  /** Within the first list, a concatenation binds as the first list does. */
  lemma {:induction false} BindingsPrefix(a: seq<Command>, b: seq<Command>, n: nat, init: nat)
    requires n <= |a|
    ensures DrawFramebufferAfter(a + b, n, init) == DrawFramebufferAfter(a, n, init)
    ensures ReadFramebufferAfter(a + b, n, init) == ReadFramebufferAfter(a, n, init)
    ensures VertexArrayAfter(a + b, n, init) == VertexArrayAfter(a, n, init)
    ensures ArrayBufferAfter(a + b, n, init) == ArrayBufferAfter(a, n, init)
    ensures ActiveUnitAfter(a + b, n, init) == ActiveUnitAfter(a, n, init)
  {
    if n > 0 {
      BindingsPrefix(a, b, n - 1, init);
    }
  }

  /** Past the first list, a concatenation binds as the second list does,
      started from what the first one left. */
  lemma {:induction false} BindingsSuffix(a: seq<Command>, b: seq<Command>, k: nat, init: nat)
    requires k <= |b|
    ensures DrawFramebufferAfter(a + b, |a| + k, init) == DrawFramebufferAfter(b, k, DrawFramebuffer(a, init))
    ensures ReadFramebufferAfter(a + b, |a| + k, init) == ReadFramebufferAfter(b, k, ReadFramebuffer(a, init))
    ensures VertexArrayAfter(a + b, |a| + k, init) == VertexArrayAfter(b, k, VertexArrayBinding(a, init))
    ensures ArrayBufferAfter(a + b, |a| + k, init) == ArrayBufferAfter(b, k, ArrayBufferBinding(a, init))
    ensures ActiveUnitAfter(a + b, |a| + k, init) == ActiveUnitAfter(b, k, ActiveUnit(a, init))
  {
    if k == 0 {
      BindingsPrefix(a, b, |a|, init);
    } else {
      BindingsSuffix(a, b, k - 1, init);
      assert (a + b)[|a| + k - 1] == b[k - 1];
    }
  }

  /** Running two command lists one after the other leaves the bindings the
      second one leaves, started from those the first one left. */
  lemma BindingsCompose(a: seq<Command>, b: seq<Command>, init: nat)
    ensures DrawFramebuffer(a + b, init) == DrawFramebuffer(b, DrawFramebuffer(a, init))
    ensures ReadFramebuffer(a + b, init) == ReadFramebuffer(b, ReadFramebuffer(a, init))
    ensures VertexArrayBinding(a + b, init) == VertexArrayBinding(b, VertexArrayBinding(a, init))
    ensures ArrayBufferBinding(a + b, init) == ArrayBufferBinding(b, ArrayBufferBinding(a, init))
    ensures ActiveUnit(a + b, init) == ActiveUnit(b, ActiveUnit(a, init))
  {
    BindingsSuffix(a, b, |b|, init);
  }

  // The last call that sets a binding decides it.

  predicate BindsDrawFramebuffer(c: Command)
  {
    c.BindFramebuffer? && (c.target == FRAMEBUFFER || c.target == DRAW_FRAMEBUFFER)
  }

  predicate BindsReadFramebuffer(c: Command)
  {
    c.BindFramebuffer? && (c.target == FRAMEBUFFER || c.target == READ_FRAMEBUFFER)
  }

  lemma {:induction false} DrawFramebufferLastAfter(cmds: seq<Command>, n: nat, i: nat, init: nat)
    requires i < n <= |cmds| && cmds[i].BindFramebuffer?
    requires cmds[i].target == FRAMEBUFFER || cmds[i].target == DRAW_FRAMEBUFFER
    requires forall k :: i < k < n ==> !BindsDrawFramebuffer(cmds[k])
    ensures DrawFramebufferAfter(cmds, n, init) == cmds[i].framebuffer
  {
    if i < n - 1 {
      DrawFramebufferLastAfter(cmds, n - 1, i, init);
    }
  }

  /** A call binding a framebuffer for drawing, with no framebuffer call
      after it, decides the draw framebuffer. */
  lemma DrawFramebufferLast(cmds: seq<Command>, i: nat, init: nat)
    requires i < |cmds| && cmds[i].BindFramebuffer?
    requires cmds[i].target == FRAMEBUFFER || cmds[i].target == DRAW_FRAMEBUFFER
    requires forall k :: i < k < |cmds| ==> !BindsDrawFramebuffer(cmds[k])
    ensures DrawFramebuffer(cmds, init) == cmds[i].framebuffer
  {
    DrawFramebufferLastAfter(cmds, |cmds|, i, init);
  }

  lemma {:induction false} ReadFramebufferLastAfter(cmds: seq<Command>, n: nat, i: nat, init: nat)
    requires i < n <= |cmds| && cmds[i].BindFramebuffer?
    requires cmds[i].target == FRAMEBUFFER || cmds[i].target == READ_FRAMEBUFFER
    requires forall k :: i < k < n ==> !BindsReadFramebuffer(cmds[k])
    ensures ReadFramebufferAfter(cmds, n, init) == cmds[i].framebuffer
  {
    if i < n - 1 {
      ReadFramebufferLastAfter(cmds, n - 1, i, init);
    }
  }

  /** A call binding a framebuffer for reading, with no framebuffer call
      after it, decides the read framebuffer. */
  lemma ReadFramebufferLast(cmds: seq<Command>, i: nat, init: nat)
    requires i < |cmds| && cmds[i].BindFramebuffer?
    requires cmds[i].target == FRAMEBUFFER || cmds[i].target == READ_FRAMEBUFFER
    requires forall k :: i < k < |cmds| ==> !BindsReadFramebuffer(cmds[k])
    ensures ReadFramebuffer(cmds, init) == cmds[i].framebuffer
  {
    ReadFramebufferLastAfter(cmds, |cmds|, i, init);
  }

  lemma {:induction false} VertexArrayLastAfter(cmds: seq<Command>, n: nat, i: nat, init: nat)
    requires i < n <= |cmds| && cmds[i].BindVertexArray?
    requires forall k :: i < k < n ==> !cmds[k].BindVertexArray?
    ensures VertexArrayAfter(cmds, n, init) == cmds[i].vertexArray
  {
    if i < n - 1 {
      VertexArrayLastAfter(cmds, n - 1, i, init);
    }
  }

  /** The last vertex array bound is the one left bound. */
  lemma VertexArrayLast(cmds: seq<Command>, i: nat, init: nat)
    requires i < |cmds| && cmds[i].BindVertexArray?
    requires forall k :: i < k < |cmds| ==> !cmds[k].BindVertexArray?
    ensures VertexArrayBinding(cmds, init) == cmds[i].vertexArray
  {
    VertexArrayLastAfter(cmds, |cmds|, i, init);
  }

  lemma {:induction false} ArrayBufferLastAfter(cmds: seq<Command>, n: nat, i: nat, init: nat)
    requires i < n <= |cmds| && cmds[i].BindBuffer? && cmds[i].target == ARRAY_BUFFER
    requires forall k :: i < k < n ==> !(cmds[k].BindBuffer? && cmds[k].target == ARRAY_BUFFER)
    ensures ArrayBufferAfter(cmds, n, init) == cmds[i].buffer
  {
    if i < n - 1 {
      ArrayBufferLastAfter(cmds, n - 1, i, init);
    }
  }

  /** The last buffer bound to `GL_ARRAY_BUFFER` is the one left bound. */
  lemma ArrayBufferLast(cmds: seq<Command>, i: nat, init: nat)
    requires i < |cmds| && cmds[i].BindBuffer? && cmds[i].target == ARRAY_BUFFER
    requires forall k :: i < k < |cmds| ==> !(cmds[k].BindBuffer? && cmds[k].target == ARRAY_BUFFER)
    ensures ArrayBufferBinding(cmds, init) == cmds[i].buffer
  {
    ArrayBufferLastAfter(cmds, |cmds|, i, init);
  }

  lemma {:induction false} ActiveUnitLastAfter(cmds: seq<Command>, n: nat, i: nat, init: nat)
    requires i < n <= |cmds| && cmds[i].ActiveTexture?
    requires forall k :: i < k < n ==> !cmds[k].ActiveTexture?
    ensures ActiveUnitAfter(cmds, n, init) == cmds[i].unit
  {
    if i < n - 1 {
      ActiveUnitLastAfter(cmds, n - 1, i, init);
    }
  }

  /** The last unit made active is the active one. */
  lemma ActiveUnitLast(cmds: seq<Command>, i: nat, init: nat)
    requires i < |cmds| && cmds[i].ActiveTexture?
    requires forall k :: i < k < |cmds| ==> !cmds[k].ActiveTexture?
    ensures ActiveUnit(cmds, init) == cmds[i].unit
  {
    ActiveUnitLastAfter(cmds, |cmds|, i, init);
  }

  lemma {:induction false} OneDrawCallAmong(cmds: seq<Command>, n: nat, i: nat)
    requires i < n <= |cmds| && IsDraw(cmds[i])
    requires forall k :: 0 <= k < n && k != i ==> !IsDraw(cmds[k])
    ensures DrawCallsAmong(cmds, n) == [cmds[i]]
  {
    if i < n - 1 {
      OneDrawCallAmong(cmds, n - 1, i);
    } else {
      NoDrawCallsAmong(cmds, i);
    }
  }

  /** A list with exactly one draw command draws just that. */
  lemma OneDrawCall(cmds: seq<Command>, i: nat)
    requires i < |cmds| && IsDraw(cmds[i])
    requires forall k :: 0 <= k < |cmds| && k != i ==> !IsDraw(cmds[k])
    ensures DrawCalls(cmds) == [cmds[i]]
  {
    OneDrawCallAmong(cmds, |cmds|, i);
  }

  /** Binding framebuffer 0 last leaves no framebuffer bound for drawing
      or reading. */
  lemma UnbindsFramebuffer(cmds: seq<Command>)
    ensures DrawFramebuffer(cmds + [BindFramebuffer(FRAMEBUFFER, 0)], 0) == 0
    ensures ReadFramebuffer(cmds + [BindFramebuffer(FRAMEBUFFER, 0)], 0) == 0
  {
  }

  /** The driver as the renderer sees it: a generator of fresh object names
      and the list of calls issued so far. */
  class Context {
    var next: Name
    var trace: seq<Command>

    constructor ()
      ensures next == 1 && trace == []
    {
      next := 1;
      trace := [];
    }

    /** One `glGen*(1, &name)`: a name never handed out before. */
    method Gen() returns (name: Name)
      modifies this`next
      ensures name == old(next) && next == old(next) + 1
    {
      name := next;
      next := next + 1;
    }

    /** `glGen*(count, names)`: `count` fresh names in increasing order. */
    method GenMany(count: nat) returns (names: seq<Name>)
      modifies this`next
      ensures names == Fresh(old(next), count)
      ensures next == old(next) + count
    {
      names := [];
      var i := 0;
      while i < count
        invariant 0 <= i <= count
        invariant names == Fresh(old(next), i)
        invariant next == old(next) + i
      {
        var n := Gen();
        names := names + [n];
        i := i + 1;
      }
    }

    method Issue(cmds: seq<Command>)
      modifies this`trace
      ensures trace == old(trace) + cmds
    {
      trace := trace + cmds;
    }
  }

  /** The `count` names a generator standing at `first` hands out next. */
  function Fresh(first: Name, count: nat): (names: seq<Name>)
    ensures |names| == count
  {
    if count == 0 then [] else Fresh(first, count - 1) + [first + count - 1]
  }

  /** The k-th of the names is `first + k`: distinct, in increasing order. */
  lemma {:induction false} FreshAt(first: Name, count: nat, k: nat)
    requires k < count
    ensures Fresh(first, count)[k] == first + k
  {
    if k < count - 1 {
      FreshAt(first, count - 1, k);
    }
  }
}
