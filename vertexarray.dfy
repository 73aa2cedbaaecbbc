// Vertex arrays and the vertex buffers they share. A buffer can feed several
// attributes of one vertex array and several vertex arrays; its `uses`
// counter says how many attribute slots refer to it, and the buffer is
// deleted when the last vertex array referring to it is destroyed.

module VertexArrays {
  import opened GL

  class Buffer {
    const id: Name
    const target: nat
    /** Attribute slots, over all live vertex arrays, that refer to this buffer. */
    var uses: nat
    /** False once the buffer has been deleted. */
    var live: bool

    /** Creates the buffer object and uploads `size` bytes of data. */
    constructor (target: nat, size: int, gl: Context)
      modifies gl
      ensures this.target == target && uses == 0 && live
      ensures id == old(gl.next) && gl.next == old(gl.next) + 1
      ensures gl.trace == old(gl.trace) + [BindBuffer(target, id), BufferData(target, size), BindBuffer(target, 0)]
    {
      var name := gl.Gen();
      id := name;
      this.target := target;
      uses := 0;
      live := true;
      new;
      gl.Issue([BindBuffer(target, name), BufferData(target, size), BindBuffer(target, 0)]);
    }

    ghost predicate Dropped(start: nat, dropped: nat)
      reads this
    {
      uses + dropped == start && (live <==> uses > 0)
    }

    /** Drops one reference; the buffer is deleted when none is left. */
    method Release(gl: Context)
      requires live && uses > 0
      modifies this`uses, this`live, gl`trace
      ensures uses == old(uses) - 1 && (live <==> uses > 0)
      ensures gl.trace == old(gl.trace) + (if uses == 0 then [DeleteBuffer(id)] else [])
    {
      uses := uses - 1;
      if uses == 0 {
        Delete(gl);
      }
    }

    /** `delete`: the destructor deletes the buffer object. */
    method Delete(gl: Context)
      requires live
      modifies this`live, gl`trace
      ensures !live && gl.next == old(gl.next)
      ensures gl.trace == old(gl.trace) + [DeleteBuffer(id)]
    {
      live := false;
      gl.Issue([DeleteBuffer(id)]);
    }
  }

  /** How many times `x` occurs in `s`. */
  function Count<T(==)>(x: T, s: seq<T>): nat
  {
    multiset(s)[x]
  }

  /** How many times `x` occurs in all the lists together. */
  function Occurrences<T(==)>(x: T, lists: seq<seq<T>>): nat
  {
    if lists == [] then 0
    else Occurrences(x, lists[..|lists| - 1]) + Count(x, lists[|lists| - 1])
  }

  /** Appending `y` to one of the lists adds one occurrence of `y` and none
      of anything else. */
  lemma {:induction false} OccurrencesAppendAt<T>(x: T, lists: seq<seq<T>>, k: nat, y: T)
    requires k < |lists|
    ensures Occurrences(x, lists[k := lists[k] + [y]])
         == Occurrences(x, lists) + (if x == y then 1 else 0)
  {
    var n := |lists| - 1;
    var after := lists[k := lists[k] + [y]];
    assert after[..n] == if k < n then lists[..n][k := lists[k] + [y]] else lists[..n];
    assert multiset(lists[k] + [y]) == multiset(lists[k]) + multiset{y};
    if k < n {
      OccurrencesAppendAt(x, lists[..n], k, y);
    }
  }

  /** Dropping list `k` removes exactly the occurrences it held. */
  lemma {:induction false} OccurrencesRemoveAt<T>(x: T, lists: seq<seq<T>>, k: nat)
    requires k < |lists|
    ensures Occurrences(x, lists[..k] + lists[k + 1..]) + Count(x, lists[k]) == Occurrences(x, lists)
  {
    var n := |lists| - 1;
    if k == n {
      assert lists[..k] + lists[k + 1..] == lists[..n];
    } else {
      var rest := lists[..k] + lists[k + 1..];
      assert rest[..|rest| - 1] == lists[..n][..k] + lists[..n][k + 1..];
      assert rest[|rest| - 1] == lists[n];
      OccurrencesRemoveAt(x, lists[..n], k);
    }
  }

  /** Every list contributes all its occurrences to the total. */
  lemma {:induction false} OccurrencesCoverEachList<T>(x: T, lists: seq<seq<T>>, k: nat)
    requires k < |lists|
    ensures Count(x, lists[k]) <= Occurrences(x, lists)
  {
    OccurrencesRemoveAt(x, lists, k);
  }

  /** No occurrence in any list means no occurrence in total. */
  lemma {:induction false} OccurrencesAbsent<T>(x: T, lists: seq<seq<T>>)
    requires forall k :: 0 <= k < |lists| ==> x !in lists[k]
    ensures Occurrences(x, lists) == 0
  {
    if lists != [] {
      OccurrencesAbsent(x, lists[..|lists| - 1]);
    }
  }

  /** The deletions the destructor loop performs while it walks `s` and
      decrements counters that started at `uses`: a buffer is deleted at the
      step where its counter reaches zero. */
  function Released(s: seq<Buffer>, uses: map<Buffer, nat>): seq<Buffer>
    requires forall b :: b in s ==> b in uses
  {
    if s == [] then []
    else
      var last := s[|s| - 1];
      Released(s[..|s| - 1], uses) + (if uses[last] == Count(last, s) then [last] else [])
  }

  /** When no counter is below the number of references held in `s`, the
      loop deletes exactly the buffers that `s` held the last references
      to, each exactly once, and no other. */
  lemma {:induction false} ReleasedExactlyLast(s: seq<Buffer>, uses: map<Buffer, nat>, b: Buffer)
    requires forall c :: c in s ==> c in uses && uses[c] >= Count(c, s)
    ensures Count(b, Released(s, uses)) == if b in s && uses[b] == Count(b, s) then 1 else 0
  {
    if s != [] {
      var init, last := s[..|s| - 1], s[|s| - 1];
      assert s == init + [last];
      assert multiset(s) == multiset(init) + multiset{last};
      forall c | c in init ensures c in uses && uses[c] >= Count(c, init) {
        assert c in s;
      }
      ReleasedExactlyLast(init, uses, b);
      var tail := if uses[last] == Count(last, s) then [last] else [];
      assert multiset(Released(s, uses)) == multiset(Released(init, uses)) + multiset(tail);
    }
  }

  /** The calls the destructor loop makes: one `glDeleteBuffers` per deletion. */
  function ReleaseCommands(s: seq<Buffer>, uses: map<Buffer, nat>): seq<Command>
    requires forall b :: b in s ==> b in uses
  {
    if s == [] then []
    else
      var last := s[|s| - 1];
      ReleaseCommands(s[..|s| - 1], uses) + (if uses[last] == Count(last, s) then [DeleteBuffer(last.id)] else [])
  }

  /** The destructor's calls are exactly one `glDeleteBuffers` per buffer
      `Released` lists, in the same order. */
  lemma {:induction false} ReleaseCommandsDeleteReleased(s: seq<Buffer>, uses: map<Buffer, nat>)
    requires forall b :: b in s ==> b in uses
    ensures |ReleaseCommands(s, uses)| == |Released(s, uses)|
    ensures forall i :: 0 <= i < |Released(s, uses)| ==>
              ReleaseCommands(s, uses)[i] == DeleteBuffer(Released(s, uses)[i].id)
  {
    if s != [] {
      ReleaseCommandsDeleteReleased(s[..|s| - 1], uses);
    }
  }

  /** The counters of the buffers in `bs`. */
  ghost function Counters(bs: set<Buffer>): (m: map<Buffer, nat>)
    reads bs
    ensures m.Keys == bs
    ensures forall b :: b in bs ==> m[b] == b.uses
  {
    map b | b in bs :: b.uses
  }

  /** The counters of the buffers listed in `s`. */
  ghost function UsesOf(s: seq<Buffer>): (m: map<Buffer, nat>)
    reads s
    ensures forall b :: b in s ==> b in m && m[b] == b.uses
  {
    map b | b in s :: b.uses
  }

  /** The calls that point attribute `index` of vertex array `vao` at
      buffer `bufferId`: bind both, describe the layout, enable the
      attribute, unbind both. */
  function AttributeCalls(vao: Name, target: nat, bufferId: Name, index: nat, componentCount: nat,
                          stride: int, start: int): (cmds: seq<Command>)
    ensures |cmds| == 6 && cmds[0] == BindVertexArray(vao) && cmds[5] == BindVertexArray(0)
  {
    [ BindVertexArray(vao), BindBuffer(target, bufferId),
      VertexAttribPointer(index, componentCount, stride, start), EnableVertexAttribArray(index),
      BindBuffer(target, 0), BindVertexArray(0) ]
  }

  /** Whatever came before, the attribute calls leave no vertex array bound,
      and no array buffer when the buffer is one. */
  lemma AttributeCallsUnbind(pre: seq<Command>, vao: Name, target: nat, bufferId: Name, index: nat,
                             componentCount: nat, stride: int, start: int)
    ensures VertexArrayBinding(pre + AttributeCalls(vao, target, bufferId, index, componentCount, stride, start), 0) == 0
    ensures target == ARRAY_BUFFER
            ==> ArrayBufferBinding(pre + AttributeCalls(vao, target, bufferId, index, componentCount, stride, start), 0) == 0
  {
    var cmds := pre + AttributeCalls(vao, target, bufferId, index, componentCount, stride, start);
    VertexArrayLast(cmds, |cmds| - 1, 0);
    if target == ARRAY_BUFFER {
      ArrayBufferLast(cmds, |cmds| - 2, 0);
    }
  }

  class VertexArray {
    const id: Name
    var buffers: seq<Buffer>

    constructor (gl: Context)
      modifies gl
      ensures buffers == []
      ensures id == old(gl.next) && gl.next == old(gl.next) + 1 && gl.trace == old(gl.trace)
    {
      var name := gl.Gen();
      id := name;
      buffers := [];
    }

    /** Records one more reference to `buffer` and points attribute `index`
        at it; leaves no vertex array and no array buffer bound. When this is
        the `k`-th of the live vertex arrays `arrays` and `pool` holds the live
        buffers, the reference-count invariant is kept. */
    method AddBuffer(buffer: Buffer, index: nat, componentCount: nat, stride: int, start: int,
                     gl: Context, ghost arrays: seq<VertexArray>, ghost pool: set<Buffer>, ghost k: nat)
      requires buffer.live
      modifies this`buffers, buffer`uses, gl`trace
      ensures buffers == old(buffers) + [buffer]
      ensures buffer.uses == old(buffer.uses) + 1
      ensures gl.trace == old(gl.trace) + AttributeCalls(id, buffer.target, buffer.id, index, componentCount, stride, start)
      ensures VertexArrayBinding(gl.trace, 0) == 0
      ensures buffer.target == ARRAY_BUFFER ==> ArrayBufferBinding(gl.trace, 0) == 0
      ensures old(RefCountsExact(arrays, pool)) && k < |arrays| && arrays[k] == this && buffer in pool
              ==> RefCountsExact(arrays, pool)
    {
      ghost var lists := BufferLists(arrays);
      ghost var uses0 := Counters(pool);
      ghost var wasExact := RefCountsExact(arrays, pool);
      buffer.uses := buffer.uses + 1;
      buffers := buffers + [buffer];

      gl.Issue(AttributeCalls(id, buffer.target, buffer.id, index, componentCount, stride, start));
      AttributeCallsUnbind(old(gl.trace), id, buffer.target, buffer.id, index, componentCount, stride, start);
      if wasExact && k < |arrays| && arrays[k] == this && buffer in pool {
        AddKeepsExact(arrays, pool, k, buffer, lists, uses0);
      }
    }

    /** The destructor: drops one reference per slot, in slot order, deletes
        each buffer whose counter reaches zero, then deletes the vertex array.
        When this is the `k`-th of the live vertex arrays, the invariant then
        holds of the others and the buffers still live. */
    method Destroy(gl: Context, ghost arrays: seq<VertexArray>, ghost pool: set<Buffer>, ghost k: nat)
      requires forall b :: b in buffers ==> b.live && b.uses >= Count(b, buffers)
      modifies buffers, gl`trace
      ensures forall b :: b in buffers ==> b.uses == old(b.uses) - Count(b, buffers)
      ensures forall b :: b in buffers ==> (b.live <==> b.uses > 0)
      ensures gl.trace == old(gl.trace) + ReleaseCommands(buffers, old(UsesOf(buffers)))
                                        + [DeleteVertexArray(id)]
      ensures old(RefCountsExact(arrays, pool)) && k < |arrays| && arrays[k] == this
              ==> RefCountsExact(arrays[..k] + arrays[k + 1..], LiveOnly(pool))
    {
      ghost var lists := BufferLists(arrays);
      ghost var counts := Counters(pool);
      ghost var wasExact := RefCountsExact(arrays, pool);
      ReleaseBuffers(gl);
      gl.Issue([DeleteVertexArray(id)]);
      if wasExact && k < |arrays| && arrays[k] == this {
        forall b | b in pool
          ensures b in buffers ==> b.uses + Count(b, buffers) == counts[b] && (b.live <==> b.uses > 0)
          ensures b !in buffers ==> b.live && b.uses == counts[b]
        {
        }
        DestroyKeepsExact(arrays, pool, k, lists, counts);
      }
    }

    /** The destructor's loop over the slots. */
    method ReleaseBuffers(gl: Context)
      requires forall b :: b in buffers ==> b.live && b.uses >= Count(b, buffers)
      modifies buffers, gl`trace
      ensures forall b :: b in buffers ==> b.uses == old(b.uses) - Count(b, buffers)
      ensures forall b :: b in buffers ==> (b.live <==> b.uses > 0)
      ensures gl.trace == old(gl.trace) + ReleaseCommands(buffers, old(UsesOf(buffers)))
    {
      var bs := buffers;
      ghost var uses0 := UsesOf(bs);
      ghost var t0 := gl.trace;
      assert bs[..0] == [];
      var i := 0;
      while i < |bs|
        invariant i <= |bs|
        invariant Releasing(bs, i, uses0, t0, gl)
      {
        ReleaseSlot(bs, i, uses0, t0, gl);
        i := i + 1;
      }
      assert bs[..i] == bs;
    }
  }

  /** The destructor loop's invariant after `i` slots of `bs`: each
      counter has dropped by the references seen so far, a buffer is live
      while its counter is positive, and the deletions so far were issued. */
  ghost predicate Releasing(bs: seq<Buffer>, i: nat, uses0: map<Buffer, nat>, t0: seq<Command>, gl: Context)
    reads bs, gl
  {
    && i <= |bs|
    && (forall b :: b in bs ==> b in uses0 && uses0[b] >= Count(b, bs))
    && (forall b :: b in bs ==> b.Dropped(uses0[b], Count(b, bs[..i])))
    && (forall b :: b in bs[..i] ==> b in bs)
    && gl.trace == t0 + ReleaseCommands(bs[..i], uses0)
  }

  /** One round of the destructor loop: slot `i` drops its reference. */
  method ReleaseSlot(bs: seq<Buffer>, i: nat, ghost uses0: map<Buffer, nat>, ghost t0: seq<Command>, gl: Context)
    requires i < |bs| && Releasing(bs, i, uses0, t0, gl)
    modifies bs[i], gl`trace
    ensures Releasing(bs, i + 1, uses0, t0, gl)
  {
    var b := bs[i];
    ReleaseStep(bs, i, uses0);
    ghost var deleted := uses0[b] == Count(b, bs[..i + 1]);
    ghost var after := ReleaseCommands(bs[..i + 1], uses0);
    b.Release(gl);
    assert b.uses == 0 <==> deleted;
    assert gl.trace == t0 + after;
  }

  /** One round of the destructor loop, on values: the slot visited adds one
      reference to its buffer and at most one deletion. */
  lemma ReleaseStep(bs: seq<Buffer>, i: nat, uses: map<Buffer, nat>)
    requires i < |bs|
    requires forall b :: b in bs ==> b in uses
    ensures forall c :: Count(c, bs[..i + 1]) == Count(c, bs[..i]) + (if c == bs[i] then 1 else 0)
    ensures Count(bs[i], bs[..i + 1]) <= Count(bs[i], bs)
    ensures ReleaseCommands(bs[..i + 1], uses)
         == ReleaseCommands(bs[..i], uses)
            + (if uses[bs[i]] == Count(bs[i], bs[..i + 1]) then [DeleteBuffer(bs[i].id)] else [])
  {
    assert bs[..i + 1] == bs[..i] + [bs[i]];
    assert multiset(bs[..i + 1]) == multiset(bs[..i]) + multiset{bs[i]};
    assert bs[..i + 1][..i] == bs[..i];
    CountPrefix(bs[i], bs, i + 1);
  }

  lemma CountPrefix<T>(x: T, s: seq<T>, i: nat)
    requires i <= |s|
    ensures Count(x, s[..i]) <= Count(x, s)
  {
    assert s == s[..i] + s[i..];
    assert multiset(s) == multiset(s[..i]) + multiset(s[i..]);
  }

  /** The buffer lists of `arrays`, in order. */
  ghost function BufferLists(arrays: seq<VertexArray>): (lists: seq<seq<Buffer>>)
    reads arrays
    ensures |lists| == |arrays|
    ensures forall k :: 0 <= k < |arrays| ==> lists[k] == arrays[k].buffers
  {
    if arrays == [] then [] else BufferLists(arrays[..|arrays| - 1]) + [arrays[|arrays| - 1].buffers]
  }

  /** The reference-count invariant on plain values: every buffer some list
      refers to is in `pool`, and each buffer of `pool` has a counter equal
      to the number of slots, over all lists, that refer to it. */
  predicate CountsMatch(lists: seq<seq<Buffer>>, counts: map<Buffer, nat>, pool: set<Buffer>)
  {
    && (forall i, b :: 0 <= i < |lists| && b in lists[i] ==> b in pool)
    && (forall b :: b in pool ==> b in counts && counts[b] == Occurrences(b, lists))
  }

  /** The invariant over the live vertex arrays (`arrays`, each listed once)
      and the live buffers (`pool`). */
  ghost predicate RefCountsExact(arrays: seq<VertexArray>, pool: set<Buffer>)
    reads arrays, pool
  {
    && (forall i, j :: 0 <= i < j < |arrays| ==> arrays[i] != arrays[j])
    && (forall b :: b in pool ==> b.live)
    && (forall i, b :: 0 <= i < |arrays| && b in arrays[i].buffers ==> b in pool)
    && (forall b :: b in pool ==> b.uses == Occurrences(b, BufferLists(arrays)))
  }

  /** The buffers of `pool` that have not been deleted. */
  ghost function LiveOnly(pool: set<Buffer>): set<Buffer>
    reads pool
  {
    set b | b in pool && b.live
  }

  /** `addBuffer` keeps the invariant: one more reference in list `k` and
      one more use of `x`. */
  lemma CountsMatchAfterAdd(lists: seq<seq<Buffer>>, counts: map<Buffer, nat>, pool: set<Buffer>, k: nat, x: Buffer)
    requires CountsMatch(lists, counts, pool) && k < |lists| && x in pool
    ensures CountsMatch(lists[k := lists[k] + [x]], counts[x := counts[x] + 1], pool)
  {
    var after := lists[k := lists[k] + [x]];
    forall b | b in pool
      ensures Occurrences(b, after) == counts[x := counts[x] + 1][b]
    {
      OccurrencesAppendAt(b, lists, k, x);
    }
    forall i, b | 0 <= i < |after| && b in after[i]
      ensures b in pool
    {
      if i == k && b != x {
        assert b in lists[k];
      }
    }
  }

  /** Under the invariant, every buffer of list `k` is in the pool and has
      at least as many uses as list `k` holds: destroying that vertex array
      decrements no counter below zero. */
  lemma CountsMatchAllowRelease(lists: seq<seq<Buffer>>, counts: map<Buffer, nat>, pool: set<Buffer>, k: nat)
    requires CountsMatch(lists, counts, pool) && k < |lists|
    ensures forall b :: b in lists[k] ==> b in pool && counts[b] >= Count(b, lists[k])
  {
    forall b | b in lists[k]
      ensures b in pool && counts[b] >= Count(b, lists[k])
    {
      OccurrencesCoverEachList(b, lists, k);
    }
  }

  /** The destructor keeps the invariant: once list `k` is gone and its
      references are subtracted, the survivors are exactly the buffers whose
      counter stayed positive or that list `k` did not refer to. */
  lemma CountsMatchAfterRelease(lists: seq<seq<Buffer>>, counts: map<Buffer, nat>, pool: set<Buffer>, k: nat,
                                counts': map<Buffer, nat>, pool': set<Buffer>)
    requires CountsMatch(lists, counts, pool) && k < |lists|
    requires pool' == set b | b in pool && (b !in lists[k] || counts[b] > Count(b, lists[k]))
    requires forall b :: b in pool' ==> b in counts' && counts'[b] + Count(b, lists[k]) == counts[b]
    ensures CountsMatch(lists[..k] + lists[k + 1..], counts', pool')
  {
    var rest := lists[..k] + lists[k + 1..];
    forall b | b in pool
      ensures Occurrences(b, rest) + Count(b, lists[k]) == counts[b]
    {
      OccurrencesRemoveAt(b, lists, k);
    }
    forall i, b | 0 <= i < |rest| && b in rest[i]
      ensures b in pool'
    {
      var j := if i < k then i else i + 1;
      assert rest[i] == lists[j];
      OccurrencesCoverEachList(b, rest, i);
      if b in lists[k] {
        assert Occurrences(b, rest) > 0;
      }
    }
  }

  /** The step `addBuffer` takes, on the state after it: list `k` has grown
      by `x` and only the counter of `x` has grown, by one. */
  lemma AddKeepsExact(arrays: seq<VertexArray>, pool: set<Buffer>, k: nat, x: Buffer,
                      lists: seq<seq<Buffer>>, uses0: map<Buffer, nat>)
    requires k < |lists| == |arrays| && x in pool
    requires forall i, j :: 0 <= i < j < |arrays| ==> arrays[i] != arrays[j]
    requires forall b :: b in pool ==> b.live
    requires CountsMatch(lists, uses0, pool)
    requires forall i :: 0 <= i < |arrays| ==> arrays[i].buffers == if i == k then lists[k] + [x] else lists[i]
    requires forall b :: b in pool ==> b.uses == if b == x then uses0[b] + 1 else uses0[b]
    ensures RefCountsExact(arrays, pool)
  {
    var after := BufferLists(arrays);
    assert after == lists[k := lists[k] + [x]];
    CountsMatchAfterAdd(lists, uses0, pool, k, x);
  }

  /** The step the destructor of vertex array `k` takes, on the state after
      it: the counters of the buffers it referred to dropped by its
      references, a buffer whose counter reached zero is deleted, and every
      other buffer is as it was. */
  lemma DestroyKeepsExact(arrays: seq<VertexArray>, pool: set<Buffer>, k: nat,
                          lists: seq<seq<Buffer>>, uses0: map<Buffer, nat>)
    requires k < |lists| == |arrays|
    requires forall i, j :: 0 <= i < j < |arrays| ==> arrays[i] != arrays[j]
    requires CountsMatch(lists, uses0, pool)
    requires forall i :: 0 <= i < |arrays| ==> arrays[i].buffers == lists[i]
    requires forall b :: b in pool && b in lists[k] ==>
               b.uses + Count(b, lists[k]) == uses0[b] && (b.live <==> b.uses > 0)
    requires forall b :: b in pool && b !in lists[k] ==> b.live && b.uses == uses0[b]
    ensures RefCountsExact(arrays[..k] + arrays[k + 1..], LiveOnly(pool))
  {
    var rest := arrays[..k] + arrays[k + 1..];
    assert BufferLists(rest) == lists[..k] + lists[k + 1..];
    var survivors := LiveOnly(pool);
    assert survivors == set b | b in pool && (b !in lists[k] || uses0[b] > Count(b, lists[k]));
    CountsMatchAfterRelease(lists, uses0, pool, k, Counters(survivors), survivors);
    forall i, j | 0 <= i < j < |rest|
      ensures rest[i] != rest[j]
    {
      var i', j' := if i < k then i else i + 1, if j < k then j else j + 1;
      assert rest[i] == arrays[i'] && rest[j] == arrays[j'];
    }
  }

  /** Under the invariant, any live vertex array may be destroyed. */
  lemma DestroyAllowed(arrays: seq<VertexArray>, pool: set<Buffer>, k: nat)
    requires RefCountsExact(arrays, pool) && k < |arrays|
    ensures forall b :: b in arrays[k].buffers ==> b.live && b.uses >= Count(b, arrays[k].buffers)
  {
    CountsMatchAllowRelease(BufferLists(arrays), Counters(pool), pool, k);
  }

  /** A fresh buffer, not yet referred to, joins the invariant with count 0. */
  lemma AdmitBuffer(arrays: seq<VertexArray>, pool: set<Buffer>, b: Buffer)
    requires RefCountsExact(arrays, pool)
    requires b !in pool && b.live && b.uses == 0
    ensures RefCountsExact(arrays, pool + {b})
  {
    OccurrencesAbsent(b, BufferLists(arrays));
  }

  /** A fresh, empty vertex array joins the invariant. */
  lemma AdmitVertexArray(arrays: seq<VertexArray>, pool: set<Buffer>, a: VertexArray)
    requires RefCountsExact(arrays, pool)
    requires a !in arrays && a.buffers == []
    ensures RefCountsExact(arrays + [a], pool)
  {
    var lists := BufferLists(arrays + [a]);
    assert lists[..|lists| - 1] == BufferLists(arrays);
  }
}
