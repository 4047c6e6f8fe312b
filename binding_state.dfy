/**
 * The buffer, texture and image bindings a rendering context tracks
 * (RenderingContext/BindingState.h, RenderingContext/BindingState.cpp).
 *
 * A BindingState maps binding points to what is bound there. makeDiff
 * compares two states into per-binding-point flags; apply re-binds the
 * flagged points and forgets those bound to nothing. Buffer views are
 * referred to by handle; the offset and size a view currently has are given
 * by an `extentOf` function, and the device limits are supplied once.
 */
module BindingStates {
  import opened Numeric
  import opened RenderingParameters

  // ---------------------------------------------------------------------------
  // Values

  /** The buffer targets StateDiff_t has a bitset for, and any other target by its code. */
  datatype BufferTarget =
    | ShaderStorageBuffer | UniformBuffer | AtomicCounterBuffer | TransformFeedbackBuffer
    | OtherBufferTarget(code: uint32)

  /** The (target, location) pair that BufferBinding keys its map by. */
  datatype BufferKey = BufferKey(target: BufferTarget, location: uint32)

  /** Where a buffer view currently lies in its buffer (getOffset(), getSize()). */
  datatype Extent = Extent(offset: nat, size: nat)

  /** BufferBinding: the view, its key, and the offset and size it had when bound. */
  datatype BufferBinding = BufferBinding(buffer: Handle, key: BufferKey, offset: nat, size: nat)

  /** The static nullBinding getBufferBinding returns for an unbound key: every member zero. */
  const NULL_BINDING: BufferBinding := BufferBinding(NULL_HANDLE, BufferKey(OtherBufferTarget(0), 0), 0, 0)

  /** The binding bindBuffer stores: offset and size are taken from the view, or 0 for no view. */
  function NewBinding(buffer: Handle, key: BufferKey, extent: Extent): (b: BufferBinding)
    ensures b.buffer == buffer && b.key == key
    ensures buffer == NULL_HANDLE ==> b.offset == 0 && b.size == 0
    ensures buffer != NULL_HANDLE ==> b.offset == extent.offset && b.size == extent.size
  {
    if buffer == NULL_HANDLE then BufferBinding(buffer, key, 0, 0)
    else BufferBinding(buffer, key, extent.offset, extent.size)
  }

  /** ImageBindParameters. */
  datatype ImageBinding = ImageBinding(
    texture: Handle, level: nat, layer: nat, multiLayer: bool, readOperations: bool, writeOperations: bool)

  /** A default-constructed ImageBindParameters. */
  const NULL_IMAGE: ImageBinding := ImageBinding(NULL_HANDLE, 0, 0, false, true, true)

  datatype ImageAccess = WriteOnly | ReadOnly | ReadWrite

  /** getImageAccess: the access mode derived from the read and write flags. */
  function GetImageAccess(p: ImageBinding): (r: ImageAccess)
    ensures r == WriteOnly <==> !p.readOperations
    ensures r == ReadOnly <==> p.readOperations && !p.writeOperations
    ensures r == ReadWrite <==> p.readOperations && p.writeOperations
  {
    if !p.readOperations then WriteOnly else if !p.writeOperations then ReadOnly else ReadWrite
  }

  /** The device limits getMaxBufferBindings, getMaxTextureBindings and getMaxImageBindings report. */
  datatype DeviceLimits = DeviceLimits(
    shaderStorage: nat, uniform: nat, atomicCounter: nat, transformFeedback: nat, otherBuffers: nat,
    textures: nat, images: nat)

  function MaxBufferBindings(limits: DeviceLimits, target: BufferTarget): nat
  {
    match target
    case ShaderStorageBuffer => limits.shaderStorage
    case UniformBuffer => limits.uniform
    case AtomicCounterBuffer => limits.atomicCounter
    case TransformFeedbackBuffer => limits.transformFeedback
    case OtherBufferTarget(_) => limits.otherBuffers
  }

  /** The size of the StateDiff_t bitset for a target; other targets have none. */
  function BitsetSize(target: BufferTarget): nat
  {
    match target
    case ShaderStorageBuffer => 128
    case UniformBuffer => 128
    case AtomicCounterBuffer => 8
    case TransformFeedbackBuffer => 4
    case OtherBufferTarget(_) => 0
  }

  /** The size of StateDiff_t's image bitset. */
  const IMAGE_BITS: nat := 128

  /**
   * The limits fit StateDiff_t: every bindable location has a bit, and the
   * texture loop's 8-bit counter can reach the texture limit.
   */
  predicate LimitsFit(limits: DeviceLimits)
  {
    limits.shaderStorage <= 128 && limits.uniform <= 128 && limits.atomicCounter <= 8
    && limits.transformFeedback <= 4 && limits.textures < 256 && limits.images <= IMAGE_BITS
  }

  /** A lookup with a default for an absent key. */
  function Lookup<K, V>(m: map<K, V>, k: K, default: V): (r: V)
    ensures k in m ==> r == m[k]
    ensures k !in m ==> r == default
  {
    if k in m then m[k] else default
  }

  /** bitset::set(pos, value): sets or clears the bit. */
  function SetBit<K(!new)>(bits: set<K>, k: K, value: bool): (r: set<K>)
    ensures k in r <==> value
    ensures forall j :: j != k ==> (j in r <==> j in bits)
  {
    if value then bits + {k} else bits - {k}
  }

  // ---------------------------------------------------------------------------
  // makeDiff

  /** StateDiff_t: the flagged buffer keys (one bitset per known target), texture units and image units. */
  datatype BindingDiff = BindingDiff(buffers: set<BufferKey>, textures: set<nat>, images: set<nat>)

  /**
   * The two loops over a unit map in makeDiff: first over this state's
   * entries, then over the target's, each setting the unit's bit to whether
   * the entry differs from the other state's (the target's loop writes last).
   */
  function UnitDiff<V(==)>(a: map<nat, V>, t: map<nat, V>, none: V, forced: bool): set<nat>
  {
    (set u | u in a && u !in t && (forced || Lookup(t, u, none) != a[u]))
    + (set u | u in t && (forced || Lookup(a, u, none) != t[u]))
  }

  /**
   * A unit is flagged exactly when one of the states binds it and, unless
   * forced, what the two states bind there differs (an absent unit counts as
   * bound to nothing).
   */
  lemma UnitDiffFlagsDifferingUnits<V>(a: map<nat, V>, t: map<nat, V>, none: V, forced: bool, u: nat)
    ensures u in UnitDiff(a, t, none, forced)
        <==> (u in a || u in t) && (forced || Lookup(a, u, none) != Lookup(t, u, none))
  {
  }

  /** One step of makeDiff's loops over a unit map. */
  method DiffUnits<V(==)>(a: map<nat, V>, t: map<nat, V>, none: V, forced: bool) returns (bits: set<nat>)
    ensures bits == UnitDiff(a, t, none, forced)
  {
    bits := {};
    var todo := a.Keys;
    while todo != {}
      invariant todo <= a.Keys
      invariant bits == set u | u in a && u !in todo && (forced || Lookup(t, u, none) != a[u])
      decreases todo
    {
      var u :| u in todo;
      bits := SetBit(bits, u, forced || Lookup(t, u, none) != a[u]);
      todo := todo - {u};
    }
    ghost var first := bits;
    todo := t.Keys;
    while todo != {}
      invariant todo <= t.Keys
      invariant bits == (set u | u in first && (u !in t || u in todo))
                        + (set u | u in t && u !in todo && (forced || Lookup(a, u, none) != t[u]))
      decreases todo
    {
      var u :| u in todo;
      bits := SetBit(bits, u, forced || Lookup(a, u, none) != t[u]);
      todo := todo - {u};
    }
  }

  /** A binding whose view has moved since it was bound (its offset or size changed). */
  predicate Moved(b: BufferBinding, extentOf: Handle -> Extent)
  {
    b.buffer != NULL_HANDLE && (b.offset != extentOf(b.buffer).offset || b.size != extentOf(b.buffer).size)
  }

  /** The value makeDiff gives a key's bit for the binding `b`, compared with the other state's `other`. */
  predicate BufferFlag(b: BufferBinding, other: BufferBinding, forced: bool, extentOf: Handle -> Extent)
  {
    forced || Moved(b, extentOf) || other != b
  }

  /** The targets makeDiff's switch handles. */
  predicate Tracked(k: BufferKey)
  {
    !k.target.OtherBufferTarget?
  }

  /** The two loops over the buffer maps in makeDiff (the target's loop writes last). */
  function BufferDiff(a: map<BufferKey, BufferBinding>, t: map<BufferKey, BufferBinding>, forced: bool,
                      extentOf: Handle -> Extent): set<BufferKey>
  {
    (set k | k in a && Tracked(k) && k !in t && BufferFlag(a[k], Lookup(t, k, NULL_BINDING), forced, extentOf))
    + (set k | k in t && Tracked(k) && BufferFlag(t[k], Lookup(a, k, NULL_BINDING), forced, extentOf))
  }

  /**
   * A tracked key is flagged exactly when one of the states binds it and,
   * unless forced, a bound view has moved or the two bindings differ.
   */
  lemma BufferDiffFlagsChangedKeys(a: map<BufferKey, BufferBinding>, t: map<BufferKey, BufferBinding>,
                                   forced: bool, extentOf: Handle -> Extent, k: BufferKey)
    ensures k in BufferDiff(a, t, forced, extentOf)
        <==> Tracked(k) && (k in a || k in t)
             && (forced || (k in a && Moved(a[k], extentOf)) || (k in t && Moved(t[k], extentOf))
                 || Lookup(a, k, NULL_BINDING) != Lookup(t, k, NULL_BINDING))
  {
  }

  /**
   * Because the null binding carries the zero key, a tracked key bound in
   * only one of the states is always flagged, even to no view.
   */
  lemma OneSidedBindingIsFlagged(a: map<BufferKey, BufferBinding>, t: map<BufferKey, BufferBinding>,
                                 extentOf: Handle -> Extent, k: BufferKey)
    requires Tracked(k) && (k in a <==> k !in t)
    requires k in a ==> a[k].key == k
    requires k in t ==> t[k].key == k
    ensures k in BufferDiff(a, t, false, extentOf)
  {
    BufferDiffFlagsChangedKeys(a, t, false, extentOf, k);
  }

  /** makeDiff's loops over the buffer maps. */
  method DiffBuffers(a: map<BufferKey, BufferBinding>, t: map<BufferKey, BufferBinding>, forced: bool,
                     extentOf: Handle -> Extent) returns (bits: set<BufferKey>)
    ensures bits == BufferDiff(a, t, forced, extentOf)
  {
    bits := {};
    var todo := a.Keys;
    while todo != {}
      invariant todo <= a.Keys
      invariant bits == set k | k in a && k !in todo && Tracked(k)
                                && BufferFlag(a[k], Lookup(t, k, NULL_BINDING), forced, extentOf)
      decreases todo
    {
      var k :| k in todo;
      if Tracked(k) {
        bits := SetBit(bits, k, BufferFlag(a[k], Lookup(t, k, NULL_BINDING), forced, extentOf));
      }
      todo := todo - {k};
    }
    ghost var first := bits;
    todo := t.Keys;
    while todo != {}
      invariant todo <= t.Keys
      invariant bits == (set k | k in first && (k !in t || k in todo))
                        + (set k | k in t && k !in todo && Tracked(k)
                                   && BufferFlag(t[k], Lookup(a, k, NULL_BINDING), forced, extentOf))
      decreases todo
    {
      var k :| k in todo;
      if Tracked(k) {
        bits := SetBit(bits, k, BufferFlag(t[k], Lookup(a, k, NULL_BINDING), forced, extentOf));
      }
      todo := todo - {k};
    }
  }

  // ---------------------------------------------------------------------------
  // apply

  /** The device commands apply issues. */
  datatype BindCommand =
    | BindBufferRange(key: BufferKey, buffer: Handle, offset: nat, size: nat)
    | UnbindBuffer(key: BufferKey)
    | BindTextureUnit(unit: nat, texture: Handle)
    | BindImageTexture(unit: nat, image: ImageBinding, access: ImageAccess)
    | UnbindImage(unit: nat)

  /**
   * bindOrRemoveBuffer: a key bound to a view is re-bound with the view's
   * current extent (which is recorded); a key bound to no view is forgotten
   * and unbound; an unbound key is left alone.
   */
  function BindOrRemove(m: map<BufferKey, BufferBinding>, k: BufferKey, extentOf: Handle -> Extent)
    : (r: (map<BufferKey, BufferBinding>, seq<BindCommand>))
    ensures k in r.0 <==> k in m && m[k].buffer != NULL_HANDLE
    ensures forall j :: j != k ==> (j in r.0 <==> j in m) && (j in m ==> r.0[j] == m[j])
  {
    if k !in m then (m, [])
    else if m[k].buffer != NULL_HANDLE then
      var e := extentOf(m[k].buffer);
      (m[k := m[k].(offset := e.offset, size := e.size)], [BindBufferRange(k, m[k].buffer, e.offset, e.size)])
    else (m - {k}, [UnbindBuffer(k)])
  }

  /** apply's loop over locations 0 .. n - 1 of one target's bitset. */
  function ApplyTarget(m: map<BufferKey, BufferBinding>, flagged: set<BufferKey>, target: BufferTarget, n: nat,
                       extentOf: Handle -> Extent): (map<BufferKey, BufferBinding>, seq<BindCommand>)
    requires n <= TWO_32
  {
    if n == 0 then (m, [])
    else
      var before := ApplyTarget(m, flagged, target, n - 1, extentOf);
      var k := BufferKey(target, (n - 1) as uint32);
      if k in flagged then
        var step := BindOrRemove(before.0, k, extentOf);
        (step.0, before.1 + step.1)
      else before
  }

  /** Whether apply's loop over `target` with `n` locations visits key `k` with its bit set. */
  predicate Visited(k: BufferKey, flagged: set<BufferKey>, target: BufferTarget, n: nat)
  {
    k.target == target && k.location < n && k in flagged
  }

  /**
   * After the loop over a target, a visited key bound to a view holds its
   * current extent, a visited key bound to no view is gone, and every other
   * key is as it was.
   */
  lemma {:induction false} ApplyTargetEffect(m: map<BufferKey, BufferBinding>, flagged: set<BufferKey>,
                                              target: BufferTarget, n: nat, extentOf: Handle -> Extent,
                                              k: BufferKey)
    requires n <= TWO_32
    ensures Visited(k, flagged, target, n) ==>
      (k in ApplyTarget(m, flagged, target, n, extentOf).0 <==> k in m && m[k].buffer != NULL_HANDLE)
    ensures Visited(k, flagged, target, n) && k in m && m[k].buffer != NULL_HANDLE ==>
      ApplyTarget(m, flagged, target, n, extentOf).0[k]
        == m[k].(offset := extentOf(m[k].buffer).offset, size := extentOf(m[k].buffer).size)
    ensures !Visited(k, flagged, target, n) ==>
      (k in ApplyTarget(m, flagged, target, n, extentOf).0 <==> k in m)
      && (k in m ==> ApplyTarget(m, flagged, target, n, extentOf).0[k] == m[k])
  {
    if n > 0 {
      ApplyTargetEffect(m, flagged, target, n - 1, extentOf, k);
      var before := ApplyTarget(m, flagged, target, n - 1, extentOf);
      var j := BufferKey(target, (n - 1) as uint32);
      if j in flagged {
        var step := BindOrRemove(before.0, j, extentOf);
        assert ApplyTarget(m, flagged, target, n, extentOf).0 == step.0;
        if k == j {
          assert !Visited(k, flagged, target, n - 1);
        } else {
          assert Visited(k, flagged, target, n) == Visited(k, flagged, target, n - 1);
        }
      } else {
        assert Visited(k, flagged, target, n) == Visited(k, flagged, target, n - 1);
      }
    }
  }

  /** apply's loop over one target's bitset. */
  method ApplyTargetLoop(m: map<BufferKey, BufferBinding>, flagged: set<BufferKey>, target: BufferTarget,
                         extentOf: Handle -> Extent) returns (r: map<BufferKey, BufferBinding>, log: seq<BindCommand>)
    ensures (r, log) == ApplyTarget(m, flagged, target, BitsetSize(target), extentOf)
  {
    r, log := m, [];
    var i: nat := 0;
    while i < BitsetSize(target)
      invariant i <= BitsetSize(target)
      invariant (r, log) == ApplyTarget(m, flagged, target, i, extentOf)
    {
      var k := BufferKey(target, i as uint32);
      if k in flagged {
        var step := BindOrRemove(r, k, extentOf);
        r, log := step.0, log + step.1;
      }
      i := i + 1;
    }
  }

  /** apply's loops over the four buffer bitsets, in order. */
  function ApplyBuffers(m: map<BufferKey, BufferBinding>, flagged: set<BufferKey>, extentOf: Handle -> Extent)
    : (map<BufferKey, BufferBinding>, seq<BindCommand>)
  {
    var s := ApplyTarget(m, flagged, ShaderStorageBuffer, BitsetSize(ShaderStorageBuffer), extentOf);
    var u := ApplyTarget(s.0, flagged, UniformBuffer, BitsetSize(UniformBuffer), extentOf);
    var a := ApplyTarget(u.0, flagged, AtomicCounterBuffer, BitsetSize(AtomicCounterBuffer), extentOf);
    var f := ApplyTarget(a.0, flagged, TransformFeedbackBuffer, BitsetSize(TransformFeedbackBuffer), extentOf);
    (f.0, s.1 + u.1 + a.1 + f.1)
  }

  /** Whether apply visits key `k` with its bit set. */
  predicate Applied(k: BufferKey, flagged: set<BufferKey>)
  {
    k in flagged && k.location < BitsetSize(k.target)
  }

  /**
   * After apply's buffer loops, a flagged key bound to a view holds the
   * view's current extent, a flagged key bound to no view is gone, and every
   * other key (unflagged, or of a target without a bitset) is as it was.
   */
  lemma ApplyBuffersEffect(m: map<BufferKey, BufferBinding>, flagged: set<BufferKey>, extentOf: Handle -> Extent,
                           k: BufferKey)
    ensures k in ApplyBuffers(m, flagged, extentOf).0 <==> k in m && !(Applied(k, flagged) && m[k].buffer == NULL_HANDLE)
    ensures k in ApplyBuffers(m, flagged, extentOf).0 ==>
      ApplyBuffers(m, flagged, extentOf).0[k]
        == if Applied(k, flagged) then m[k].(offset := extentOf(m[k].buffer).offset, size := extentOf(m[k].buffer).size)
           else m[k]
  {
    var s := ApplyTarget(m, flagged, ShaderStorageBuffer, 128, extentOf);
    var u := ApplyTarget(s.0, flagged, UniformBuffer, 128, extentOf);
    var a := ApplyTarget(u.0, flagged, AtomicCounterBuffer, 8, extentOf);
    ApplyTargetEffect(a.0, flagged, TransformFeedbackBuffer, 4, extentOf, k);
    ApplyTargetEffect(u.0, flagged, AtomicCounterBuffer, 8, extentOf, k);
    ApplyTargetEffect(s.0, flagged, UniformBuffer, 128, extentOf, k);
    ApplyTargetEffect(m, flagged, ShaderStorageBuffer, 128, extentOf, k);
  }

  /** apply's loop over texture units 0 .. n - 1: a flagged unit is re-bound, or forgotten if bound to nothing. */
  function ApplyTextures(m: map<nat, Handle>, flagged: set<nat>, n: nat): (map<nat, Handle>, seq<BindCommand>)
  {
    if n == 0 then (m, [])
    else
      var before := ApplyTextures(m, flagged, n - 1);
      var u := n - 1;
      if u in flagged && u in before.0 then
        if before.0[u] != NULL_HANDLE then (before.0, before.1 + [BindTextureUnit(u, before.0[u])])
        else (before.0 - {u}, before.1 + [BindTextureUnit(u, NULL_HANDLE)])
      else before
  }

  /** After the texture loop, exactly the visited units bound to nothing are gone; the rest are kept. */
  lemma {:induction false} ApplyTexturesEffect(m: map<nat, Handle>, flagged: set<nat>, n: nat, u: nat)
    ensures u in ApplyTextures(m, flagged, n).0 <==> u in m && !(u < n && u in flagged && m[u] == NULL_HANDLE)
    ensures u in ApplyTextures(m, flagged, n).0 ==> ApplyTextures(m, flagged, n).0[u] == m[u]
  {
    if n > 0 {
      ApplyTexturesEffect(m, flagged, n - 1, u);
    }
  }

  /** apply's loop over image units 0 .. n - 1: a flagged unit is re-bound, or forgotten if its texture is null. */
  function ApplyImages(m: map<nat, ImageBinding>, flagged: set<nat>, n: nat): (map<nat, ImageBinding>, seq<BindCommand>)
  {
    if n == 0 then (m, [])
    else
      var before := ApplyImages(m, flagged, n - 1);
      var u := n - 1;
      if u in flagged && u in before.0 then
        var p := before.0[u];
        if p.texture != NULL_HANDLE then (before.0, before.1 + [BindImageTexture(u, p, GetImageAccess(p))])
        else (before.0 - {u}, before.1 + [UnbindImage(u)])
      else before
  }

  /** After the image loop, exactly the visited units with a null texture are gone; the rest are kept. */
  lemma {:induction false} ApplyImagesEffect(m: map<nat, ImageBinding>, flagged: set<nat>, n: nat, u: nat)
    ensures u in ApplyImages(m, flagged, n).0 <==> u in m && !(u < n && u in flagged && m[u].texture == NULL_HANDLE)
    ensures u in ApplyImages(m, flagged, n).0 ==> ApplyImages(m, flagged, n).0[u] == m[u]
  {
    if n > 0 {
      ApplyImagesEffect(m, flagged, n - 1, u);
    }
  }

  /** Forgetting texture units bound to nothing does not change what getTexture reports. */
  lemma ApplyTexturesKeepsLookups(m: map<nat, Handle>, flagged: set<nat>, n: nat, u: nat)
    ensures Lookup(ApplyTextures(m, flagged, n).0, u, NULL_HANDLE) == Lookup(m, u, NULL_HANDLE)
  {
    ApplyTexturesEffect(m, flagged, n, u);
  }

  method ApplyTexturesLoop(m: map<nat, Handle>, flagged: set<nat>, n: nat) returns (r: map<nat, Handle>, log: seq<BindCommand>)
    ensures (r, log) == ApplyTextures(m, flagged, n)
  {
    r, log := m, [];
    var u: nat := 0;
    while u < n
      invariant u <= n
      invariant (r, log) == ApplyTextures(m, flagged, u)
    {
      if u in flagged && u in r {
        if r[u] != NULL_HANDLE {
          log := log + [BindTextureUnit(u, r[u])];
        } else {
          r, log := r - {u}, log + [BindTextureUnit(u, NULL_HANDLE)];
        }
      }
      u := u + 1;
    }
  }

  method ApplyImagesLoop(m: map<nat, ImageBinding>, flagged: set<nat>, n: nat) returns (r: map<nat, ImageBinding>, log: seq<BindCommand>)
    ensures (r, log) == ApplyImages(m, flagged, n)
  {
    r, log := m, [];
    var u: nat := 0;
    while u < n
      invariant u <= n
      invariant (r, log) == ApplyImages(m, flagged, u)
    {
      if u in flagged && u in r {
        var p := r[u];
        if p.texture != NULL_HANDLE {
          log := log + [BindImageTexture(u, p, GetImageAccess(p))];
        } else {
          r, log := r - {u}, log + [UnbindImage(u)];
        }
      }
      u := u + 1;
    }
  }

  // ---------------------------------------------------------------------------
  // BindingState

  class BindingState {
    const limits: DeviceLimits
    var buffers: map<BufferKey, BufferBinding>
    var bufferCheckNumber: uint32
    var textures: map<nat, Handle>
    var texturesCheckNumber: uint32
    var images: map<nat, ImageBinding>
    var imagesCheckNumber: uint32

    /** Every entry lies below its device limit, and each buffer binding carries its own key. */
    ghost predicate Valid()
      reads this
    {
      LimitsFit(limits)
      && (forall k :: k in buffers ==> buffers[k].key == k && k.location < MaxBufferBindings(limits, k.target))
      && (forall u :: u in textures ==> u < limits.textures)
      && (forall u :: u in images ==> u < limits.images)
    }

    constructor(limits: DeviceLimits)
      requires LimitsFit(limits)
      ensures Valid() && this.limits == limits
      ensures buffers == map[] && textures == map[] && images == map[]
      ensures bufferCheckNumber == 0 && texturesCheckNumber == 0 && imagesCheckNumber == 0
    {
      this.limits := limits;
      buffers, textures, images := map[], map[], map[];
      bufferCheckNumber, texturesCheckNumber, imagesCheckNumber := 0, 0, 0;
    }

    /** Copy assignment from another state with the same limits. */
    method CopyFrom(other: BindingState)
      requires other.Valid() && other.limits == limits
      modifies this
      ensures Valid()
      ensures buffers == old(other.buffers) && textures == old(other.textures) && images == old(other.images)
      ensures bufferCheckNumber == old(other.bufferCheckNumber) && texturesCheckNumber == old(other.texturesCheckNumber)
      ensures imagesCheckNumber == old(other.imagesCheckNumber)
    {
      buffers, textures, images := other.buffers, other.textures, other.images;
      bufferCheckNumber, texturesCheckNumber := other.bufferCheckNumber, other.texturesCheckNumber;
      imagesCheckNumber := other.imagesCheckNumber;
    }

    /**
     * bindBuffer: a location at or beyond the target's limit is ignored;
     * otherwise the binding (with the view's current extent) replaces the
     * key's entry and the check number is bumped.
     */
    method BindBuffer(target: BufferTarget, location: uint32, buffer: Handle, extent: Extent)
      requires Valid()
      modifies this
      ensures Valid()
      ensures textures == old(textures) && images == old(images)
      ensures texturesCheckNumber == old(texturesCheckNumber) && imagesCheckNumber == old(imagesCheckNumber)
      ensures location >= MaxBufferBindings(limits, target) ==>
        buffers == old(buffers) && bufferCheckNumber == old(bufferCheckNumber)
      ensures location < MaxBufferBindings(limits, target) ==>
        buffers == old(buffers)[BufferKey(target, location) := NewBinding(buffer, BufferKey(target, location), extent)]
        && bufferCheckNumber == Inc32(old(bufferCheckNumber))
    {
      if MaxBufferBindings(limits, target) <= location {
        return;
      }
      bufferCheckNumber := Inc32(bufferCheckNumber);
      var key := BufferKey(target, location);
      buffers := buffers[key := NewBinding(buffer, key, extent)];
    }

    /** getBufferBinding: the null binding for an unbound key. */
    function GetBufferBinding(key: BufferKey): (b: BufferBinding)
      reads this
      ensures key in buffers ==> b == buffers[key]
      ensures key !in buffers ==> b == NULL_BINDING
    {
      Lookup(buffers, key, NULL_BINDING)
    }

    /** bindTexture: a unit at or beyond the limit is ignored (and the check number kept). */
    method BindTexture(unit: uint8, texture: Handle)
      requires Valid()
      modifies this
      ensures Valid()
      ensures buffers == old(buffers) && images == old(images)
      ensures bufferCheckNumber == old(bufferCheckNumber) && imagesCheckNumber == old(imagesCheckNumber)
      ensures unit >= limits.textures ==> textures == old(textures) && texturesCheckNumber == old(texturesCheckNumber)
      ensures unit < limits.textures ==>
        textures == old(textures)[unit as nat := texture] && texturesCheckNumber == Inc32(old(texturesCheckNumber))
    {
      if limits.textures <= unit as nat {
        return;
      }
      texturesCheckNumber := Inc32(texturesCheckNumber);
      textures := textures[unit as nat := texture];
    }

    /** getTexture: the null texture for an unbound unit. */
    function GetTexture(unit: uint8): (t: Handle)
      reads this
      ensures unit as nat in textures ==> t == textures[unit as nat]
      ensures unit as nat !in textures ==> t == NULL_HANDLE
    {
      Lookup(textures, unit as nat, NULL_HANDLE)
    }

    /** bindImage: a unit at or beyond the limit is ignored (and the check number kept). */
    method BindImage(unit: uint8, params: ImageBinding)
      requires Valid()
      modifies this
      ensures Valid()
      ensures buffers == old(buffers) && textures == old(textures)
      ensures bufferCheckNumber == old(bufferCheckNumber) && texturesCheckNumber == old(texturesCheckNumber)
      ensures unit >= limits.images ==> images == old(images) && imagesCheckNumber == old(imagesCheckNumber)
      ensures unit < limits.images ==>
        images == old(images)[unit as nat := params] && imagesCheckNumber == Inc32(old(imagesCheckNumber))
    {
      if limits.images <= unit as nat {
        return;
      }
      imagesCheckNumber := Inc32(imagesCheckNumber);
      images := images[unit as nat := params];
    }

    /** getImage: the default parameters for an unbound unit. */
    function GetImage(unit: uint8): (p: ImageBinding)
      reads this
      ensures unit as nat in images ==> p == images[unit as nat]
      ensures unit as nat !in images ==> p == NULL_IMAGE
    {
      Lookup(images, unit as nat, NULL_IMAGE)
    }

    /** makeDiff: compare this state with `target`. */
    method MakeDiff(target: BindingState, forced: bool, extentOf: Handle -> Extent) returns (diff: BindingDiff)
      ensures diff.buffers == BufferDiff(buffers, target.buffers, forced, extentOf)
      ensures diff.textures == UnitDiff(textures, target.textures, NULL_HANDLE, forced)
      ensures diff.images == UnitDiff(images, target.images, NULL_IMAGE, forced)
    {
      var b := DiffBuffers(buffers, target.buffers, forced, extentOf);
      var t := DiffUnits(textures, target.textures, NULL_HANDLE, forced);
      var i := DiffUnits(images, target.images, NULL_IMAGE, forced);
      diff := BindingDiff(b, t, i);
    }

    /**
     * apply: for each target's bitset in turn, then the texture and image
     * units below their limits, re-bind every flagged entry and forget those
     * bound to nothing.
     */
    method Apply(diff: BindingDiff, extentOf: Handle -> Extent) returns (log: seq<BindCommand>)
      requires Valid()
      modifies this
      ensures Valid()
      ensures bufferCheckNumber == old(bufferCheckNumber) && texturesCheckNumber == old(texturesCheckNumber)
      ensures imagesCheckNumber == old(imagesCheckNumber)
      ensures buffers == ApplyBuffers(old(buffers), diff.buffers, extentOf).0
      ensures textures == ApplyTextures(old(textures), diff.textures, limits.textures).0
      ensures images == ApplyImages(old(images), diff.images, limits.images).0
      ensures log == ApplyBuffers(old(buffers), diff.buffers, extentOf).1
                     + ApplyTextures(old(textures), diff.textures, limits.textures).1
                     + ApplyImages(old(images), diff.images, limits.images).1
    {
      var s, sLog := ApplyTargetLoop(buffers, diff.buffers, ShaderStorageBuffer, extentOf);
      var u, uLog := ApplyTargetLoop(s, diff.buffers, UniformBuffer, extentOf);
      var a, aLog := ApplyTargetLoop(u, diff.buffers, AtomicCounterBuffer, extentOf);
      var f, fLog := ApplyTargetLoop(a, diff.buffers, TransformFeedbackBuffer, extentOf);
      var t, tLog := ApplyTexturesLoop(textures, diff.textures, limits.textures);
      var i, iLog := ApplyImagesLoop(images, diff.images, limits.images);
      ApplyKeepsValid(buffers, textures, images, diff, extentOf);
      buffers, textures, images := f, t, i;
      log := sLog + uLog + aLog + fLog + tLog + iLog;
    }

    /** apply only removes entries and refreshes extents, so the state stays valid. */
    lemma ApplyKeepsValid(b: map<BufferKey, BufferBinding>, t: map<nat, Handle>, i: map<nat, ImageBinding>,
                          diff: BindingDiff, extentOf: Handle -> Extent)
      requires forall k :: k in b ==> b[k].key == k && k.location < MaxBufferBindings(limits, k.target)
      requires forall u :: u in t ==> u < limits.textures
      requires forall u :: u in i ==> u < limits.images
      ensures forall k :: k in ApplyBuffers(b, diff.buffers, extentOf).0 ==>
        ApplyBuffers(b, diff.buffers, extentOf).0[k].key == k && k.location < MaxBufferBindings(limits, k.target)
      ensures forall u :: u in ApplyTextures(t, diff.textures, limits.textures).0 ==> u < limits.textures
      ensures forall u :: u in ApplyImages(i, diff.images, limits.images).0 ==> u < limits.images
    {
      forall k | k in ApplyBuffers(b, diff.buffers, extentOf).0
        ensures ApplyBuffers(b, diff.buffers, extentOf).0[k].key == k && k.location < MaxBufferBindings(limits, k.target)
      {
        ApplyBuffersEffect(b, diff.buffers, extentOf, k);
      }
      forall u | u in ApplyTextures(t, diff.textures, limits.textures).0
        ensures u < limits.textures
      {
        ApplyTexturesEffect(t, diff.textures, limits.textures, u);
      }
      forall u | u in ApplyImages(i, diff.images, limits.images).0
        ensures u < limits.images
      {
        ApplyImagesEffect(i, diff.images, limits.images, u);
      }
    }
  }
}
