/**
 * The state-tracking part of the rendering context
 * (RenderingContext/RenderingContext.cpp).
 *
 * A rendering context keeps a target pipeline state that callers change and
 * an active one that mirrors what was last sent to the device. Every state
 * category has a stack: push saves the current value, set replaces it, pop
 * restores and drops the saved value (and only warns when nothing is
 * saved). Besides the pipeline state the context owns the per-frame,
 * per-object, material, light-set and texture-set records it publishes to
 * the shaders through a parameter cache, a registry that gives each
 * distinct light value an id leased from a pool, and the set of at most
 * eight enabled light ids.
 *
 * Warnings are modelled as returned booleans, exceptions as `Err` results,
 * and device commands as the command log of the pipeline state.
 */
module RenderingContexts {
  import opened Numeric
  import opened RenderingParameters
  import opened PipelineStates
  import opened ParameterCaches
  import BindingStates
  import StreamBufferViews

  // ---------------------------------------------------------------------------
  // Constants and records

  /** The names of the parameter caches the context creates. */
  const FRAMEDATA: CacheId := "FrameData"
  const OBJECTDATA: CacheId := "ObjectData"
  const MATERIALDATA: CacheId := "MaterialData"
  const LIGHTDATA: CacheId := "LightData"
  const LIGHTSETDATA: CacheId := "LightSetData"
  const TEXTURESETDATA: CacheId := "TextureSetData"

  /** The capacities of those caches, in records. */
  const MAX_FRAMEDATA: uint32 := 1
  const MAX_OBJECTDATA: uint32 := 512
  const MAX_MATERIALS: uint32 := 1
  const MAX_LIGHTS: uint32 := 256
  const MAX_LIGHTSETS: uint32 := 1
  const MAX_TEXTURESETS: uint32 := 1

  /** At most this many lights are enabled at once. */
  const MAX_ENABLED_LIGHTS: nat := 8

  /** The largest uint8_t: the id registerLight returns when the pool is empty. */
  const NO_LIGHT: uint8 := 255

  /** The number of generations of the object-data storage. */
  const OBJECTDATA_GENERATIONS: uint32 := 2

  /** ObjectData, without its model-to-camera matrix. */
  datatype ObjectData = ObjectData(pointSize: PointParameters, materialId: uint32, lightSetId: uint32, drawId: uint32)

  /** LightSet: the first `count` entries of `lights` are the enabled light ids. */
  datatype LightSet = LightSet(count: nat, lights: seq<uint8>)

  /** MaterialData: a material and whether it is in use. */
  datatype MaterialData = MaterialData(mat: MaterialParameters, enabled: bool)

  /** A record of one of the context's parameter caches; FrameData is reduced to its viewport. */
  datatype CacheRecord =
    | FrameRecord(viewport: Rect)
    | ObjectRecord(objectData: ObjectData)
    | MaterialRecord(material: MaterialData)
    | LightRecord(light: LightParameters)
    | LightSetRecord(lightSet: LightSet)
    | TextureSetRecord(enabledTextures: seq<bool>)

  type Caches = map<CacheId, CacheEntry<CacheRecord>>

  /**
   * The sizes of the cached records and the buffer usage flags; both come
   * from declarations outside this model.
   */
  datatype CacheLayout = CacheLayout(
    frameSize: uint32, objectSize: uint32, materialSize: uint32, lightSize: uint32,
    lightSetSize: uint32, textureSetSize: uint32, dynamicFlags: uint32, streamFlags: uint32)

  /**
   * The default-constructed parameter values the constructor installs: the
   * default pipeline state, the enumerator of Comparison::LESS, the default
   * point parameters and the default material.
   */
  datatype ContextDefaults = ContextDefaults(
    pipeline: PipelineValue, lessComparison: nat, point: PointParameters, material: MaterialParameters)

  /** A draw call sent to the device, with the object-data slot as its base instance. */
  datatype DrawCall =
    | DrawArraysCall(mode: uint32, first: uint32, count: uint32, baseInstance: uint32)
    | DrawElementsCall(mode: uint32, indexType: uint32, first: uint32, count: uint32, baseInstance: uint32)

  predicate CachesCreated(c: Caches)
  {
    FRAMEDATA in c && OBJECTDATA in c && MATERIALDATA in c && LIGHTDATA in c
    && LIGHTSETDATA in c && TEXTURESETDATA in c
  }

  predicate AllEntriesValid(c: Caches)
  {
    forall id :: id in c ==> EntryValid(c[id])
  }

  /** The caches the constructor creates. */
  function InitialCaches(layout: CacheLayout): (c: Caches)
    ensures CachesCreated(c) && AllEntriesValid(c)
    ensures c[OBJECTDATA].maxElementCount == MAX_OBJECTDATA && c[LIGHTDATA].maxElementCount == MAX_LIGHTS
    ensures forall id :: id in c ==> c[id].head == 0
  {
    map[
      FRAMEDATA := NewEntry(layout.frameSize, MAX_FRAMEDATA, layout.dynamicFlags),
      OBJECTDATA := NewEntry(layout.objectSize, MAX_OBJECTDATA, layout.streamFlags),
      MATERIALDATA := NewEntry(layout.materialSize, MAX_MATERIALS, layout.dynamicFlags),
      LIGHTDATA := NewEntry(layout.lightSize, MAX_LIGHTS, layout.dynamicFlags),
      LIGHTSETDATA := NewEntry(layout.lightSetSize, MAX_LIGHTSETS, layout.dynamicFlags),
      TEXTURESETDATA := NewEntry(layout.textureSetSize, MAX_TEXTURESETS, layout.dynamicFlags)]
  }

  /**
   * The caches after setParameter(id, index, rec): the record lands in slot
   * `index` of an existing cache with room for it; otherwise nothing changes.
   */
  function Uploaded(c: Caches, id: CacheId, index: uint32, rec: CacheRecord): (r: Caches)
    requires AllEntriesValid(c)
    ensures AllEntriesValid(r) && r.Keys == c.Keys
    ensures id in c ==> id in r && EntryValid(r[id])
    ensures id in c ==> r[id].maxElementCount == c[id].maxElementCount && r[id].head == c[id].head
    ensures id in c && index < c[id].maxElementCount ==> r[id].records[index] == Some(rec)
    ensures forall other :: other in c && other != id ==> r[other] == c[other]
  {
    if id in c && index < c[id].maxElementCount then
      c[id := c[id].(records := c[id].records[index := Some(rec)])]
    else c
  }

  /** The caches after applyChanges publishes the frame, material, light-set and texture-set records. */
  function Published(c: Caches, frame: Rect, material: MaterialData, lights: LightSet, textures: seq<bool>): (r: Caches)
    requires AllEntriesValid(c)
    ensures AllEntriesValid(r) && r.Keys == c.Keys
  {
    var c1 := Uploaded(c, FRAMEDATA, 0, FrameRecord(frame));
    var c2 := Uploaded(c1, MATERIALDATA, 0, MaterialRecord(material));
    var c3 := Uploaded(c2, LIGHTSETDATA, 0, LightSetRecord(lights));
    Uploaded(c3, TEXTURESETDATA, 0, TextureSetRecord(textures))
  }

  /**
   * After publishing, slot 0 of each of the four caches holds the context's
   * current record, and every other cache (the object and light data) is
   * untouched.
   */
  lemma PublishedRecordsAreCurrent(c: Caches, frame: Rect, material: MaterialData, lights: LightSet, textures: seq<bool>)
    requires AllEntriesValid(c) && CachesCreated(c)
    requires c[FRAMEDATA].maxElementCount > 0 && c[MATERIALDATA].maxElementCount > 0
    requires c[LIGHTSETDATA].maxElementCount > 0 && c[TEXTURESETDATA].maxElementCount > 0
    ensures Published(c, frame, material, lights, textures)[FRAMEDATA].records[0] == Some(FrameRecord(frame))
    ensures Published(c, frame, material, lights, textures)[MATERIALDATA].records[0] == Some(MaterialRecord(material))
    ensures Published(c, frame, material, lights, textures)[LIGHTSETDATA].records[0] == Some(LightSetRecord(lights))
    ensures Published(c, frame, material, lights, textures)[TEXTURESETDATA].records[0] == Some(TextureSetRecord(textures))
    ensures Published(c, frame, material, lights, textures)[OBJECTDATA] == c[OBJECTDATA]
    ensures Published(c, frame, material, lights, textures)[LIGHTDATA] == c[LIGHTDATA]
  {
    var c1 := Uploaded(c, FRAMEDATA, 0, FrameRecord(frame));
    var c2 := Uploaded(c1, MATERIALDATA, 0, MaterialRecord(material));
    var c3 := Uploaded(c2, LIGHTSETDATA, 0, LightSetRecord(lights));
    assert c1[FRAMEDATA] == c2[FRAMEDATA] == c3[FRAMEDATA];
    assert c2[MATERIALDATA] == c3[MATERIALDATA];
  }

  // ---------------------------------------------------------------------------
  // Scoped state: the push/set/pop discipline shared by every category

  /** A category's current value and the values saved by push, oldest first. */
  datatype Scoped<T> = Scoped(current: T, saved: seq<T>)

  /** push: save the current value. */
  function Pushed<T>(s: Scoped<T>): Scoped<T>
  {
    s.(saved := s.saved + [s.current])
  }

  /** set: replace the current value. */
  function Assigned<T>(s: Scoped<T>, v: T): Scoped<T>
  {
    s.(current := v)
  }

  /**
   * pop: restore the last saved value and drop it. With nothing saved it
   * warns (the flag) and changes nothing.
   */
  function Popped<T>(s: Scoped<T>): (Scoped<T>, bool)
  {
    if s.saved == [] then (s, true)
    else (Scoped(s.saved[|s.saved| - 1], s.saved[..|s.saved| - 1]), false)
  }

  /** popShader as written: the last saved value is applied but stays saved. */
  function PoppedKeepingTop<T>(s: Scoped<T>): (Scoped<T>, bool)
  {
    if s.saved == [] then (s, true)
    else (s.(current := s.saved[|s.saved| - 1]), false)
  }

  /** pushAndSet with each value of `vs` in turn. */
  function PushedAndAssignedAll<T>(s: Scoped<T>, vs: seq<T>): (r: Scoped<T>)
    ensures |r.saved| == |s.saved| + |vs|
    ensures vs != [] ==> r.current == vs[|vs| - 1]
    decreases |vs|
  {
    if vs == [] then s
    else Assigned(Pushed(PushedAndAssignedAll(s, vs[..|vs| - 1])), vs[|vs| - 1])
  }

  /** `n` pops in a row. */
  function PoppedTimes<T>(s: Scoped<T>, n: nat): Scoped<T>
    decreases n
  {
    if n == 0 then s else PoppedTimes(Popped(s).0, n - 1)
  }

  /** pushAndSet followed by pop restores the category exactly, without a warning. */
  lemma PopUndoesPushAndSet<T>(s: Scoped<T>, v: T)
    ensures Popped(Assigned(Pushed(s), v)) == (s, false)
  {
    assert (s.saved + [s.current])[..|s.saved|] == s.saved;
  }

  /** A pop with nothing saved warns and leaves the category as it was. */
  lemma PopOfEmptyStackOnlyWarns<T>(s: Scoped<T>)
    requires s.saved == []
    ensures Popped(s) == (s, true)
  {
  }

  /** Nested scopes unwind in reverse: as many pops as pushAndSets restore the starting state. */
  lemma {:induction false} NestedScopesUnwind<T>(s: Scoped<T>, vs: seq<T>)
    ensures PoppedTimes(PushedAndAssignedAll(s, vs), |vs|) == s
    decreases |vs|
  {
    if vs != [] {
      var inner := PushedAndAssignedAll(s, vs[..|vs| - 1]);
      PopUndoesPushAndSet(inner, vs[|vs| - 1]);
      assert |vs[..|vs| - 1]| == |vs| - 1;
      NestedScopesUnwind(s, vs[..|vs| - 1]);
    }
  }

  /**
   * popShader as written does not unwind nested scopes: after two
   * pushAndSets from `a`, two pops leave the first pushed value `b` in
   * place, where the stack discipline restores `a`.
   */
  lemma NestedShaderScopesDoNotUnwind<T>(a: T, b: T, c: T)
    requires a != b
    ensures PoppedKeepingTop(PoppedKeepingTop(PushedAndAssignedAll(Scoped(a, []), [b, c])).0).0.current == b
    ensures PoppedTimes(PushedAndAssignedAll(Scoped(a, []), [b, c]), 2).current == a
  {
    var s := PushedAndAssignedAll(Scoped(a, []), [b, c]);
    assert [b, c][..1] == [b];
    assert [b][..0] == [];
    assert PushedAndAssignedAll(Scoped(a, []), [b]) == Scoped(b, [a]);
    assert s == Scoped(c, [a, b]);
    NestedScopesUnwind(Scoped(a, []), [b, c]);
  }

  /**
   * The material stack's pop: drop the last saved material, then adopt the
   * one saved before it, or disable the current material when none is left.
   */
  function PoppedMaterial(s: Scoped<MaterialData>): (Scoped<MaterialData>, bool)
  {
    if s.saved == [] then (s, true)
    else
      var rest := s.saved[..|s.saved| - 1];
      if rest == [] then (Scoped(s.current.(enabled := false), rest), false)
      else (Scoped(rest[|rest| - 1], rest), false)
  }

  /**
   * pushAndSetMaterial followed by popMaterial restores the saved stack, but
   * the material it adopts is the one saved by the previous push (or the new
   * material, disabled), not the material current before the push.
   */
  lemma PopMaterialAdoptsEarlierSave(s: Scoped<MaterialData>, m: MaterialData)
    ensures PoppedMaterial(Assigned(Pushed(s), m)).0.saved == s.saved
    ensures !PoppedMaterial(Assigned(Pushed(s), m)).1
    ensures s.saved == [] ==> PoppedMaterial(Assigned(Pushed(s), m)).0.current == m.(enabled := false)
    ensures s.saved != [] ==> PoppedMaterial(Assigned(Pushed(s), m)).0.current == s.saved[|s.saved| - 1]
  {
    assert (s.saved + [s.current])[..|s.saved|] == s.saved;
  }

  // ---------------------------------------------------------------------------
  // The enabled light set

  predicate LightSetValid(s: LightSet)
  {
    |s.lights| == MAX_ENABLED_LIGHTS && s.count <= MAX_ENABLED_LIGHTS
    && forall i, j :: 0 <= i < j < s.count ==> s.lights[i] != s.lights[j]
  }

  /** The enabled ids, in slot order. */
  function Enabled(s: LightSet): seq<uint8>
    requires s.count <= |s.lights|
  {
    s.lights[..s.count]
  }

  /** The first slot at or after `i` (and before `n`) holding `id`, or `n`. */
  function PositionFrom(lights: seq<uint8>, n: nat, id: uint8, i: nat): (pos: nat)
    requires i <= n <= |lights|
    ensures i <= pos <= n
    ensures pos < n ==> lights[pos] == id
    ensures forall k :: i <= k < pos ==> lights[k] != id
    decreases n - i
  {
    if i == n then n
    else if lights[i] == id then i
    else PositionFrom(lights, n, id, i + 1)
  }

  /** The scan of enableLight and disableLight: the first of the `n` slots holding `id`, or `n`. */
  method FindLight(lights: seq<uint8>, n: nat, id: uint8) returns (pos: nat)
    requires n <= |lights|
    ensures pos == PositionFrom(lights, n, id, 0)
  {
    pos := 0;
    while pos < n && lights[pos] != id
      invariant pos <= n
      invariant PositionFrom(lights, n, id, pos) == PositionFrom(lights, n, id, 0)
    {
      pos := pos + 1;
    }
  }

  /**
   * enableLight(id) on a light set, and whether it warned: an enabled id
   * changes nothing, a full set refuses the id with a warning, and otherwise
   * the id is appended.
   */
  function WithLightEnabled(s: LightSet, id: uint8): (r: (LightSet, bool))
    requires LightSetValid(s)
    ensures LightSetValid(r.0)
    ensures r.1 <==> id !in Enabled(s) && s.count == MAX_ENABLED_LIGHTS
    ensures r.1 ==> r.0 == s
    ensures !r.1 ==> id in Enabled(r.0)
    ensures id in Enabled(s) ==> r.0 == s
    ensures id !in Enabled(s) && !r.1 ==> Enabled(r.0) == Enabled(s) + [id]
  {
    if PositionFrom(s.lights, s.count, id, 0) < s.count then (s, false)
    else if s.count >= MAX_ENABLED_LIGHTS then (s, true)
    else
      var r := LightSet(s.count + 1, s.lights[s.count := id]);
      assert Enabled(r) == Enabled(s) + [id];
      (r, false)
  }

  /**
   * disableLight(id) on a light set: the last enabled id moves into the
   * removed id's slot and the count drops by one; an id that is not enabled
   * changes nothing.
   */
  function WithLightDisabled(s: LightSet, id: uint8): (r: LightSet)
    requires LightSetValid(s)
    ensures LightSetValid(r)
    ensures id !in Enabled(r)
    ensures multiset(Enabled(r)) == multiset(Enabled(s)) - multiset{id}
    ensures id !in Enabled(s) ==> r == s
    ensures id in Enabled(s) ==> r.count == s.count - 1
  {
    var pos := PositionFrom(s.lights, s.count, id, 0);
    if pos == s.count then s
    else
      var last := s.count - 1;
      var r := LightSet(last, s.lights[pos := s.lights[last]][last := s.lights[pos]]);
      DisableKeepsOthers(s, pos, r);
      r
  }

  /** The swap-and-shrink of disableLight removes exactly the id in slot `pos`. */
  lemma DisableKeepsOthers(s: LightSet, pos: nat, r: LightSet)
    requires LightSetValid(s) && pos < s.count
    requires r == LightSet(s.count - 1, s.lights[pos := s.lights[s.count - 1]][s.count - 1 := s.lights[pos]])
    ensures LightSetValid(r)
    ensures s.lights[pos] !in Enabled(r)
    ensures multiset(Enabled(r)) == multiset(Enabled(s)) - multiset{s.lights[pos]}
  {
    var last := s.count - 1;
    var swapped := s.lights[pos := s.lights[last]][last := s.lights[pos]];
    SwappedSlotsStayDistinct(s, pos, r);
    SwapKeepsMultiset(s.lights, pos, last);
    assert swapped[..s.count] == Enabled(r) + [s.lights[pos]];
  }

  /** Exchanging slots `pos` and `last` keeps the multiset of the slots up to `last`. */
  lemma SwapKeepsMultiset(xs: seq<uint8>, pos: nat, last: nat)
    requires pos <= last < |xs|
    ensures multiset(xs[pos := xs[last]][last := xs[pos]][..last + 1]) == multiset(xs[..last + 1])
  {
    var ys := xs[pos := xs[last]][last := xs[pos]];
    if pos < last {
      assert xs[..last + 1] == xs[..pos] + [xs[pos]] + xs[pos + 1..last] + [xs[last]];
      assert ys[..last + 1] == xs[..pos] + [xs[last]] + xs[pos + 1..last] + [xs[pos]];
    } else {
      assert ys == xs;
    }
  }

  /** After the swap-and-shrink the remaining slots still hold distinct ids, none of them the removed one. */
  lemma SwappedSlotsStayDistinct(s: LightSet, pos: nat, r: LightSet)
    requires LightSetValid(s) && pos < s.count
    requires r == LightSet(s.count - 1, s.lights[pos := s.lights[s.count - 1]][s.count - 1 := s.lights[pos]])
    ensures LightSetValid(r)
    ensures s.lights[pos] !in Enabled(r)
  {
    var last := s.count - 1;
    // slot k of r holds the id of slot Origin(k) of s
    assert forall k :: 0 <= k < last ==> r.lights[k] == s.lights[if k == pos then last else k];
    forall i, j | 0 <= i < j < r.count
      ensures r.lights[i] != r.lights[j]
    {
      var oi, oj := if i == pos then last else i, if j == pos then last else j;
      assert oi != oj && oi < s.count && oj < s.count;
    }
    forall k | 0 <= k < last
      ensures Enabled(r)[k] != s.lights[pos]
    {
      var ok := if k == pos then last else k;
      assert ok != pos && ok < s.count;
    }
  }

  /** Enabling an id twice is the same as enabling it once. */
  lemma EnableLightIsIdempotent(s: LightSet, id: uint8)
    requires LightSetValid(s)
    ensures WithLightEnabled(WithLightEnabled(s, id).0, id).0 == WithLightEnabled(s, id).0
  {
  }

  /** With eight lights enabled, a ninth id is refused with a warning and the set stays full. */
  lemma NinthLightIsRefused(s: LightSet, id: uint8)
    requires LightSetValid(s) && s.count == MAX_ENABLED_LIGHTS && id !in Enabled(s)
    ensures WithLightEnabled(s, id) == (s, true)
    ensures WithLightEnabled(s, id).0.count == MAX_ENABLED_LIGHTS
  {
  }

  /** Disabling a newly enabled id restores the enabled ids exactly. */
  lemma DisableUndoesEnable(s: LightSet, id: uint8)
    requires LightSetValid(s) && s.count < MAX_ENABLED_LIGHTS && id !in Enabled(s)
    ensures Enabled(WithLightDisabled(WithLightEnabled(s, id).0, id)) == Enabled(s)
  {
    var t := WithLightEnabled(s, id).0;
    assert t.lights[s.count] == id;
    assert forall k :: 0 <= k < s.count ==> t.lights[k] == Enabled(s)[k];
    assert PositionFrom(t.lights, t.count, id, 0) == s.count;
    assert Enabled(WithLightDisabled(t, id)) == t.lights[..s.count];
  }

  // ---------------------------------------------------------------------------
  // The light registry and the id pool

  /** The smallest id in `free` that is at least `from`, or 256 when there is none. */
  function LowestFreeFrom(free: set<uint8>, from: nat): (r: nat)
    requires from <= 256
    ensures from <= r <= 256
    ensures r < 256 ==> r in free
    ensures forall i: uint8 :: from <= i < r ==> i !in free
    decreases 256 - from
  {
    if from == 256 then 256
    else if from in free then from
    else LowestFreeFrom(free, from + 1)
  }

  /** The first element of a non-empty std::set<uint8_t>: its smallest id. */
  function LowestFree(free: set<uint8>): (r: uint8)
    requires free != {}
    ensures r in free && forall i :: i in free ==> r <= i
  {
    LowestFreeExists(free);
    LowestFreeFrom(free, 0)
  }

  lemma LowestFreeExists(free: set<uint8>)
    requires free != {}
    ensures LowestFreeFrom(free, 0) < 256
  {
    var x :| x in free;
    assert x >= LowestFreeFrom(free, 0);
  }

  /**
   * registerLight on the pool: lease its smallest id; with the pool empty,
   * NO_LIGHT is returned and the pool stays empty.
   */
  function Registered(free: set<uint8>): (r: (set<uint8>, uint8))
    ensures free == {} ==> r == (free, NO_LIGHT)
    ensures free != {} ==> r.1 in free && r.0 == free - {r.1} && forall i :: i in free ==> r.1 <= i
  {
    if free == {} then (free, NO_LIGHT)
    else
      var id := LowestFree(free);
      (free - {id}, id)
  }

  /** The pool the constructor fills: every uint8_t id but NO_LIGHT. */
  function InitialPool(): (free: set<uint8>)
    ensures forall i: uint8 :: i in free <==> i != NO_LIGHT
  {
    IdsBelow(NO_LIGHT as nat)
  }

  /** The ids 0 .. n-1. */
  function IdsBelow(n: nat): (ids: set<uint8>)
    requires n <= 256
    ensures forall i: uint8 :: i in ids <==> i < n
  {
    if n == 0 then {} else IdsBelow(n - 1) + {(n - 1) as uint8}
  }

  /**
   * The registry and pool after enableLight(light) has found or registered
   * the light, and the id it enables.
   */
  function LightLookup(reg: map<LightParameters, uint8>, free: set<uint8>, light: LightParameters)
    : (map<LightParameters, uint8>, set<uint8>, uint8)
  {
    if light in reg then (reg, free, reg[light])
    else
      var (free', id) := Registered(free);
      (reg[light := id], free', id)
  }

  /** No registered light's id is in the pool. */
  predicate Leased(reg: map<LightParameters, uint8>, free: set<uint8>)
  {
    forall l :: l in reg ==> reg[l] !in free
  }

  /** Looking up or registering a light keeps every registered id out of the pool. */
  lemma LookupKeepsIdsLeased(reg: map<LightParameters, uint8>, free: set<uint8>, light: LightParameters)
    requires Leased(reg, free)
    ensures Leased(LightLookup(reg, free, light).0, LightLookup(reg, free, light).1)
  {
    if light !in reg {
      var (free', id) := Registered(free);
      var reg' := reg[light := id];
      forall l | l in reg'
        ensures reg'[l] !in free'
      {
        if l != light {
          assert reg[l] !in free;
        }
      }
    }
  }

  /** While ids stay leased, a new light is given an id no registered light holds. */
  lemma NewLightGetsUnusedId(reg: map<LightParameters, uint8>, free: set<uint8>, light: LightParameters)
    requires Leased(reg, free) && light !in reg && free != {}
    ensures forall l :: l in reg ==> reg[l] != LightLookup(reg, free, light).2
  {
  }

  /**
   * unregisterLight returns the id to the pool but keeps the registry entry,
   * so the next new light is given the same id as the light still registered
   * under it.
   */
  lemma UnregisteredIdIsReissued(l1: LightParameters, l2: LightParameters)
    requires l1 != l2
    ensures var (reg, free, id) := LightLookup(map[], {0}, l1);
      var (reg', _, id') := LightLookup(reg, free + {id}, l2);
      l1 in reg' && l2 in reg' && reg'[l1] == reg'[l2] == id'
  {
    assert LowestFree({0}) == 0;
    var (reg, free, id) := LightLookup(map[], {0}, l1);
    assert free == {} && id == 0;
    assert LowestFree(free + {id}) == 0;
  }

  // ---------------------------------------------------------------------------
  // The context

  /** setParameter on a cache of the context, its result (the success flag or the missing-cache error) dropped. */
  method Upload(c: ParameterCache<CacheRecord>, id: CacheId, index: uint32, rec: CacheRecord)
    requires c.Valid()
    modifies c
    ensures c.Valid() && c.caches == Uploaded(old(c.caches), id, index, rec)
  {
    var _ := c.SetParameter(id, index, rec);
  }

  /**
   * The target state the constructor sets up: the default parameters of
   * every category it sets, back-face culling on and the depth test on with
   * less-than comparison.
   */
  method NewTargetState(defaults: ContextDefaults) returns (t: PipelineState)
    requires ValueValid(defaults.pipeline)
    ensures fresh(t) && t.Valid()
    ensures t.Value() == defaults.pipeline.(
      blendingCheckNumber := Inc32(defaults.pipeline.blendingCheckNumber),
      cullFace := CullFaceParameters(true, CullBack),
      depthBuffer := DepthBufferParameters(true, true, defaults.lessComparison))
  {
    t := new PipelineState(defaults.pipeline);
    t.SetBlendingParameters(defaults.pipeline.blending);
    t.SetColorBufferParameters(defaults.pipeline.colorBuffer);
    t.SetCullFaceParameters(CullFaceParameters(true, CullBack));
    t.SetDepthBufferParameters(DepthBufferParameters(true, true, defaults.lessComparison));
    t.SetLineParameters(defaults.pipeline.line);
    t.SetPolygonOffsetParameters(defaults.pipeline.polygonOffset);
    t.SetStencilParameters(defaults.pipeline.stencil);
  }

  /** The six parameter caches the constructor creates. */
  method NewContextCaches(layout: CacheLayout) returns (c: ParameterCache<CacheRecord>)
    ensures fresh(c) && c.Valid() && c.caches == InitialCaches(layout)
  {
    c := new ParameterCache<CacheRecord>();
    var _ := c.CreateCache(FRAMEDATA, layout.frameSize, MAX_FRAMEDATA, layout.dynamicFlags);
    assert OBJECTDATA !in c.caches;
    var _ := c.CreateCache(OBJECTDATA, layout.objectSize, MAX_OBJECTDATA, layout.streamFlags);
    assert MATERIALDATA !in c.caches;
    var _ := c.CreateCache(MATERIALDATA, layout.materialSize, MAX_MATERIALS, layout.dynamicFlags);
    assert LIGHTDATA !in c.caches;
    var _ := c.CreateCache(LIGHTDATA, layout.lightSize, MAX_LIGHTS, layout.dynamicFlags);
    assert LIGHTSETDATA !in c.caches;
    var _ := c.CreateCache(LIGHTSETDATA, layout.lightSetSize, MAX_LIGHTSETS, layout.dynamicFlags);
    assert TEXTURESETDATA !in c.caches;
    var _ := c.CreateCache(TEXTURESETDATA, layout.textureSetSize, MAX_TEXTURESETS, layout.dynamicFlags);
  }

  class RenderingContext {
    const cache: ParameterCache<CacheRecord>
    const target: PipelineState
    const active: PipelineState
    /** The multi-buffered storage of the object data, rotated by the draw calls. */
    const objectStream: StreamBufferViews.StreamBufferView
    /** MAX_BOUND_IMAGES. */
    const maxBoundImages: nat

    var blendingStack: seq<BlendingParameters>
    var colorBufferStack: seq<ColorBufferParameters>
    var cullFaceStack: seq<CullFaceParameters>
    var depthBufferStack: seq<DepthBufferParameters>
    var imageStacks: seq<seq<BindingStates.ImageBinding>>
    var boundImages: seq<BindingStates.ImageBinding>
    var lineStack: seq<LineParameters>
    var polygonModeStack: seq<PolygonModeParameters>
    var polygonOffsetStack: seq<PolygonOffsetParameters>
    var scissorStack: seq<ScissorParameters>
    var stencilStack: seq<StencilParameters>
    var fboStack: seq<Handle>
    var shaderStack: seq<Handle>
    var viewportStack: seq<Rect>
    /** activeFrameData.viewport. */
    var frameViewport: Rect
    var pointStack: seq<PointParameters>
    var objectData: ObjectData
    var materialStack: seq<MaterialData>
    var activeMaterial: MaterialData
    var lightRegistry: map<LightParameters, uint8>
    var freeLightIds: set<uint8>
    var activeLightSet: LightSet
    var textureStacks: seq<seq<Handle>>
    var enabledTextures: seq<bool>

    ghost predicate Valid()
      reads this, target, active, cache, objectStream
    {
      target != active && target.Valid() && active.Valid()
      && cache.Valid() && CachesCreated(cache.caches)
      && objectStream.multiBufferCount == OBJECTDATA_GENERATIONS
      && |textureStacks| == MAX_TEXTURES && |enabledTextures| == MAX_TEXTURES
      && |boundImages| == maxBoundImages && |imageStacks| == maxBoundImages
      && LightSetValid(activeLightSet)
    }

    /**
     * The constructor: default parameters everywhere, back-face culling and
     * the depth test on, the six parameter caches created, and every light
     * id but NO_LIGHT in the pool.
     */
    constructor(defaults: ContextDefaults, layout: CacheLayout, maxImages: nat)
      requires ValueValid(defaults.pipeline)
      ensures Valid() && maxBoundImages == maxImages
      ensures target.Value() == defaults.pipeline.(
        blendingCheckNumber := Inc32(defaults.pipeline.blendingCheckNumber),
        cullFace := CullFaceParameters(true, CullBack),
        depthBuffer := DepthBufferParameters(true, true, defaults.lessComparison))
      ensures active.Value() == defaults.pipeline
      ensures cache.caches == InitialCaches(layout)
      ensures objectData == ObjectData(defaults.point, 0, 0, 0)
      ensures activeMaterial == MaterialData(defaults.material, true)
      ensures lightRegistry == map[] && freeLightIds == InitialPool()
      ensures activeLightSet.count == 0 && enabledTextures == Fill(MAX_TEXTURES, false)
      ensures boundImages == Fill(maxImages, BindingStates.NULL_IMAGE)
      ensures blendingStack == [] && colorBufferStack == [] && cullFaceStack == [] && depthBufferStack == []
      ensures lineStack == [] && polygonModeStack == [] && polygonOffsetStack == [] && scissorStack == []
      ensures stencilStack == [] && fboStack == [] && shaderStack == [] && viewportStack == []
      ensures pointStack == [] && materialStack == []
      ensures textureStacks == Fill(MAX_TEXTURES, []) && imageStacks == Fill(maxImages, [])
      ensures objectStream.multiBufferHead == 0
    {
      var t := NewTargetState(defaults);
      var c := NewContextCaches(layout);
      target, cache := t, c;
      active := new PipelineState(defaults.pipeline);
      objectStream := new StreamBufferViews.StreamBufferView(OBJECTDATA_GENERATIONS, null, 0, layout.objectSize, MAX_OBJECTDATA);
      maxBoundImages := maxImages;
      blendingStack, colorBufferStack, cullFaceStack, depthBufferStack := [], [], [], [];
      lineStack, polygonModeStack, polygonOffsetStack, scissorStack := [], [], [], [];
      stencilStack, fboStack, shaderStack, viewportStack := [], [], [], [];
      pointStack, materialStack := [], [];
      imageStacks := Fill(maxImages, []);
      boundImages := Fill(maxImages, BindingStates.NULL_IMAGE);
      frameViewport := defaults.pipeline.viewport;
      objectData := ObjectData(defaults.point, 0, 0, 0);
      activeMaterial := MaterialData(defaults.material, true);
      lightRegistry := map[];
      freeLightIds := InitialPool();
      activeLightSet := LightSet(0, Fill(MAX_ENABLED_LIGHTS, 0));
      textureStacks := Fill(MAX_TEXTURES, []);
      enabledTextures := Fill(MAX_TEXTURES, false);
    }

    // --- Applying changes -----------------------------------------------------

    /**
     * applyChanges: diff the active state against the target, make the
     * active state a copy of the target, apply the diff, and publish the
     * frame, material, light-set and texture-set records to slot 0 of their
     * caches. An exception from apply is caught and reported as a warning;
     * the records are then not published.
     */
    method ApplyChanges(forced: bool) returns (log: seq<Command>, warning: Option<Error>)
      requires Valid()
      modifies active, cache
      ensures Valid()
      ensures active.Value() == old(target.Value())
      ensures ApplyOutcome(log, warning) == ApplyCommands(old(target.Value()), MakeDiff(old(active.Value()), old(target.Value()), forced))
      ensures warning.Some? ==> cache.caches == old(cache.caches)
      ensures warning.None? ==> cache.caches == Published(old(cache.caches), frameViewport, activeMaterial, activeLightSet, enabledTextures)
    {
      var diff := MakeDiff(active.Value(), target.Value(), forced);
      active.CopyFrom(target);
      log, warning := active.Apply(diff);
      if warning.None? {
        Publish();
      }
    }

    /** The uploads at the end of applyChanges. */
    method Publish()
      requires Valid()
      modifies cache
      ensures Valid()
      ensures cache.caches == Published(old(cache.caches), frameViewport, activeMaterial, activeLightSet, enabledTextures)
    {
      Upload(cache, FRAMEDATA, 0, FrameRecord(frameViewport));
      Upload(cache, MATERIALDATA, 0, MaterialRecord(activeMaterial));
      Upload(cache, LIGHTSETDATA, 0, LightSetRecord(activeLightSet));
      Upload(cache, TEXTURESETDATA, 0, TextureSetRecord(enabledTextures));
    }

    // --- Blending -------------------------------------------------------------

    method SetBlending(p: BlendingParameters)
      requires Valid()
      modifies target
      ensures Valid()
      ensures target.Value() == old(target.Value()).(blending := p, blendingCheckNumber := Inc32(old(target.blendingCheckNumber)))
    {
      target.SetBlendingParameters(p);
    }

    method PushBlending()
      requires Valid()
      modifies this`blendingStack
      ensures Valid()
      ensures Scoped(target.blending, blendingStack) == Pushed(Scoped(target.blending, old(blendingStack)))
    {
      blendingStack := blendingStack + [target.blending];
    }

    method PushAndSetBlending(p: BlendingParameters)
      requires Valid()
      modifies this`blendingStack, target
      ensures Valid()
      ensures Scoped(target.blending, blendingStack) == Assigned(Pushed(Scoped(old(target.blending), old(blendingStack))), p)
      ensures target.Value() == old(target.Value()).(blending := p, blendingCheckNumber := Inc32(old(target.blendingCheckNumber)))
    {
      PushBlending();
      SetBlending(p);
    }

    method PopBlending() returns (warned: bool)
      requires Valid()
      modifies this`blendingStack, target
      ensures Valid()
      ensures (Scoped(target.blending, blendingStack), warned) == Popped(Scoped(old(target.blending), old(blendingStack)))
      ensures warned ==> target.Value() == old(target.Value())
      ensures !warned ==> target.Value() == old(target.Value()).(blending := target.blending, blendingCheckNumber := Inc32(old(target.blendingCheckNumber)))
    {
      if blendingStack == [] {
        return true;
      }
      SetBlending(blendingStack[|blendingStack| - 1]);
      blendingStack := blendingStack[..|blendingStack| - 1];
      warned := false;
    }

    // --- Colour buffer --------------------------------------------------------

    method SetColorBuffer(p: ColorBufferParameters)
      requires Valid()
      modifies target
      ensures Valid()
      ensures target.Value() == old(target.Value()).(colorBuffer := p)
    {
      target.SetColorBufferParameters(p);
    }

    method PushColorBuffer()
      requires Valid()
      modifies this`colorBufferStack
      ensures Valid()
      ensures Scoped(target.colorBuffer, colorBufferStack) == Pushed(Scoped(target.colorBuffer, old(colorBufferStack)))
    {
      colorBufferStack := colorBufferStack + [target.colorBuffer];
    }

    method PushAndSetColorBuffer(p: ColorBufferParameters)
      requires Valid()
      modifies this`colorBufferStack, target
      ensures Valid()
      ensures Scoped(target.colorBuffer, colorBufferStack) == Assigned(Pushed(Scoped(old(target.colorBuffer), old(colorBufferStack))), p)
      ensures target.Value() == old(target.Value()).(colorBuffer := p)
    {
      PushColorBuffer();
      SetColorBuffer(p);
    }

    method PopColorBuffer() returns (warned: bool)
      requires Valid()
      modifies this`colorBufferStack, target
      ensures Valid()
      ensures (Scoped(target.colorBuffer, colorBufferStack), warned) == Popped(Scoped(old(target.colorBuffer), old(colorBufferStack)))
      ensures target.Value() == old(target.Value()).(colorBuffer := target.colorBuffer)
    {
      if colorBufferStack == [] {
        return true;
      }
      SetColorBuffer(colorBufferStack[|colorBufferStack| - 1]);
      colorBufferStack := colorBufferStack[..|colorBufferStack| - 1];
      warned := false;
    }

    // --- Face culling ---------------------------------------------------------

    method SetCullFace(p: CullFaceParameters)
      requires Valid()
      modifies target
      ensures Valid()
      ensures target.Value() == old(target.Value()).(cullFace := p)
    {
      target.SetCullFaceParameters(p);
    }

    method PushCullFace()
      requires Valid()
      modifies this`cullFaceStack
      ensures Valid()
      ensures Scoped(target.cullFace, cullFaceStack) == Pushed(Scoped(target.cullFace, old(cullFaceStack)))
    {
      cullFaceStack := cullFaceStack + [target.cullFace];
    }

    method PushAndSetCullFace(p: CullFaceParameters)
      requires Valid()
      modifies this`cullFaceStack, target
      ensures Valid()
      ensures Scoped(target.cullFace, cullFaceStack) == Assigned(Pushed(Scoped(old(target.cullFace), old(cullFaceStack))), p)
      ensures target.Value() == old(target.Value()).(cullFace := p)
    {
      PushCullFace();
      SetCullFace(p);
    }

    method PopCullFace() returns (warned: bool)
      requires Valid()
      modifies this`cullFaceStack, target
      ensures Valid()
      ensures (Scoped(target.cullFace, cullFaceStack), warned) == Popped(Scoped(old(target.cullFace), old(cullFaceStack)))
      ensures target.Value() == old(target.Value()).(cullFace := target.cullFace)
    {
      if cullFaceStack == [] {
        return true;
      }
      SetCullFace(cullFaceStack[|cullFaceStack| - 1]);
      cullFaceStack := cullFaceStack[..|cullFaceStack| - 1];
      warned := false;
    }

    // --- Depth buffer ---------------------------------------------------------

    method SetDepthBuffer(p: DepthBufferParameters)
      requires Valid()
      modifies target
      ensures Valid()
      ensures target.Value() == old(target.Value()).(depthBuffer := p)
    {
      target.SetDepthBufferParameters(p);
    }

    method PushDepthBuffer()
      requires Valid()
      modifies this`depthBufferStack
      ensures Valid()
      ensures Scoped(target.depthBuffer, depthBufferStack) == Pushed(Scoped(target.depthBuffer, old(depthBufferStack)))
    {
      depthBufferStack := depthBufferStack + [target.depthBuffer];
    }

    method PushAndSetDepthBuffer(p: DepthBufferParameters)
      requires Valid()
      modifies this`depthBufferStack, target
      ensures Valid()
      ensures Scoped(target.depthBuffer, depthBufferStack) == Assigned(Pushed(Scoped(old(target.depthBuffer), old(depthBufferStack))), p)
      ensures target.Value() == old(target.Value()).(depthBuffer := p)
    {
      PushDepthBuffer();
      SetDepthBuffer(p);
    }

    method PopDepthBuffer() returns (warned: bool)
      requires Valid()
      modifies this`depthBufferStack, target
      ensures Valid()
      ensures (Scoped(target.depthBuffer, depthBufferStack), warned) == Popped(Scoped(old(target.depthBuffer), old(depthBufferStack)))
      ensures target.Value() == old(target.Value()).(depthBuffer := target.depthBuffer)
    {
      if depthBufferStack == [] {
        return true;
      }
      SetDepthBuffer(depthBufferStack[|depthBufferStack| - 1]);
      depthBufferStack := depthBufferStack[..|depthBufferStack| - 1];
      warned := false;
    }

    // --- Bound images -----------------------------------------------------------

    /** getBoundImage; assertCorrectImageUnit throws std::runtime_error for a unit past MAX_BOUND_IMAGES. */
    function GetBoundImage(unit: uint8): (r: Result<BindingStates.ImageBinding>)
      reads this
      requires |boundImages| == maxBoundImages
      ensures r.Err? <==> unit >= maxBoundImages
      ensures r.Err? ==> r.error == RuntimeError
      ensures r.Ok? ==> r.value == boundImages[unit]
    {
      if unit >= maxBoundImages then Err(RuntimeError) else Ok(boundImages[unit])
    }

    method SetBoundImage(unit: uint8, p: BindingStates.ImageBinding) returns (r: Result<()>)
      requires Valid()
      modifies this`boundImages
      ensures Valid()
      ensures unit >= maxBoundImages ==> r == Err(RuntimeError) && boundImages == old(boundImages)
      ensures unit < maxBoundImages ==> r.Ok? && boundImages == old(boundImages)[unit := p]
    {
      if unit >= maxBoundImages {
        return Err(RuntimeError);
      }
      boundImages := boundImages[unit := p];
      r := Ok(());
    }

    method PushBoundImage(unit: uint8) returns (r: Result<()>)
      requires Valid()
      modifies this`imageStacks
      ensures Valid()
      ensures unit >= maxBoundImages ==> r == Err(RuntimeError) && imageStacks == old(imageStacks)
      ensures unit < maxBoundImages ==> (r.Ok? &&
        imageStacks == old(imageStacks)[unit := Pushed(Scoped(boundImages[unit], old(imageStacks)[unit])).saved])
    {
      if unit >= maxBoundImages {
        return Err(RuntimeError);
      }
      imageStacks := imageStacks[unit := imageStacks[unit] + [boundImages[unit]]];
      r := Ok(());
    }

    method PushAndSetBoundImage(unit: uint8, p: BindingStates.ImageBinding) returns (r: Result<()>)
      requires Valid()
      modifies this`imageStacks, this`boundImages
      ensures Valid()
      ensures unit >= maxBoundImages ==> r == Err(RuntimeError) && imageStacks == old(imageStacks) && boundImages == old(boundImages)
      ensures unit < maxBoundImages ==> (r.Ok? &&
        Scoped(boundImages[unit], imageStacks[unit]) == Assigned(Pushed(Scoped(old(boundImages)[unit], old(imageStacks)[unit])), p))
      ensures unit < maxBoundImages ==> boundImages == old(boundImages)[unit := p]
      ensures unit < maxBoundImages ==> forall u :: 0 <= u < maxBoundImages && u != unit ==> imageStacks[u] == old(imageStacks)[u]
    {
      r := PushBoundImage(unit);
      if r.Err? {
        return;
      }
      r := SetBoundImage(unit, p);
    }

    method PopBoundImage(unit: uint8) returns (r: Result<bool>)
      requires Valid()
      modifies this`imageStacks, this`boundImages
      ensures Valid()
      ensures unit >= maxBoundImages ==> r == Err(RuntimeError) && imageStacks == old(imageStacks) && boundImages == old(boundImages)
      ensures unit < maxBoundImages ==> (r.Ok? &&
        (Scoped(boundImages[unit], imageStacks[unit]), r.value) == Popped(Scoped(old(boundImages)[unit], old(imageStacks)[unit])))
      ensures unit < maxBoundImages ==> (forall u :: 0 <= u < maxBoundImages && u != unit ==>
        imageStacks[u] == old(imageStacks)[u] && boundImages[u] == old(boundImages)[u])
    {
      if unit >= maxBoundImages {
        return Err(RuntimeError);
      }
      var stack := imageStacks[unit];
      if stack == [] {
        return Ok(true);
      }
      var _ := SetBoundImage(unit, stack[|stack| - 1]);
      imageStacks := imageStacks[unit := stack[..|stack| - 1]];
      r := Ok(false);
    }

    // --- Line -----------------------------------------------------------------

    method SetLine(p: LineParameters)
      requires Valid()
      modifies target
      ensures Valid()
      ensures target.Value() == old(target.Value()).(line := p)
    {
      target.SetLineParameters(p);
    }

    method PushLine()
      requires Valid()
      modifies this`lineStack
      ensures Valid()
      ensures Scoped(target.line, lineStack) == Pushed(Scoped(target.line, old(lineStack)))
    {
      lineStack := lineStack + [target.line];
    }

    method PushAndSetLine(p: LineParameters)
      requires Valid()
      modifies this`lineStack, target
      ensures Valid()
      ensures Scoped(target.line, lineStack) == Assigned(Pushed(Scoped(old(target.line), old(lineStack))), p)
      ensures target.Value() == old(target.Value()).(line := p)
    {
      PushLine();
      SetLine(p);
    }

    method PopLine() returns (warned: bool)
      requires Valid()
      modifies this`lineStack, target
      ensures Valid()
      ensures (Scoped(target.line, lineStack), warned) == Popped(Scoped(old(target.line), old(lineStack)))
      ensures target.Value() == old(target.Value()).(line := target.line)
    {
      if lineStack == [] {
        return true;
      }
      SetLine(lineStack[|lineStack| - 1]);
      lineStack := lineStack[..|lineStack| - 1];
      warned := false;
    }

    // --- Point parameters (part of the object data) -------------------------------

    method SetPointParameters(p: PointParameters)
      requires Valid()
      modifies this`objectData
      ensures Valid()
      ensures objectData == old(objectData).(pointSize := p)
    {
      objectData := objectData.(pointSize := p);
    }

    method PushPointParameters()
      requires Valid()
      modifies this`pointStack
      ensures Valid()
      ensures Scoped(objectData.pointSize, pointStack) == Pushed(Scoped(objectData.pointSize, old(pointStack)))
    {
      pointStack := pointStack + [objectData.pointSize];
    }

    method PushAndSetPointParameters(p: PointParameters)
      requires Valid()
      modifies this`pointStack, this`objectData
      ensures Valid()
      ensures Scoped(objectData.pointSize, pointStack) == Assigned(Pushed(Scoped(old(objectData.pointSize), old(pointStack))), p)
      ensures objectData == old(objectData).(pointSize := p)
    {
      PushPointParameters();
      SetPointParameters(p);
    }

    method PopPointParameters() returns (warned: bool)
      requires Valid()
      modifies this`pointStack, this`objectData
      ensures Valid()
      ensures (Scoped(objectData.pointSize, pointStack), warned) == Popped(Scoped(old(objectData.pointSize), old(pointStack)))
      ensures objectData == old(objectData).(pointSize := objectData.pointSize)
    {
      if pointStack == [] {
        return true;
      }
      SetPointParameters(pointStack[|pointStack| - 1]);
      pointStack := pointStack[..|pointStack| - 1];
      warned := false;
    }

    // --- Polygon mode ---------------------------------------------------------

    method SetPolygonMode(p: PolygonModeParameters)
      requires Valid()
      modifies target
      ensures Valid()
      ensures target.Value() == old(target.Value()).(polygonMode := p)
    {
      target.SetPolygonModeParameters(p);
    }

    method PushPolygonMode()
      requires Valid()
      modifies this`polygonModeStack
      ensures Valid()
      ensures Scoped(target.polygonMode, polygonModeStack) == Pushed(Scoped(target.polygonMode, old(polygonModeStack)))
    {
      polygonModeStack := polygonModeStack + [target.polygonMode];
    }

    method PushAndSetPolygonMode(p: PolygonModeParameters)
      requires Valid()
      modifies this`polygonModeStack, target
      ensures Valid()
      ensures Scoped(target.polygonMode, polygonModeStack) == Assigned(Pushed(Scoped(old(target.polygonMode), old(polygonModeStack))), p)
      ensures target.Value() == old(target.Value()).(polygonMode := p)
    {
      PushPolygonMode();
      SetPolygonMode(p);
    }

    method PopPolygonMode() returns (warned: bool)
      requires Valid()
      modifies this`polygonModeStack, target
      ensures Valid()
      ensures (Scoped(target.polygonMode, polygonModeStack), warned) == Popped(Scoped(old(target.polygonMode), old(polygonModeStack)))
      ensures target.Value() == old(target.Value()).(polygonMode := target.polygonMode)
    {
      if polygonModeStack == [] {
        return true;
      }
      SetPolygonMode(polygonModeStack[|polygonModeStack| - 1]);
      polygonModeStack := polygonModeStack[..|polygonModeStack| - 1];
      warned := false;
    }

    // --- Polygon offset -------------------------------------------------------

    method SetPolygonOffset(p: PolygonOffsetParameters)
      requires Valid()
      modifies target
      ensures Valid()
      ensures target.Value() == old(target.Value()).(polygonOffset := p)
    {
      target.SetPolygonOffsetParameters(p);
    }

    method PushPolygonOffset()
      requires Valid()
      modifies this`polygonOffsetStack
      ensures Valid()
      ensures Scoped(target.polygonOffset, polygonOffsetStack) == Pushed(Scoped(target.polygonOffset, old(polygonOffsetStack)))
    {
      polygonOffsetStack := polygonOffsetStack + [target.polygonOffset];
    }

    method PushAndSetPolygonOffset(p: PolygonOffsetParameters)
      requires Valid()
      modifies this`polygonOffsetStack, target
      ensures Valid()
      ensures Scoped(target.polygonOffset, polygonOffsetStack) == Assigned(Pushed(Scoped(old(target.polygonOffset), old(polygonOffsetStack))), p)
      ensures target.Value() == old(target.Value()).(polygonOffset := p)
    {
      PushPolygonOffset();
      SetPolygonOffset(p);
    }

    method PopPolygonOffset() returns (warned: bool)
      requires Valid()
      modifies this`polygonOffsetStack, target
      ensures Valid()
      ensures (Scoped(target.polygonOffset, polygonOffsetStack), warned) == Popped(Scoped(old(target.polygonOffset), old(polygonOffsetStack)))
      ensures target.Value() == old(target.Value()).(polygonOffset := target.polygonOffset)
    {
      if polygonOffsetStack == [] {
        return true;
      }
      SetPolygonOffset(polygonOffsetStack[|polygonOffsetStack| - 1]);
      polygonOffsetStack := polygonOffsetStack[..|polygonOffsetStack| - 1];
      warned := false;
    }

    // --- Scissor --------------------------------------------------------------

    method SetScissor(p: ScissorParameters)
      requires Valid()
      modifies target
      ensures Valid()
      ensures target.Value() == old(target.Value()).(scissor := p)
    {
      target.SetScissorParameters(p);
    }

    method PushScissor()
      requires Valid()
      modifies this`scissorStack
      ensures Valid()
      ensures Scoped(target.scissor, scissorStack) == Pushed(Scoped(target.scissor, old(scissorStack)))
    {
      scissorStack := scissorStack + [target.scissor];
    }

    method PushAndSetScissor(p: ScissorParameters)
      requires Valid()
      modifies this`scissorStack, target
      ensures Valid()
      ensures Scoped(target.scissor, scissorStack) == Assigned(Pushed(Scoped(old(target.scissor), old(scissorStack))), p)
      ensures target.Value() == old(target.Value()).(scissor := p)
    {
      PushScissor();
      SetScissor(p);
    }

    method PopScissor() returns (warned: bool)
      requires Valid()
      modifies this`scissorStack, target
      ensures Valid()
      ensures (Scoped(target.scissor, scissorStack), warned) == Popped(Scoped(old(target.scissor), old(scissorStack)))
      ensures target.Value() == old(target.Value()).(scissor := target.scissor)
    {
      if scissorStack == [] {
        return true;
      }
      SetScissor(scissorStack[|scissorStack| - 1]);
      scissorStack := scissorStack[..|scissorStack| - 1];
      warned := false;
    }

    // --- Stencil --------------------------------------------------------------

    /** setStencil; the target's stencil check number moves only when the parameters change. */
    method SetStencil(p: StencilParameters)
      requires Valid()
      modifies target
      ensures Valid()
      ensures old(target.stencil) != p ==>(
        target.Value() == old(target.Value()).(stencil := p, stencilCheckNumber := Inc32(old(target.stencilCheckNumber))))
      ensures old(target.stencil) == p ==> target.Value() == old(target.Value())
    {
      target.SetStencilParameters(p);
    }

    method PushStencil()
      requires Valid()
      modifies this`stencilStack
      ensures Valid()
      ensures Scoped(target.stencil, stencilStack) == Pushed(Scoped(target.stencil, old(stencilStack)))
    {
      stencilStack := stencilStack + [target.stencil];
    }

    method PushAndSetStencil(p: StencilParameters)
      requires Valid()
      modifies this`stencilStack, target
      ensures Valid()
      ensures Scoped(target.stencil, stencilStack) == Assigned(Pushed(Scoped(old(target.stencil), old(stencilStack))), p)
      ensures target.Value() == old(target.Value()).(stencil := p, stencilCheckNumber := target.stencilCheckNumber)
    {
      PushStencil();
      SetStencil(p);
    }

    method PopStencil() returns (warned: bool)
      requires Valid()
      modifies this`stencilStack, target
      ensures Valid()
      ensures (Scoped(target.stencil, stencilStack), warned) == Popped(Scoped(old(target.stencil), old(stencilStack)))
      ensures target.Value() == old(target.Value()).(stencil := target.stencil, stencilCheckNumber := target.stencilCheckNumber)
      ensures target.stencilCheckNumber == if target.stencil != old(target.stencil) then Inc32(old(target.stencilCheckNumber)) else old(target.stencilCheckNumber)
    {
      if stencilStack == [] {
        return true;
      }
      SetStencil(stencilStack[|stencilStack| - 1]);
      stencilStack := stencilStack[..|stencilStack| - 1];
      warned := false;
    }

    // --- FBO ------------------------------------------------------------------

    method SetFBO(fbo: Handle)
      requires Valid()
      modifies target
      ensures Valid()
      ensures target.Value() == old(target.Value()).(fbo := fbo)
    {
      target.SetFBO(fbo);
    }

    method PushFBO()
      requires Valid()
      modifies this`fboStack
      ensures Valid()
      ensures Scoped(target.fbo, fboStack) == Pushed(Scoped(target.fbo, old(fboStack)))
    {
      fboStack := fboStack + [target.fbo];
    }

    method PushAndSetFBO(fbo: Handle)
      requires Valid()
      modifies this`fboStack, target
      ensures Valid()
      ensures Scoped(target.fbo, fboStack) == Assigned(Pushed(Scoped(old(target.fbo), old(fboStack))), fbo)
      ensures target.Value() == old(target.Value()).(fbo := fbo)
    {
      PushFBO();
      SetFBO(fbo);
    }

    method PopFBO() returns (warned: bool)
      requires Valid()
      modifies this`fboStack, target
      ensures Valid()
      ensures (Scoped(target.fbo, fboStack), warned) == Popped(Scoped(old(target.fbo), old(fboStack)))
      ensures target.Value() == old(target.Value()).(fbo := target.fbo)
    {
      if fboStack == [] {
        return true;
      }
      SetFBO(fboStack[|fboStack| - 1]);
      fboStack := fboStack[..|fboStack| - 1];
      warned := false;
    }

    // --- Shader ---------------------------------------------------------------

    method SetShader(shader: Handle)
      requires Valid()
      modifies target
      ensures Valid()
      ensures target.Value() == old(target.Value()).(shader := shader)
    {
      target.SetShader(shader);
    }

    method PushShader()
      requires Valid()
      modifies this`shaderStack
      ensures Valid()
      ensures Scoped(target.shader, shaderStack) == Pushed(Scoped(target.shader, old(shaderStack)))
    {
      shaderStack := shaderStack + [target.shader];
    }

    method PushAndSetShader(shader: Handle)
      requires Valid()
      modifies this`shaderStack, target
      ensures Valid()
      ensures Scoped(target.shader, shaderStack) == Assigned(Pushed(Scoped(old(target.shader), old(shaderStack))), shader)
      ensures target.Value() == old(target.Value()).(shader := shader)
    {
      PushShader();
      SetShader(shader);
    }

    /** popShader: applies the last saved shader but leaves it on the stack. */
    method PopShader() returns (warned: bool)
      requires Valid()
      modifies target
      ensures Valid()
      ensures (Scoped(target.shader, shaderStack), warned) == PoppedKeepingTop(Scoped(old(target.shader), shaderStack))
      ensures target.Value() == old(target.Value()).(shader := target.shader)
    {
      if shaderStack == [] {
        return true;
      }
      SetShader(shaderStack[|shaderStack| - 1]);
      warned := false;
    }

    // --- Textures -------------------------------------------------------------

    /** getTexture: the target's texture of the unit, or null past MAX_TEXTURES. */
    function GetTexture(unit: uint8): (r: Handle)
      reads target
      requires |target.boundTextures| == MAX_TEXTURES
      ensures unit >= MAX_TEXTURES ==> r == NULL_HANDLE
      ensures unit < MAX_TEXTURES ==> r == target.boundTextures[unit]
    {
      if unit < MAX_TEXTURES then target.boundTextures[unit] else NULL_HANDLE
    }

    /** getTextureUsage: texture mapping when a texture is set on the unit. */
    function GetTextureUsage(unit: uint8): (r: TexUnitUsage)
      reads this
      requires |enabledTextures| == MAX_TEXTURES && unit < MAX_TEXTURES
      ensures r == TextureMapping <==> enabledTextures[unit]
      ensures r == Disabled <==> !enabledTextures[unit]
    {
      if enabledTextures[unit] then TextureMapping else Disabled
    }

    /**
     * setTexture: the target state is only told about a different texture;
     * the unit's usage flag records whether a texture is set. Past
     * MAX_TEXTURES the unit is rejected with std::out_of_range, by the target
     * state (after moving its check number) when the texture is not null,
     * and by the usage array otherwise.
     */
    method SetTexture(unit: uint8, texture: Handle) returns (r: Result<()>)
      requires Valid()
      modifies this`enabledTextures, target
      ensures Valid()
      ensures unit < MAX_TEXTURES ==> r.Ok? && enabledTextures == old(enabledTextures)[unit := texture != NULL_HANDLE]
      ensures unit < MAX_TEXTURES && texture != old(target.boundTextures[unit]) ==>(
        target.Value() == old(target.Value()).(boundTextures := old(target.boundTextures)[unit := texture],
          texturesCheckNumber := Inc32(old(target.texturesCheckNumber))))
      ensures unit < MAX_TEXTURES && texture == old(target.boundTextures[unit]) ==> target.Value() == old(target.Value())
      ensures unit >= MAX_TEXTURES ==> r == Err(OutOfRange) && enabledTextures == old(enabledTextures)
      ensures unit >= MAX_TEXTURES && texture != NULL_HANDLE ==>(
        target.Value() == old(target.Value()).(texturesCheckNumber := Inc32(old(target.texturesCheckNumber))))
      ensures unit >= MAX_TEXTURES && texture == NULL_HANDLE ==> target.Value() == old(target.Value())
    {
      var oldTexture := GetTexture(unit);
      if texture != oldTexture {
        r := target.SetTexture(unit as nat, texture);
        if r.Err? {
          return;
        }
      }
      if unit >= MAX_TEXTURES {
        return Err(OutOfRange);
      }
      enabledTextures := enabledTextures[unit := texture != NULL_HANDLE];
      r := Ok(());
    }

    /** setTexture with a usage: a disabled unit gets no texture. */
    method SetTextureWithUsage(unit: uint8, texture: Handle, usage: TexUnitUsage) returns (r: Result<()>)
      requires Valid()
      modifies this`enabledTextures, target
      ensures Valid()
      ensures unit < MAX_TEXTURES ==> (r.Ok? &&
        enabledTextures == old(enabledTextures)[unit := usage != Disabled && texture != NULL_HANDLE])
      ensures unit < MAX_TEXTURES ==>(
        target.boundTextures == old(target.boundTextures)[unit := if usage == Disabled then NULL_HANDLE else texture])
      ensures unit >= MAX_TEXTURES ==> r == Err(OutOfRange) && enabledTextures == old(enabledTextures)
    {
      r := SetTexture(unit, if usage == Disabled then NULL_HANDLE else texture);
    }

    /** pushTexture: std::out_of_range past MAX_TEXTURES. */
    method PushTexture(unit: uint8) returns (r: Result<()>)
      requires Valid()
      modifies this`textureStacks
      ensures Valid()
      ensures unit >= MAX_TEXTURES ==> r == Err(OutOfRange) && textureStacks == old(textureStacks)
      ensures unit < MAX_TEXTURES ==> (r.Ok? &&
        textureStacks == old(textureStacks)[unit := Pushed(Scoped(target.boundTextures[unit], old(textureStacks)[unit])).saved])
    {
      if unit >= MAX_TEXTURES {
        return Err(OutOfRange);
      }
      textureStacks := textureStacks[unit := textureStacks[unit] + [GetTexture(unit)]];
      r := Ok(());
    }

    method PushAndSetTexture(unit: uint8, texture: Handle) returns (r: Result<()>)
      requires Valid()
      modifies this`textureStacks, this`enabledTextures, target
      ensures Valid()
      ensures unit >= MAX_TEXTURES ==> (r == Err(OutOfRange) && textureStacks == old(textureStacks)
        && enabledTextures == old(enabledTextures) && target.Value() == old(target.Value()))
      ensures unit < MAX_TEXTURES ==> (r.Ok? &&
        Scoped(target.boundTextures[unit], textureStacks[unit])
          == Assigned(Pushed(Scoped(old(target.boundTextures)[unit], old(textureStacks)[unit])), texture))
      ensures unit < MAX_TEXTURES ==> enabledTextures == old(enabledTextures)[unit := texture != NULL_HANDLE]
      ensures unit < MAX_TEXTURES ==> (forall u :: 0 <= u < MAX_TEXTURES && u != unit ==>
        textureStacks[u] == old(textureStacks)[u] && target.boundTextures[u] == old(target.boundTextures)[u])
    {
      r := PushTexture(unit);
      if r.Err? {
        return;
      }
      r := SetTexture(unit, texture);
    }

    /** popTexture: std::out_of_range past MAX_TEXTURES; an empty stack only warns (Ok(true)). */
    method PopTexture(unit: uint8) returns (r: Result<bool>)
      requires Valid()
      modifies this`textureStacks, this`enabledTextures, target
      ensures Valid()
      ensures unit >= MAX_TEXTURES ==> (r == Err(OutOfRange) && textureStacks == old(textureStacks)
        && enabledTextures == old(enabledTextures) && target.Value() == old(target.Value()))
      ensures unit < MAX_TEXTURES ==> (r.Ok? &&
        (Scoped(target.boundTextures[unit], textureStacks[unit]), r.value)
          == Popped(Scoped(old(target.boundTextures)[unit], old(textureStacks)[unit])))
      ensures unit < MAX_TEXTURES && !r.value ==> enabledTextures == old(enabledTextures)[unit := target.boundTextures[unit] != NULL_HANDLE]
      ensures unit < MAX_TEXTURES && r.value ==> enabledTextures == old(enabledTextures) && target.Value() == old(target.Value())
      ensures unit < MAX_TEXTURES ==> (forall u :: 0 <= u < MAX_TEXTURES && u != unit ==>
        textureStacks[u] == old(textureStacks)[u] && target.boundTextures[u] == old(target.boundTextures)[u])
    {
      if unit >= MAX_TEXTURES {
        return Err(OutOfRange);
      }
      var stack := textureStacks[unit];
      if stack == [] {
        return Ok(true);
      }
      var _ := SetTexture(unit, stack[|stack| - 1]);
      textureStacks := textureStacks[unit := stack[..|stack| - 1]];
      r := Ok(false);
    }

    // --- Lights ---------------------------------------------------------------

    /**
     * registerLight: lease the smallest free id and upload the light into
     * that slot of the light cache; with no id left, warn and return NO_LIGHT.
     */
    method RegisterLight(light: LightParameters) returns (id: uint8)
      requires Valid()
      modifies this`freeLightIds, cache
      ensures Valid()
      ensures (freeLightIds, id) == Registered(old(freeLightIds))
      ensures old(freeLightIds) == {} ==> cache.caches == old(cache.caches)
      ensures old(freeLightIds) != {} ==> cache.caches == Uploaded(old(cache.caches), LIGHTDATA, id, LightRecord(light))
    {
      if freeLightIds == {} {
        return NO_LIGHT;
      }
      id := LowestFree(freeLightIds);
      freeLightIds := freeLightIds - {id};
      Upload(cache, LIGHTDATA, id, LightRecord(light));
    }

    /** setLight: claim the id and upload the light into its slot. The registry is not consulted. */
    method SetLight(id: uint8, light: LightParameters)
      requires Valid()
      modifies this`freeLightIds, cache
      ensures Valid()
      ensures freeLightIds == old(freeLightIds) - {id}
      ensures cache.caches == Uploaded(old(cache.caches), LIGHTDATA, id, LightRecord(light))
    {
      if id in freeLightIds {
        freeLightIds := freeLightIds - {id};
      }
      Upload(cache, LIGHTDATA, id, LightRecord(light));
    }

    /** unregisterLight: return the id to the pool; the registry keeps its entry. */
    method UnregisterLight(id: uint8)
      requires Valid()
      modifies this`freeLightIds
      ensures Valid()
      ensures freeLightIds == old(freeLightIds) + {id}
    {
      freeLightIds := freeLightIds + {id};
    }

    /** enableLight(id): see `WithLightEnabled`. */
    method EnableLightId(id: uint8) returns (warned: bool)
      requires Valid()
      modifies this`activeLightSet
      ensures Valid()
      ensures (activeLightSet, warned) == WithLightEnabled(old(activeLightSet), id)
    {
      var pos := FindLight(activeLightSet.lights, activeLightSet.count, id);
      if pos < activeLightSet.count {
        return false;
      }
      if activeLightSet.count >= MAX_ENABLED_LIGHTS {
        return true;
      }
      activeLightSet := LightSet(activeLightSet.count + 1, activeLightSet.lights[activeLightSet.count := id]);
      warned := false;
    }

    /** disableLight(id): see `WithLightDisabled`. */
    method DisableLight(id: uint8)
      requires Valid()
      modifies this`activeLightSet
      ensures Valid()
      ensures activeLightSet == WithLightDisabled(old(activeLightSet), id)
    {
      var pos := FindLight(activeLightSet.lights, activeLightSet.count, id);
      if pos < activeLightSet.count {
        var last := activeLightSet.count - 1;
        var lights := activeLightSet.lights;
        activeLightSet := LightSet(last, lights[pos := lights[last]][last := lights[pos]]);
      }
    }

    /**
     * enableLight(light): a light value already registered reuses its id and
     * leases nothing; a new one is registered (even when that yields
     * NO_LIGHT) and remembered. The id is then enabled.
     */
    method EnableLight(light: LightParameters) returns (id: uint8, warned: bool)
      requires Valid()
      modifies this`lightRegistry, this`freeLightIds, this`activeLightSet, cache
      ensures Valid()
      ensures (lightRegistry, freeLightIds, id) == LightLookup(old(lightRegistry), old(freeLightIds), light)
      ensures light in old(lightRegistry) ==>(
        id == old(lightRegistry)[light] && freeLightIds == old(freeLightIds) && cache.caches == old(cache.caches))
      ensures light !in old(lightRegistry) && old(freeLightIds) != {} ==>(
        cache.caches == Uploaded(old(cache.caches), LIGHTDATA, id, LightRecord(light)))
      ensures light !in old(lightRegistry) && old(freeLightIds) == {} ==>(
        id == NO_LIGHT && cache.caches == old(cache.caches))
      ensures (activeLightSet, warned) == WithLightEnabled(old(activeLightSet), id)
    {
      if light in lightRegistry {
        id := lightRegistry[light];
      } else {
        id := RegisterLight(light);
        lightRegistry := lightRegistry[light := id];
      }
      warned := EnableLightId(id);
    }

    // --- Material -------------------------------------------------------------

    /** setMaterial: the material becomes current and enabled. */
    method SetMaterial(m: MaterialParameters)
      requires Valid()
      modifies this`activeMaterial
      ensures Valid()
      ensures activeMaterial == MaterialData(m, true)
    {
      activeMaterial := MaterialData(m, true);
    }

    method PushMaterial()
      requires Valid()
      modifies this`materialStack
      ensures Valid()
      ensures Scoped(activeMaterial, materialStack) == Pushed(Scoped(activeMaterial, old(materialStack)))
    {
      materialStack := materialStack + [activeMaterial];
    }

    method PushAndSetMaterial(m: MaterialParameters)
      requires Valid()
      modifies this`materialStack, this`activeMaterial
      ensures Valid()
      ensures Scoped(activeMaterial, materialStack) == Assigned(Pushed(Scoped(old(activeMaterial), old(materialStack))), MaterialData(m, true))
    {
      PushMaterial();
      SetMaterial(m);
    }

    /** popMaterial: see `PoppedMaterial`. */
    method PopMaterial() returns (warned: bool)
      requires Valid()
      modifies this`materialStack, this`activeMaterial
      ensures Valid()
      ensures (Scoped(activeMaterial, materialStack), warned) == PoppedMaterial(Scoped(old(activeMaterial), old(materialStack)))
    {
      if materialStack == [] {
        return true;
      }
      materialStack := materialStack[..|materialStack| - 1];
      if materialStack == [] {
        activeMaterial := activeMaterial.(enabled := false);
      } else {
        activeMaterial := materialStack[|materialStack| - 1];
      }
      warned := false;
    }

    // --- Viewport -------------------------------------------------------------

    /** setViewport: the target state's viewport and the frame data's copy of it. */
    method SetViewport(vp: Rect)
      requires Valid()
      modifies this`frameViewport, target
      ensures Valid()
      ensures target.Value() == old(target.Value()).(viewport := vp) && frameViewport == vp
    {
      target.SetViewport(vp);
      frameViewport := vp;
    }

    method PushViewport()
      requires Valid()
      modifies this`viewportStack
      ensures Valid()
      ensures Scoped(target.viewport, viewportStack) == Pushed(Scoped(target.viewport, old(viewportStack)))
    {
      viewportStack := viewportStack + [target.viewport];
    }

    method PushAndSetViewport(vp: Rect)
      requires Valid()
      modifies this`viewportStack, this`frameViewport, target
      ensures Valid()
      ensures Scoped(target.viewport, viewportStack) == Assigned(Pushed(Scoped(old(target.viewport), old(viewportStack))), vp)
      ensures target.Value() == old(target.Value()).(viewport := vp) && frameViewport == vp
    {
      PushViewport();
      SetViewport(vp);
    }

    method PopViewport() returns (warned: bool)
      requires Valid()
      modifies this`viewportStack, this`frameViewport, target
      ensures Valid()
      ensures (Scoped(target.viewport, viewportStack), warned) == Popped(Scoped(old(target.viewport), old(viewportStack)))
      ensures target.Value() == old(target.Value()).(viewport := target.viewport)
      ensures warned ==> frameViewport == old(frameViewport)
      ensures !warned ==> frameViewport == target.viewport
    {
      if viewportStack == [] {
        return true;
      }
      SetViewport(viewportStack[|viewportStack| - 1]);
      viewportStack := viewportStack[..|viewportStack| - 1];
      warned := false;
    }

    // --- Vertex input ---------------------------------------------------------

    /** bindVertexBuffer: set the target state's binding point; std::out_of_range past MAX_VERTEXBINDINGS. */
    method BindVertexBuffer(binding: uint32, bufferId: uint32, offset: uint32, stride: uint32, divisor: uint32) returns (r: Result<()>)
      requires Valid()
      modifies target
      ensures Valid()
      ensures binding < MAX_VERTEXBINDINGS ==> (r.Ok? && target.Value() == old(target.Value()).(
        vertexBindings := old(target.vertexBindings)[binding := VertexBinding(bufferId, offset, stride, divisor)],
        vertexBindingCheckNumber := Inc32(old(target.vertexBindingCheckNumber))))
      ensures binding >= MAX_VERTEXBINDINGS ==> (r == Err(OutOfRange) && target.Value() == old(target.Value()).(
        vertexBindingCheckNumber := Inc32(old(target.vertexBindingCheckNumber))))
    {
      r := target.SetVertexBinding(binding, bufferId, offset, stride, divisor);
    }

    // --- Draw calls -----------------------------------------------------------

    /**
     * The common part of drawArrays and drawElements: apply the changes,
     * add the object data to its cache (the returned slot is the draw id),
     * and rotate the object-data storage once the draw id reaches the last
     * slot.
     */
    method Draw() returns (log: seq<Command>, warning: Option<Error>, drawId: uint32, swapped: bool)
      requires Valid()
      modifies active, cache, objectStream, objectStream.view, objectStream.lock
      ensures Valid()
      ensures active.Value() == old(target.Value())
      ensures ApplyOutcome(log, warning) == ApplyCommands(old(target.Value()), MakeDiff(old(active.Value()), old(target.Value()), forced := false))
      ensures var published := if warning.Some? then old(cache.caches)
                               else Published(old(cache.caches), frameViewport, activeMaterial, activeLightSet, enabledTextures);
        OBJECTDATA in published &&
        cache.caches == published[OBJECTDATA := Added(published[OBJECTDATA], ObjectRecord(objectData), false).0] &&
        drawId == Added(published[OBJECTDATA], ObjectRecord(objectData), false).1
      ensures swapped <==> drawId >= MAX_OBJECTDATA - 1
      ensures swapped ==> objectStream.multiBufferHead == StreamBufferViews.NextGeneration(old(objectStream.multiBufferHead), OBJECTDATA_GENERATIONS)
      ensures !swapped ==> objectStream.multiBufferHead == old(objectStream.multiBufferHead)
    {
      log, warning := ApplyChanges(false);
      drawId, swapped := RecordDraw();
    }

    /** The part of a draw after applyChanges: the object data is added and the storage rotated when full. */
    method RecordDraw() returns (drawId: uint32, swapped: bool)
      requires Valid()
      modifies cache, objectStream, objectStream.view, objectStream.lock
      ensures Valid()
      ensures OBJECTDATA in old(cache.caches)
      ensures cache.caches == old(cache.caches)[OBJECTDATA := Added(old(cache.caches)[OBJECTDATA], ObjectRecord(objectData), false).0]
      ensures drawId == Added(old(cache.caches)[OBJECTDATA], ObjectRecord(objectData), false).1
      ensures swapped <==> drawId >= MAX_OBJECTDATA - 1
      ensures swapped ==> objectStream.multiBufferHead == StreamBufferViews.NextGeneration(old(objectStream.multiBufferHead), OBJECTDATA_GENERATIONS)
      ensures !swapped ==> objectStream.multiBufferHead == old(objectStream.multiBufferHead)
    {
      var r := cache.AddParameter(OBJECTDATA, ObjectRecord(objectData), false);
      drawId := r.value;
      swapped := drawId >= MAX_OBJECTDATA - 1;
      if swapped {
        objectStream.Swap();
      }
    }

    /** drawArrays: a draw whose base instance is the draw id. */
    method DrawArrays(mode: uint32, first: uint32, count: uint32) returns (log: seq<Command>, warning: Option<Error>, call: DrawCall, swapped: bool)
      requires Valid()
      modifies active, cache, objectStream, objectStream.view, objectStream.lock
      ensures Valid()
      ensures active.Value() == old(target.Value())
      ensures ApplyOutcome(log, warning) == ApplyCommands(old(target.Value()), MakeDiff(old(active.Value()), old(target.Value()), false))
      ensures var published := if warning.Some? then old(cache.caches)
                               else Published(old(cache.caches), frameViewport, activeMaterial, activeLightSet, enabledTextures);
        OBJECTDATA in published &&
        call == DrawArraysCall(mode, first, count, Added(published[OBJECTDATA], ObjectRecord(objectData), false).1)
      ensures swapped <==> call.baseInstance >= MAX_OBJECTDATA - 1
    {
      var drawId;
      log, warning, drawId, swapped := Draw();
      call := DrawArraysCall(mode, first, count, drawId);
    }

    /** drawElements: an indexed draw whose base instance is the draw id. */
    method DrawElements(mode: uint32, indexType: uint32, first: uint32, count: uint32) returns (log: seq<Command>, warning: Option<Error>, call: DrawCall, swapped: bool)
      requires Valid()
      modifies active, cache, objectStream, objectStream.view, objectStream.lock
      ensures Valid()
      ensures active.Value() == old(target.Value())
      ensures ApplyOutcome(log, warning) == ApplyCommands(old(target.Value()), MakeDiff(old(active.Value()), old(target.Value()), false))
      ensures var published := if warning.Some? then old(cache.caches)
                               else Published(old(cache.caches), frameViewport, activeMaterial, activeLightSet, enabledTextures);
        OBJECTDATA in published &&
        call == DrawElementsCall(mode, indexType, first, count, Added(published[OBJECTDATA], ObjectRecord(objectData), false).1)
      ensures swapped <==> call.baseInstance >= MAX_OBJECTDATA - 1
    {
      var drawId;
      log, warning, drawId, swapped := Draw();
      call := DrawElementsCall(mode, indexType, first, count, drawId);
    }
  }

  /**
   * The draw-id rule: the object-data storage rotates when the draw id
   * reaches the last slot, which includes every draw made once the cache is
   * full (its addParameter then returns INVALID_INDEX).
   */
  lemma FullObjectCacheRotatesEveryDraw(e: CacheEntry<CacheRecord>, rec: CacheRecord)
    requires EntryValid(e) && e.maxElementCount == MAX_OBJECTDATA && e.head >= MAX_OBJECTDATA
    ensures Added(e, rec, false).1 == INVALID_INDEX
    ensures Added(e, rec, false).1 >= MAX_OBJECTDATA - 1
  {
  }

  /** A draw with nothing changed since the last one sends no state commands. */
  lemma RepeatedApplyIssuesNothing(v: PipelineValue)
    ensures ApplyCommands(v, MakeDiff(v, v, false)) == ApplyOutcome([], None)
  {
    DiffWithItselfIsEmpty(v);
    EmptyDiffIssuesNothing(v);
  }
}
