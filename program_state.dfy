/**
 * The shader-side state of a rendering context (RenderingContext/ProgramState.h,
 * RenderingContext/ProgramState.cpp): the material, up to eight lights kept in a
 * slot array with an "enabled" bitset, the point parameters and the usage of
 * each texture unit.
 *
 * Each group carries a check number that every setter bumps. Comparing the
 * target state with the state last applied first compares check numbers:
 * equal numbers mean "unchanged" without looking at the values. The camera
 * matrices (floating-point products and inverses) and the uniform-buffer
 * upload are not modelled.
 */
module ProgramStates {
  import opened Numeric
  import opened RenderingParameters

  /** ProgramState::MAX_LIGHTS, the number of light slots. */
  const MAX_LIGHTS: nat := 8

  // ---------------------------------------------------------------------------
  // align (ProgramState.cpp)

  /**
   * align: round `offset` up to a multiple of `alignment` in uint32_t
   * arithmetic; alignments 0 and 1 leave it unchanged.
   */
  function Align(offset: uint32, alignment: uint32): (r: uint32)
    ensures alignment <= 1 ==> r == offset
  {
    if alignment > 1 then Trunc32(offset + (alignment - offset % alignment) % alignment) else offset
  }

  /** The padding align adds is less than one alignment step (a wrapped result lies below `offset`). */
  lemma AlignPadLessThanAlignment(offset: uint32, alignment: uint32)
    requires alignment >= 1
    ensures Align(offset, alignment) - offset < alignment
  {
    if alignment > 1 {
      var pad := (alignment - offset % alignment) % alignment;
      if offset + pad >= TWO_32 {
        assert Align(offset, alignment) == offset + pad - TWO_32;
      }
    }
  }

  /** Without 32-bit overflow, align adds the distance to the next multiple, if any. */
  lemma AlignUnwrapped(offset: uint32, alignment: uint32)
    requires alignment > 1 && offset + alignment <= TWO_32
    ensures offset % alignment == 0 ==> Align(offset, alignment) == offset
    ensures offset % alignment != 0 ==> Align(offset, alignment) == offset + (alignment - offset % alignment)
  {
    var m := offset % alignment;
    if m == 0 {
      ModOfSum(1, alignment, 0);
      assert (alignment - m) % alignment == 0;
    } else {
      ModOfSum(0, alignment, alignment - m);
      assert (alignment - m) % alignment == alignment - m;
    }
  }

  /**
   * Without 32-bit overflow, align gives a multiple of `alignment` that is at
   * least `offset` and less than one step above it.
   */
  lemma AlignRoundsUp(offset: uint32, alignment: uint32)
    requires alignment > 1 && offset + alignment <= TWO_32
    ensures Align(offset, alignment) % alignment == 0
    ensures offset <= Align(offset, alignment) < offset + alignment
  {
    AlignUnwrapped(offset, alignment);
    var q, m := offset / alignment, offset % alignment;
    assert offset == q * alignment + m;
    if m != 0 {
      assert offset + (alignment - m) == (q + 1) * alignment + 0;
      ModOfSum(q + 1, alignment, 0);
    }
  }

  /** ... and no multiple of `alignment` that is at least `offset` lies below it: align gives the least one. */
  lemma AlignBelowEveryMultiple(offset: uint32, alignment: uint32, m: nat)
    requires alignment > 1 && offset + alignment <= TWO_32
    requires m % alignment == 0 && offset <= m
    ensures Align(offset, alignment) <= m
  {
    AlignUnwrapped(offset, alignment);
    var q, rest := offset / alignment, offset % alignment;
    assert offset == q * alignment + rest;
    if rest != 0 {
      assert Align(offset, alignment) == (q + 1) * alignment;
      var k := m / alignment;
      assert m == k * alignment;
      if k <= q {
        MulMonotone(alignment, k, q);
        assert false;
      }
      MulMonotone(alignment, q + 1, k);
    }
  }

  /** Aligning an aligned offset changes nothing (without 32-bit overflow). */
  lemma AlignIdempotent(offset: uint32, alignment: uint32)
    requires offset + alignment <= TWO_32
    ensures Align(Align(offset, alignment), alignment) == Align(offset, alignment)
  {
    if alignment > 1 {
      AlignRoundsUp(offset, alignment);
      AlignOfMultiple(Align(offset, alignment), alignment);
    }
  }

  /** A multiple of the alignment is already aligned. */
  lemma AlignOfMultiple(offset: uint32, alignment: uint32)
    requires alignment > 1 && offset % alignment == 0
    ensures Align(offset, alignment) == offset
  {
    ModOfSum(1, alignment, 0);
    assert (alignment - offset % alignment) % alignment == 0;
  }

  /** Close to the top of the uint32_t range align wraps around to a small value that is not aligned. */
  lemma AlignWrapsNearUint32Max()
    ensures Align(UINT32_MAX, 10) == 4
    ensures Align(Align(UINT32_MAX, 10), 10) == 10
  {
  }

  // ---------------------------------------------------------------------------
  // The light bitset

  /** std::bitset::count: the number of set bits. */
  function PopCount(s: seq<bool>): (n: nat)
    ensures n <= |s|
  {
    if s == [] then 0 else PopCount(s[..|s| - 1]) + (if s[|s| - 1] then 1 else 0)
  }

  /** Extending a prefix by one bit adds that bit to the count. */
  lemma PopCountStep(s: seq<bool>, i: nat)
    requires i < |s|
    ensures PopCount(s[..i + 1]) == PopCount(s[..i]) + (if s[i] then 1 else 0)
  {
    assert s[..i + 1][..i] == s[..i];
  }

  /** Longer prefixes count at least as many set bits, and strictly more once they take in a set bit. */
  lemma {:induction false} PopCountMonotone(s: seq<bool>, i: nat, j: nat)
    requires i <= j <= |s|
    ensures PopCount(s[..i]) <= PopCount(s[..j])
    ensures i < j && s[i] ==> PopCount(s[..i]) < PopCount(s[..j])
  {
    if i < j {
      PopCountMonotone(s, i, j - 1);
      PopCountStep(s, j - 1);
      if i == j - 1 && s[i] {
        assert PopCount(s[..j]) == PopCount(s[..i]) + 1;
      }
    }
  }

  /** Setting bit `i` to `b` changes the count by exactly the difference of the two bits. */
  lemma {:induction false} PopCountUpdate(s: seq<bool>, i: nat, b: bool)
    requires i < |s|
    ensures PopCount(s[i := b]) == PopCount(s) - (if s[i] then 1 else 0) + (if b then 1 else 0)
  {
    var last := |s| - 1;
    if i == last {
      assert s[i := b][..last] == s[..last];
    } else {
      assert s[i := b][..last] == s[..last][i := b];
      PopCountUpdate(s[..last], i, b);
    }
  }

  /**
   * The slot of the n-th enabled light (counting from 0): the set bit with
   * exactly n set bits before it.
   */
  function NthEnabled(s: seq<bool>, n: nat): (r: nat)
    requires n < PopCount(s)
    ensures r < |s| && s[r] && PopCount(s[..r]) == n
  {
    var last := |s| - 1;
    if s[last] && PopCount(s[..last]) == n then last
    else
      var r := NthEnabled(s[..last], n);
      assert s[..last][..r] == s[..r];
      r
  }

  /** A set bit with n set bits before it is the n-th enabled slot, and only it is. */
  lemma NthEnabledUnique(s: seq<bool>, n: nat, p: nat)
    requires p < |s| && s[p] && PopCount(s[..p]) == n
    ensures n < PopCount(s) && NthEnabled(s, n) == p
  {
    PopCountMonotone(s, p, |s|);
    assert s[..|s|] == s;
    var r := NthEnabled(s, n);
    if r < p {
      PopCountMonotone(s, r, p);
    } else if p < r {
      PopCountMonotone(s, p, r);
    }
  }

  /** The enabled slots are listed in increasing order. */
  lemma NthEnabledIncreasing(s: seq<bool>, i: nat, j: nat)
    requires i < j < PopCount(s)
    ensures NthEnabled(s, i) < NthEnabled(s, j)
  {
    if NthEnabled(s, j) <= NthEnabled(s, i) {
      PopCountMonotone(s, NthEnabled(s, j), NthEnabled(s, i));
    }
  }

  /**
   * The slot getEnabledLight reads for `index`: its first loop stops on the
   * first enabled slot, and every round of the second loop re-finds the slot
   * it stands on and then steps past it, so the result is one past the
   * (index - 1)-th enabled slot rather than the index-th.
   */
  function AsWrittenEnabledSlot(s: seq<bool>, index: nat): (r: nat)
    requires index < PopCount(s)
    ensures r < |s|
  {
    if index == 0 then NthEnabled(s, 0)
    else
      NthEnabledIncreasing(s, index - 1, index);
      NthEnabled(s, index - 1) + 1
  }

  /** getEnabledLight reads the right slot exactly when that slot directly follows the previous enabled one. */
  lemma AsWrittenSlotCorrectIff(s: seq<bool>, index: nat)
    requires index < PopCount(s)
    ensures AsWrittenEnabledSlot(s, index) == NthEnabled(s, index)
        <==> index == 0 || NthEnabled(s, index) == NthEnabled(s, index - 1) + 1
  {
  }

  /**
   * With lights 0 and 2 enabled, getEnabledLight(1) reads slot 1, a disabled
   * slot, instead of slot 2.
   */
  lemma GetEnabledLightReadsDisabledSlot()
    ensures var s := [true, false, true, false, false, false, false, false];
      PopCount(s) == 2 && AsWrittenEnabledSlot(s, 1) == 1 && !s[1] && NthEnabled(s, 1) == 2
  {
    var s := [true, false, true, false, false, false, false, false];
    assert s[..0] == [];
    PopCountStep(s, 0);
    PopCountStep(s, 1);
    PopCountStep(s, 2);
    PopCountStep(s, 3);
    PopCountStep(s, 4);
    PopCountStep(s, 5);
    PopCountStep(s, 6);
    PopCountStep(s, 7);
    assert s[..8] == s;
    NthEnabledUnique(s, 0, 0);
    NthEnabledUnique(s, 1, 2);
  }

  /**
   * Some enabled light differs between two slot arrays, each enabled light
   * found through the corrected lookup NthEnabled.
   */
  ghost predicate EnabledLightsDiffer(s: seq<bool>, a: seq<LightParameters>, b: seq<LightParameters>)
    requires |a| == |s| && |b| == |s|
  {
    exists i :: 0 <= i < PopCount(s) && a[NthEnabled(s, i)] != b[NthEnabled(s, i)]
  }

  /**
   * The comparison lightsChanged makes as written: the i-th enabled light of
   * each state is read through getEnabledLight, that is in slot
   * AsWrittenEnabledSlot(s, i) of both (their bitsets are equal here).
   */
  ghost predicate EnabledLightsDifferAsWritten(s: seq<bool>, a: seq<LightParameters>, b: seq<LightParameters>)
    requires |a| == |s| && |b| == |s|
  {
    exists i :: 0 <= i < PopCount(s) && a[AsWrittenEnabledSlot(s, i)] != b[AsWrittenEnabledSlot(s, i)]
  }

  /**
   * With lights 0 and 2 enabled and only light 2 changed, lightsChanged as
   * written compares slots 0 and 1 and finds no difference, so the new
   * parameters of light 2 are never uploaded; the comparison through
   * NthEnabled sees the change.
   */
  lemma LightsChangedAsWrittenMissesChange(a: seq<LightParameters>, b: seq<LightParameters>)
    requires |a| == MAX_LIGHTS && |b| == MAX_LIGHTS
    requires a[0] == b[0] && a[1] == b[1] && a[2] != b[2]
    ensures var s := [true, false, true, false, false, false, false, false];
      !EnabledLightsDifferAsWritten(s, a, b) && EnabledLightsDiffer(s, a, b)
  {
    var s := [true, false, true, false, false, false, false, false];
    GetEnabledLightReadsDisabledSlot();
    assert s[..0] == [];
    NthEnabledUnique(s, 0, 0);
    assert AsWrittenEnabledSlot(s, 0) == 0;
    forall i | 0 <= i < PopCount(s)
      ensures a[AsWrittenEnabledSlot(s, i)] == b[AsWrittenEnabledSlot(s, i)]
    {
      assert i == 0 || i == 1;
    }
    assert a[NthEnabled(s, 1)] != b[NthEnabled(s, 1)];
  }

  // ---------------------------------------------------------------------------
  // ProgramState

  class ProgramState {
    var materialCheckNumber: uint32
    var material: MaterialParameters

    var lightsCheckNumber: uint32
    /** The light slots. */
    var lights: seq<LightParameters>
    /** Which slots hold an enabled light. */
    var lightsEnabled: seq<bool>

    var pointParameters: PointParameters

    var textureUnitsCheckNumber: uint32
    var textureUnitParams: seq<(TexUnitUsage, TextureType)>

    ghost predicate Valid()
      reads this
    {
      |lights| == MAX_LIGHTS && |lightsEnabled| == MAX_LIGHTS && |textureUnitParams| == MAX_TEXTURES
    }

    /**
     * A fresh state: all check numbers 0, a disabled material, no enabled
     * light and every texture unit disabled for 2D textures. The default
     * values of the parameter structs are given as arguments.
     */
    constructor(defaultMaterial: seq<byte>, defaultLight: LightParameters, defaultPoint: PointParameters)
      ensures Valid()
      ensures materialCheckNumber == 0 && material == MaterialParameters(defaultMaterial, false)
      ensures lightsCheckNumber == 0 && lights == Fill(MAX_LIGHTS, defaultLight) && lightsEnabled == Fill(MAX_LIGHTS, false)
      ensures PopCount(lightsEnabled) == 0
      ensures pointParameters == defaultPoint
      ensures textureUnitsCheckNumber == 0 && textureUnitParams == Fill(MAX_TEXTURES, (Disabled, Texture2D))
    {
      materialCheckNumber := 0;
      material := MaterialParameters(defaultMaterial, false);
      lightsCheckNumber := 0;
      lights := Fill(MAX_LIGHTS, defaultLight);
      lightsEnabled := Fill(MAX_LIGHTS, false);
      pointParameters := defaultPoint;
      textureUnitsCheckNumber := 0;
      textureUnitParams := Fill(MAX_TEXTURES, (Disabled, Texture2D));
      new;
      NoneSetCountsZero(lightsEnabled);
    }

    // --- Materials

    /** materialChanged: equal check numbers short-cut to "unchanged". */
    function MaterialChanged(actual: ProgramState): (r: bool)
      reads this, actual
      ensures materialCheckNumber == actual.materialCheckNumber ==> !r
      ensures materialCheckNumber != actual.materialCheckNumber ==> (r <==> material != actual.material)
    {
      if materialCheckNumber == actual.materialCheckNumber then false else material != actual.material
    }

    /** setMaterial: store the material, enabled. */
    method SetMaterial(mat: MaterialParameters)
      modifies this
      ensures material == mat.(enabled := true) && material.enabled
      ensures materialCheckNumber == Inc32(old(materialCheckNumber))
      ensures lights == old(lights) && lightsEnabled == old(lightsEnabled) && lightsCheckNumber == old(lightsCheckNumber)
      ensures pointParameters == old(pointParameters)
      ensures textureUnitParams == old(textureUnitParams) && textureUnitsCheckNumber == old(textureUnitsCheckNumber)
    {
      material := mat.(enabled := true);
      materialCheckNumber := Inc32(materialCheckNumber);
    }

    /** disableMaterial: keep the material's values but mark it disabled. */
    method DisableMaterial()
      modifies this
      ensures material == old(material).(enabled := false) && !material.enabled
      ensures materialCheckNumber == Inc32(old(materialCheckNumber))
      ensures lights == old(lights) && lightsEnabled == old(lightsEnabled) && lightsCheckNumber == old(lightsCheckNumber)
      ensures pointParameters == old(pointParameters)
      ensures textureUnitParams == old(textureUnitParams) && textureUnitsCheckNumber == old(textureUnitsCheckNumber)
    {
      material := material.(enabled := false);
      materialCheckNumber := Inc32(materialCheckNumber);
    }

    /** updateMaterial: adopt the other state's material and check number; afterwards nothing differs. */
    method UpdateMaterial(actual: ProgramState)
      modifies this
      ensures material == old(actual.material) && materialCheckNumber == old(actual.materialCheckNumber)
      ensures !MaterialChanged(actual)
      ensures lights == old(lights) && lightsEnabled == old(lightsEnabled) && lightsCheckNumber == old(lightsCheckNumber)
      ensures pointParameters == old(pointParameters)
      ensures textureUnitParams == old(textureUnitParams) && textureUnitsCheckNumber == old(textureUnitsCheckNumber)
    {
      material := actual.material;
      materialCheckNumber := actual.materialCheckNumber;
    }

    // --- Lights

    /** getNumEnabledLights. */
    function NumEnabledLights(): (n: nat)
      reads this
      requires Valid()
      ensures n <= MAX_LIGHTS
    {
      PopCount(lightsEnabled)
    }

    /** isLightEnabled: exactly the slots the enumeration of enabled lights reaches. */
    function IsLightEnabled(lightNumber: nat): (b: bool)
      reads this
      requires Valid() && lightNumber < MAX_LIGHTS
      ensures b <==> exists i :: 0 <= i < NumEnabledLights() && NthEnabled(lightsEnabled, i) == lightNumber
    {
      if lightsEnabled[lightNumber] then
        NthEnabledUnique(lightsEnabled, PopCount(lightsEnabled[..lightNumber]), lightNumber);
        true
      else
        false
    }

    /**
     * getEnabledLight, as written: the light in slot
     * AsWrittenEnabledSlot(lightsEnabled, index), which is not always an
     * enabled one (see GetEnabledLightReadsDisabledSlot).
     */
    method GetEnabledLight(index: nat) returns (light: LightParameters)
      requires Valid() && index < PopCount(lightsEnabled)
      ensures light == lights[AsWrittenEnabledSlot(lightsEnabled, index)]
    {
      var pos := SearchEnabledSlot(lightsEnabled, index);
      light := lights[pos];
    }

    /**
     * enableLight: put the light into the lowest free slot, enable that slot
     * and return its number. Callers must not enable more than MAX_LIGHTS
     * lights.
     */
    method EnableLight(light: LightParameters) returns (pos: nat)
      requires Valid() && PopCount(lightsEnabled) < MAX_LIGHTS
      modifies this
      ensures Valid()
      ensures pos < MAX_LIGHTS && !old(lightsEnabled)[pos]
      ensures forall q :: 0 <= q < pos ==> old(lightsEnabled)[q]
      ensures lightsEnabled == old(lightsEnabled)[pos := true]
      ensures lights == old(lights)[pos := light]
      ensures lightsCheckNumber == Inc32(old(lightsCheckNumber))
      ensures PopCount(lightsEnabled) == PopCount(old(lightsEnabled)) + 1
      ensures material == old(material) && materialCheckNumber == old(materialCheckNumber)
      ensures pointParameters == old(pointParameters)
      ensures textureUnitParams == old(textureUnitParams) && textureUnitsCheckNumber == old(textureUnitsCheckNumber)
    {
      pos := LowestClear(lightsEnabled);
      PopCountUpdate(lightsEnabled, pos, true);
      lightsCheckNumber := Inc32(lightsCheckNumber);
      lights := lights[pos := light];
      lightsEnabled := lightsEnabled[pos := true];
    }

    /** disableLight: clear the bit of an enabled light; its slot keeps the parameters. */
    method DisableLight(lightNumber: nat)
      requires Valid() && lightNumber < MAX_LIGHTS && lightsEnabled[lightNumber]
      modifies this
      ensures Valid()
      ensures lightsEnabled == old(lightsEnabled)[lightNumber := false]
      ensures PopCount(lightsEnabled) == PopCount(old(lightsEnabled)) - 1
      ensures lightsCheckNumber == Inc32(old(lightsCheckNumber))
      ensures lights == old(lights)
      ensures material == old(material) && materialCheckNumber == old(materialCheckNumber)
      ensures pointParameters == old(pointParameters)
      ensures textureUnitParams == old(textureUnitParams) && textureUnitsCheckNumber == old(textureUnitsCheckNumber)
    {
      PopCountUpdate(lightsEnabled, lightNumber, false);
      lightsCheckNumber := Inc32(lightsCheckNumber);
      lightsEnabled := lightsEnabled[lightNumber := false];
    }

    /**
     * What lightsChanged decides: the check numbers differ and either a
     * different set of slots is enabled or some enabled light differs.
     */
    ghost predicate LightsDiffer(actual: ProgramState)
      reads this, actual
      requires Valid() && actual.Valid()
    {
      lightsCheckNumber != actual.lightsCheckNumber
      && (lightsEnabled != actual.lightsEnabled || EnabledLightsDiffer(lightsEnabled, lights, actual.lights))
    }

    /**
     * lightsChanged, comparing the enabled lights one by one through the
     * corrected lookup NthEnabled.
     */
    method LightsChanged(actual: ProgramState) returns (changed: bool)
      requires Valid() && actual.Valid()
      ensures lightsCheckNumber == actual.lightsCheckNumber ==> !changed
      ensures changed == LightsDiffer(actual)
    {
      if lightsCheckNumber == actual.lightsCheckNumber {
        return false;
      }
      if lightsEnabled != actual.lightsEnabled {
        return true;
      }
      var count := PopCount(lightsEnabled);
      var i := 0;
      while i < count
        invariant i <= count
        invariant forall k :: 0 <= k < i ==> lights[NthEnabled(lightsEnabled, k)] == actual.lights[NthEnabled(lightsEnabled, k)]
      {
        var slot := NthEnabled(lightsEnabled, i);
        if lights[slot] != actual.lights[slot] {
          return true;
        }
        i := i + 1;
      }
      return false;
    }

    /**
     * lightsChanged as written: like LightsChanged, but the i-th enabled
     * light of both states is read through getEnabledLight, so a change in
     * an enabled slot can go unnoticed (see LightsChangedAsWrittenMissesChange).
     */
    method LightsChangedAsWritten(actual: ProgramState) returns (changed: bool)
      requires Valid() && actual.Valid()
      ensures lightsCheckNumber == actual.lightsCheckNumber ==> !changed
      ensures changed <==> (lightsCheckNumber != actual.lightsCheckNumber
        && (lightsEnabled != actual.lightsEnabled || EnabledLightsDifferAsWritten(lightsEnabled, lights, actual.lights)))
    {
      if lightsCheckNumber == actual.lightsCheckNumber {
        return false;
      }
      if lightsEnabled != actual.lightsEnabled {
        return true;
      }
      var count := PopCount(lightsEnabled);
      var i := 0;
      while i < count
        invariant i <= count
        invariant forall k :: 0 <= k < i ==>
          lights[AsWrittenEnabledSlot(lightsEnabled, k)] == actual.lights[AsWrittenEnabledSlot(lightsEnabled, k)]
      {
        var mine := GetEnabledLight(i);
        var theirs := actual.GetEnabledLight(i);
        if mine != theirs {
          return true;
        }
        i := i + 1;
      }
      return false;
    }

    /**
     * updateLights: adopt the other state's enabled bits and check number.
     * The light slots themselves are not copied; afterwards the lights no
     * longer count as changed.
     */
    method UpdateLights(actual: ProgramState)
      requires Valid() && actual.Valid()
      modifies this
      ensures Valid()
      ensures lightsEnabled == old(actual.lightsEnabled) && lightsCheckNumber == old(actual.lightsCheckNumber)
      ensures lights == old(lights)
      ensures !LightsDiffer(actual)
      ensures material == old(material) && materialCheckNumber == old(materialCheckNumber)
      ensures pointParameters == old(pointParameters)
      ensures textureUnitParams == old(textureUnitParams) && textureUnitsCheckNumber == old(textureUnitsCheckNumber)
    {
      lightsEnabled := actual.lightsEnabled;
      lightsCheckNumber := actual.lightsCheckNumber;
    }

    /** updateLightParameter: overwrite one slot; no bit and no check number changes. */
    method UpdateLightParameter(lightNumber: nat, light: LightParameters)
      requires Valid() && lightNumber < MAX_LIGHTS
      modifies this
      ensures Valid()
      ensures lights == old(lights)[lightNumber := light]
      ensures lightsEnabled == old(lightsEnabled) && lightsCheckNumber == old(lightsCheckNumber)
      ensures material == old(material) && materialCheckNumber == old(materialCheckNumber)
      ensures pointParameters == old(pointParameters)
      ensures textureUnitParams == old(textureUnitParams) && textureUnitsCheckNumber == old(textureUnitsCheckNumber)
    {
      lights := lights[lightNumber := light];
    }

    // --- Point parameters (no check number)

    /**
     * pointParametersChanged: a plain value comparison with no check number,
     * so it is symmetric and a state never differs from itself.
     */
    function PointParametersChanged(actual: ProgramState): (r: bool)
      reads this, actual
      ensures actual == this ==> !r
    {
      pointParameters != actual.pointParameters
    }

    /** setPointParameters. */
    method SetPointParameters(p: PointParameters)
      modifies this
      ensures pointParameters == p
      ensures material == old(material) && materialCheckNumber == old(materialCheckNumber)
      ensures lights == old(lights) && lightsEnabled == old(lightsEnabled) && lightsCheckNumber == old(lightsCheckNumber)
      ensures textureUnitParams == old(textureUnitParams) && textureUnitsCheckNumber == old(textureUnitsCheckNumber)
    {
      pointParameters := p;
    }

    // --- Texture units

    /**
     * setTextureUnitParams: the check number is bumped before the bounds
     * check, so a unit beyond MAX_TEXTURES (std::out_of_range) still counts
     * as a change.
     */
    method SetTextureUnitParams(unit: nat, use: TexUnitUsage, t: TextureType) returns (r: Result<()>)
      requires Valid()
      modifies this
      ensures Valid()
      ensures textureUnitsCheckNumber == Inc32(old(textureUnitsCheckNumber))
      ensures unit < MAX_TEXTURES ==> r.Ok? && textureUnitParams == old(textureUnitParams)[unit := (use, t)]
      ensures unit >= MAX_TEXTURES ==> r == Err(OutOfRange) && textureUnitParams == old(textureUnitParams)
      ensures material == old(material) && materialCheckNumber == old(materialCheckNumber)
      ensures lights == old(lights) && lightsEnabled == old(lightsEnabled) && lightsCheckNumber == old(lightsCheckNumber)
      ensures pointParameters == old(pointParameters)
    {
      textureUnitsCheckNumber := Inc32(textureUnitsCheckNumber);
      if unit >= MAX_TEXTURES {
        return Err(OutOfRange);
      }
      textureUnitParams := textureUnitParams[unit := (use, t)];
      r := Ok(());
    }

    /** getTextureUnitParams: std::out_of_range beyond MAX_TEXTURES. */
    function GetTextureUnitParams(unit: nat): (r: Result<(TexUnitUsage, TextureType)>)
      reads this
      requires Valid()
      ensures r.Ok? <==> unit < MAX_TEXTURES
      ensures r.Ok? ==> r.value == textureUnitParams[unit]
    {
      if unit < MAX_TEXTURES then Ok(textureUnitParams[unit]) else Err(OutOfRange)
    }

    /** textureUnitsChanged: equal check numbers short-cut to "unchanged". */
    function TextureUnitsChanged(actual: ProgramState): (r: bool)
      reads this, actual
      ensures textureUnitsCheckNumber == actual.textureUnitsCheckNumber ==> !r
      ensures r ==> textureUnitParams != actual.textureUnitParams
    {
      if textureUnitsCheckNumber == actual.textureUnitsCheckNumber then false else textureUnitParams != actual.textureUnitParams
    }

    /** updateTextureUnits: adopt the other state's unit usages and check number. */
    method UpdateTextureUnits(actual: ProgramState)
      requires Valid() && actual.Valid()
      modifies this
      ensures Valid()
      ensures textureUnitParams == old(actual.textureUnitParams) && textureUnitsCheckNumber == old(actual.textureUnitsCheckNumber)
      ensures !TextureUnitsChanged(actual)
      ensures material == old(material) && materialCheckNumber == old(materialCheckNumber)
      ensures lights == old(lights) && lightsEnabled == old(lightsEnabled) && lightsCheckNumber == old(lightsCheckNumber)
      ensures pointParameters == old(pointParameters)
    {
      textureUnitParams := actual.textureUnitParams;
      textureUnitsCheckNumber := actual.textureUnitsCheckNumber;
    }
  }

  /**
   * The slot search of getEnabledLight: find the first enabled slot, then
   * `index` times re-find the enabled slot at the current position and step
   * one past it.
   */
  method SearchEnabledSlot(s: seq<bool>, index: nat) returns (pos: nat)
    requires index < PopCount(s)
    ensures pos == AsWrittenEnabledSlot(s, index)
  {
    pos := 0;
    // Find the first enabled light.
    while !s[pos]
      invariant pos <= NthEnabled(s, 0)
      invariant PopCount(s[..pos]) == 0
      decreases |s| - pos
    {
      PopCountStep(s, pos);
      pos := pos + 1;
    }
    NthEnabledUnique(s, 0, pos);
    // Every round re-finds the slot it stands on and steps past it.
    var k: nat := index;
    ghost var j: nat := 0;
    while k > 0
      invariant j + k == index
      invariant pos == AsWrittenEnabledSlot(s, j)
      invariant PopCount(s[..pos]) == j
    {
      pos := FindEnabledFrom(s, pos, j);
      AsWrittenSlotStep(s, j);
      k := k - 1;
      j := j + 1;
      pos := pos + 1;
    }
  }

  /** One round of getEnabledLight's second loop: from the j-th enabled slot to the slot after it. */
  lemma AsWrittenSlotStep(s: seq<bool>, j: nat)
    requires j + 1 < PopCount(s)
    ensures AsWrittenEnabledSlot(s, j + 1) == NthEnabled(s, j) + 1
    ensures PopCount(s[..NthEnabled(s, j) + 1]) == j + 1
  {
    PopCountStep(s, NthEnabled(s, j));
  }

  /**
   * The inner scan of getEnabledLight: from a position with `j` enabled slots
   * before it, step over disabled slots to the j-th enabled one.
   */
  method FindEnabledFrom(s: seq<bool>, from: nat, ghost j: nat) returns (pos: nat)
    requires from < |s| && j < PopCount(s) && PopCount(s[..from]) == j
    ensures pos == NthEnabled(s, j)
  {
    if NthEnabled(s, j) < from {
      PopCountMonotone(s, NthEnabled(s, j), from);
    }
    pos := from;
    while !s[pos]
      invariant pos <= NthEnabled(s, j)
      invariant PopCount(s[..pos]) == j
      decreases |s| - pos
    {
      PopCountStep(s, pos);
      pos := pos + 1;
    }
    NthEnabledUnique(s, j, pos);
  }

  /** The scan of enableLight: the lowest clear bit of a bitset that is not full. */
  method LowestClear(s: seq<bool>) returns (pos: nat)
    requires PopCount(s) < |s|
    ensures pos < |s| && !s[pos]
    ensures forall q :: 0 <= q < pos ==> s[q]
  {
    pos := 0;
    assert s[..|s|] == s;
    while s[pos]
      invariant pos < |s|
      invariant PopCount(s[..pos]) == pos
      invariant forall q :: 0 <= q < pos ==> s[q]
      decreases |s| - pos
    {
      PopCountStep(s, pos);
      PopCountMonotone(s, pos + 1, |s|);
      pos := pos + 1;
    }
  }

  /** A bitset with no set bit counts zero. */
  lemma {:induction false} NoneSetCountsZero(s: seq<bool>)
    requires forall i :: 0 <= i < |s| ==> !s[i]
    ensures PopCount(s) == 0
  {
    if s != [] {
      NoneSetCountsZero(s[..|s| - 1]);
    }
  }
}
