/**
 * Value types shared by the rendering state classes.
 *
 * RenderingParameters.h, which declares the parameter structs, is not part
 * of this model: the structs whose fields are floating-point colours,
 * vectors or sizes are represented here by their raw bytes, so that two
 * values are equal exactly when their representations are. Only the fields
 * the state-tracking code looks at individually (a material's enabled flag,
 * a texture unit's usage) are spelled out.
 */
module RenderingParameters {
  import opened Numeric

  /** A reference to a device object (shader, FBO, texture, buffer); 0 is the null reference. */
  type Handle = nat

  const NULL_HANDLE: Handle := 0

  /** LightParameters: position, direction, colours and attenuation of one light. */
  datatype LightParameters = LightParameters(data: seq<byte>)

  /** MaterialParameters: the colours and shininess, and whether the material is in use. */
  datatype MaterialParameters = MaterialParameters(data: seq<byte>, enabled: bool)

  /** PointParameters: point size and smoothing. */
  datatype PointParameters = PointParameters(data: seq<byte>)

  /** TexUnitUsageParameter. */
  datatype TexUnitUsage = Disabled | TextureMapping | GeneralPurpose | OtherUsage(code: nat)

  /** TextureType. */
  datatype TextureType = Texture1D | Texture2D | Texture3D | OtherTextureType(code: nat)

  /** The number of texture units tracked (MAX_TEXTURES). */
  const MAX_TEXTURES: nat := 8
}
