/** Values handed to the lens scripts by the host runtime. Textures and
    colours are opaque to the scripts: they are only stored and compared. */
module Host {

  /** A possibly unset script input or component property (`null`/`undefined`). */
  datatype Option<+T> = None | Some(value: T)

  /** A texture asset, known to the scripts only by its identity. */
  datatype Texture = Texture(id: nat)

  /** An RGB colour as the editor supplies it (`vec3`). */
  datatype Vec3 = Vec3(x: real, y: real, z: real)

  /** An RGBA colour as a material pass stores it (`vec4`). */
  datatype Vec4 = Vec4(x: real, y: real, z: real, w: real)
}
