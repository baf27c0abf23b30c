/**
 The read-only query interface of the loaded mesh (`Model`). Its storage
 and the OBJ parser are not part of this model; the per-corner queries are
 given as total functions of the face index and corner.
 */
module Meshes {
  import opened Geometry

  datatype Mesh = Mesh(
    verts: seq<Vec3>,               // `vert(i)` for `0 <= i < nverts()`
    nfaces: nat,                    // `nfaces()`
    vertOf: (int, int) -> Vec3,     // `vert(iface, nthvert)`
    normalOf: (int, int) -> Vec3,   // `normal(iface, nthvert)`
    uvOf: (int, int) -> Vec2        // `uv(iface, nthvert)`
  )
}
