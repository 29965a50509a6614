/** One floor tile (`Ground`): its colour type and the material that renders it. */
module Tiles {
  import opened Common

  /** The `GroundType` values. Team numbers 1 and 2 double as Red and Purple. */
  const NoneType: int := 0
  const RedType: int := 1
  const PurpleType: int := 2

  /**
   * The materials a tile can show: the three that `SetType` assigns, and the
   * one the scene gave the tile before any `SetType`.
   */
  datatype Material = NoneMaterial | RedMaterial | PurpleMaterial | SceneMaterial

  /** The material `SetType`'s switch assigns for a type; None when no case matches. */
  function MaterialFor(t: int): (m: Option<Material>)
    ensures m == Some(NoneMaterial) <==> t == NoneType
    ensures m == Some(RedMaterial) <==> t == RedType
    ensures m == Some(PurpleMaterial) <==> t == PurpleType
    ensures m.None? <==> !(NoneType <= t <= PurpleType)
  {
    if t == NoneType then Some(NoneMaterial)
    else if t == RedType then Some(RedMaterial)
    else if t == PurpleType then Some(PurpleMaterial)
    else None
  }

  class Ground {
    /** The name of the tile's game object (renamed `Ground_i` by the board). */
    var name: string
    var groundType: int
    var material: Material

    /** A tile placed in the scene: it starts with type None. */
    constructor (name: string)
      ensures this.name == name && groundType == NoneType && material == SceneMaterial
    {
      this.name := name;
      groundType := NoneType;
      material := SceneMaterial;
    }

    /**
     * Stores any type; the material follows for the three known types and
     * is left as it was for any other value.
     */
    method SetType(t: int)
      modifies this`groundType, this`material
      ensures groundType == t
      ensures material == MaterialFor(t).GetOr(old(material))
    {
      if t == NoneType {
        material := NoneMaterial;
      } else if t == RedType {
        material := RedMaterial;
      } else if t == PurpleType {
        material := PurpleMaterial;
      }
      groundType := t;
    }

    method GetType() returns (t: int)
      ensures t == groundType
    {
      t := groundType;
    }
  }
}
