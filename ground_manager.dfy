/**
 * The board (`GroundManager`): the list of tiles in child order, the
 * `Ground_i` naming that lets a tile be found again from its name, and the
 * reset to an unclaimed board.
 */
module Board {
  import opened JsText
  import opened Tiles

  /** The name `InitializeGround` gives to the tile at index i: `Ground_${i}`. */
  function GroundName(i: nat): string {
    "Ground_" + NatToString(i)
  }

  class GroundManager {
    var groundList: seq<Ground>

    /** The tiles are distinct objects (they are distinct children of one parent). */
    ghost predicate Valid()
      reads this
    {
      forall i, j :: 0 <= i < j < |groundList| ==> groundList[i] != groundList[j]
    }

    /** The tiles' types, in board order. */
    ghost function Types(): (ts: seq<int>)
      reads this, groundList
      ensures |ts| == |groundList|
      ensures forall i :: 0 <= i < |ts| ==> ts[i] == groundList[i].groundType
    {
      seq(|groundList|, i reads this, groundList requires 0 <= i < |groundList| => groundList[i].groundType)
    }

    constructor ()
      ensures groundList == [] && Valid()
    {
      groundList := [];
    }

    /**
     * Replaces the list by the tiles of the parent's children, in child
     * order, and renames child i `Ground_i`. Types and materials are untouched.
     */
    method InitializeGround(children: seq<Ground>)
      requires forall i, j :: 0 <= i < j < |children| ==> children[i] != children[j]
      modifies this, children
      ensures groundList == children && Valid()
      ensures forall i :: 0 <= i < |children| ==> children[i].name == GroundName(i)
      ensures forall i :: 0 <= i < |children| ==>
        children[i].groundType == old(children[i].groundType) && children[i].material == old(children[i].material)
    {
      groundList := [];
      for i := 0 to |children|
        invariant groundList == children[..i]
        invariant forall j :: 0 <= j < i ==> children[j].name == GroundName(j)
        invariant forall j :: 0 <= j < |children| ==>
          children[j].groundType == old(children[j].groundType) && children[j].material == old(children[j].material)
      {
        var ground := children[i];
        ground.name := GroundName(i);
        groundList := groundList + [ground];
      }
    }

    /** Sets every tile to None; the list, its order and the tiles' names stay as they were. */
    method ResetGround()
      modifies groundList
      ensures forall i :: 0 <= i < |groundList| ==>
        groundList[i].groundType == NoneType && groundList[i].material == NoneMaterial
      ensures forall i :: 0 <= i < |groundList| ==> groundList[i].name == old(groundList[i].name)
    {
      for i := 0 to |groundList|
        invariant forall j :: 0 <= j < i ==>
          groundList[j].groundType == NoneType && groundList[j].material == NoneMaterial
        invariant forall j :: 0 <= j < |groundList| ==> groundList[j].name == old(groundList[j].name)
      {
        groundList[i].SetType(NoneType);
      }
    }
  }
}
