/**
 * The second stage of `ObjectModel.loadFromObj`: the flat index list is read
 * as (position, texcoord, normal) triplets, one per face-vertex ("corner"),
 * and each corner's attributes are copied into three parallel flat arrays:
 * three floats of position, three of normal, two of texture coordinate.
 * Nothing is shared between corners and there is no index buffer.
 */
module Geometry {
  import opened Wrappers
  import opened KotlinText
  import opened ObjParser

  /** The three indices of corner `c`, in the order the index list stores them. */
  function PosIndex(raw: RawLists, c: nat): int
    requires 3 * c + 2 < |raw.indices|
  {
    raw.indices[3 * c]
  }

  function TexIndex(raw: RawLists, c: nat): int
    requires 3 * c + 2 < |raw.indices|
  {
    raw.indices[3 * c + 1]
  }

  function NormalIndex(raw: RawLists, c: nat): int
    requires 3 * c + 2 < |raw.indices|
  {
    raw.indices[3 * c + 2]
  }

  /**
   * Corner `c` can be copied without reading out of bounds: its triplet is
   * complete, and each index is non-negative and names a whole group of its
   * attribute list.
   */
  predicate Resolvable(raw: RawLists, c: nat)
  {
    && 3 * c + 2 < |raw.indices|
    && 0 <= PosIndex(raw, c) && 3 * PosIndex(raw, c) + 3 <= |raw.positions|
    && 0 <= TexIndex(raw, c) && 2 * TexIndex(raw, c) + 2 <= |raw.texCoords|
    && 0 <= NormalIndex(raw, c) && 3 * NormalIndex(raw, c) + 3 <= |raw.normals|
  }

  /** One face-vertex with its attributes looked up. */
  datatype Corner = Corner(position: seq<Float>, normal: seq<Float>, texCoord: seq<Float>)

  /** The three output arrays, as values. */
  datatype Expanded = Expanded(positions: seq<Float>, normals: seq<Float>, texCoords: seq<Float>)

  /**
   * One iteration of the expansion loop (`i == 3 * c`), with the index
   * arithmetic done exactly: the position comes from the first index of the
   * triplet, the texture coordinate from the second, the normal from the third.
   */
  function ResolveCorner(raw: RawLists, c: nat): (r: Option<Corner>)
    ensures r.Some? <==> Resolvable(raw, c)
    ensures r.Some? ==>
              && |r.value.position| == 3 && |r.value.normal| == 3 && |r.value.texCoord| == 2
              && (forall j | 0 <= j < 3 ::
                    && r.value.position[j] == raw.positions[3 * PosIndex(raw, c) + j]
                    && r.value.normal[j] == raw.normals[3 * NormalIndex(raw, c) + j])
              && (forall j | 0 <= j < 2 :: r.value.texCoord[j] == raw.texCoords[2 * TexIndex(raw, c) + j])
  {
    if 3 * c + 2 >= |raw.indices| then None   // indexList[i + 2] throws
    else
      var vi := raw.indices[3 * c] * 3;
      var ni := raw.indices[3 * c + 2] * 3;
      var ti := raw.indices[3 * c + 1] * 2;
      if 0 <= vi && vi + 2 < |raw.positions|
         && 0 <= ni && ni + 2 < |raw.normals|
         && 0 <= ti && ti + 1 < |raw.texCoords|
      then
        Some(Corner(
          [raw.positions[vi], raw.positions[vi + 1], raw.positions[vi + 2]],
          [raw.normals[ni], raw.normals[ni + 1], raw.normals[ni + 2]],
          [raw.texCoords[ti], raw.texCoords[ti + 1]]))
      else None
  }

  /** The outputs after the first `k` loop iterations, or None if one of them throws. */
  function ExpandUpTo(raw: RawLists, k: nat): (r: Option<Expanded>)
    ensures r.Some? <==> forall c | 0 <= c < k :: Resolvable(raw, c)
    ensures r.Some? ==>
              && |r.value.positions| == 3 * k
              && |r.value.normals| == 3 * k
              && |r.value.texCoords| == 2 * k
  {
    if k == 0 then Some(Expanded([], [], []))
    else
      match ExpandUpTo(raw, k - 1)
      case None => None
      case Some(e) =>
        match ResolveCorner(raw, k - 1)
        case None => None
        case Some(corner) =>
          Some(Expanded(e.positions + corner.position, e.normals + corner.normal, e.texCoords + corner.texCoord))
  }

  /** One more resolvable corner appends its groups to the outputs. */
  lemma ExpandStep(raw: RawLists, k: nat)
    requires ExpandUpTo(raw, k).Some? && Resolvable(raw, k)
    ensures var e := ExpandUpTo(raw, k).value;
            var corner := ResolveCorner(raw, k).value;
            ExpandUpTo(raw, k + 1)
              == Some(Expanded(e.positions + corner.position, e.normals + corner.normal, e.texCoords + corner.texCoord))
  {
  }

  /**
   * Slot by slot, after k iterations: position j of corner c is float
   * 3 * PosIndex + j of the position list, normal j comes from the third
   * index, and texture coordinate j from the second.
   */
  lemma {:induction false} ExpandedSlotsUpTo(raw: RawLists, k: nat, c: nat, j: nat)
    requires ExpandUpTo(raw, k).Some? && c < k
    ensures Resolvable(raw, c)
    ensures j < 3 ==>
              && ExpandUpTo(raw, k).value.positions[3 * c + j] == raw.positions[3 * PosIndex(raw, c) + j]
              && ExpandUpTo(raw, k).value.normals[3 * c + j] == raw.normals[3 * NormalIndex(raw, c) + j]
    ensures j < 2 ==>
              ExpandUpTo(raw, k).value.texCoords[2 * c + j] == raw.texCoords[2 * TexIndex(raw, c) + j]
  {
    assert Resolvable(raw, k - 1);
    var e := ExpandUpTo(raw, k - 1).value;
    var corner := ResolveCorner(raw, k - 1).value;
    assert ExpandUpTo(raw, k).value
        == Expanded(e.positions + corner.position, e.normals + corner.normal, e.texCoords + corner.texCoord);
    if c < k - 1 {
      ExpandedSlotsUpTo(raw, k - 1, c, j);
    }
  }

  /** How many times `for (i in indexList.indices step 3)` runs. */
  function Iterations(raw: RawLists): nat
  {
    (|raw.indices| + 2) / 3
  }

  /** The face-vertex count `indexList.size / 3` that sizes the output arrays. */
  function CornerCount(raw: RawLists): nat
  {
    |raw.indices| / 3
  }

  /**
   * The whole expansion loop. It succeeds exactly when the index list holds
   * whole triplets and every triplet resolves in bounds; the outputs then
   * have 3n, 3n and 2n floats for n = indexList.size / 3.
   */
  function Expand(raw: RawLists): (r: Option<Expanded>)
    ensures r.Some? <==>
              |raw.indices| % 3 == 0 && forall c | 0 <= c < CornerCount(raw) :: Resolvable(raw, c)
    ensures r.Some? ==>
              && |r.value.positions| == 3 * CornerCount(raw)
              && |r.value.normals| == 3 * CornerCount(raw)
              && |r.value.texCoords| == 2 * CornerCount(raw)
  {
    // when the size is not a multiple of 3, the last pass meets an incomplete triplet
    assert |raw.indices| % 3 != 0 ==> !Resolvable(raw, Iterations(raw) - 1);
    assert |raw.indices| % 3 == 0 ==> Iterations(raw) == CornerCount(raw);
    ExpandUpTo(raw, Iterations(raw))
  }

  /**
   * Slot by slot: position j of corner c is float 3 * PosIndex + j of the
   * position list, normal j comes from the third index, and texture
   * coordinate j from the second.
   */
  lemma {:induction false} ExpandedSlots(raw: RawLists, c: nat, j: nat)
    requires Expand(raw).Some? && c < CornerCount(raw)
    ensures Resolvable(raw, c)
    ensures j < 3 ==>
              && Expand(raw).value.positions[3 * c + j] == raw.positions[3 * PosIndex(raw, c) + j]
              && Expand(raw).value.normals[3 * c + j] == raw.normals[3 * NormalIndex(raw, c) + j]
    ensures j < 2 ==>
              Expand(raw).value.texCoords[2 * c + j] == raw.texCoords[2 * TexIndex(raw, c) + j]
  {
    assert Iterations(raw) == CornerCount(raw);
    ExpandedSlotsUpTo(raw, Iterations(raw), c, j);
  }

  /** The first corner whose iteration throws. */
  function FaultingCorner(raw: RawLists, k: nat): (f: nat)
    requires ExpandUpTo(raw, k).None?
    ensures f < k && !Resolvable(raw, f)
    ensures forall c | 0 <= c < f :: Resolvable(raw, c)
  {
    if ExpandUpTo(raw, k - 1).None? then FaultingCorner(raw, k - 1) else k - 1
  }

  // ---------------------------------------------------------------------------
  // The same lookup in Kotlin `Int` arithmetic

  /**
   * ResolveCorner as the loop computes it: `indexList[i] * 3`, `vi + 1`, ...
   * are Kotlin `Int` operations and wrap at 32 bits, and each list read
   * throws only when its (wrapped) index is negative or past the end.
   */
  function ResolveCornerInt32(raw: RawLists, c: nat): Option<Corner>
  {
    if 3 * c + 2 >= |raw.indices| then None
    else
      var vi := Wrap32(raw.indices[3 * c] * 3);
      var ni := Wrap32(raw.indices[3 * c + 2] * 3);
      var ti := Wrap32(raw.indices[3 * c + 1] * 2);
      var v1, v2 := Wrap32(vi + 1), Wrap32(vi + 2);
      var n1, n2 := Wrap32(ni + 1), Wrap32(ni + 2);
      var t1 := Wrap32(ti + 1);
      if && 0 <= vi < |raw.positions| && 0 <= v1 < |raw.positions| && 0 <= v2 < |raw.positions|
         && 0 <= ni < |raw.normals| && 0 <= n1 < |raw.normals| && 0 <= n2 < |raw.normals|
         && 0 <= ti < |raw.texCoords| && 0 <= t1 < |raw.texCoords|
      then
        Some(Corner(
          [raw.positions[vi], raw.positions[v1], raw.positions[v2]],
          [raw.normals[ni], raw.normals[n1], raw.normals[n2]],
          [raw.texCoords[ti], raw.texCoords[t1]]))
      else None
  }

  /**
   * Where the exact lookup succeeds on lists a JVM can hold (at most
   * `Int.MAX_VALUE` elements), the 32-bit one reads the same floats.
   */
  lemma Int32AgreesWhenResolvable(raw: RawLists, c: nat)
    requires Resolvable(raw, c)
    requires |raw.positions| <= INT_MAX && |raw.normals| <= INT_MAX && |raw.texCoords| <= INT_MAX
    ensures ResolveCornerInt32(raw, c) == ResolveCorner(raw, c)
  {
  }

  /**
   * But the 32-bit lookup also succeeds where it should throw: index
   * 1431655766 (face piece "1431655767") times 3 is 4294967298, which wraps
   * to 2, so the corner silently takes floats 2..4 of a six-float position
   * list instead of failing.
   */
  lemma Int32IndexWrapsIntoRange()
    ensures var raw := RawLists([10, 11, 12, 13, 14, 15], [20, 21, 22], [30, 31], [1431655766, 0, 0]);
            && !Resolvable(raw, 0)
            && ResolveCorner(raw, 0) == None
            && ResolveCornerInt32(raw, 0) == Some(Corner([12, 13, 14], [20, 21, 22], [30, 31]))
  {
    assert Wrap32(1431655766 * 3) == 2;
  }
}
