/**
 * `ObjectModel` and its `loadFromObj`: parse the OBJ lines into four local
 * lists, allocate the three output arrays and store them in the object's
 * fields, fill them corner by corner, then wrap each in a float buffer.
 */
module Loader {
  import opened Wrappers
  import opened ObjParser
  import opened Geometry

  /** `loadFromObj` either returns normally or throws one of the JVM exceptions. */
  datatype Outcome = Loaded | Failed(error: LoadError)

  /** A complete triplet at i == 3 * c has its output slots inside the arrays. */
  lemma SlotsInBounds(size: nat, c: nat)
    requires 3 * c + 2 < size
    ensures 3 * c + 3 <= size / 3 * 3
    ensures 2 * c + 2 <= size / 3 * 2
    ensures (3 * c) / 3 * 2 == 2 * c
    ensures c + 1 <= (size + 2) / 3
  {
    assert c + 1 <= size / 3;
  }

  /** A corner the loop reaches lies within the face-vertex count. */
  lemma IterationInBounds(size: nat, c: nat)
    requires c < (size + 2) / 3
    ensures c <= size / 3
    ensures 3 * c <= size / 3 * 3 && 2 * c <= size / 3 * 2
  {
  }

  /**
   * `dst[at + j] = src[base + j]` for j = 0, 1, 2 in turn; false where a
   * read of `src` throws, after the earlier copies have been made.
   */
  method Copy3(src: seq<Float>, base: int, dst: array<Float>, at: nat) returns (ok: bool)
    requires at + 3 <= dst.Length
    modifies dst
    ensures ok <==> 0 <= base && base + 3 <= |src|
    ensures ok ==> dst[at] == src[base] && dst[at + 1] == src[base + 1] && dst[at + 2] == src[base + 2]
    ensures forall s | 0 <= s < dst.Length && !(at <= s < at + 3) :: dst[s] == old(dst[s])
  {
    if !(0 <= base < |src|) { return false; }
    dst[at] := src[base];
    if base + 1 >= |src| { return false; }
    dst[at + 1] := src[base + 1];
    if base + 2 >= |src| { return false; }
    dst[at + 2] := src[base + 2];
    return true;
  }

  /** `dst[at + j] = src[base + j]` for j = 0, 1. */
  method Copy2(src: seq<Float>, base: int, dst: array<Float>, at: nat) returns (ok: bool)
    requires at + 2 <= dst.Length
    modifies dst
    ensures ok <==> 0 <= base && base + 2 <= |src|
    ensures ok ==> dst[at] == src[base] && dst[at + 1] == src[base + 1]
    ensures forall s | 0 <= s < dst.Length && !(at <= s < at + 2) :: dst[s] == old(dst[s])
  {
    if !(0 <= base < |src|) { return false; }
    dst[at] := src[base];
    if base + 1 >= |src| { return false; }
    dst[at + 1] := src[base + 1];
    return true;
  }

  /**
   * One pass of `for (i in indexList.indices step 3)`, with i == 3 * c: the
   * three indices are read first (`indexList[i + 2]` throws on an incomplete
   * triplet), then the position, normal and texture-coordinate floats are
   * copied in that order. Returns false where the source throws; only the
   * corner's own slots are written.
   */
  method CopyCorner(raw: RawLists, i: nat, ghost c: nat, vertices: array<Float>, normals: array<Float>, texCoords: array<Float>)
    returns (ok: bool)
    requires i == 3 * c && i < |raw.indices|
    requires vertices.Length == normals.Length == |raw.indices| / 3 * 3
    requires texCoords.Length == |raw.indices| / 3 * 2
    requires vertices != normals && vertices != texCoords && normals != texCoords
    modifies vertices, normals, texCoords
    ensures ok <==> Resolvable(raw, c)
    ensures ok ==> i + 3 <= vertices.Length && 2 * c + 2 <= texCoords.Length
    ensures ok ==> && vertices[i] == raw.positions[3 * PosIndex(raw, c)]
                   && vertices[i + 1] == raw.positions[3 * PosIndex(raw, c) + 1]
                   && vertices[i + 2] == raw.positions[3 * PosIndex(raw, c) + 2]
    ensures ok ==> && normals[i] == raw.normals[3 * NormalIndex(raw, c)]
                   && normals[i + 1] == raw.normals[3 * NormalIndex(raw, c) + 1]
                   && normals[i + 2] == raw.normals[3 * NormalIndex(raw, c) + 2]
    ensures ok ==> && texCoords[2 * c] == raw.texCoords[2 * TexIndex(raw, c)]
                   && texCoords[2 * c + 1] == raw.texCoords[2 * TexIndex(raw, c) + 1]
    ensures forall s | 0 <= s < vertices.Length && !(i <= s < i + 3) :: vertices[s] == old(vertices[s])
    ensures forall s | 0 <= s < normals.Length && !(i <= s < i + 3) :: normals[s] == old(normals[s])
    ensures forall s | 0 <= s < texCoords.Length && !(2 * c <= s < 2 * c + 2) :: texCoords[s] == old(texCoords[s])
  {
    if i + 2 >= |raw.indices| {
      return false;
    }
    var vi := raw.indices[i] * 3;
    var ni := raw.indices[i + 2] * 3;
    var ti := raw.indices[i + 1] * 2;
    SlotsInBounds(|raw.indices|, c);
    ok := Copy3(raw.positions, vi, vertices, i);
    if !ok { return; }
    ok := Copy3(raw.normals, ni, normals, i);
    if !ok { return; }
    ok := Copy2(raw.texCoords, ti, texCoords, i / 3 * 2);
  }

  /** The first n floats of `s` are `prefix`. */
  predicate StartsWith(s: seq<Float>, prefix: seq<Float>)
  {
    |prefix| <= |s| && forall t | 0 <= t < |prefix| :: s[t] == prefix[t]
  }

  /** Every float of `s` from index n on is zero. */
  predicate ZeroFrom(s: seq<Float>, n: nat)
  {
    forall t | n <= t < |s| :: s[t] == 0
  }

  /** `s` is `prefix`, then zeros from index n on. */
  predicate PrefixThenZeros(s: seq<Float>, prefix: seq<Float>, n: nat)
  {
    StartsWith(s, prefix) && ZeroFrom(s, n)
  }

  /**
   * The arrays after k loop passes: the first k corners copied, every slot
   * after them still zero.
   */
  ghost predicate Filled(raw: RawLists, k: nat, vs: seq<Float>, ns: seq<Float>, ts: seq<Float>)
  {
    && ExpandUpTo(raw, k).Some?
    && PrefixThenZeros(vs, ExpandUpTo(raw, k).value.positions, 3 * k)
    && PrefixThenZeros(ns, ExpandUpTo(raw, k).value.normals, 3 * k)
    && PrefixThenZeros(ts, ExpandUpTo(raw, k).value.texCoords, 2 * k)
  }

  /**
   * The three `FloatArray`s of `loadFromObj`: fresh, distinct, all zero, of
   * 3n, 3n and 2n floats.
   */
  method NewOutputArrays(n: nat) returns (vs: array<Float>, ns: array<Float>, ts: array<Float>)
    ensures fresh(vs) && fresh(ns) && fresh(ts)
    ensures vs != ns && vs != ts && ns != ts
    ensures vs.Length == 3 * n && ns.Length == 3 * n && ts.Length == 2 * n
    ensures ZeroFrom(vs[..], 0) && ZeroFrom(ns[..], 0) && ZeroFrom(ts[..], 0)
  {
    vs := new Float[3 * n](_ => 0);
    ns := new Float[3 * n](_ => 0);
    ts := new Float[2 * n](_ => 0);
  }

  /** Zero-filled arrays are the state before the first pass. */
  lemma FillStart(raw: RawLists, vs: seq<Float>, ns: seq<Float>, ts: seq<Float>)
    requires ZeroFrom(vs, 0) && ZeroFrom(ns, 0) && ZeroFrom(ts, 0)
    ensures Filled(raw, 0, vs, ns, ts)
  {
  }

  /**
   * What the three arrays hold when corner f = FaultingCorner throws: the
   * corners before it copied, and every slot after its own still zero.
   */
  predicate FaultState(raw: RawLists, vs: seq<Float>, ns: seq<Float>, ts: seq<Float>)
    requires Expand(raw).None?
  {
    var f := FaultingCorner(raw, Iterations(raw));
    var done := ExpandUpTo(raw, f).value;
    && PrefixThenZeros(vs, done.positions, 3 * f + 3)
    && PrefixThenZeros(ns, done.normals, 3 * f + 3)
    && PrefixThenZeros(ts, done.texCoords, 2 * f + 2)
  }

  /**
   * Writing `group` into the first zero slots after `prefix`, and nothing
   * else, leaves `prefix + group` followed by zeros.
   */
  lemma GroupWritten(vs: seq<Float>, vs': seq<Float>, prefix: seq<Float>, group: seq<Float>, at: nat)
    requires PrefixThenZeros(vs, prefix, at) && |prefix| == at
    requires |vs'| == |vs| && at + |group| <= |vs|
    requires forall t | 0 <= t < |group| :: vs'[at + t] == group[t]
    requires forall s | 0 <= s < |vs| && !(at <= s < at + |group|) :: vs'[s] == vs[s]
    ensures PrefixThenZeros(vs', prefix + group, at + |group|)
  {
    forall t | 0 <= t < |prefix + group| ensures vs'[t] == (prefix + group)[t] {
      if t >= at {
        assert vs'[at + (t - at)] == group[t - at];
      }
    }
  }

  /** Copying corner k's position floats extends the filled position prefix. */
  lemma PositionsStep(raw: RawLists, k: nat, vs: seq<Float>, vs': seq<Float>)
    requires ExpandUpTo(raw, k).Some? && Resolvable(raw, k)
    requires PrefixThenZeros(vs, ExpandUpTo(raw, k).value.positions, 3 * k)
    requires |vs'| == |vs| && 3 * k + 3 <= |vs|
    requires && vs'[3 * k] == raw.positions[3 * PosIndex(raw, k)]
             && vs'[3 * k + 1] == raw.positions[3 * PosIndex(raw, k) + 1]
             && vs'[3 * k + 2] == raw.positions[3 * PosIndex(raw, k) + 2]
    requires forall s | 0 <= s < |vs| && !(3 * k <= s < 3 * k + 3) :: vs'[s] == vs[s]
    ensures ExpandUpTo(raw, k + 1).Some?
    ensures PrefixThenZeros(vs', ExpandUpTo(raw, k + 1).value.positions, 3 * k + 3)
  {
    ExpandStep(raw, k);
    var corner := ResolveCorner(raw, k).value;
    GroupWritten(vs, vs', ExpandUpTo(raw, k).value.positions, corner.position, 3 * k);
  }

  /** Copying corner k's normal floats extends the filled normal prefix. */
  lemma NormalsStep(raw: RawLists, k: nat, ns: seq<Float>, ns': seq<Float>)
    requires ExpandUpTo(raw, k).Some? && Resolvable(raw, k)
    requires PrefixThenZeros(ns, ExpandUpTo(raw, k).value.normals, 3 * k)
    requires |ns'| == |ns| && 3 * k + 3 <= |ns|
    requires && ns'[3 * k] == raw.normals[3 * NormalIndex(raw, k)]
             && ns'[3 * k + 1] == raw.normals[3 * NormalIndex(raw, k) + 1]
             && ns'[3 * k + 2] == raw.normals[3 * NormalIndex(raw, k) + 2]
    requires forall s | 0 <= s < |ns| && !(3 * k <= s < 3 * k + 3) :: ns'[s] == ns[s]
    ensures ExpandUpTo(raw, k + 1).Some?
    ensures PrefixThenZeros(ns', ExpandUpTo(raw, k + 1).value.normals, 3 * k + 3)
  {
    ExpandStep(raw, k);
    var corner := ResolveCorner(raw, k).value;
    GroupWritten(ns, ns', ExpandUpTo(raw, k).value.normals, corner.normal, 3 * k);
  }

  /** Copying corner k's texture coordinates extends the filled prefix. */
  lemma TexCoordsStep(raw: RawLists, k: nat, ts: seq<Float>, ts': seq<Float>)
    requires ExpandUpTo(raw, k).Some? && Resolvable(raw, k)
    requires PrefixThenZeros(ts, ExpandUpTo(raw, k).value.texCoords, 2 * k)
    requires |ts'| == |ts| && 2 * k + 2 <= |ts|
    requires && ts'[2 * k] == raw.texCoords[2 * TexIndex(raw, k)]
             && ts'[2 * k + 1] == raw.texCoords[2 * TexIndex(raw, k) + 1]
    requires forall s | 0 <= s < |ts| && !(2 * k <= s < 2 * k + 2) :: ts'[s] == ts[s]
    ensures ExpandUpTo(raw, k + 1).Some?
    ensures PrefixThenZeros(ts', ExpandUpTo(raw, k + 1).value.texCoords, 2 * k + 2)
  {
    ExpandStep(raw, k);
    var corner := ResolveCorner(raw, k).value;
    GroupWritten(ts, ts', ExpandUpTo(raw, k).value.texCoords, corner.texCoord, 2 * k);
  }

  /** A failing pass over corner k leaves the arrays in the fault state. */
  lemma FillFault(raw: RawLists, k: nat, vs: seq<Float>, ns: seq<Float>, ts: seq<Float>,
                  vs': seq<Float>, ns': seq<Float>, ts': seq<Float>)
    requires Filled(raw, k, vs, ns, ts) && k < Iterations(raw) && !Resolvable(raw, k)
    requires |vs'| == |vs| && |ns'| == |ns| && |ts'| == |ts|
    requires forall s | 0 <= s < |vs| && !(3 * k <= s < 3 * k + 3) :: vs'[s] == vs[s]
    requires forall s | 0 <= s < |ns| && !(3 * k <= s < 3 * k + 3) :: ns'[s] == ns[s]
    requires forall s | 0 <= s < |ts| && !(2 * k <= s < 2 * k + 2) :: ts'[s] == ts[s]
    ensures Expand(raw).None?
    ensures FaultState(raw, vs', ns', ts')
  {
    assert FaultingCorner(raw, Iterations(raw)) == k;
  }

  /** After the last pass the arrays are exactly the expansion. */
  lemma FillDone(raw: RawLists, k: nat, vs: seq<Float>, ns: seq<Float>, ts: seq<Float>)
    requires Filled(raw, k, vs, ns, ts)
    requires |raw.indices| <= 3 * k < |raw.indices| + 3
    requires |vs| == |ns| == 3 * CornerCount(raw) && |ts| == 2 * CornerCount(raw)
    ensures Expand(raw) == Some(Expanded(vs, ns, ts))
  {
    assert k == Iterations(raw);
    var e := Expand(raw).value;
    assert vs == e.positions;
    assert ns == e.normals;
    assert ts == e.texCoords;
  }

  /**
   * One pass of the copying loop over corner k, from the state left by the
   * first k passes: it either extends that state by one corner or throws,
   * leaving the arrays in the fault state.
   */
  method FillCorner(raw: RawLists, i: nat, ghost k: nat,
                    vertices: array<Float>, normals: array<Float>, texCoords: array<Float>)
    returns (ok: bool)
    requires i == 3 * k && i < |raw.indices|
    requires vertices.Length == normals.Length == |raw.indices| / 3 * 3
    requires texCoords.Length == |raw.indices| / 3 * 2
    requires vertices != normals && vertices != texCoords && normals != texCoords
    requires Filled(raw, k, vertices[..], normals[..], texCoords[..])
    modifies vertices, normals, texCoords
    ensures ok ==> Filled(raw, k + 1, vertices[..], normals[..], texCoords[..])
    ensures !ok ==> Expand(raw).None? && FaultState(raw, vertices[..], normals[..], texCoords[..])
  {
    ghost var vs, ns, ts := vertices[..], normals[..], texCoords[..];
    ok := CopyCorner(raw, i, k, vertices, normals, texCoords);
    if !ok {
      IterationInBounds(|raw.indices|, k);
      FillFault(raw, k, vs, ns, ts, vertices[..], normals[..], texCoords[..]);
      return;
    }
    PositionsStep(raw, k, vs, vertices[..]);
    NormalsStep(raw, k, ns, normals[..]);
    TexCoordsStep(raw, k, ts, texCoords[..]);
  }

  /**
   * The passes of the copying loop from the zero-filled start: the loop
   * either runs to the end, leaving the full expansion, or stops at the
   * first corner that throws.
   */
  method CopyCorners(raw: RawLists, vertices: array<Float>, normals: array<Float>, texCoords: array<Float>)
    returns (ok: bool)
    requires vertices.Length == normals.Length == |raw.indices| / 3 * 3
    requires texCoords.Length == |raw.indices| / 3 * 2
    requires vertices != normals && vertices != texCoords && normals != texCoords
    requires Filled(raw, 0, vertices[..], normals[..], texCoords[..])
    modifies vertices, normals, texCoords
    ensures ok ==> Expand(raw) == Some(Expanded(vertices[..], normals[..], texCoords[..]))
    ensures !ok ==> Expand(raw).None? && FaultState(raw, vertices[..], normals[..], texCoords[..])
  {
    var size := |raw.indices|;
    var i := 0;
    ghost var k := 0;
    while i < size
      invariant i == 3 * k && i < size + 3
      invariant Filled(raw, k, vertices[..], normals[..], texCoords[..])
    {
      ok := FillCorner(raw, i, k, vertices, normals, texCoords);
      if !ok {
        return;
      }
      i := i + 3;
      k := k + 1;
    }
    FillDone(raw, k, vertices[..], normals[..], texCoords[..]);
    return true;
  }

  /**
   * The copying loop of `loadFromObj` over zero-filled arrays of 3n, 3n and
   * 2n floats: it returns normally exactly when the expansion succeeds, and
   * then the arrays hold it; otherwise they hold the corners before the one
   * that throws.
   */
  method ExpandInto(raw: RawLists, vertices: array<Float>, normals: array<Float>, texCoords: array<Float>)
    returns (ok: bool)
    requires vertices.Length == normals.Length == |raw.indices| / 3 * 3
    requires texCoords.Length == |raw.indices| / 3 * 2
    requires vertices != normals && vertices != texCoords && normals != texCoords
    requires ZeroFrom(vertices[..], 0) && ZeroFrom(normals[..], 0) && ZeroFrom(texCoords[..], 0)
    modifies vertices, normals, texCoords
    ensures ok ==> Expand(raw) == Some(Expanded(vertices[..], normals[..], texCoords[..]))
    ensures !ok ==> Expand(raw).None? && FaultState(raw, vertices[..], normals[..], texCoords[..])
  {
    FillStart(raw, vertices[..], normals[..], texCoords[..]);
    ok := CopyCorners(raw, vertices, normals, texCoords);
  }

  class ObjectModel {
    var vertices: array?<Float>
    var normals: array?<Float>
    var texCoords: array?<Float>
    /** The direct float buffers; a buffer is modelled by the floats put into it. */
    var vertexBuffer: Option<seq<Float>>
    var normalBuffer: Option<seq<Float>>
    var texCoordBuffer: Option<seq<Float>>
    var width: int
    var height: int

    constructor ()
      ensures vertices == null && normals == null && texCoords == null
      ensures vertexBuffer == None && normalBuffer == None && texCoordBuffer == None
      ensures width == 0 && height == 0
    {
      vertices, normals, texCoords := null, null, null;
      vertexBuffer, normalBuffer, texCoordBuffer := None, None, None;
      width, height := 0, 0;
    }

    /** The output arrays exist, are distinct, and are sized from the index list. */
    predicate SizedFor(raw: RawLists)
      reads this
    {
      && vertices != null && normals != null && texCoords != null
      && vertices != normals && vertices != texCoords && normals != texCoords
      && vertices.Length == 3 * CornerCount(raw)
      && normals.Length == 3 * CornerCount(raw)
      && texCoords.Length == 2 * CornerCount(raw)
    }

    /**
     * `loadFromObj` from the parsed lists on: the three arrays are replaced
     * by fresh ones of 3n, 3n and 2n floats (n = indexList.size / 3) before
     * the copying starts. If every corner resolves, the arrays hold the
     * expansion and the buffers hold the arrays; if not, the exception leaves
     * the buffers as they were and the arrays holding the corners before the
     * faulting one, with zeros after it.
     */
    method StoreExpansion(raw: RawLists) returns (outcome: Outcome)
      modifies this
      ensures SizedFor(raw)
      ensures fresh(vertices) && fresh(normals) && fresh(texCoords)
      ensures width == old(width) && height == old(height)
      ensures Expand(raw).Some? ==>
                && outcome == Loaded
                && Expand(raw).value == Expanded(vertices[..], normals[..], texCoords[..])
                && vertexBuffer == Some(vertices[..])
                && normalBuffer == Some(normals[..])
                && texCoordBuffer == Some(texCoords[..])
      ensures Expand(raw).None? ==>
                && outcome == Failed(IndexOutOfBounds)
                && FaultState(raw, vertices[..], normals[..], texCoords[..])
                && vertexBuffer == old(vertexBuffer)
                && normalBuffer == old(normalBuffer)
                && texCoordBuffer == old(texCoordBuffer)
    {
      var vs, ns, ts := NewOutputArrays(|raw.indices| / 3);
      var ok := ExpandInto(raw, vs, ns, ts);
      // the fields are set before the loop runs; nothing observes them in between
      vertices, normals, texCoords := vs, ns, ts;
      if !ok {
        return Failed(IndexOutOfBounds);
      }
      vertexBuffer := Some(vs[..]);
      normalBuffer := Some(ns[..]);
      texCoordBuffer := Some(ts[..]);
      return Loaded;
    }

    /**
     * The whole of `loadFromObj`: a parse error leaves the object untouched;
     * otherwise the parsed lists are expanded into the object as
     * StoreExpansion states.
     */
    method LoadFromObj(lines: seq<string>, parseFloat: string -> Option<Float>) returns (outcome: Outcome)
      modifies this
      ensures ParseLines(lines, parseFloat).Err? ==>
                outcome == Failed(ParseLines(lines, parseFloat).error) && unchanged(this)
      ensures ParseLines(lines, parseFloat).Ok? ==>
                var raw := ParseLines(lines, parseFloat).value;
                && SizedFor(raw)
                && fresh(vertices) && fresh(normals) && fresh(texCoords)
                && width == old(width) && height == old(height)
                && (Expand(raw).Some? ==>
                      && outcome == Loaded
                      && Expand(raw).value == Expanded(vertices[..], normals[..], texCoords[..])
                      && vertexBuffer == Some(vertices[..])
                      && normalBuffer == Some(normals[..])
                      && texCoordBuffer == Some(texCoords[..]))
                && (Expand(raw).None? ==>
                      && outcome == Failed(IndexOutOfBounds)
                      && FaultState(raw, vertices[..], normals[..], texCoords[..])
                      && vertexBuffer == old(vertexBuffer)
                      && normalBuffer == old(normalBuffer)
                      && texCoordBuffer == old(texCoordBuffer))
    {
      var parsed := ParseObj(lines, parseFloat);
      if parsed.Err? {
        return Failed(parsed.error);
      }
      outcome := StoreExpansion(parsed.value);
    }
  }
}
