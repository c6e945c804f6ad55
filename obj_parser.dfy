/**
 * The first stage of `ObjectModel.loadFromObj`: each line of a Wavefront OBJ
 * text is split on single spaces and, by its first piece, either appends
 * floats to the position, normal or texture-coordinate list, appends
 * zero-based indices to the flat index list, or is ignored.
 */
module ObjParser {
  import opened Wrappers
  import opened KotlinText

  /**
   * A Kotlin `Float`, kept as its 32-bit IEEE-754 bit pattern read as an
   * unsigned number (0 is the pattern of 0.0f): the loader only copies floats.
   */
  newtype Float = bits: int | 0 <= bits < 0x1_0000_0000

  /** The JVM exceptions that abort `loadFromObj`. */
  datatype LoadError =
    | IndexOutOfBounds  // a list or array read past either end
    | NumberFormat      // `toFloat()` or `toInt()` refused a piece

  /** The four local lists the parser fills. */
  datatype RawLists = RawLists(positions: seq<Float>, normals: seq<Float>, texCoords: seq<Float>, indices: seq<int>)

  const NoLists := RawLists([], [], [], [])

  /** `list.addAll(xs)` once `xs` is computed, or the exception raised computing it. */
  function Extend<T>(list: seq<T>, r: Result<seq<T>, LoadError>): (e: Result<seq<T>, LoadError>)
  {
    match r
    case Ok(xs) => Ok(list + xs)
    case Err(err) => Err(err)
  }

  /** Appending in two steps is appending once. */
  lemma ExtendTwice<T>(a: seq<T>, b: seq<T>, r: Result<seq<T>, LoadError>)
    ensures Extend(a, Extend(b, r)) == Extend(a + b, r)
  {
    if r.Ok? {
      assert a + (b + r.value) == (a + b) + r.value;
    }
  }

  /**
   * `parts[i].toFloat()` for i in lo..hi-1, in that order: the first index
   * past the end of `parts` throws IndexOutOfBounds, the first unparsable
   * field NumberFormat.
   */
  function FloatFields(parts: seq<string>, lo: nat, hi: nat, parseFloat: string -> Option<Float>): (r: Result<seq<Float>, LoadError>)
    requires lo <= hi
    ensures r.Ok? <==> (lo == hi || hi <= |parts|) && forall i | lo <= i < hi :: parseFloat(parts[i]).Some?
    ensures r.Ok? ==> |r.value| == hi - lo && forall j | 0 <= j < hi - lo :: Some(r.value[j]) == parseFloat(parts[lo + j])
    ensures r == Err(IndexOutOfBounds) ==> hi > |parts|
    ensures r == Err(NumberFormat) <==> exists i | lo <= i < hi && i < |parts| :: parseFloat(parts[i]).None?
    decreases hi - lo
  {
    if lo == hi then Ok([])
    else if lo >= |parts| then Err(IndexOutOfBounds)
    else
      match parseFloat(parts[lo])
      case None => Err(NumberFormat)
      case Some(x) => Extend([x], FloatFields(parts, lo + 1, hi, parseFloat))
  }

  /** `pieces.map { it.toInt() - 1 }`: every piece parsed and made zero-based. */
  function PieceIndices(pieces: seq<string>): (r: Result<seq<int>, LoadError>)
    ensures r.Ok? <==> forall m | 0 <= m < |pieces| :: ParseInt(pieces[m]).Some?
    ensures r.Ok? ==> |r.value| == |pieces| && forall m | 0 <= m < |pieces| :: ParseInt(pieces[m]) == Some(r.value[m] + 1)
    ensures r.Err? ==> r.error == NumberFormat
  {
    if pieces == [] then Ok([])
    else
      match ParseInt(pieces[0])
      case None => Err(NumberFormat)
      case Some(v) => Extend([v - 1], PieceIndices(pieces[1..]))
  }

  /** `r` followed by `s`, the first exception winning. */
  function AndThen<T>(r: Result<seq<T>, LoadError>, s: Result<seq<T>, LoadError>): Result<seq<T>, LoadError>
  {
    match r
    case Err(e) => Err(e)
    case Ok(xs) => Extend(xs, s)
  }

  /** The indices of the face tokens, one token at a time, each split on `/`. */
  function FaceIndices(tokens: seq<string>): (r: Result<seq<int>, LoadError>)
    ensures r.Ok? ==> |r.value| == |Pieces(tokens)|
    ensures r.Err? ==> r.error == NumberFormat
  {
    if tokens == [] then Ok([])
    else AndThen(PieceIndices(Split(tokens[0], '/')), FaceIndices(tokens[1..]))
  }

  /** All `/`-separated pieces of the face tokens, in source order. */
  function Pieces(tokens: seq<string>): seq<string>
  {
    if tokens == [] then [] else Split(tokens[0], '/') + Pieces(tokens[1..])
  }

  /** The effect of one line on the four lists (the `when (parts[0])` of the loader). */
  function ParseLine(acc: RawLists, line: string, parseFloat: string -> Option<Float>): (r: Result<RawLists, LoadError>)
    ensures r.Ok? ==> Extends(acc, r.value)
    ensures r.Ok? ==>
              && (|r.value.positions| == |acc.positions| || |r.value.positions| == |acc.positions| + 3)
              && (|r.value.normals| == |acc.normals| || |r.value.normals| == |acc.normals| + 3)
              && (|r.value.texCoords| == |acc.texCoords| || |r.value.texCoords| == |acc.texCoords| + 2)
  {
    var parts := Split(line, ' ');
    if parts[0] == "v" then
      match Extend(acc.positions, FloatFields(parts, 1, 4, parseFloat))
      case Ok(ps) => Ok(acc.(positions := ps))
      case Err(e) => Err(e)
    else if parts[0] == "vn" then
      match Extend(acc.normals, FloatFields(parts, 1, 4, parseFloat))
      case Ok(ns) => Ok(acc.(normals := ns))
      case Err(e) => Err(e)
    else if parts[0] == "vt" then
      match Extend(acc.texCoords, FloatFields(parts, 1, 3, parseFloat))
      case Ok(ts) => Ok(acc.(texCoords := ts))
      case Err(e) => Err(e)
    else if parts[0] == "f" then
      match Extend(acc.indices, FaceIndices(parts[1..]))
      case Ok(ix) => Ok(acc.(indices := ix))
      case Err(e) => Err(e)
    else Ok(acc)
  }

  /** The lines from `acc` onwards; the first exception aborts the whole parse. */
  function ParseFrom(acc: RawLists, lines: seq<string>, parseFloat: string -> Option<Float>): (r: Result<RawLists, LoadError>)
    ensures r.Ok? ==> Extends(acc, r.value)
    ensures r.Ok? ==>
              && (|r.value.positions| - |acc.positions|) % 3 == 0
              && (|r.value.normals| - |acc.normals|) % 3 == 0
              && (|r.value.texCoords| - |acc.texCoords|) % 2 == 0
    decreases |lines|
  {
    if lines == [] then Ok(acc)
    else
      match ParseLine(acc, lines[0], parseFloat)
      case Err(e) => Err(e)
      case Ok(next) =>
        var r := ParseFrom(next, lines[1..], parseFloat);
        if r.Ok? then
          GroupsAdd(|r.value.positions| - |next.positions|, |next.positions| - |acc.positions|, 3);
          GroupsAdd(|r.value.normals| - |next.normals|, |next.normals| - |acc.normals|, 3);
          GroupsAdd(|r.value.texCoords| - |next.texCoords|, |next.texCoords| - |acc.texCoords|, 2);
          r
        else r
  }

  /** Whole groups of size m plus none or one more group are whole groups. */
  lemma GroupsAdd(a: int, d: int, m: nat)
    requires (m == 2 || m == 3) && a % m == 0 && (d == 0 || d == m)
    ensures (a + d) % m == 0
  {
    if m == 2 {
      assert (a + d) % 2 == 0;
    } else {
      assert (a + d) % 3 == 0;
    }
  }

  /**
   * The whole parse from empty lists; the attribute lists it returns hold
   * whole groups only (three floats per position and normal, two per
   * texture coordinate).
   */
  function ParseLines(lines: seq<string>, parseFloat: string -> Option<Float>): (r: Result<RawLists, LoadError>)
    ensures r.Ok? ==> |r.value.positions| % 3 == 0 && |r.value.normals| % 3 == 0 && |r.value.texCoords| % 2 == 0
  {
    ParseFrom(NoLists, lines, parseFloat)
  }

  // ---------------------------------------------------------------------------
  // The loops of the loader

  /** `for (i in 1..count) list.add(parts[i].toFloat())`. */
  method AppendFloats(list: seq<Float>, parts: seq<string>, count: nat, parseFloat: string -> Option<Float>)
    returns (r: Result<seq<Float>, LoadError>)
    ensures r == Extend(list, FloatFields(parts, 1, count + 1, parseFloat))
  {
    var out := list;
    for i := 1 to count + 1
      invariant Extend(list, FloatFields(parts, 1, count + 1, parseFloat))
             == Extend(out, FloatFields(parts, i, count + 1, parseFloat))
    {
      if i >= |parts| {
        return Err(IndexOutOfBounds);
      }
      var x := parseFloat(parts[i]);
      if x.None? {
        return Err(NumberFormat);
      }
      ExtendTwice(out, [x.value], FloatFields(parts, i + 1, count + 1, parseFloat));
      out := out + [x.value];
    }
    assert out + [] == out;
    return Ok(out);
  }

  /** `parts.forEachIndexed { i, part -> if (i > 0) indexList.addAll(...) }`. */
  method AppendFaceIndices(indices: seq<int>, parts: seq<string>) returns (r: Result<seq<int>, LoadError>)
    requires |parts| >= 1
    ensures r == Extend(indices, FaceIndices(parts[1..]))
  {
    var out := indices;
    for i := 1 to |parts|
      invariant Extend(indices, FaceIndices(parts[1..])) == Extend(out, FaceIndices(parts[i..]))
    {
      assert parts[i..][1..] == parts[i + 1..];
      var pieceIndices := PieceIndices(Split(parts[i], '/'));
      if pieceIndices.Err? {
        return Err(pieceIndices.error);
      }
      ExtendTwice(out, pieceIndices.value, FaceIndices(parts[i + 1..]));
      out := out + pieceIndices.value;
    }
    assert out + [] == out;
    return Ok(out);
  }

  /** The body of `lines.forEach { line -> ... }`. */
  method ParseRecord(acc: RawLists, line: string, parseFloat: string -> Option<Float>) returns (r: Result<RawLists, LoadError>)
    ensures r == ParseLine(acc, line, parseFloat)
  {
    var parts := Split(line, ' ');
    if parts[0] == "v" {
      var ps := AppendFloats(acc.positions, parts, 3, parseFloat);
      r := if ps.Ok? then Ok(acc.(positions := ps.value)) else Err(ps.error);
    } else if parts[0] == "vn" {
      var ns := AppendFloats(acc.normals, parts, 3, parseFloat);
      r := if ns.Ok? then Ok(acc.(normals := ns.value)) else Err(ns.error);
    } else if parts[0] == "vt" {
      var ts := AppendFloats(acc.texCoords, parts, 2, parseFloat);
      r := if ts.Ok? then Ok(acc.(texCoords := ts.value)) else Err(ts.error);
    } else if parts[0] == "f" {
      var ix := AppendFaceIndices(acc.indices, parts);
      r := if ix.Ok? then Ok(acc.(indices := ix.value)) else Err(ix.error);
    } else {
      r := Ok(acc);
    }
  }

  /** The whole `objReader.useLines { ... }` pass over the text. */
  method ParseObj(lines: seq<string>, parseFloat: string -> Option<Float>) returns (r: Result<RawLists, LoadError>)
    ensures r == ParseLines(lines, parseFloat)
  {
    var acc := NoLists;
    var i := 0;
    while i < |lines|
      invariant 0 <= i <= |lines|
      invariant ParseFrom(acc, lines[i..], parseFloat) == ParseLines(lines, parseFloat)
    {
      assert lines[i..][1..] == lines[i + 1..];
      var step := ParseRecord(acc, lines[i], parseFloat);
      if step.Err? {
        return Err(step.error);
      }
      acc := step.value;
      i := i + 1;
    }
    assert lines[i..] == [];
    return Ok(acc);
  }

  // ---------------------------------------------------------------------------
  // What one record does

  /**
   * A `v` line appends fields 1..3, in order, to the positions and leaves the
   * other lists alone; it throws NumberFormat when one of those fields that
   * exists does not parse, and IndexOutOfBounds when the line is too short.
   */
  lemma VertexRecord(acc: RawLists, line: string, parseFloat: string -> Option<Float>)
    requires Split(line, ' ')[0] == "v"
    ensures var parts := Split(line, ' ');
            var r := ParseLine(acc, line, parseFloat);
            && (r.Ok? <==> |parts| >= 4 && forall i | 1 <= i <= 3 :: parseFloat(parts[i]).Some?)
            && (r.Ok? ==> r.value == acc.(positions := acc.positions
                 + [parseFloat(parts[1]).value, parseFloat(parts[2]).value, parseFloat(parts[3]).value]))
            && (r == Err(NumberFormat) <==> exists i | 1 <= i <= 3 && i < |parts| :: parseFloat(parts[i]).None?)
            && (r == Err(IndexOutOfBounds) <==> |parts| < 4 && forall i | 1 <= i < |parts| :: parseFloat(parts[i]).Some?)
  {
    var parts := Split(line, ' ');
    var fs := FloatFields(parts, 1, 4, parseFloat);
    if fs.Ok? {
      assert fs.value == [parseFloat(parts[1]).value, parseFloat(parts[2]).value, parseFloat(parts[3]).value];
    }
  }

  /** A `vn` line does the same to the normals. */
  lemma NormalRecord(acc: RawLists, line: string, parseFloat: string -> Option<Float>)
    requires Split(line, ' ')[0] == "vn"
    ensures var parts := Split(line, ' ');
            var r := ParseLine(acc, line, parseFloat);
            && (r.Ok? <==> |parts| >= 4 && forall i | 1 <= i <= 3 :: parseFloat(parts[i]).Some?)
            && (r.Ok? ==> r.value == acc.(normals := acc.normals
                 + [parseFloat(parts[1]).value, parseFloat(parts[2]).value, parseFloat(parts[3]).value]))
            && (r == Err(NumberFormat) <==> exists i | 1 <= i <= 3 && i < |parts| :: parseFloat(parts[i]).None?)
            && (r == Err(IndexOutOfBounds) <==> |parts| < 4 && forall i | 1 <= i < |parts| :: parseFloat(parts[i]).Some?)
  {
    var parts := Split(line, ' ');
    var fs := FloatFields(parts, 1, 4, parseFloat);
    if fs.Ok? {
      assert fs.value == [parseFloat(parts[1]).value, parseFloat(parts[2]).value, parseFloat(parts[3]).value];
    }
  }

  /** A `vt` line appends fields 1..2 to the texture coordinates. */
  lemma TexCoordRecord(acc: RawLists, line: string, parseFloat: string -> Option<Float>)
    requires Split(line, ' ')[0] == "vt"
    ensures var parts := Split(line, ' ');
            var r := ParseLine(acc, line, parseFloat);
            && (r.Ok? <==> |parts| >= 3 && forall i | 1 <= i <= 2 :: parseFloat(parts[i]).Some?)
            && (r.Ok? ==> r.value == acc.(texCoords := acc.texCoords
                 + [parseFloat(parts[1]).value, parseFloat(parts[2]).value]))
            && (r == Err(NumberFormat) <==> exists i | 1 <= i <= 2 && i < |parts| :: parseFloat(parts[i]).None?)
            && (r == Err(IndexOutOfBounds) <==> |parts| < 3 && forall i | 1 <= i < |parts| :: parseFloat(parts[i]).Some?)
  {
    var parts := Split(line, ' ');
    var fs := FloatFields(parts, 1, 3, parseFloat);
    if fs.Ok? {
      assert fs.value == [parseFloat(parts[1]).value, parseFloat(parts[2]).value];
    }
  }

  /** Any other first piece leaves all four lists as they were. */
  lemma IgnoredRecord(acc: RawLists, line: string, parseFloat: string -> Option<Float>)
    requires Split(line, ' ')[0] !in ["v", "vn", "vt", "f"]
    ensures ParseLine(acc, line, parseFloat) == Ok(acc)
  {
  }

  /** So does an empty line, whose only piece is the empty string. */
  lemma BlankLineIgnored(acc: RawLists, parseFloat: string -> Option<Float>)
    ensures ParseLine(acc, "", parseFloat) == Ok(acc)
  {
    assert Split("", ' ') == [""];
  }

  /** Parsing the pieces of `a + b` is parsing those of `a`, then those of `b`. */
  lemma {:induction false} PieceIndicesAppend(a: seq<string>, b: seq<string>)
    ensures PieceIndices(a + b) == AndThen(PieceIndices(a), PieceIndices(b))
    decreases |a|
  {
    if a == [] {
      assert [] + b == b;
      var rb := PieceIndices(b);
      if rb.Ok? {
        assert [] + rb.value == rb.value;
      }
    } else {
      assert (a + b)[0] == a[0];
      assert (a + b)[1..] == a[1..] + b;
      PieceIndicesAppend(a[1..], b);
      var rest := PieceIndices(a[1..]);
      if ParseInt(a[0]).Some? && rest.Ok? {
        ExtendTwice([ParseInt(a[0]).value - 1], rest.value, PieceIndices(b));
      }
    }
  }

  /** Token by token is the same as over all pieces at once. */
  lemma {:induction false} FaceIndicesFlat(tokens: seq<string>)
    ensures FaceIndices(tokens) == PieceIndices(Pieces(tokens))
    decreases |tokens|
  {
    if tokens != [] {
      FaceIndicesFlat(tokens[1..]);
      PieceIndicesAppend(Split(tokens[0], '/'), Pieces(tokens[1..]));
    }
  }

  /**
   * An `f` line appends, for every piece of every token after the first, the
   * piece's integer value minus one, in source order, and nothing else. No
   * count of tokens or of pieces per token is checked.
   */
  lemma FaceRecord(acc: RawLists, line: string, parseFloat: string -> Option<Float>)
    requires Split(line, ' ')[0] == "f"
    ensures var pieces := Pieces(Split(line, ' ')[1..]);
            var r := ParseLine(acc, line, parseFloat);
            && (r.Ok? <==> forall m | 0 <= m < |pieces| :: ParseInt(pieces[m]).Some?)
            && (r.Err? ==> r.error == NumberFormat)
            && (r.Ok? ==>
                 && r.value.positions == acc.positions
                 && r.value.normals == acc.normals
                 && r.value.texCoords == acc.texCoords
                 && |r.value.indices| == |acc.indices| + |pieces|
                 && r.value.indices[..|acc.indices|] == acc.indices
                 && forall m | 0 <= m < |pieces| :: ParseInt(pieces[m]) == Some(r.value.indices[|acc.indices| + m] + 1))
  {
    var parts := Split(line, ' ');
    FaceIndicesFlat(parts[1..]);
    var r := ParseLine(acc, line, parseFloat);
    var ix := PieceIndices(Pieces(parts[1..]));
    if ix.Ok? {
      assert r.value.indices == acc.indices + ix.value;
      forall m | 0 <= m < |ix.value| ensures r.value.indices[|acc.indices| + m] == ix.value[m] {
      }
    }
  }

  // ---------------------------------------------------------------------------
  // What the whole parse does

  /** The number of lines whose first piece is `head`. */
  function CountRecords(lines: seq<string>, head: string): nat
  {
    if lines == [] then 0
    else (if Split(lines[0], ' ')[0] == head then 1 else 0) + CountRecords(lines[1..], head)
  }

  /** The number of `/`-separated pieces over all `f` lines. */
  function FacePieceCount(lines: seq<string>): nat
  {
    if lines == [] then 0
    else
      var parts := Split(lines[0], ' ');
      (if parts[0] == "f" then |Pieces(parts[1..])| else 0) + FacePieceCount(lines[1..])
  }

  /** Each of the four lists of `r` starts with the corresponding list of `acc`. */
  predicate Extends(acc: RawLists, r: RawLists) {
    && acc.positions <= r.positions
    && acc.normals <= r.normals
    && acc.texCoords <= r.texCoords
    && acc.indices <= r.indices
  }

  /**
   * The lists only ever grow: a successful parse extends them by three
   * floats per `v` and `vn` line, two per `vt` line, and one index per face
   * piece.
   */
  lemma {:induction false} ParsedListSizes(acc: RawLists, lines: seq<string>, parseFloat: string -> Option<Float>)
    requires ParseFrom(acc, lines, parseFloat).Ok?
    ensures var r := ParseFrom(acc, lines, parseFloat).value;
            && Extends(acc, r)
            && |r.positions| == |acc.positions| + 3 * CountRecords(lines, "v")
            && |r.normals| == |acc.normals| + 3 * CountRecords(lines, "vn")
            && |r.texCoords| == |acc.texCoords| + 2 * CountRecords(lines, "vt")
            && |r.indices| == |acc.indices| + FacePieceCount(lines)
    decreases |lines|
  {
    if lines != [] {
      var line := lines[0];
      var parts := Split(line, ' ');
      if parts[0] == "v" {
        VertexRecord(acc, line, parseFloat);
      } else if parts[0] == "vn" {
        NormalRecord(acc, line, parseFloat);
      } else if parts[0] == "vt" {
        TexCoordRecord(acc, line, parseFloat);
      } else if parts[0] == "f" {
        FaceRecord(acc, line, parseFloat);
      }
      var next := ParseLine(acc, line, parseFloat).value;
      ParsedListSizes(next, lines[1..], parseFloat);
    }
  }
}
