# OBJ model loading for the OpenGL example

This project models the loader of the Android OpenGL example's `ObjectModel`
class: `loadFromObj`, which reads a Wavefront OBJ text into three flat float
arrays (positions, normals and texture coordinates, one group per
face-vertex) and wraps each array in a float buffer. It also models the
vertex layout constants that `render` passes to `glVertexAttribPointer`.

The loader works in two stages, and the model keeps them apart:

- **Parsing** (`ObjParser`, over the string helpers of `KotlinText`). Each line
  is split on single spaces, and its first piece selects the effect:
  - `v`, `vn` and `vt` append fields 1..3 (1..2 for `vt`), converted by
    `toFloat()`, to the position, normal or texture-coordinate list;
  - `f` splits every later piece on `/` and appends each sub-piece's
    `toInt() - 1` to one flat index list;
  - anything else, the empty line included, changes nothing.

  The parse is written twice: as the pure functions `ParseLine` / `ParseLines`,
  and as the loops `ParseRecord` / `ParseObj`, which are proved equal to them.
- **Expansion** (`Geometry` for the expansion as a value, `Loader` for the
  imperative loop). The index list is read three at a time. The triplet at
  `i = 3c` gives corner c, and the corner's position, normal and texture
  coordinate are copied into slots `3c..3c+2`, `3c..3c+2` and `2c..2c+1` of
  the output arrays.
  - `Geometry.Expand` is the expansion as a value.
  - `Loader.ObjectModel` is a class with the source's fields. Its
    `StoreExpansion` and `LoadFromObj` allocate the arrays and fill them by a
    loop (`CopyCorners`), proved against `Expand`.

Errors are the two JVM exceptions the loader can throw, as `LoadError`:
- `NumberFormat`: a `toFloat()` or `toInt()` refuses a piece;
- `IndexOutOfBounds`: a missing field, an incomplete index triplet, or an
  index outside its list.

An exception aborts the load. The model states what the object holds
afterwards: the arrays already allocated, and the buffers unchanged.

Floats are only copied, never computed with, so a Kotlin `Float` is kept as its
32-bit pattern (`ObjParser.Float`). `toFloat()` is a parameter of the parse:
`parseFloat: string -> Option<Float>`, with `None` for the exception.

### What the loader accepts

- **Splitting.** `split(" ")` splits on single spaces and keeps empty
  pieces, so `"v  1 2 3"` has an empty field 1, which `toFloat()` rejects.
- **Errors.** The loader raises no error of its own. The only exceptions it
  throws are `NumberFormatException` and `IndexOutOfBoundsException`.
- **Faces.** A face may have any number of pieces, and each piece any number
  of `/`-parts. All of them are flattened into one index list, which the
  expansion then reads in threes, whatever the grouping.
  `ObjParser.FaceRecord` and `Geometry.Expand` state exactly this behaviour.

## Model

| member | source | states |
|---|---|---|
| KotlinText.Wrap32 | app/src/main/java/ru/makproductions/a3dmodelopenglexample/ObjectModel.kt:48-50 | The Kotlin `Int` an exact product wraps to: it lies in the 32-bit range, differs from the exact value by a multiple of 2^32, and equals it when the exact value already fits. |
| KotlinText.Split | app/src/main/java/ru/makproductions/a3dmodelopenglexample/ObjectModel.kt:27 | Kotlin's `split` on one character: always at least one piece. With JoinSplit and SplitJoin it is exactly the list of maximal delimiter-free pieces between delimiters, empty ones included. |
| KotlinText.JoinSplit | app/src/main/java/ru/makproductions/a3dmodelopenglexample/ObjectModel.kt:27 | `split(d)` loses nothing: joining its pieces with `d` gives the line back, and no piece contains `d`. |
| KotlinText.SplitJoin | app/src/main/java/ru/makproductions/a3dmodelopenglexample/ObjectModel.kt:27 | Conversely, a non-empty list of delimiter-free pieces is exactly what splitting their join returns, so `split` is a bijection onto such lists. |
| KotlinText.SplitWithoutDelimiter | app/src/main/java/ru/makproductions/a3dmodelopenglexample/ObjectModel.kt:35 | A piece without `/` splits into itself alone, as a bare `f 1 2 3` token does. |
| KotlinText.SignedValue | app/src/main/java/ru/makproductions/a3dmodelopenglexample/ObjectModel.kt:35 | A digit run with its sign gives a value exactly when every character is a digit and the signed value fits in an `Int`. |
| KotlinText.ParseInt | app/src/main/java/ru/makproductions/a3dmodelopenglexample/ObjectModel.kt:35 | `toInt()`: any value it returns fits in an `Int` and is non-negative unless the text starts with `-`; the empty string and a lone sign or non-digit are refused. |
| KotlinText.ParseShowInt | app/src/main/java/ru/makproductions/a3dmodelopenglexample/ObjectModel.kt:35 | `toInt()` reads back every `Int` that `toString()` writes (the round trip through the decimal text). |
| ObjParser.FloatFields | app/src/main/java/ru/makproductions/a3dmodelopenglexample/ObjectModel.kt:30-32 | The floats of fields lo..hi-1 in order. It succeeds exactly when those fields exist and all parse. It fails with NumberFormat exactly when an existing field does not parse, and with IndexOutOfBounds only when the line is too short. |
| ObjParser.PieceIndices | app/src/main/java/ru/makproductions/a3dmodelopenglexample/ObjectModel.kt:35 | `map { it.toInt() - 1 }`: it succeeds exactly when every piece parses, returns one index per piece with `toInt()` of piece m equal to index m + 1, and otherwise throws NumberFormat. |
| ObjParser.FaceIndices | app/src/main/java/ru/makproductions/a3dmodelopenglexample/ObjectModel.kt:33-37 | The indices of the face tokens: one per `/`-piece of the tokens, or NumberFormat. FaceIndicesFlat and FaceRecord give the values. |
| ObjParser.ParseLine | app/src/main/java/ru/makproductions/a3dmodelopenglexample/ObjectModel.kt:27-39 | One line's effect on the four lists: it only extends them, the positions and normals by none or one group of 3 floats and the texture coordinates by none or one group of 2. VertexRecord, NormalRecord, TexCoordRecord, FaceRecord and IgnoredRecord state each branch. |
| ObjParser.ParseFrom | app/src/main/java/ru/makproductions/a3dmodelopenglexample/ObjectModel.kt:25-41 | The line pass from given lists, stopping at the first exception: on success it only extends the lists, and by whole groups of 3, 3 and 2 floats. |
| ObjParser.ParseLines | app/src/main/java/ru/makproductions/a3dmodelopenglexample/ObjectModel.kt:25-41 | The whole parse from empty lists: on success the position and normal lists hold whole groups of 3 floats and the texture coordinates whole groups of 2. ParsedListSizes gives the exact sizes. |
| ObjParser.AppendFloats | app/src/main/java/ru/makproductions/a3dmodelopenglexample/ObjectModel.kt:30-32 | The `for (i in 1..n) list.add(parts[i].toFloat())` loop returns the list extended by FloatFields(parts, 1, n+1), or that function's exception. |
| ObjParser.AppendFaceIndices | app/src/main/java/ru/makproductions/a3dmodelopenglexample/ObjectModel.kt:33-37 | The `forEachIndexed` loop over the face pieces returns the index list extended by FaceIndices of the pieces after the first, or their exception. |
| ObjParser.ParseRecord | app/src/main/java/ru/makproductions/a3dmodelopenglexample/ObjectModel.kt:27-39 | One line's effect on the four lists is ParseLine's. |
| ObjParser.ParseObj | app/src/main/java/ru/makproductions/a3dmodelopenglexample/ObjectModel.kt:25-41 | The loop over all lines, stopping at the first exception, equals ParseLines. |
| ObjParser.VertexRecord | app/src/main/java/ru/makproductions/a3dmodelopenglexample/ObjectModel.kt:30 | A `v` line appends the floats of fields 1, 2, 3, in that order, to the positions and changes no other list. It succeeds exactly when those fields exist and parse; NumberFormat exactly when an existing one does not; IndexOutOfBounds exactly when the line is short and its fields all parse. |
| ObjParser.NormalRecord | app/src/main/java/ru/makproductions/a3dmodelopenglexample/ObjectModel.kt:31 | The same for a `vn` line and the normals. |
| ObjParser.TexCoordRecord | app/src/main/java/ru/makproductions/a3dmodelopenglexample/ObjectModel.kt:32 | The same for a `vt` line, with fields 1 and 2, and the texture coordinates. |
| ObjParser.IgnoredRecord | app/src/main/java/ru/makproductions/a3dmodelopenglexample/ObjectModel.kt:29-39 | A line whose first piece is not `v`, `vn`, `vt` or `f` leaves all four lists unchanged. |
| ObjParser.BlankLineIgnored | app/src/main/java/ru/makproductions/a3dmodelopenglexample/ObjectModel.kt:27-29 | An empty line (whose only piece is the empty string) leaves all four lists unchanged. |
| ObjParser.PieceIndicesAppend | app/src/main/java/ru/makproductions/a3dmodelopenglexample/ObjectModel.kt:35-36 | Converting the pieces of two lists together is converting the first list, then the second, with the first exception winning. |
| ObjParser.FaceIndicesFlat | app/src/main/java/ru/makproductions/a3dmodelopenglexample/ObjectModel.kt:33-37 | Appending token by token is appending the `/`-pieces of all tokens at once, in source order. |
| ObjParser.FaceRecord | app/src/main/java/ru/makproductions/a3dmodelopenglexample/ObjectModel.kt:33-37 | An `f` line succeeds exactly when every `/`-piece of every later token parses as an `Int`; otherwise it throws NumberFormat. On success it leaves the float lists unchanged, keeps the old indices as a prefix, grows the index list by exactly the number of pieces, and stores piece m's value minus one at the old length + m. No count of pieces is checked. |
| ObjParser.ParsedListSizes | app/src/main/java/ru/makproductions/a3dmodelopenglexample/ObjectModel.kt:25-41 | A successful parse only extends the four lists (each old list is a prefix of the new): by 3 floats per `v` and `vn` line, 2 per `vt` line, and 1 index per face piece. |
| Geometry.ResolveCorner | app/src/main/java/ru/makproductions/a3dmodelopenglexample/ObjectModel.kt:47-61 | Corner c resolves exactly when its triplet is complete and each index, scaled by its group size, names a whole group inside its list. Its floats are then position j = positions[3·idx0 + j], normal j = normals[3·idx2 + j] and texture coordinate j = texCoords[2·idx1 + j]. |
| Geometry.ExpandUpTo | app/src/main/java/ru/makproductions/a3dmodelopenglexample/ObjectModel.kt:47-62 | The first k loop passes succeed exactly when corners 0..k-1 all resolve, and they then produce 3k, 3k and 2k floats. |
| Geometry.ExpandStep | app/src/main/java/ru/makproductions/a3dmodelopenglexample/ObjectModel.kt:52-61 | One more resolvable corner appends exactly its three groups to the outputs. |
| Geometry.ExpandedSlotsUpTo | app/src/main/java/ru/makproductions/a3dmodelopenglexample/ObjectModel.kt:52-61 | After k passes, slot 3c+j of the positions holds positions[3·idx0(c) + j], the normals take the third index and the texture coordinates (slot 2c+j) the second. |
| Geometry.Expand | app/src/main/java/ru/makproductions/a3dmodelopenglexample/ObjectModel.kt:43-62 | The whole loop succeeds exactly when the index-list size is a multiple of 3 and every corner resolves. Otherwise it throws: on an incomplete last triplet, a negative index, or a group past the end. On success the outputs have 3n, 3n and 2n floats for n = size / 3. |
| Geometry.ExpandedSlots | app/src/main/java/ru/makproductions/a3dmodelopenglexample/ObjectModel.kt:52-61 | Per slot of the finished arrays: vertices[3c+j] = positions[3·idx[3c] + j], normals[3c+j] = normals[3·idx[3c+2] + j], texCoords[2c+j] = texCoords[2·idx[3c+1] + j]. |
| Geometry.FaultingCorner | app/src/main/java/ru/makproductions/a3dmodelopenglexample/ObjectModel.kt:47-62 | When the loop throws, there is a first corner that does not resolve, and every corner before it does. |
| Geometry.ResolveCornerInt32 | app/src/main/java/ru/makproductions/a3dmodelopenglexample/ObjectModel.kt:48-61 | The corner lookup as written, with 32-bit `Int` index arithmetic (as-written half of the finding below). |
| Geometry.Int32AgreesWhenResolvable | app/src/main/java/ru/makproductions/a3dmodelopenglexample/ObjectModel.kt:48-50 | Wherever the exact lookup succeeds on lists of at most `Int.MAX_VALUE` floats, the 32-bit lookup reads the same floats. |
| Geometry.Int32IndexWrapsIntoRange | app/src/main/java/ru/makproductions/a3dmodelopenglexample/ObjectModel.kt:48-54 | Index 1431655766 does not resolve exactly, yet the 32-bit lookup succeeds and silently reads floats 2..4 of a six-float position list. |
| Layout.LayoutTilesStride | app/src/main/java/ru/makproductions/a3dmodelopenglexample/ObjectModel.kt:133-167 | The stride is 32 bytes. Position, normal and texture coordinate sit at offsets 0, 12 and 24, back to back: together they fill the stride without overlap, and each has its own handle. |
| Loader.Copy3 | app/src/main/java/ru/makproductions/a3dmodelopenglexample/ObjectModel.kt:52-58 | Three consecutive reads and writes: it succeeds exactly when the group base..base+2 lies in the list, and then writes those floats to slots at..at+2. It changes no other slot. |
| Loader.Copy2 | app/src/main/java/ru/makproductions/a3dmodelopenglexample/ObjectModel.kt:60-61 | The same for a two-float texture-coordinate group. |
| Loader.CopyCorner | app/src/main/java/ru/makproductions/a3dmodelopenglexample/ObjectModel.kt:47-61 | One loop pass succeeds exactly when the corner resolves. It then holds the corner's floats in its own slots 3c..3c+2 and 2c..2c+1. It writes no slot outside those, so distinct corners write disjoint slots. |
| Loader.NewOutputArrays | app/src/main/java/ru/makproductions/a3dmodelopenglexample/ObjectModel.kt:43-45 | Three fresh, distinct, zero-filled arrays of 3n, 3n and 2n floats. |
| Loader.GroupWritten | app/src/main/java/ru/makproductions/a3dmodelopenglexample/ObjectModel.kt:52-61 | Writing one group into the first zero slots after the filled prefix, and nothing else, extends the prefix by that group and keeps the rest zero. |
| Loader.PositionsStep | app/src/main/java/ru/makproductions/a3dmodelopenglexample/ObjectModel.kt:52-54 | A pass that copies corner k's position floats extends the filled position prefix from k corners to k+1. |
| Loader.NormalsStep | app/src/main/java/ru/makproductions/a3dmodelopenglexample/ObjectModel.kt:56-58 | The same for the normals. |
| Loader.TexCoordsStep | app/src/main/java/ru/makproductions/a3dmodelopenglexample/ObjectModel.kt:60-61 | The same for the texture coordinates. |
| Loader.FillFault | app/src/main/java/ru/makproductions/a3dmodelopenglexample/ObjectModel.kt:47-62 | A pass over a corner that does not resolve makes the whole expansion fail, and leaves the arrays in the fault state: the earlier corners copied, the slots after the failing corner zero. |
| Loader.FillDone | app/src/main/java/ru/makproductions/a3dmodelopenglexample/ObjectModel.kt:47-62 | When the loop has covered the whole index list, the arrays are exactly the expansion. |
| Loader.FillCorner | app/src/main/java/ru/makproductions/a3dmodelopenglexample/ObjectModel.kt:47-62 | One pass, from the state after k passes, either reaches the state after k+1 passes (each earlier slot keeps its value, so each slot is written once) or throws into the fault state. |
| Loader.CopyCorners | app/src/main/java/ru/makproductions/a3dmodelopenglexample/ObjectModel.kt:47-62 | The loop from the zero-filled state returns normally exactly when Expand succeeds, and then the arrays equal the expansion. Otherwise the expansion fails and the arrays are in the fault state. |
| Loader.ExpandInto | app/src/main/java/ru/makproductions/a3dmodelopenglexample/ObjectModel.kt:43-62 | The same, starting from the freshly allocated zero arrays. |
| Loader.ObjectModel.constructor | app/src/main/java/ru/makproductions/a3dmodelopenglexample/ObjectModel.kt:8-17 | A new object has no arrays and no buffers, and width and height 0. |
| Loader.ObjectModel.StoreExpansion | app/src/main/java/ru/makproductions/a3dmodelopenglexample/ObjectModel.kt:43-78 | From parsed lists: the fields get fresh, distinct arrays of 3n, 3n and 2n floats. On success the result is Loaded, the arrays hold Expand, and each buffer holds its array's contents. On failure the result is IndexOutOfBounds, the arrays are in the fault state, and the buffers are unchanged. Width and height never change. |
| Loader.ObjectModel.LoadFromObj | app/src/main/java/ru/makproductions/a3dmodelopenglexample/ObjectModel.kt:19-79 | The whole loader. A parse exception is returned with the object untouched; otherwise the object ends as StoreExpansion states for ParseLines of the text. |

## Findings

| source | as written | input that shows it | evidently intended | confidence | as-written member | corrected member |
|---|---|---|---|---|---|---|
| app/src/main/java/ru/makproductions/a3dmodelopenglexample/ObjectModel.kt:48-50 | `indexList[i] * 3` (and `* 2`, `+ 1`, `+ 2`) are 32-bit `Int` operations and wrap silently | face piece `1431655767` (index 1431655766) with a six-float position list: 1431655766 × 3 wraps to 2, so the corner reads floats 2..4 instead of throwing | an out-of-range index aborts the load with IndexOutOfBounds | high, not executed | Geometry.ResolveCornerInt32, Geometry.Int32IndexWrapsIntoRange | Geometry.ResolveCorner |

## Left out

- `initBuffers`, `render` and every `GLES20` call: GPU state is outside the model. Only the layout constants and offsets of `render` are modelled.
- The `vertexBufferId` fields and `vertexBufferIds`: they are only GL handles. `render` binds `vertexBufferIds[0]` from an empty array, which is not modelled.
- `render` uses a 32-byte interleaved stride, but `loadFromObj` builds three separate arrays. The model proves the layout consistent in itself and does not relate it to the arrays.
- The `context` constructor parameter and the Android glue around `ObjectModel`: they take no part in loading.
- Reading the `BufferedReader`: the text is given as a sequence of lines; the I/O itself is left out.
- `toFloat()`: a parameter of the parse. Its decimal-to-IEEE-754 conversion is left out, and a float is kept as its bit pattern.
- `toInt()`: non-ASCII Unicode digits are not accepted. Only `0`-`9` with an optional sign are modelled.
- ObjParser.PieceIndices: `toInt() - 1` is computed exactly. It differs from Kotlin's only for the piece `-2147483648`, where Kotlin's result wraps to `Int.MAX_VALUE`. Either index names no group of any list a JVM can hold, so the load throws either way.
- Loader.ObjectModel.LoadFromObj, Loader.ObjectModel.StoreExpansion: on failure they do not state the partly written slots of the failing corner, only the corners before it and the zeros after it.
- Loader.ObjectModel.StoreExpansion: assigns the array fields after the copying loop rather than before it. Nothing can observe the object in between, so the final state is the same.
- Loader.ObjectModel.LoadFromObj, StoreExpansion, ExpandInto, CopyCorners, CopyCorner, Geometry.Expand: the index arithmetic `indexList[i] * 3`, `* 2`, `+ 1` and `+ 2` is exact, as in the corrected lookup of the finding above. Where a product leaves the `Int` range, the model throws IndexOutOfBounds, while Kotlin may read the slot the wrapped index names. `Geometry.ResolveCornerInt32` is the lookup as written, and `Geometry.Int32AgreesWhenResolvable` shows the two agree wherever the exact lookup succeeds.
- The NIO buffers: each is modelled by the floats put into it. Byte size, byte order and buffer position are left out.
