# Verification of the trading framework's core algorithms

A Dafny model of the parts of the framework that hold real logic, with proofs of what they promise. To check all of
it, use `dafny verify dfyconfig.toml`.

Floats are idealised as reals throughout; machine integers are modelled with their width where it matters (counters of
32 bits, the 64-bit mesh key, 16-bit loop indices and pattern depths, 32-bit pattern words and statistics).

| files | what they model |
|---|---|
| `RefsState`, `RefsCascade`, `RefsReach`, `RefsRuns`, `RefsMemory` | the memory that `Ref` and `WeakRef` work on: one class holding objects, counters and slots, whose methods are the templates' methods. A freed address is one that is gone from a map, so every dereference carries its own proof. `RefsState` says what consistency means, `RefsCascade` what one `Unset` may change however many deletions it nests, `RefsReach` which objects survive, `RefsRuns` what holds along whole runs |
| `MeshKey`, `Mesh`, `MeshShapes` | the packed lookup key and the face loop of `GetBuffers`, against a reference list of face corners, and what the buffers of triangles and quads draw |
| `Matrix`, `MatrixRoutines` | 4x4 matrices: textbook determinant, product and inverse with their laws, and the three routines on arrays that compute them |
| `Quaternion`, `RotationGroup` | the product, the rotation matrix, which matrices are rotation matrices, and the quaternion read back from them |
| `SphericalHarmonics` | the band layout and `DXSHRotateZ`, with sine and cosine as parameters, and the functions of the azimuth that the cells stand for |
| `Escaping`, `JsonStrings`, `CompositeKey`, `RedisText`, `Redis`, `RedisReplies` | text escaping against the strings of JSON, the keys built on it, and messages and replies in the format of the Redis serialization protocol (RESP), sections "Integers", "Bulk strings" and "Arrays" |
| `Bars`, `PivotLaws`, `PatternWords`, `ThreeCandles`, `FourCandles`, `FiveCandles`, `BitwisePattern` | price bars and pivot levels, the 32-bit words of candle patterns, and the history of such words |
| `CandleQuantities`, `ThreeCandleLaws`, `FourCandleLaws`, `FiveCandleLaws` | what each bit of those words says of the four prices of the candles, written apart from the checks, and what the bits say of each other |
| `TradeLimits`, `TradePrograms`, `PriceStop`, `IndicatorScan`, `OrderQuery` | the scans: trade limits with counters that reset while they are read, price stops, validity searches, order queries |

## What the proofs turned up

Where the code does not do what its comments or names suggest, the model follows the code.

- `cur = cur.next` frees the list before the new target is counted (`AdvanceAlongList`); `AssignSafeIff` and
  `WeakAssignSafeIff` are the exact preconditions of the two assignments in any heap, and the runs of `RunIsSafe` leave
  out exactly the assignments of objects that do not meet them (`RefAssignmentIsSafeIff`, `WeakAssignmentIsSafeIff`).
- Emptying a reference frees what needed it and nothing else (`SurvivorsExact`), so two objects that hold each other
  stay allocated after the last local is gone (`CycleStays`, `LeakCycle`).
- `FromString` advances past the count line a second time inside the text behind it. It works when that line happens to
  be as long as the length line of the first item, which is always so for what a subscriber receives
  (`PublishedMessageArrives`). Messages of ten items or more with a short first item lose its first character
  (`ManyItemsAreLost`). Two families of messages come back by coincidence although the condition fails
  (`DollarCoincides`, `HundredEmptyItemsCoincide`).
- A null bulk string is read as all that follows it (`NullStep`).
- The escaping writes a JSON string, unless the text has one of the 29 control characters it has no letter for
  (`EscapedIsJson`), and the unescaping does not know two of the letters of JSON (`UnescapeReadsJson`).
- `MakeKey` drops empty components, so three or more of them can collide (`TriplesCollide`).
- The levels of the Floor pivots are never in strict order, since the outer two are equal (`DescendingIff`).
- Two candle bits do not follow the mirror symmetry of all the others: upper wicks in the four-candle word and the sum
  of bodies in the five-candle word.
- The scan for reached limits clears the hourly counters itself once the hour has changed since the daily counter of
  the first type was last reset (`FiveOrdersUnnoticed`), so that hourly limits of all other types are not reported for
  the rest of the day (`HourlyLimitsVanishAllDay`); the same goes for every shorter period below a longer one
  (`IsLimitGe`).
- A new week is a change of the weekday, so the weekly counters are cleared every day (`ClearedColumnsAre`).
- `GetBarsCalculated` counts the invalid bars at the start in every call but the one that finds the first valid bar
  (`CountTwice`).
- The depth of a bit that has been on for more than 32767 words overflows, and the search goes on as if it had been off
  (`GetBitDepth`).
- `DXMatrixInverse` stores the determinant only if the variable for it is not zero beforehand.
- A mesh keeps the buffers it made first; faces added later never reach them.

## Model

| member | source | states |
|---|---|---|
| RefsState.DropStrongKeepsInv | src/include/classes/Refs.struct.h:147-187 | the first half of `Ref::Unset`, up to the `delete`, keeps every counter exact, also in the middle of a nested deletion |
| RefsState.DropWeakKeepsInv | src/include/classes/Refs.struct.h:342-387 | the first half of `WeakRef::Unset` keeps every counter exact, with the counter it is about to free set aside |
| RefsState.FinishFlightKeepsInv | src/include/classes/Refs.struct.h:373-387 | the second half, after the object is gone: the counter is freed once and no slot is left on it |
| RefsState.AttachStrongExact | src/include/classes/Refs.struct.h:210-221 | the end of `Ref::operator=`: the counts stay exact if and only if the slot still exists whenever a live target is attached, and no Ref dangles if and only if the target is still allocated |
| RefsState.AttachWeakExact | src/include/classes/Refs.struct.h:299-311 | the end of `WeakRef::operator=`: the counts stay exact if and only if the slot still exists |
| RefsRuns.StepIsSafe | src/include/classes/Refs.struct.h:202-224 | every operation, an assignment of an object being one that holds it already or one whose target and owner live on without what the slot held, leads from a consistent state to a consistent one, and never brings a freed address back |
| RefsRuns.RefAssignmentIsSafeIff | src/include/classes/Refs.struct.h:202-224 | in any heap that condition is exact: an assignment of an object to a `Ref` leaves a consistent state and the `Ref` itself if and only if it holds |
| RefsRuns.WeakAssignmentIsSafeIff | src/include/classes/Refs.struct.h:286-314 | the same for a `WeakRef`, which also has to read the counter of a target that is still allocated |
| RefsRuns.NullSlotTakesAny | src/include/classes/Refs.struct.h:202-221 | a NULL reference meets it for every live object, also for one that lives only in an unreachable cycle |
| RefsRuns.LocalTakesFromRoot | src/include/classes/Refs.struct.h:202-248 | a local meets it for whatever another local or global holds |
| RefsRuns.RunIsSafe | src/include/classes/Refs.struct.h:136-388 | in every run of such operations from empty memory each state between operations is consistent: counts equal the numbers of live slots, no Ref dangles, no destructor is left half done |
| RefsRuns.FreedAtMostOnce | src/include/classes/Refs.struct.h:136-388 | in every run each object and each counter is freed at most once |
| RefsRuns.HeldInRunIffReachable | src/include/classes/Refs.struct.h:136-224 | in every run, wherever the Ref edges are acyclic, an object some Ref held earlier is allocated if and only if it is reachable |
| RefsState.AllocObjectKeepsInv | src/include/classes/Refs.mqh:130-144 | a new object comes with a counter at (0, 0, not deleted) and fits every earlier state |
| RefsMemory.Memory.UnsetRef | src/include/classes/Refs.struct.h:136-197 | for every heap, cyclic or not, and every order of destroying fields: the counts stay exact, only the slot is emptied and only objects with their fields disappear, no group of objects that keeps itself without the slot loses a member, nothing is left behind without a reference, no Ref starts to dangle, and a NULL slot changes nothing; it ends because fewer objects are alive at every nested call |
| RefsMemory.Memory.UnsetWeak | src/include/classes/Refs.struct.h:340-388 | the same for `WeakRef::Unset`, which deletes an object no Ref ever held with its last weak reference |
| RefsMemory.Memory.DeleteObject | src/include/classes/Refs.mqh:149-166 | destroying an object destroys its Ref and WeakRef fields, each of which may start further deletions; its memory is freed once, after them |
| RefsMemory.Memory.DestroyField | src/include/classes/Refs.struct.h:121-121 | the destructor of one field in the middle of its owner's destruction |
| RefsMemory.Memory.NewObject | src/include/classes/Refs.mqh:130-144 | allocation of a counted object |
| RefsMemory.Memory.NewSlot | src/include/classes/Refs.struct.h:116-116 | a new Ref or WeakRef holds NULL |
| RefsMemory.Memory.DropSlot | src/include/classes/Refs.struct.h:121-121 | a reference that goes out of scope unsets itself |
| RefsMemory.Memory.RefAssign | src/include/classes/Refs.struct.h:202-224 | assignment of any pointer, live or freed: the state afterwards, and exactly when the counts are right and no Ref dangles |
| RefsMemory.Memory.RefAssignKept | src/include/classes/Refs.struct.h:202-224 | a safe assignment: consistent, nothing dangles, the target is alive |
| RefsMemory.Memory.RefFill | src/include/classes/Refs.struct.h:202-221 | the first assignment to a NULL reference changes that reference and the counts and nothing else |
| RefsMemory.Memory.WeakAssign | src/include/classes/Refs.struct.h:286-314 | assignment of any live pointer: exactly when the counter read after the `Unset` is still that of a live target, the state afterwards, and exactly when the counts are right |
| RefsMemory.Memory.WeakAssignKept | src/include/classes/Refs.struct.h:286-314 | a safe assignment: consistent, and `Ptr` gives the target |
| RefsMemory.Memory.RefAssignWeak | src/include/classes/Refs.struct.h:229-232 | a strong reference taken from a weak one, like an assignment of what `Ptr` gives |
| RefsMemory.Memory.WeakAssignRef | src/include/classes/Refs.struct.h:327-330 | a weak reference taken from a strong one, like an assignment of its pointer |
| RefsMemory.Memory.Ptr | src/include/classes/Refs.struct.h:279-281 | `WeakRef::Ptr` gives NULL or an object that is still allocated and has this very counter |
| RefsReach.KeptSurvives | src/include/classes/Refs.struct.h:136-197 | what a chain of owners from a root keeps without the slot survives emptying it, in any heap |
| RefsReach.SurvivorsExact | src/include/classes/Refs.struct.h:136-197 | in any heap, emptying a slot frees exactly the objects that need it: allocated afterwards if and only if in some group that locals, globals and its own members keep without the slot |
| RefsReach.SlotSurvives | src/include/classes/Refs.struct.h:136-197 | the slot itself is still there if and only if its owner is in such a group |
| RefsReach.UpheldIffKept | src/include/classes/Refs.struct.h:136-197 | where keeping has no cycle, to be in such a group is to be reachable from a root without the slot |
| RefsReach.NullSlotKeepsNothing | src/include/classes/Refs.struct.h:136-141 | every live object is in such a group when the slot is NULL |
| RefsReach.HeldLiveIffReachable | src/include/classes/Refs.struct.h:136-224 | with acyclic Ref edges, between any two operations an object some Ref ever held is allocated if and only if it is reachable through Refs from a root or from an object no Ref ever held |
| RefsReach.NoRootsNoObjects | src/include/classes/Refs.struct.h:121-121 | without keeping cycles, once all locals and globals are gone, an object is alive only if some object nobody references is alive too |
| RefsReach.CycleStays | src/include/classes/Refs.struct.h:136-197 | two objects that hold each other by fields stay allocated, with these fields, whatever other reference is emptied |
| RefsMemory.LeakCycle | src/include/classes/Refs.struct.h:121-121 | a program that builds such a pair from nothing and drops the last local: no root is left, and both objects stay allocated |
| RefsReach.WeakPtrIsLive | src/include/classes/Refs.struct.h:279-281 | a weak pointer yields its object exactly as long as that object is allocated, NULL from then on |
| RefsReach.CountersDoNotLeak | src/include/classes/Refs.struct.h:153-170 | a counter lives exactly as long as its object or a WeakRef on it, and both numbers in it are the numbers of live slots |
| RefsReach.AssignSafeIff | src/include/classes/Refs.struct.h:202-224 | the precondition of `Ref::operator=` in any heap: counts exact and no Ref dangling afterwards if and only if the target is NULL, or lives on without the slot exactly when the owner of the slot does; the slot survives if and only if its owner does |
| RefsReach.WeakAssignSafeIff | src/include/classes/Refs.struct.h:286-314 | the same for `WeakRef::operator=`: the counter is read from allocated memory if and only if the target lives on, and then the counts are exact if and only if the owner of the slot does |
| RefsReach.AssignSafeIffKept | src/include/classes/Refs.struct.h:202-224 | without keeping cycles that precondition is that the target is NULL or reachable without the slot |
| RefsReach.WeakAssignSafeIffKept | src/include/classes/Refs.struct.h:286-314 | likewise for `WeakRef::operator=` |
| RefsReach.AdvanceAlongListDangles | src/include/classes/Refs.struct.h:208-217 | `cur = cur.next` on a list held by `cur` alone frees both elements and leaves `cur` dangling |
| RefsReach.ListOfTwoDangles | src/include/classes/Refs.struct.h:208-217 | a two-element list on which it does |
| RefsMemory.AdvanceAlongList | src/include/classes/Refs.struct.h:202-224 | a program that builds that list from nothing, runs the assignment, and ends with a local on a freed object |
| MeshKey.PackInjective | src/include/classes/3D/Mesh.h:59-62 | equal packed keys mean equal quantised triples, wrap-around of the 64-bit sum included, for 22, 22 and 20 bits of X, Y and Z |
| MeshKey.PackFits | src/include/classes/3D/Mesh.h:59-62 | the sum fits in 64 bits when X and Y are below 2^21 and Z below 2^18 in absolute value |
| MeshKey.PackCollides | src/include/classes/3D/Mesh.h:59-62 | just outside the range two points share a key |
| MeshKey.SameKeyClose | src/include/classes/3D/Mesh.h:40-62 | points with equal keys differ by less than 0.002 in each coordinate |
| MeshKey.SameKeyIff | src/include/classes/3D/Mesh.h:40-62 | within the range of the key two points share it if and only if each of their coordinates lies in the same thousandth, the one around zero being twice as wide |
| MeshKey.KeyExample | src/include/classes/3D/Mesh.h:59-62 | which coordinate goes to which part of the key: the key of (1, 2, -3) in numbers |
| MeshBuild.IndexOf | src/include/classes/DictStruct.mqh:240-248 | the first list entry with an equal key, or -1 |
| MeshBuild.FirstSeenDistinct | src/include/classes/3D/Mesh.h:167-174 | stored points are the first of their key, and their keys are pairwise distinct |
| MeshBuild.SharedIndicesAre | src/include/classes/3D/Mesh.h:168-176 | every index found while the list grows is the index in the finished list |
| MeshBuild.Geometry | src/include/classes/3D/Mesh.h:161-218 | reading the vertices through the indices gives the corners of all faces in order: with equal keys in connected mode, exactly and with indices[j] == j in separate mode; every index is in range |
| MeshBuild.ConnectedMinimal | src/include/classes/3D/Mesh.h:167-190 | connected mode stores no two vertices with one key, and only corners |
| MeshBuild.ConnectedMovesLittle | src/include/classes/3D/Mesh.h:167-190 | connected mode moves no corner by 0.002 or more while the coordinates are within the key's range |
| MeshBuild.Mesh.GetBuffers | src/include/classes/3D/Mesh.h:141-218 | the two buffers are the vertices and indices of the corners of the faces there were when the buffers were made; a second call returns the first buffers; what they draw `BuildMesh` says |
| MeshBuild.Mesh.AddFaceTo | src/include/classes/3D/Mesh.h:161-212 | one face of the loop extends both lists by the corners of the face; how many that are for which constructor, `BuildMesh` says |
| MeshBuild.Mesh.AddFirstTriangle | src/include/classes/3D/Mesh.h:165-177 | the first triangle of a face |
| MeshBuild.Mesh.AddFace | src/include/classes/3D/Mesh.h:101-104 | a face is added with its normal set at all four points; buffers that were already made stay as they are |
| MeshBuild.NormalIs | src/include/classes/3D/Face.h:82-94 | that normal is orthogonal to both edges, of length 1, and zero if and only if the first three points lie on a line |
| MeshBuild.NormalIsRightHanded | src/include/classes/3D/Face.h:82-94 | and it lies on the side of the vector product of the edges, written out in coordinates |
| MeshShapes.BuildMesh | src/include/classes/3D/Mesh.h:101-218 | for a mesh of triangles and quads in any order, made with the two constructors of a face: three indices for each triangle and six for each quad, which lead from the place of the shape on to (a, b, c), and for a quad on to (a, c, d): exactly in separate mode, by the key in connected mode; one vertex for each index or for each key |
| MeshShapes.CornersAre | src/include/classes/3D/Face.h:49-79 | the corner list of such faces, shape by shape and with its exact length |
| MatrixAlgebra.InverseTwoSided | src/include/classes/3D/Math.h:1503-1569 | adjugate over determinant is an inverse on both sides |
| MatrixAlgebra.DeterminantOfProduct | src/include/classes/3D/Math.h:1484-1498 | the determinant is multiplicative |
| MatrixAlgebra.InvertibleIff | src/include/classes/3D/Math.h:1503-1526 | a matrix has a right inverse if and only if its determinant is not zero, and then only this one |
| MatrixAlgebra.InverseOfTranspose | src/include/classes/3D/Math.h:1503-1569 | transposition keeps the determinant and commutes with inversion |
| MatrixAlgebra.ProductAssociative | src/include/classes/3D/Math.h:1654-1663 | multiplication is associative |
| MatrixRoutines.DXMatrixDeterminant | src/include/classes/3D/Math.h:1484-1498 | its shared two-by-two minors come to the determinant by cofactor expansion |
| MatrixRoutines.FirstRowCofactors | src/include/classes/3D/Math.h:1505-1519 | the first four entries of the work array are the cofactors of the first row |
| MatrixRoutines.SecondRowCofactors | src/include/classes/3D/Math.h:1529-1539 | four more entries are the cofactors of the second row |
| MatrixRoutines.ThirdRowCofactors | src/include/classes/3D/Math.h:1541-1551 | four more are those of the third row |
| MatrixRoutines.FourthRowCofactors | src/include/classes/3D/Math.h:1553-1565 | the last four are those of the fourth row |
| MatrixRoutines.DXMatrixInverse | src/include/classes/3D/Math.h:1503-1569 | the output is the inverse, or zeros when the determinant is zero, also when it is the input array; the determinant is stored only over a value that is not zero |
| MatrixRoutines.DXMatrixMultiply | src/include/classes/3D/Math.h:1654-1663 | the product, also when the output is one of the factors |
| MatrixRoutines.InvertAndMultiplyBack | src/include/classes/3D/Math.h:1484-1569 | inverting in place and multiplying the original by the result, on either side, gives the identity whenever `DXMatrixDeterminant` is not zero |
| Quaternions.NormOfProduct | src/include/classes/3D/Math.h:1126-1133 | the norm of a product is the product of the norms (four squares) |
| Quaternions.UnitProduct | src/include/classes/3D/Math.h:1126-1133 | products of unit quaternions are unit quaternions |
| Quaternions.ProductAssociates | src/include/classes/3D/Math.h:1126-1133 | the product is associative |
| Quaternions.DXQuaternionMultiply | src/include/classes/3D/Math.h:1126-1133 | the routine computes Hamilton's product with its arguments exchanged: first pq1, then pq2 |
| Quaternions.RotationTurns | src/include/classes/3D/Math.h:1936-1948 | for a unit quaternion a row vector times the matrix is q v q* |
| Quaternions.AxisTurns | src/include/classes/3D/Math.h:1936-1948 | which way: the quaternion with half an angle on the third axis takes the first axis towards the second by the whole angle, which is the first row of the stored matrix; so for the axes in a cycle |
| Quaternions.RotationOfProduct | src/include/classes/3D/Math.h:1936-1948 | the matrix of a product of unit quaternions is the product of the matrices |
| Quaternions.RotationIsOrthogonal | src/include/classes/3D/Math.h:1936-1948 | for a unit quaternion the matrix times its transpose is the identity |
| Quaternions.OrthogonalIff | src/include/classes/3D/Math.h:1936-1948 | and for no other quaternions but those with a zero vector part |
| Quaternions.RotationsEqualIff | src/include/classes/3D/Math.h:1936-1948 | two unit quaternions have one matrix if and only if they agree up to the sign |
| Quaternions.DXMatrixIdentity | src/include/classes/3D/Math.h:1335-1343 | the identity matrix |
| Quaternions.DXMatrixRotationQuaternion | src/include/classes/3D/Math.h:1936-1948 | the array receives the rotation matrix |
| RotationGroup.UnitRotates | src/include/classes/3D/Math.h:1936-1948 | the matrix of a unit quaternion is a rotation matrix: orthogonal, of determinant 1, and the identity in the last row |
| RotationGroup.ProductRotates | src/include/classes/3D/Math.h:1654-1663 | products of rotation matrices are rotation matrices |
| RotationGroup.RotatesIff | src/include/classes/3D/Math.h:1165-1205 | a matrix is a rotation matrix if and only if it is the matrix of some unit quaternion |
| RotationGroup.DXQuaternionRotationMatrix | src/include/classes/3D/Math.h:1165-1205 | from every rotation matrix it reads a unit quaternion with that matrix, on each of its four branches; from the matrix of a unit quaternion that quaternion up to its sign |
| SphericalHarmonics.DXSHRotateZ | src/include/classes/3D/Math.h:3181-3209 | for every order, clamped to 2..6, it fills exactly the first order^2 cells band by band with the rotated ones, order j by j times the angle, and leaves the others |
| SphericalHarmonics.CellHasBand | src/include/classes/3D/Math.h:3186-3208 | the bands written cover all order^2 cells |
| SphericalHarmonics.RotationTurnsFunction | src/include/classes/3D/Math.h:3181-3209 | what the rotation means: in every band l the cells stand for x[l^2+l] plus the sum over j of x[l^2+l+j] cos(j f) and x[l^2+l-j] sin(j f), and the rotated cells have at each azimuth f the value the original ones have at f - angle, given the addition formulas and that cosine is even and sine odd |
| SphericalHarmonics.RotateSeries | src/include/classes/3D/Math.h:3181-3209 | the same for the routine run on arrays, for every order, band and azimuth |
| SphericalHarmonics.DotPicks | src/include/classes/3D/Math.h:2330-2335 | the product with a single one is the cell at its place |
| SphericalHarmonics.DXSHDot | src/include/classes/3D/Math.h:2330-2335 | the sum of the products of the first order^2 cells, and of the first one alone for order 0 |
| SphericalHarmonics.DotKept | src/include/classes/3D/Math.h:3181-3209 | rotating two functions alike keeps their `DXSHDot` |
| SphericalHarmonics.RotatedTwice | src/include/classes/3D/Math.h:3181-3209 | a rotation after a rotation is the rotation by the combined cosines and sines |
| SphericalHarmonics.RotationsAdd | src/include/classes/3D/Math.h:3181-3209 | with the addition formulas, rotating by a and then by b is rotating by a + b |
| SphericalHarmonics.RotatedBack | src/include/classes/3D/Math.h:3181-3209 | the rotation with negated sines undoes the rotation |
| SphericalHarmonics.RotateThereAndBack | src/include/classes/3D/Math.h:3181-3209 | both of these for the two routines run on arrays |
| Escaping.UnescapeEscape | src/include/classes/SerializerConversions.h:58-99 | unescaping an escaped text gives the text back |
| Escaping.EscapeUnescape | src/include/classes/SerializerConversions.h:118-169 | escaping an unescaped text gives it back if and only if it was well escaped |
| Escaping.EscapeIsWellEscaped | src/include/classes/SerializerConversions.h:58-99 | every escaped text is well escaped |
| Escaping.EscapeInjective | src/include/classes/SerializerConversions.h:58-99 | different texts have different escaped forms |
| Escaping.NoRawControl | src/include/classes/SerializerConversions.h:66-92 | the escaped text contains no newline, carriage return or tab |
| Escaping.NothingBare | src/include/classes/SerializerConversions.h:66-92 | it contains no quote and no slash without a backslash in front |
| Escaping.QuotedTextIsDelimited | src/include/classes/SerializerConversions.h:58-99 | so the first bare quote after an escaped text is the closing one |
| Escaping.EscapeLength | src/include/classes/SerializerConversions.h:58-99 | the escaped text is at least as long and at most twice as long |
| Escaping.ValueToString | src/include/classes/SerializerConversions.h:58-99 | the escaping loop under its 16-bit index: quotes and escapes as asked |
| Escaping.UnescapeString | src/include/classes/SerializerConversions.h:118-169 | the unescaping loop under its 16-bit index |
| Escaping.WriteAndRead | src/include/classes/SerializerConversions.h:58-169 | the two loops one after the other give the text back when its escaped form has at most 65535 characters |
| JsonStrings.EscapedIsJson | src/include/classes/SerializerConversions.h:66-92 | read as a JSON string by section 7 of RFC 8259, each letter standing for its code point, an escaped text is the text itself, unless the text has a control character other than tab, line feed and carriage return: then it is no JSON string |
| JsonStrings.UnescapeReadsJson | src/include/classes/SerializerConversions.h:118-169 | unescaping a JSON string without \u escapes gives what it stands for if and only if it has no backspace and no form feed escape |
| CompositeKey.SplitMakeKey | src/include/classes/Util.h:95-160 | the key can be cut back into the non-empty components and the last one |
| CompositeKey.KeysEqualIff | src/include/classes/Util.h:95-160 | two keys are equal if and only if these components are, whatever the numbers of components |
| CompositeKey.MakeKeyInjective | src/include/classes/Util.h:95-160 | with no empty component before the last, different components have different keys |
| CompositeKey.PairsInjective | src/include/classes/Util.h:103-105 | the two-component form never collides |
| CompositeKey.TriplesCollide | src/include/classes/Util.h:111-114 | three components can: an empty one in front is invisible |
| CompositeKey.KeyExample | src/include/classes/Util.h:111-114 | the key of ("a", "b/c", "d"), character by character |
| RedisMessages.BulkStep | src/include/classes/Redis.struct.h:161-188 | one parsing step on a bulk string takes its data, line breaks included, and stops behind it |
| RedisMessages.BodyRoundTrip | src/include/classes/Redis.struct.h:161-206 | repeated steps over the body of a written message recover every item and stop at its end |
| RedisMessages.MessageRoundTrip | src/include/classes/Redis.struct.h:80-206 | in particular for the text of `ToString` with two or more items |
| RedisMessages.ReceivedFromArray | src/include/classes/Redis.struct.h:124-144 | what `FromString` does on such a text: it starts as many characters into the body as the count line is long |
| RedisMessages.AlignedReceives | src/include/classes/Redis.struct.h:120-144 | it returns all items when count and length of the first item have equally many digits and that item has no CRLF and no `$` or `:` in front |
| RedisMessages.FromStringExact | src/include/classes/Redis.struct.h:120-144 | and only then, for all messages on which it starts inside the first item (or right behind it when that is empty) and not on a `$` |
| RedisMessages.DollarCoincides | src/include/classes/Redis.struct.h:120-144 | a message outside that class that arrives by coincidence: its first item starts with `$` |
| RedisMessages.HundredEmptyItemsCoincide | src/include/classes/Redis.struct.h:120-144 | another: a hundred empty items, where it starts behind the first item |
| RedisMessages.SmallMessages | src/include/classes/Redis.struct.h:120-144 | with fewer than a hundred items it starts at most one character into the first item, so only a `$` there is outside the class; one character in exactly when there are ten items or more and the first has fewer than ten characters |
| RedisMessages.LongFirstItemIsLost | src/include/classes/Redis.struct.h:120-144 | a two-item message whose first item has ten characters or more and no `$` in front never arrives as written |
| RedisMessages.ManyItemsAreLost | src/include/classes/Redis.struct.h:120-144 | nor does a message of ten to ninety-nine items whose first has fewer than ten characters and no `$` in second place |
| RedisMessages.SingleItemExact | src/include/classes/Redis.struct.h:145-158 | a one-item message is read back if and only if it has no CRLF and no `$`, `:` or `*` in front |
| RedisMessages.PublishedMessageArrives | src/include/classes/Redis.struct.h:120-159 | every reply of the form ("message", channel, payload) is read correctly |
| RedisMessages.RedisMessage.PushItem | src/include/classes/Redis.struct.h:74-77 | appends one item |
| RedisMessages.RedisMessage.ToString | src/include/classes/Redis.struct.h:80-97 | the text written |
| RedisMessages.RedisMessage.SkipTillNewline | src/include/classes/Redis.struct.h:99-118 | the distance to the next CRLF or to the end |
| RedisMessages.RedisMessage.ParseItem | src/include/classes/Redis.struct.h:161-206 | one parsing step on any text and position; what it takes from a bulk string, an integer and a plain line, `BulkStep`, `NumberStep` and `SingleItemExact` say |
| RedisMessages.RedisMessage.FromString | src/include/classes/Redis.struct.h:120-159 | all fields afterwards, whether it ends or not, and exactly when it runs outside a text or array or never ends; `ReadConfirmation`, `ReadPush`, `ReadOne` and `ReadNothing` say what that comes to on replies |
| RedisReplies.NumberStep | src/include/classes/Redis.struct.h:184-192 | one parsing step on an integer, negative or not, takes it from behind its colon and stops behind its newline |
| RedisReplies.NullStep | src/include/classes/Redis.struct.h:161-183 | one step on a null bulk string takes all that follows as its data, and the next step starts one character into it |
| RedisReplies.RepliesAreRead | src/include/classes/Redis.struct.h:161-206 | repeated steps over any mixture of bulk strings and integers recover every element |
| RedisReplies.RepliesArrive | src/include/classes/Redis.struct.h:120-144 | `FromString` receives such an array element by element when its count and the length of its first element, a bulk string, have equally many digits and that element has no CRLF and no `$` or `:` in front |
| RedisReplies.ConfirmationArrives | src/include/classes/Redis.struct.h:120-206 | the confirmation of a subscription, for every channel and count, is received as exactly "subscribe", the channel and the count |
| RedisReplies.ReadConfirmation | src/include/classes/Redis.struct.h:120-158 | a new message object that reads it holds these items and no message |
| RedisReplies.ReadPush | src/include/classes/Redis.struct.h:120-158 | one that reads a pushed message holds command, channel and the text that was escaped, and never ends if the escaped text is too long for the 16-bit index |
| RedisReplies.ReadPushWithoutPayload | src/include/classes/Redis.struct.h:147-155 | a push without payload sets the channel and then reads outside the items |
| RedisReplies.ReadOne | src/include/classes/Redis.struct.h:140-158 | a reply of one element, bulk string or integer, is the message |
| RedisReplies.ReadNothing | src/include/classes/Redis.struct.h:120-158 | an empty text, a count without its newline, an empty array and a null array read outside the text or the items and leave no item |
| RedisReplies.GetCommand | src/include/classes/Redis.struct.h:80-97 | a written command, character by character |
| RedisText.IntegerExamples | src/include/classes/Redis.struct.h:174-174 | how the number in front of a bulk string is read: blanks, sign, digits |
| RedisText.DecimalRoundTrip | src/include/classes/Redis.struct.h:174-174 | the digits written for a length are read as that length |
| Bars.FromPrices | src/include/classes/Bar.struct.h:60-71 | the bar of a price list: first and last price, maximum and minimum |
| Bars.SummaryIsUnique | src/include/classes/Bar.struct.h:60-71 | the prices determine the bar |
| Bars.MirrorSummary | src/include/classes/Bar.struct.h:60-71 | mirrored prices make the mirrored bar |
| Bars.GetPivots | src/include/classes/Bar.struct.h:74-152 | the levels, and the verdict on their order in terms of the bar alone |
| Bars.MirrorPivots | src/include/classes/Bar.struct.h:74-152 | for every listed type, mirroring the bar exchanges R_k with S_k and keeps the order verdict |
| Bars.DescendingIff | src/include/classes/Bar.struct.h:74-152 | when each type's levels are in strict order, as a condition on the bar; never for Floor |
| Bars.WellFormedDescends | src/include/classes/Bar.struct.h:74-152 | for a bar with its body inside its range the other four types are in order if and only if the range is not empty |
| PivotLaws.LevelsFollowRule | src/include/classes/Bar.struct.h:74-152 | the levels are the only ones that follow the rule of their type, given by distances: the Camarilla levels 1, 2, 3 and 6 times 11/120 of the range around the close, the Fibonacci ones 0.382, 0.618, 1 and 1.382 of it around the pivot, the mirror images of low and high and the steps of a range for the others |
| PivotLaws.AveragesAre | src/include/classes/Bar.struct.h:175-193 | the pivot, the weighted price and the DeMark pivot as sums of prices, by the direction of the bar |
| PatternWords.SetBit | src/include/classes/Pattern.struct.h:149-157 | setting one flag says what it is told and leaves the other 31 bits |
| PatternWords.PatternCandle.SetNext | src/include/classes/Pattern.struct.h:410-413 | one turn of a constructor's loop |
| ThreeCandles.NewPatternCandle3 | src/include/classes/Pattern.struct.h:409-414 | each of the 32 bits is on exactly when its pattern shows; what that says of the prices `EveryBit` tells |
| ThreeCandleLaws.EveryBit | src/include/classes/Pattern.struct.h:418-513 | each of the 32 bits of the word, by its number, as a condition on the open, high, low and close prices: trends as orders over all pairs of candles, sizes and sums by distances of prices, wicks as what of a range is not body, peaks as the highest or lowest of all |
| ThreeCandleLaws.SteadyRise | src/include/classes/Pattern.struct.h:409-519 | candles that each lie a fixed amount above the one before: all increasing bits of prices and pivot are on and all decreasing ones off, those of body and range are both off, and the peak is on |
| ThreeCandleLaws.BitsImply | src/include/classes/Pattern.struct.h:409-519 | for all prices: a body of twice the sum is one of more than the sum, and so for the middle wicks; a rising high or a falling low is a peak; opposite bits exclude each other |
| ThreeCandleLaws.InsideIsNoPeak | src/include/classes/Pattern.struct.h:478-480 | a latest range inside one of the others is no peak |
| ThreeCandleLaws.BitsOfWellFormed | src/include/classes/Pattern.struct.h:409-519 | more such implications for candles whose bodies lie in their ranges |
| ThreeCandles.MirrorWord | src/include/classes/Pattern.struct.h:409-519 | mirroring the candles permutes the 32 bits of the word by an exchange that undoes itself: bears with bulls, rising highs with falling lows, and so on |
| FourCandles.CheckPattern | src/include/classes/Pattern.struct.h:533-686 | the bit read from a three-candle word is the condition itself |
| FourCandles.NewPatternCandle4 | src/include/classes/Pattern.struct.h:526-531 | each of the 32 bits is on exactly when its pattern shows |
| FourCandleLaws.EveryBit | src/include/classes/Pattern.struct.h:536-680 | each of the 32 bits, by its number, as a condition on prices and times: trends, sums and peaks as in the three-candle word, continuations, reversals, hammer and star by the ways the candles go and the prices they reach, gaps in time by stretches of two minutes |
| FourCandleLaws.SteadyRise | src/include/classes/Pattern.struct.h:526-686 | candles that each lie a fixed amount above the one before: all increasing bits of prices and pivot are on, all decreasing and all size trends off, not mixed, and at a peak |
| FourCandleLaws.ShapesExclude | src/include/classes/Pattern.struct.h:526-686 | at most one of the two runs, the two continuations and the two reversals is shown, and at most one of hammer and star |
| FourCandleLaws.MixedExcludes | src/include/classes/Pattern.struct.h:526-686 | and none of them where no two neighbours go the same way |
| FourCandleLaws.ShapesPeak | src/include/classes/Pattern.struct.h:526-686 | each continuation and reversal ends at a peak, for candles whose bodies lie in their ranges |
| FourCandles.MirrorUpperWicks | src/include/classes/Pattern.struct.h:677-680 | the exception: this bit becomes the opposite strict comparison |
| FourCandles.MirrorWord | src/include/classes/Pattern.struct.h:526-686 | mirroring permutes the other 31 bits |
| FiveCandles.NewPatternCandle5 | src/include/classes/Pattern.struct.h:692-697 | each of the 32 bits is on exactly when its pattern shows |
| FiveCandleLaws.EveryBit | src/include/classes/Pattern.struct.h:701-832 | each of the 32 bits, by its number, as a condition on the prices: outermost values, steps between neighbours, horns, and strike, hold and reversal by which candles go the same way |
| FiveCandleLaws.SteadyRise | src/include/classes/Pattern.struct.h:692-836 | candles that each lie a fixed amount above the one before: pivots increase and do not turn, the latest candle is at the top and the middle one at none |
| FiveCandleLaws.SteadyRiseIsPlain | src/include/classes/Pattern.struct.h:728-816 | and there is no horn up or down, and neither a strike, a hold nor a reversal |
| FiveCandleLaws.PivotBitsImply | src/include/classes/Pattern.struct.h:776-801 | a trend of the pivots brings a peak of the latest and excludes one of the middle and both turns; the two turns exclude each other |
| FiveCandleLaws.PeakBitsImply | src/include/classes/Pattern.struct.h:722-749 | the latest high or low at a peak excludes the middle one and a horn on that side |
| FiveCandleLaws.ShapeBitsImply | src/include/classes/Pattern.struct.h:736-816 | a strike and a hold end at an outermost close, a hold begins at an outermost open, and at most one of strike, hold and reversal is shown |
| FiveCandles.MirrorSignedBodies | src/include/classes/Pattern.struct.h:705-707 | the exception: bodies are compared with their signs |
| FiveCandles.MirrorWord | src/include/classes/Pattern.struct.h:692-836 | mirroring permutes the other 31 bits |
| BitwisePattern.PatternBitwise.GetBitDepth | src/include/classes/Pattern.struct.h:100-121 | the leading run of the bit, or how far back it was last on, negated, or 0, in 16 bits; exactly, also where a leading run overflows them |
| BitwisePattern.PatternBitwise.GetBitCount | src/include/classes/Pattern.struct.h:71-79 | the number of words after the first with the bit on, in 16 bits |
| BitwisePattern.PatternBitwise.GetBitDepthFloat | src/include/classes/Pattern.struct.h:88-88 | that depth over the size, between -1 and 1 for every history |
| BitwisePattern.PatternBitwise.Add | src/include/classes/Pattern.struct.h:44-48 | appends one word |
| BitwisePattern.DepthAgainstCount | src/include/classes/Pattern.struct.h:71-121 | depth zero if and only if the bit was never on; a positive depth d counts at least d - 1 words, a negative one between 1 and size + d |
| BitwisePattern.DepthAfterAdd | src/include/classes/Pattern.struct.h:44-121 | what one more word does to the depth |
| BitwisePattern.DepthIs | src/include/classes/Pattern.struct.h:100-121 | a depth of n > 0 if and only if the bit is on in just the first n words, of -n if and only if it is off in just the first n, of 0 if and only if it is never on |
| BitwisePattern.AlwaysOn | src/include/classes/Pattern.struct.h:100-121 | a bit that is always on counts the words up to 32767 and gives -32768 for every longer history |
| BitwisePattern.CountGrows | src/include/classes/Pattern.struct.h:71-79 | the latest word is not counted, each older one with the bit on is |
| TradeLimits.ClearedColumnsAre | src/include/classes/DateTime.mqh:90-119 | which columns two moments clear: each exactly when its unit or a longer one differs, the weekly one exactly when the weekdays differ; the threshold of an hour loses no flag |
| TradeLimits.ClearedRowNested | src/include/classes/Trade.struct.h:232-248 | such a reset keeps hour <= day <= month <= year <= total |
| TradeLimits.DayIsKept | src/include/classes/Trade.struct.h:209-248 | while the day lasts, columns that are due include no daily, monthly or yearly one, and all cells stay reset on that day |
| TradeLimits.TradeParams.HourlyLimitsVanish | src/include/classes/Trade.struct.h:108-119 | once the hour in which the first type's daily counter was last reset is over, a scan with hourly limits on the other types alone is false whatever their counters say; while the day lasts it leaves that daily cell as it is |
| TradeLimits.TradeParams.HourlyLimitsVanishAllDay | src/include/classes/Trade.struct.h:108-119 | and so is every scan for the rest of the day, after any sequence of orders |
| TradeLimits.FiveOrdersUnnoticed | src/include/classes/Trade.struct.h:108-119 | a program in which five orders in one hour do not reach a limit of one order an hour |
| TradeLimits.TradeStats.constructor | src/include/classes/Trade.struct.h:204-204 | all counters zero, and each cell has seen the clock once, row by row |
| TradeLimits.TradeStats.GetStartedPeriods | src/include/classes/DateTime.mqh:90-167 | one clock reading against what the cell saw last |
| TradeLimits.TradeStats.ResetPeriod | src/include/classes/Trade.struct.h:254-262 | a column becomes zero |
| TradeLimits.TradeStats.ResetFlagged | src/include/classes/Trade.struct.h:232-248 | the flagged columns become zero |
| TradeLimits.TradeStats.ResetAll | src/include/classes/Trade.struct.h:274-284 | all counters become zero |
| TradeLimits.TradeStats.GetOrderStats | src/include/classes/Trade.struct.h:209-223 | which columns one read clears, and the value read |
| TradeLimits.TradeStats.Add | src/include/classes/Trade.struct.h:226-230 | one row grows modulo 2^32; the nesting of the counters is kept while the total does not wrap |
| TradeLimits.TradeParams.IsLimitGe | src/include/classes/Trade.struct.h:108-119 | for any clock: true if and only if some limit is set and the counter as the scan leaves it is not below it, and then one was before; every counter is kept or zero, by whole columns, and exactly the cells of the zero columns saw the clock anew; only columns are cleared whose period is over, by some reading, for a moment that a cell held or the scan read before; once the clock is past the period q of the last reset of a longer period's cell of a type, no limit of period q is found for any later type; while the clock stands, it stops at the first limit that was reached and whose column no reading up to its own clears, and the cleared columns are exactly those up to there; the nesting is kept |
| TradePrograms.CountToLimit | src/include/classes/Trade.struct.h:97-119 | a program with one limit, of n orders of a type in a period, that adds orders of any types and scans after each: while the period lasts each scan answers whether n orders of the type have been added by then; for the total under every clock, and always false for n = 0 |
| TradePrograms.ColumnIsKept | src/include/classes/Trade.struct.h:209-248 | while all readings of the clock fall into one period, no scan clears its column |
| PriceStop.StrategyPriceStop.GetValue | src/include/classes/Strategy.struct.pricestop.h:67-104 | the stop is the base price moved by the trail, or 0 when the base is not positive |
| PivotLaws.BaseIsFurthest | src/include/classes/Strategy.struct.pricestop.h:67-95 | the base is the furthest, up or down by the direction, of the prices the method bits name: the initial value, for bit 2 the weighted price or with bit 3 the peak, for bit 4 the first pivot level of the four prices; all written out in prices |
| PivotLaws.StopLiesBeyond | src/include/classes/Strategy.struct.pricestop.h:96-102 | a positive base is moved by the distance, for bit 5 the step of the pivots and for bit 6 the earlier range |
| PriceStop.ReadPivotLevel | src/include/classes/Strategy.struct.pricestop.h:87-96 | the pivot level of the bar made of four prices |
| PriceStop.AddedMethods | src/include/classes/Strategy.struct.pricestop.h:67-104 | adding methods moves the base outwards and never shortens the trail |
| PriceStop.NeverLowered | src/include/classes/Strategy.struct.pricestop.h:67-104 | with direction > 0 adding methods never lowers the stop |
| PriceStop.RaisedIff | src/include/classes/Strategy.struct.pricestop.h:67-104 | with direction <= 0 adding methods raises the stop if and only if the base goes from positive and shorter than the trail to not positive |
| PriceStop.MirrorStop | src/include/classes/Strategy.struct.pricestop.h:67-104 | the stops of the two directions are mirror images: base and trail |
| IndicatorScan.IndicatorBase.AddEntry | src/include/classes/IndicatorBase.h:824-832 | a valid entry makes the shifts of its bar valid and no others |
| IndicatorScan.IndicatorBase.RunIs | src/include/classes/IndicatorBase.h:838-849 | the capped run of valid entries, characterised |
| IndicatorScan.IndicatorBase.GetLastValidEntryShift | src/include/classes/IndicatorBase.h:838-849 | the capped run for a period, nothing for a negative one; without a period the first gap |
| IndicatorScan.IndicatorBase.GetOldestValidEntryShift | src/include/classes/IndicatorBase.h:855-870 | the capped run from any start |
| IndicatorScan.IndicatorBase.HasAtLeastValidLastEntries | src/include/classes/IndicatorBase.h:876-881 | all of the given shifts are valid |
| IndicatorScan.IndicatorBase.SearchesAgree | src/include/classes/IndicatorBase.h:838-881 | the searches agree, and the check from shift 1 holds if and only if the run fills the period |
| IndicatorScan.IndicatorBase.CacheIsFinite | src/include/classes/IndicatorBase.h:997-1001 | with distinct bar times there is a gap within cache size + 1 shifts, so the search without a period ends |
| IndicatorScan.IndicatorBase.GetBarsCalculated | src/include/classes/IndicatorBase.h:1035-1059 | the scan resumed over many calls finds the first valid bar a full scan would |
| IndicatorScan.IndicatorBase.CountTwice | src/include/classes/IndicatorBase.h:1035-1059 | asked twice over the same bars it gives one count if and only if the first valid bar was found earlier, or is the oldest, or does not exist; otherwise the second count is larger by the number of invalid bars before it |
| OrderQueries.SumsAddUp | src/include/classes/OrderQuery.h:79-88 | over distinct values the conditional sums add up to the sum of the orders having one of them |
| OrderQueries.SumsCover | src/include/classes/OrderQuery.h:63-88 | over distinct values covering all orders they add up to the whole sum |
| OrderQueries.SumAppends | src/include/classes/OrderQuery.h:63-69 | the sum of one order is its property, and sums of lists add up |
| OrderQueries.PickedIs | src/include/classes/OrderQuery.h:98-111 | what such a scan ends on: earliest extreme for GT and LT, latest for GE and LE, the last equal to the first for EQ, the first for NA |
| OrderQueries.OrderQuery.CalcSumByProp | src/include/classes/OrderQuery.h:63-69 | the sum |
| OrderQueries.OrderQuery.CalcSumByPropWithCond | src/include/classes/OrderQuery.h:78-87 | the sum of the orders with the given value |
| OrderQueries.OrderQuery.FindByPropViaOp | src/include/classes/OrderQuery.h:97-110 | nothing for no orders, else the order such a scan ends on |
| OrderQueries.OrderQuery.FindByValueViaOp | src/include/classes/OrderQuery.h:120-133 | the first order that compares with the value, or nothing if and only if none does |
| OrderQueries.OrderQuery.FindPropBySum | src/include/classes/OrderQuery.h:148-160 | the value whose sum such a scan ends on; with GT the first of greatest sum |

## Left out

- FromStringExact: is not an equivalence for messages on which `FromString` starts behind the first item (from a hundred items on) or on a `$`; there the text can be read correctly by coincidence, as two lemmas show.
- RefsRuns.RunIsSafe: an assignment of a pointer to a freed object, or one that is not safe by `RefAssignmentIsSafeIff`, ends the runs it covers; what it does is stated for one call (`RefAssign`, `WeakAssign`).
- RefsMemory.Memory: objects on the stack (no counter), explicit `delete` of a counted object by the program, the code of user destructors, reuse of freed addresses, and 2^32 or more live references; a write through a slot whose memory is already free is taken as lost.
- Escaping.ValueToString: texts of 65536 or more characters are excluded, as the 16-bit index never reaches their end; numbers and other overloads are not modelled.
- RedisMessages: `Add(int)`, which puts the number with its colon into a bulk string, text encodings, and the network; the platform's text functions are written out as documented for in-range and out-of-range arguments.
- JsonStrings.UnescapeReadsJson: texts with \u escapes, which the routine leaves as they are.
- MeshBuild: devices and buffer objects, the debug text, and the width of the index type; `AddFace` returns the face it updated where the source changes the caller's.
- CompositeKey.MakeKey: uses the escaping without its 16-bit index, so keys of components with 65536 or more characters, on which the routine never returns, are given one here.
- MeshKey.PackInjective: the conversion of a float outside the 64-bit range to an integer.
- SphericalHarmonics.DXSHRotateZ: the same array as input and output, which the routine overwrites while it still reads it.
- MatrixRoutines, Quaternions, SphericalHarmonics: rounding; the square root, sine and cosine are parameters with their defining equations.
- Bars: the clock (a missing time stays 0 in the array constructor), applied prices, percentages and serialisation.
- PatternWords: the words for one, two and six to ten candles.
- TradeLimits: the overloads that reset or limit a whole type, calendar arithmetic (a clock is any sequence of readings), and the rest of the parameters.
- PriceStop: the chart; the two bars are parameters, and the price read at the shift is taken from the bar at that shift.
- IndicatorScan: how entries are computed; validity of a bar is taken as fixed while `GetBarsCalculated` is called repeatedly.
- OrderQuery: the dictionary of orders is the sequence its iterator yields.
- Rendering, charts, platform calls, enum tables, timeframe conversions, market hours and the serialisers: not part of this model.
