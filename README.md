# ProjectX core, modelled in Dafny

ProjectX is a small real-time renderer and game prototype. The host program,
written in C++ for Windows with Direct3D 10 and OpenCL, loads a world from
XML. It keeps the world, the camera and the textures in host arrays that are
uploaded to the GPU on demand. An OpenCL kernel ray-traces the scene.

This project models the host-side logic of that program in Dafny 4.11 and
proves properties of the model. Floating-point values are reals. `sin`,
`cos` and `sqrt` are function-valued parameters, and each lemma states what
it needs of them, such as a true square root or cos² + sin² = 1. GPU
buffers (`cl_mem`) are opaque handles. A new handle is supplied by the caller.

The model follows the source file by file:

- **Vector and matrix algebra** models `float3`, the 4×4 row-vector matrices
  and the kernel-side math.
  - Files: `float3.dfy`, `matrix_math.dfy`, `kernel_math.dfy`, `shared_math.dfy`.
  - The pure operators are functions.
  - The compound assignments and the in-place matrix routines are methods on
    small classes that hold the caller's variables.
- **Host↔GPU containers** hold host data and track whether the GPU copy is
  stale, meaning the host changed it since the last upload.
  - Files: `shared_array.dfy`, `legacy_shared_array.dfy`, `shared_object.dfy`,
    `shared_data_root.dfy`.
  - Each is a class over its `count`, buffer, handle and stale flag.
  - Each is proved against a `Contents()` view and a `Valid()` invariant.
- **Texture cache** (`texture_manager.dfy`, with `strings.dfy` for
  `stricmp`) has 16 slots and a case-insensitive lookup-or-load.
- **Data loading** covers the schema records and their defaults, the id
  search, and the XML loading rules over an abstract element tree.
  - Files: `data_schemas.dfy`, `schema_xml.dfy`.
  - The XML rules are the field precedence, arrays and the bool parser.
- **World building** covers `CWorld::Load` and the older `CDirectX::LoadWorld`.
  - Files: `world.dfy`, `legacy_directx.dfy`.
  - Both cover object-id numbering and material-index resolution.
  - `legacy_directx.dfy` also holds the key flags of `MsgProc`.
- **Graphics-device helpers** are `shrRoundUp`, the OpenCL build-option
  string, and the video-recording state.
  - Files: `round_up.dfy`, `directx.dfy`.
- **Entity-component-system layer** models the system numbers and flags, the
  component lists, system registration, entity creation, the input fan-out,
  the camera lookup and the creature-physics slide.
  - Files: `ecs_enums.dfy`, `ecs_components.dfy`, `ecs_systems.dfy`, `ecs.dfy`,
    `creature_physics.dfy`.
- **Game state** covers the input toggles, both camera classes, the player
  and the directory stripping of `GetAbsolutePath`.
  - Files: `input.dfy`, `camera.dfy`, `legacy_camera.dfy`, `player.dfy`, `os.dfy`.

## Model

| member | source | states |
|---|---|---|
| Float3.Vec3.With | Platform/float3.h:22-30 | writing component `i` through `operator[]` changes that component to the new value and leaves the other two as they were |
| Float3.Div | Platform/float3.h:73-80 | dividing by a non-zero divisor is undone by scaling by it: `Div(a, k) * k == a` |
| Float3.LengthSq | Platform/float3.h:117-120 | `lengthsq` is `dot(v, v)` and is never negative |
| Float3.Normalize | Platform/float3.h:127-130 | `normalize` scaled back by the length is the vector again, and a zero component stays zero |
| Float3.Plane | Platform/float3.h:149-157 | `plane` keeps the normal in x, y, z and puts `dot(normal, point)` in w |
| Float3.AddSubInverse | Platform/float3.h:39-63 | `-` undoes `+` in both orders, and `+` is commutative |
| Float3.DotSymmetric | Platform/float3.h:111-114 | `dot` is symmetric |
| Float3.DotBilinear | Platform/float3.h:111-114 | `dot` distributes over `+` and commutes with scaling, in either argument |
| Float3.CrossAntiSymmetric | Platform/float3.h:132-147 | swapping the factors of `cross` negates it |
| Float3.CrossOrthogonal | Platform/float3.h:132-147 | `cross(a, b)` is perpendicular to both `a` and `b` |
| Float3.LengthSqScale | Platform/float3.h:90-97 | scaling by `k` multiplies `lengthsq` by `k * k` |
| Float3.NormalizeIsUnit | Platform/float3.h:122-130 | with a true square root, a vector of non-zero length normalizes to squared length 1 |
| Float3.Float3Ref.AddAssign | Platform/float3.h:48-54 | `+=` leaves the sum in the receiver and returns a copy of it |
| Float3.Float3Ref.SubAssign | Platform/float3.h:65-71 | `-=` leaves the difference in the receiver and returns a copy of it |
| Float3.Float3Ref.ScaleAssign | Platform/float3.h:99-105 | `*=` leaves the scaled vector in the receiver and returns a copy of it |
| Float3.Float3Ref.DivAssign | Platform/float3.h:82-88 | `/=` by a non-zero divisor leaves the quotient in the receiver and returns a copy of it |
| Float3.Add | Platform/float3.h:39-46 | `operator+` has the zero vector as its neutral element, on either side |
| Float3.Sub | Platform/float3.h:56-63 | `operator-` gives the vector that, added to `b`, is `a` again |
| Float3.Scale | Platform/float3.h:90-97 | `operator*(float)` by 1 keeps the vector |
| Float3.Dot | Platform/float3.h:111-114 | `dot` against the zero vector, on either side, is 0 |
| Float3.Length | Platform/float3.h:122-125 | with a true square root, `length` is non-negative and its square is `lengthsq` |
| Float3.Cross | Platform/float3.h:132-147 | `cross` of a vector with itself is the zero vector |
| MatrixMath.Translation | Game/MatrixMath.h:66-92 | `MatrixTranslation` is affine, with identity X, Y, Z axes and the translation in W |
| MatrixMath.ScaleMatrix | Game/MatrixMath.h:95-121 | `MatrixScale` is affine, with `scale` on the diagonal of X, Y, Z and zero elsewhere |
| MatrixMath.TransformPoint | Game/MatrixMath.h:339-361 | `TransformPointByMatrix` is the vector transform plus the xyz of the W axis |
| MatrixMath.TransformByAxes | Game/MatrixMath.h:413-431 | `TransformPointOrVectorByMatrix` is `x*X + y*Y + z*Z` over three `float3` axes |
| MatrixMath.RowAsDots | Game/MatrixMath.h:460-479 | each component of an output axis of the product is the input axis combined with one column of B |
| MatrixMath.MulEntry | Game/MatrixMath.h:446-543 | entry (i, j) of the 12-argument product is the sum over k of A(i, k) * B(k, j) |
| MatrixMath.MulIdentity | Game/MatrixMath.h:38-63 | the `MatrixIdentity` axes are neutral on both sides of the product |
| MatrixMath.ColumnOfMul | Game/MatrixMath.h:446-543 | column j of A * B combines each axis of A with column j of B |
| MatrixMath.DotExchange | Game/MatrixMath.h:446-543 | the two ways of summing a row times A times a column agree |
| MatrixMath.WeightedColumnsAt | Game/MatrixMath.h:446-543 | the columns of A weighted by a vector's components give, at i, axis i of A combined with the vector |
| MatrixMath.RowTimesMul | Game/MatrixMath.h:446-543 | combining a row with A and then with B is combining it with A * B |
| MatrixMath.MulAssociative | Game/MatrixMath.h:446-543 | the product is associative |
| MatrixMath.MulAffine | Game/MatrixMath.h:446-543 | the product of two affine matrices is affine |
| MatrixMath.RowBlock | Game/MatrixMath.h:546-595 | for a row with zero w, the 3x3 combination is the xyz of the 4x4 one |
| MatrixMath.MulBlock | Game/MatrixMath.h:546-595 | when A's X, Y, Z axes have zero w, the 9-argument product is the upper-left block of the 12-argument one |
| MatrixMath.AxesIdentity | Game/MatrixMath.h:413-431 | the identity axes leave a vector unchanged, and the unit axes pick out the axes of a matrix |
| MatrixMath.Mul3Identity | Game/MatrixMath.h:546-595 | the identity axes are neutral on both sides of the 9-argument product |
| MatrixMath.PointAsRow | Game/MatrixMath.h:339-361 | the point transform is the product of the row (p, 1) with the matrix |
| MatrixMath.VectorAsRow | Game/MatrixMath.h:377-398 | the vector transform is the product of the row (v, 0) with the matrix; W is ignored |
| MatrixMath.TransformVectorLinear | Game/MatrixMath.h:377-398 | `TransformVectorByMatrix` is additive and homogeneous |
| MatrixMath.TransformPointDifference | Game/MatrixMath.h:339-398 | the difference of two transformed points is the transformed difference vector |
| MatrixMath.TransformIdentity | Game/MatrixMath.h:38-63 | the identity leaves points and vectors unchanged under all three transforms |
| MatrixMath.TransformByAxesIsVector | Game/MatrixMath.h:377-431 | the `float3`-axes transform on the X, Y, Z axes equals the vector transform |
| MatrixMath.TransformPointCompose | Game/MatrixMath.h:339-361 | transforming a point by A * B is transforming by A then by B, for affine A |
| MatrixMath.TransformVectorCompose | Game/MatrixMath.h:377-398 | transforming a vector by A * B is transforming by A then by B, when A's axes have zero w |
| MatrixMath.TranslationMoves | Game/MatrixMath.h:66-92 | a translation moves points by `t` and leaves vectors unchanged |
| MatrixMath.TranslationInverse | Game/MatrixMath.h:66-92 | translating by `t` and then by `-t`, in either order, is the identity |
| MatrixMath.ScaleMatrixScales | Game/MatrixMath.h:95-121 | the scale matrix scales points and vectors by `scale` |
| MatrixMath.RotationXInverse | Game/MatrixMath.h:124-150 | `MatrixRotationX(a)` times `MatrixRotationX(-a)` is the identity, given the trig facts at `a` |
| MatrixMath.RotationYInverse | Game/MatrixMath.h:173-199 | the same for `MatrixRotationY` |
| MatrixMath.RotationZInverse | Game/MatrixMath.h:222-248 | the same for `MatrixRotationZ` |
| MatrixMath.RotationsAffine | Game/MatrixMath.h:124-248 | the three elementary rotations are affine |
| MatrixMath.RotationUnrotation | Game/MatrixMath.h:271-336 | `MatrixRotation` times `MatrixUnrotation` with the same angles is the identity |
| MatrixMath.TransformPointInPlace | Game/MatrixMath.h:364-374 | the in-place overload leaves the transformed point in the caller's variable |
| MatrixMath.TransformVectorInPlace | Game/MatrixMath.h:401-410 | the in-place overload leaves the transformed vector in the caller's variable |
| MatrixMath.TransformByAxesInPlace | Game/MatrixMath.h:434-443 | the in-place overload leaves the transformed point or vector in the caller's variable |
| MatrixMath.Axes4.constructor | Game/MatrixMath.h:16-24 | the four axis variables hold the given matrix |
| MatrixMath.Axes4.Set | Game/MatrixMath.h:38-63 | the matrix builders overwrite all four axes with their result |
| MatrixMath.Axes4.MulInPlace | Game/MatrixMath.h:598-631 | the 8-argument product leaves A * B in A's axes, although A is overwritten |
| MatrixMath.Axes4.MakeRotation | Game/MatrixMath.h:271-291 | `MatrixRotation` leaves RotX * RotY * RotZ in the axes |
| MatrixMath.Axes4.MakeUnrotation | Game/MatrixMath.h:316-336 | `MatrixUnrotation` leaves Rot(-Z) * Rot(-Y) * Rot(-X) in the axes |
| MatrixMath.Axes3.constructor | Game/MatrixMath.h:27-33 | the three axis variables hold the given axes |
| MatrixMath.Axes3.Set | Game/MatrixMath.h:153-170 | the `float3` builders overwrite all three axes |
| MatrixMath.Axes3.MulInPlace | Game/MatrixMath.h:634-660 | the 6-argument product leaves A * B in A's axes |
| MatrixMath.Axes3.MakeRotation | Game/MatrixMath.h:294-313 | the `float3` `MatrixRotation` is the upper-left block of the four-axis rotation |
| MatrixMath.Mul | Game/MatrixMath.h:446-543 | each axis of the 12-argument product is the matching axis of A, taken as a row, times B |
| MatrixMath.RotationX | Game/MatrixMath.h:124-150 | `MatrixRotationX` keeps the identity's X axis and origin axis |
| MatrixMath.RotationY | Game/MatrixMath.h:173-199 | `MatrixRotationY` keeps the identity's Y axis and origin axis |
| MatrixMath.RotationZ | Game/MatrixMath.h:222-248 | `MatrixRotationZ` keeps the identity's Z axis and origin axis |
| MatrixMath.Rotation | Game/MatrixMath.h:271-291 | `MatrixRotation`, the product of the X, Y and Z rotations, is affine |
| MatrixMath.Unrotation | Game/MatrixMath.h:316-336 | `MatrixUnrotation`, the product of the -Z, -Y and -X rotations, is affine |
| MatrixMath.TransformVector | Game/MatrixMath.h:377-398 | `TransformVectorByMatrix` is `x*X + y*Y + z*Z` over the xyz of the axes, with W ignored |
| MatrixMath.Mul3 | Game/MatrixMath.h:546-595 | each axis of the 9-argument product is B's axes combined with the weights of A's matching axis: `x*X + y*Y + z*Z` |
| KernelMath.TransformPoint | KernelCode/KernelMath.h:13-35 | the kernel point transform is the vector transform plus the xyz of the W axis |
| KernelMath.TransformVector | KernelCode/KernelMath.h:37-58 | the kernel vector transform is `x*X + y*Y + z*Z` over the xyz of the three axes |
| KernelMath.SameAsHost | KernelCode/KernelMath.h:13-58 | on the same axes the kernel transforms agree with the host transforms of Game/MatrixMath.h |
| KernelMath.PointDifference | KernelCode/KernelMath.h:13-58 | the difference of two transformed points is the transformed difference vector |
| KernelMath.DotSubScale | KernelCode/KernelMath.h:60-63 | `dot(V - k*N, B) == dot(V, B) - k * dot(N, B)`, the step `reflect`'s properties rest on |
| KernelMath.ReflectFlipsNormal | KernelCode/KernelMath.h:60-63 | for a unit normal, `reflect` negates the component along the normal |
| KernelMath.ReflectKeepsLength | KernelCode/KernelMath.h:60-63 | for a unit normal, `reflect` keeps the squared length |
| KernelMath.ReflectInvolution | KernelCode/KernelMath.h:60-63 | for a unit normal, reflecting twice gives the vector back |
| KernelMath.Reflect | KernelCode/KernelMath.h:60-63 | `reflect` keeps a vector perpendicular to the normal, and any vector when the normal is zero |
| SharedMath.TransformPoint | KernelCode/Shared/SharedMath.h:13-35 | the shared point transform is the vector transform plus the xyz of the W axis |
| SharedMath.VectorAdditive | KernelCode/Shared/SharedMath.h:37-58 | the shared vector transform is additive |
| SharedMath.VectorHomogeneous | KernelCode/Shared/SharedMath.h:37-58 | the shared vector transform commutes with scaling |
| SharedMath.IdentityAxes | KernelCode/Shared/SharedMath.h:13-58 | the identity axes leave points and vectors unchanged |
| SharedMath.SameAsKernel | KernelCode/Shared/SharedMath.h:13-58 | the shared copies compute the same as the kernel's own transforms |
| SharedMath.TransformVector | KernelCode/Shared/SharedMath.h:37-58 | the shared vector transform has no W axis, so it maps the zero vector to zero |
| SharedArray.SharedArray.Contents | Platform/SharedArray.h:47-48 | the elements in use are exactly `Count()` many |
| SharedArray.SharedArray.constructor | Platform/SharedArray.h:20-28 | a new array has no elements, no storage, a null buffer and is stale |
| SharedArray.SharedArray.Release | Platform/SharedArray.h:35-45 | `Release` frees storage and buffer and returns to the constructed state |
| SharedArray.SharedArray.Count | Platform/SharedArray.h:48 | `Count` is the number of elements in use |
| SharedArray.SharedArray.Get | Platform/SharedArray.h:78-82 | reading needs an index below the count (the `Assert_`) and yields that element |
| SharedArray.SharedArray.Set | Platform/SharedArray.h:78-82 | a write through the returned reference changes that one element and does not mark the array stale |
| SharedArray.SharedArray.Resize | Platform/SharedArray.h:97-129 | `Resize` always marks stale and sets the count; within capacity nothing else changes; beyond it the storage has exactly `n` slots, the old elements are copied and the buffer is released |
| SharedArray.SharedArray.AddOne | Platform/SharedArray.h:84-89 | `AddOne` returns the old count as the new slot's index, grows the count by one and keeps the earlier elements |
| SharedArray.SharedArray.Clear | Platform/SharedArray.h:91-95 | `Clear` sets the count to 0 and marks stale, keeping storage and buffer |
| SharedArray.SharedArray.GetAndUpdateMem | Platform/SharedArray.h:50-76 | when stale: creates a buffer if there is none and storage exists, uploads the elements in use if a buffer exists, clears the flag; when not stale: changes nothing; returns the buffer |
| LegacySharedArray.LegacySharedArray.Contents | SharedArray.h:33-34 | the elements in use are exactly the count many |
| LegacySharedArray.LegacySharedArray.constructor | SharedArray.h:7-14 | a new array has no elements, no storage, a null buffer and is stale |
| LegacySharedArray.LegacySharedArray.Release | SharedArray.h:21-31 | `Release` frees storage and buffer and returns to the constructed state |
| LegacySharedArray.LegacySharedArray.Get | SharedArray.h:46-49 | reading an element in use yields that element |
| LegacySharedArray.LegacySharedArray.Set | SharedArray.h:46-49 | a write through the returned reference changes that one element only |
| LegacySharedArray.LegacySharedArray.Resize | SharedArray.h:63-101 | `Resize` marks stale and sets the count; beyond capacity the storage grows to `n` slots with the old elements copied and a new buffer replaces the old one |
| LegacySharedArray.LegacySharedArray.AddOne | SharedArray.h:51-56 | `AddOne` returns the old count as the new index and keeps the earlier elements; growing creates a new buffer |
| LegacySharedArray.LegacySharedArray.Clear | SharedArray.h:58-61 | `Clear` is `Resize(0)`: count 0, stale, storage and buffer kept |
| LegacySharedArray.LegacySharedArray.GetAndUpdateMem | SharedArray.h:36-44 | when stale, uploads the elements in use to an existing buffer and clears the flag; it never creates a buffer |
| SharedObject.SharedObject.constructor | Platform/SharedObject.h:22-26 | a new shared object has a null buffer and is stale |
| SharedObject.SharedObject.Release | Platform/SharedObject.h:33-39 | `Release` drops the buffer, marks stale and keeps the object |
| SharedObject.SharedObject.GetAndUpdateCLMem | Platform/SharedObject.h:41-64 | when stale, creates a buffer only if there is none, uploads the object and clears the flag; otherwise nothing changes; the returned buffer is never null and a held buffer is never replaced |
| SharedObject.SharedObject.GetObject | Platform/SharedObject.h:66 | `GetObject` returns the object and marks it stale, changing nothing else |
| SharedObject.SharedObject.Store | Platform/SharedObject.h:66 | a write through the reference `GetObject` returned replaces the object and leaves it stale |
| SharedObject.SharedObject.GetObjectConst | Platform/SharedObject.h:67 | `GetObjectConst` returns the object and changes nothing |
| SharedDataRoot.DataRoot.constructor | KernelCode/Shared/SSharedDataRoot.cpp:11 | the static root starts zeroed, with no buffer, stale |
| SharedDataRoot.DataRoot.Get | KernelCode/Shared/SSharedDataRoot.cpp:13-16 | `Get` returns the one static shared object |
| SharedDataRoot.DataRoot.Camera | KernelCode/Shared/SSharedDataRoot.cpp:18-21 | `Camera` returns the camera and marks the shared root stale, changing nothing else |
| SharedDataRoot.DataRoot.CameraConst | KernelCode/Shared/SSharedDataRoot.cpp:23-26 | `CameraConst` returns the camera through `GetObjectConst`, leaving the stale flag alone |
| SharedDataRoot.DataRoot.World | KernelCode/Shared/SSharedDataRoot.cpp:28-31 | `World` returns the world and marks the shared root stale |
| SharedDataRoot.DataRoot.WorldConst | KernelCode/Shared/SSharedDataRoot.cpp:33-36 | `WorldConst` returns the world without marking stale |
| SharedDataRoot.DataRoot.SetCamera | KernelCode/Shared/SSharedDataRoot.cpp:18-21 | assigning through the reference `Camera` returns replaces the camera only and leaves the root stale |
| SharedDataRoot.DataRoot.SetWorld | KernelCode/Shared/SSharedDataRoot.cpp:28-31 | assigning through the reference `World` returns replaces the world only and leaves the root stale |
| Strings.LowerChar | DataSchemas/DataSchemasXML.h:70-75 | `stricmp` maps exactly the ASCII capitals to lower case, 32 code points up, and leaves every other character alone |
| Strings.Lower | Platform/CTextureManager.cpp:17 | lowering keeps the length and lowers each position |
| Strings.LowerIdempotent | Platform/CTextureManager.cpp:17 | lowering twice is lowering once |
| Strings.IgnoreCaseEquivalence | Game/CWorld.cpp:84 | the `stricmp(a, b) == 0` relation is reflexive, symmetric and transitive |
| Strings.IgnoreCasePointwise | Game/CWorld.cpp:84 | two strings are equal ignoring case if and only if they have the same length and agree position by position after lowering |
| Strings.UpperMatches | DataSchemas/DataSchemasXML.h:70 | "TRUE" is equal to "true" ignoring case |
| Strings.FileNameMatches | Platform/CTextureManager.cpp:17 | "Stone.PNG" and "stone.png" name the same texture |
| Strings.LengthsDiffer | CDirectx.cpp:562 | strings of different lengths never match ignoring case |
| Strings.LowerIs | Platform/CTextureManager.cpp:17 | a string that lowers another position by position is its lowered form |
| Strings.EqualsIgnoreCase | Game/CWorld.cpp:84 | `stricmp(a, b) == 0` holds for equal strings and only for strings of equal length |
| TextureManager.ReleaseSlot | Platform/STexture2D.h:28-47 | `STexture2D::Release` nulls the view, texture and OpenCL handles and keeps the file name |
| TextureManager.FirstMatch | Platform/CTextureManager.cpp:15-19 | the search finds the first slot whose name is equal ignoring case, and `None` exactly when no slot matches |
| TextureManager.FindsOwnSlot | Platform/CTextureManager.cpp:15-19 | when loaded names are distinct, looking up slot i's name finds slot i |
| TextureManager.AppendNew | Platform/CTextureManager.cpp:23-28 | appending a name not yet loaded keeps the names distinct and makes it findable in the new slot |
| TextureManager.TextureManager.Loaded | Platform/CTextureManager.h:78-79 | the slots in use are the first `m_numTextures` of the table |
| TextureManager.TextureManager.constructor | Platform/CTextureManager.h:21-26 | a new manager has no textures and null 3D textures |
| TextureManager.TextureManager.Release | Platform/CTextureManager.h:33-45 | `Release` releases every one of the 16 slots, resets the count and the 3D texture, and leaves the OpenCL 3D handle as it was |
| TextureManager.TextureManager.GetCLTexture | Platform/CTextureManager.h:47-51 | the index must be below the count (the `Assert_`); the result is that slot's OpenCL image |
| TextureManager.TextureManager.GetCLTexture3d | Platform/CTextureManager.h:53-56 | returns the OpenCL 3D texture |
| TextureManager.TextureManager.NumTextures | Platform/CTextureManager.h:58 | the count of loaded textures, at most 16 |
| TextureManager.TextureManager.FindLoaded | Platform/CTextureManager.cpp:15-19 | the search loop returns the first loaded slot whose name matches ignoring case |
| TextureManager.TextureManager.GetOrLoad | Platform/CTextureManager.cpp:13-31 | a loaded name gives its slot + 1 and changes nothing; otherwise a free slot is required, and a successful load fills the next slot and returns the new count while a failed one returns 0, keeps the names and the count, and changes only the free slot's texture and OpenCL handles, to whatever `LoadTexture` left in them |
| TextureManager.FirstMatchIs | Platform/CTextureManager.cpp:15-19 | a matching slot with no earlier match is the first match |
| DataSchemas.Vec3SetDefault | DataSchemas/DataSchemas.h:19-23 | `SData_Vec3::SetDefault` sets x, y and z to 0 |
| DataSchemas.PointLightSetDefault | DataSchemas/DataSchemasStructs.cpp:14 | each `Field_Schema` of a point light runs the nested `SetDefault` |
| DataSchemas.MaterialSetDefault | DataSchemas/DataSchemas.h:30-40 | a material defaults to empty id and texture, zero colours, specular power and refraction index 1, reflection and refraction amounts 0 |
| DataSchemas.BoxSetDefault | DataSchemas/DataSchemas.h:42-47 | a box defaults to zero position and scale, empty material and casting shadows |
| DataSchemas.SphereSetDefault | DataSchemas/DataSchemas.h:49-54 | a sphere defaults to zero position, radius 1, empty material and casting shadows |
| DataSchemas.WorldSetDefault | DataSchemas/DataSchemasStructs.cpp:11-15 | a world defaults to zero start point, facing and ambient light, and every `Field_Schema_Array` is emptied |
| DataSchemas.SetDefaultIsConstant | DataSchemas/DataSchemasStructs.h:37-38 | `SetDefault` overwrites every field: its result does not depend on the prior value, equals what the constructor leaves, and is idempotent |
| DataSchemas.FirstWithId | DataSchemas/DataSchemasStructs.h:26-30 | the search finds the least index whose id equals the given one exactly, and `None` exactly when there is none |
| DataSchemas.EntryByIdResult | DataSchemas/DataSchemasStructs.h:21-33 | `GetEntryById` returns the default or an index with that id; a present non-empty id gives the first such index |
| DataSchemas.GetEntryById | DataSchemas/DataSchemasStructs.h:21-33 | a null or empty id returns the default without searching; otherwise the first exact match, or the default |
| DataSchemas.GetEntryByIdString | DataSchemas/DataSchemasStructs.h:15-19 | the `std::string` overload is the C-string overload on a non-null `c_str()` |
| DataSchemas.FirstWithIdIs | DataSchemas/DataSchemasStructs.h:26-30 | an entry with the id and no earlier entry with it is the one the search finds |
| SchemaXml.FindAttribute | DataSchemas/DataSchemasXML.h:129 | `FindAttribute` finds a value exactly when an attribute of that name exists |
| SchemaXml.FindIn | DataSchemas/DataSchemasXML.h:172 | the attribute search over a list finds a value exactly when the name occurs |
| SchemaXml.ChildrenNamed | DataSchemas/DataSchemasXML.h:212-222 | the children visited by `FirstChildElement(name)` then `NextSiblingElement(name)` all have that name and come from the element's children |
| SchemaXml.FirstChild | DataSchemas/DataSchemasXML.h:182 | `FirstChildElement(name)` is null exactly when no child has that name, and otherwise the first such child |
| SchemaXml.FromStringUnhandled | DataSchemas/DataSchemasXML.h:49-54 | the unspecialised `LoadFromString` always fails and leaves the data |
| SchemaXml.FromStringString | DataSchemas/DataSchemasXML.h:92-97 | `LoadFromString<std::string>` always succeeds with a copy of the text |
| SchemaXml.SkipSpace | DataSchemas/DataSchemasXML.h:82 | the white space `%i` skips: what is left does not start with white space |
| SchemaXml.DigitRun | DataSchemas/DataSchemasXML.h:82 | the digit run `%i` reads: every character in it is a digit and the next one is not |
| SchemaXml.FromStringBool | DataSchemas/DataSchemasXML.h:67-90 | `LoadFromString<bool>` that fails leaves `data` unchanged |
| SchemaXml.Decimal | DataSchemas/DataSchemasXML.h:82 | the decimal spelling of a number is a non-empty run of digits |
| SchemaXml.DecimalValue | DataSchemas/DataSchemasXML.h:82 | the digits of the decimal spelling of `n` have the value `n` |
| SchemaXml.DigitRunOf | DataSchemas/DataSchemasXML.h:82 | the digit run of digits followed by a non-digit is exactly those digits |
| SchemaXml.SkipNoSpace | DataSchemas/DataSchemasXML.h:82 | text that does not start with white space is not skipped |
| SchemaXml.ScanUnsigned | DataSchemas/DataSchemasXML.h:82 | text starting with a digit is read as its digit run |
| SchemaXml.ScanWithSign | DataSchemas/DataSchemasXML.h:82 | a leading `-` negates the digit run that follows and a `+` keeps it |
| SchemaXml.ScanDigitString | DataSchemas/DataSchemasXML.h:82 | digits followed by non-digit text are read as the value of the digits |
| SchemaXml.ScanDecimal | DataSchemas/DataSchemasXML.h:82 | `%i` reads back a decimal number, with no sign, `-` or `+`, whatever non-digit text follows, with `%i` read as decimal (see Left out: its hexadecimal and octal forms are not modelled) |
| SchemaXml.ScanSignedDecimal | DataSchemas/DataSchemasXML.h:82 | `%i` reads back a signed decimal number followed by non-digit text |
| SchemaXml.BoolFromNumber | DataSchemas/DataSchemasXML.h:81-86 | a decimal number loads as a bool if and only if it is 0 or 1, and 1 gives true |
| SchemaXml.BoolWords | DataSchemas/DataSchemasXML.h:70-79 | "true" and "false" in any letter case load as true and false |
| SchemaXml.BoolExamples | DataSchemas/DataSchemasXML.h:70-79 | "TRUE" loads as true and "False" as false |
| SchemaXml.NotBoolExample | DataSchemas/DataSchemasXML.h:81-89 | "yes" fails to load as a bool and leaves the data |
| SchemaXml.LoadValue | DataSchemas/DataSchemasXML.h:120-142 | the generic `Load`: no node fails, a "Value" attribute is parsed, and otherwise it fails; failure leaves the data |
| SchemaXml.FieldRule | DataSchemas/DataSchemasXML.h:170-187 | a `Field`: an attribute of that name wins; else the first child of that name is loaded; with neither the field is untouched and loading goes on |
| SchemaXml.FieldSchemaRule | DataSchemas/DataSchemasXML.h:188-209 | a `Field_Schema`: a non-null default is parsed first and a failure stops; then the field rule applies to what it produced |
| SchemaXml.ArrayItems | DataSchemas/DataSchemasXML.h:210-224 | the array loop appends one freshly constructed, loaded item per child in order; the first failure stops with the items already appended kept, and it succeeds exactly when every child loaded |
| SchemaXml.ArrayRule | DataSchemas/DataSchemasXML.h:210-224 | a `Field_Schema_Array` runs the array loop over the children of that name |
| SchemaXml.LoadFromFile | DataSchemas/DataSchemasXML.h:233-248 | a file that does not load, or has no top-level element of that name, fails with the data untouched; otherwise it is `Load` on that element |
| SchemaXml.EmptyElementKeepsFields | DataSchemas/DataSchemasXML.h:145-224 | an element with no attributes and no children loads as a box, sphere or material and keeps every field |
| SchemaXml.ValueAttributeAlone | DataSchemas/DataSchemasXML.h:157-166 | a "Value" attribute is all a schema element reads: a `Vec3` parses it, and the schemas with no text form fail |
| SchemaXml.AttributeBeatsChild | DataSchemas/DataSchemasXML.h:170-187 | a Material attribute on a box wins over any Material child |
| SchemaXml.WorldBoxesInOrder | DataSchemas/DataSchemasXML.h:210-224 | after a successful world load the boxes are the old ones followed by one defaulted, loaded item per Box child, in document order |
| SchemaXml.ScanInt | DataSchemas/DataSchemasXML.h:82 | `%i` fails on blank text and reads a non-negative number when the text, after white space, starts with a digit |
| SchemaXml.LoadVec3 | DataSchemas/DataSchemasXML.h:120-142 | no node fails and keeps the data; a "Value" attribute is parsed by the Vec3 parser and nothing else is read |
| SchemaXml.LoadPointLight | DataSchemas/DataSchemasXML.h:145-166 | no node fails and keeps the data; a "Value" attribute fails and keeps it, since the record has no text form |
| SchemaXml.LoadMaterial | DataSchemas/DataSchemasXML.h:145-166 | no node fails and keeps the data; a "Value" attribute fails and keeps it |
| SchemaXml.LoadBox | DataSchemas/DataSchemasXML.h:145-166 | no node fails and keeps the data; a "Value" attribute fails and keeps it |
| SchemaXml.LoadSphere | DataSchemas/DataSchemasXML.h:145-166 | no node fails and keeps the data; a "Value" attribute fails and keeps it |
| SchemaXml.LoadWorld | DataSchemas/DataSchemasXML.h:145-166 | no node fails and keeps the data; a "Value" attribute fails and keeps it |
| SchemaXml.FloatField | DataSchemas/DataSchemasXML.h:170-187 | a `float` field parses an attribute of its name with the float parser; with no attribute and no child of that name it keeps the data and succeeds |
| SchemaXml.StringField | DataSchemas/DataSchemasXML.h:170-187 | a `std::string` field takes an attribute of its name as it is and succeeds; with no attribute and no child it keeps the data and succeeds |
| SchemaXml.BoolField | DataSchemas/DataSchemasXML.h:170-187 | a `bool` field reads an attribute of its name with `LoadFromString<bool>`; with no attribute and no child it keeps the data and succeeds |
| SchemaXml.Vec3Field | DataSchemas/DataSchemasXML.h:188-209 | a `Vec3` schema field parses an attribute of its name, else loads the first child of that name as a Vec3 element, else keeps the data and succeeds |
| World.Copy3 | Game/CWorld.cpp:14-19 | the three components are copied |
| World.Copy4 | Game/CWorld.cpp:22-28 | the three components are copied and `w` becomes component 3 |
| World.FirstMaterial | Game/CWorld.cpp:82-89 | the material search finds the first material whose id equals the name ignoring case, and finds nothing only when no id matches |
| World.BoxesOf | Game/CWorld.cpp:72-90 | one box per source box, in order, with ids 1, 2, … |
| World.SpheresOf | Game/CWorld.cpp:93-110 | one sphere per source sphere, in order, with ids continuing after the last box |
| World.LightsOf | Game/CWorld.cpp:50-55 | one point light per source light, in order, position and colour copied |
| World.MaterialsOf | Game/CWorld.cpp:58-67 | one material per source material, in order, colours with their amounts |
| World.ObjectIdsDistinct | Game/CWorld.cpp:69-96 | no object gets `c_invalidObjectId` and no two boxes, spheres or a box and a sphere share an id |
| World.MaterialIndexMeaning | Game/CWorld.cpp:81-89 | the material index is the first case-insensitive match, and 0 when nothing matches |
| World.MaterialIndicesInRange | Game/CWorld.cpp:81-89 | with at least one material every box and sphere names an existing material |
| World.World.constructor | Game/CWorld.h:20-38 | a new world has zero ambient light and four empty arrays |
| World.World.Load | Game/CWorld.cpp:31-113 | the world is cleared first; it succeeds exactly when the world file loads, and then the ambient light is copied and each array holds exactly the records built from the file |
| World.World.LoadLightsAndMaterials | Game/CWorld.cpp:49-67 | the point-light and material arrays hold the records built from the file |
| World.World.LoadObjects | Game/CWorld.cpp:69-110 | the box and sphere arrays hold the records built from the file |
| World.LoadLights | Game/CWorld.cpp:50-55 | after the resize and the fill loop the array holds the lights of the file |
| World.FillLights | Game/CWorld.cpp:51-55 | the fill loop writes the light built from each source light at its index |
| World.LoadMaterials | Game/CWorld.cpp:58-67 | after the resize and the fill loop the array holds the materials of the file |
| World.FillMaterials | Game/CWorld.cpp:59-67 | the fill loop writes the material built from each source material at its index |
| World.LoadBoxes | Game/CWorld.cpp:72-90 | after the resize and the fill loop the array holds the boxes of the file |
| World.FillBoxes | Game/CWorld.cpp:69-90 | the box loop, with `nextObjectId` counting from 1, writes each box with its id and material index |
| World.LoadSpheres | Game/CWorld.cpp:93-110 | after the resize and the fill loop the array holds the spheres of the file |
| World.FillSpheres | Game/CWorld.cpp:94-110 | the sphere loop, with `nextObjectId` continuing past the boxes, writes each sphere with its id and material index |
| World.FindMaterial | Game/CWorld.cpp:81-89 | the inner loop returns the first case-insensitive match, or 0 |
| World.MaterialIndex | Game/CWorld.cpp:81-89 | the index is 0 or a material's position; every material before it differs from the name ignoring case, and a non-zero index matches it |
| World.MaterialIndexIs | Game/CWorld.cpp:82-89 | a material matching the name ignoring case, with no earlier match, is the first match |
| World.LightOf | Game/CWorld.cpp:51-55 | a point light's colour and position are copied component by component |
| World.MaterialOf | Game/CWorld.cpp:59-67 | the diffuse and specular colours are copied with their amounts in component 3, the emissive colour is copied, and so are the reflection amount, refraction amount and refraction index |
| World.BoxOf | Game/CWorld.cpp:73-90 | a box gets the given object id, its position, scale and shadow flag, and material 0 or a material whose id matches its name ignoring case |
| World.SphereOf | Game/CWorld.cpp:94-110 | a sphere gets the given object id, its position with the radius in component 3, its shadow flag, and material 0 or a material whose id matches its name ignoring case |
| RoundUp.CRem | Platform/CDirectx.cpp:33 | C's `%` on `int`: equal to the Euclidean remainder for a non-negative dividend and a positive divisor, never positive for a negative dividend |
| RoundUp.ToSizeT | Platform/CDirectx.cpp:31-40 | the `size_t` result is below 2^64 and keeps every value that fits |
| RoundUp.RoundsUpToMultiple | Platform/CDirectx.cpp:31-41 | for a positive group size and a size that fits, `shrRoundUp` is a multiple of the group size, not below the size and less than one group above it, and no smaller such multiple exists |
| RoundUp.UnchangedWhenDivisible | Platform/CDirectx.cpp:33-36 | the size comes back unchanged if and only if the group size divides it |
| RoundUp.RoundUpExamples | CDirectx.cpp:38-48 | with a group of 16: 800 stays 800, 801 becomes 816, 0 stays 0 |
| RoundUp.ShrRoundUp | Platform/CDirectx.cpp:31-41 | the `size_t` result is below 2^64, and a size that fits and is a multiple of the group comes back unchanged |
| DirectX.GraphicsFlags.AsSeq | Platform/CDirectx.cpp:598-607 | the five settings flags, one per define name, in the order they are appended |
| DirectX.FlagText | Platform/CDirectx.cpp:599 | `flag ? "1" : "0"` is one character, '1' exactly when the flag is set and '0' exactly when it is not |
| DirectX.ReadDefines | Platform/CDirectx.cpp:598-607 | reading the defines back yields one flag per define name |
| DirectX.ReadLastDefine | Platform/CDirectx.cpp:598-607 | after defines that read back as some flags, one more name and digit read back as those flags and one more |
| DirectX.DefinesRoundTrip | Platform/CDirectx.cpp:598-607 | the appended defines read back as exactly the flags they were made from |
| DirectX.DefinesLength | Platform/CDirectx.cpp:598-607 | the defines have the same length whatever the flags |
| DirectX.MakeBuildOptions | Platform/CDirectx.cpp:596-607 | the successive appends give the prefix followed by the five defines of the settings |
| DirectX.FiveAppends | Platform/CDirectx.cpp:597-607 | five define-and-flag appends after a prefix are the prefix followed by the defines |
| DirectX.BuildOptionsRoundTrip | Platform/CDirectx.cpp:596-607 | the option string starts with the fixed prefix and reads back as exactly the settings it was built from, so different settings give different strings |
| DirectX.BuildOptionsLength | Platform/CDirectx.cpp:596-607 | the option string has the same length whatever the settings |
| DirectX.UpTo | Platform/CDirectx.cpp:315-331 | the video indices 1..n the search has passed, a set of n members |
| DirectX.HoldsRange | Platform/CDirectx.cpp:316-331 | a set holding 1..n has at least n members, so the search for a free video index ends |
| DirectX.Recorder.constructor | Platform/CDirectx.cpp:94-95 | a new device is not recording and is at frame 0 |
| DirectX.Recorder.ToggleRecording | Platform/CDirectx.cpp:292-331 | the recording flag flips; starting resets the frame number; stopping keeps it and picks the smallest index from 1 up whose video file does not exist |
| DirectX.Recorder.DrawScene | Platform/CDirectx.cpp:351-363 | the frame number grows by one exactly while recording, and the flag stays |
| DirectX.Defines | Platform/CDirectx.cpp:598-607 | the defines are at least one character per flag and end in the last flag's digit |
| DirectX.ReadBuildOptions | Platform/CDirectx.cpp:596-607 | only a string that starts with the fixed option prefix is read back as build options |
| DirectX.BuildOptions | Platform/CDirectx.cpp:596-607 | the option string starts with the fixed prefix and is at least as long as the prefix and one character per define name |
| DirectX.AppendDefine | Platform/CDirectx.cpp:598-607 | one `+=` of a define name and its digit extends the prefix and the first k defines to the first k + 1 |
| LegacyDirectX.SetXyz | CDirectx.cpp:591 | writing `s[0]`..`s[2]` of a `cl_float4` sets those three and keeps `s[3]` |
| LegacyDirectX.SetW | CDirectx.cpp:593 | writing `s[3]` of a `cl_float4` keeps the other three |
| LegacyDirectX.MaterialLookup | CDirectx.cpp:558-568 | the search finds the first recorded material id equal to the value ignoring case, and nothing only when no id matches |
| LegacyDirectX.FindMaterialIndex | CDirectx.cpp:560-567 | the loop with its `break` returns exactly that first match |
| LegacyDirectX.LookupIsFirst | CDirectx.cpp:560-567 | a first match, or no match at all, is the lookup's result |
| LegacyDirectX.IndexUnwritten | CDirectx.cpp:558-568 | when no `Material` attribute names a recorded id, the material index keeps the slot's value |
| LegacyDirectX.IndexFound | CDirectx.cpp:558-568 | a written material index is the first match of some `Material` attribute, so it names a recorded material |
| LegacyDirectX.MaterialNameIsLastId | CDirectx.cpp:511-518 | a material's recorded id is "" without an `id` attribute and otherwise the value of the last one |
| LegacyDirectX.BoxAttributesFields | CDirectx.cpp:551-573 | no attribute changes a box's object id, and its material index is the one the `Material` attributes choose |
| LegacyDirectX.SphereAttributesFields | CDirectx.cpp:587-609 | no attribute changes a sphere's object id, and its material index is the one the `Material` attributes choose |
| LegacyDirectX.MaterialIds | CDirectx.cpp:505-541 | one recorded id per `Material` element |
| LegacyDirectX.LoadLightAttributes | CDirectx.cpp:490-499 | the attribute loop rewrites only slot `i`, with `Color` and `Position` read in document order |
| LegacyDirectX.LoadMaterialAttributes | CDirectx.cpp:514-537 | the attribute loop rewrites only slot `i`, with each named field read in document order, and returns the recorded id |
| LegacyDirectX.LoadBoxAttributes | CDirectx.cpp:551-573 | the attribute loop rewrites only slot `i`: position, scale, material index and shadow flag, the flag being the low byte of the `%u` scan |
| LegacyDirectX.LoadSphereAttributes | CDirectx.cpp:587-609 | the attribute loop rewrites only slot `i`: position, radius, material index and shadow flag, the flag being the low byte of the `%u` scan |
| LegacyDirectX.AddLight | CDirectx.cpp:488-499 | `AddOne` then the attributes: one more light, earlier ones kept, the new one the slot's old value with the attributes written over it |
| LegacyDirectX.AddMaterial | CDirectx.cpp:510-537 | `AddOne` then the attributes: one more material, earlier ones kept, and its recorded id |
| LegacyDirectX.AddBox | CDirectx.cpp:548-573 | `AddOne`, the object id, then the attributes: one more box, earlier ones kept |
| LegacyDirectX.AddSphere | CDirectx.cpp:584-609 | `AddOne`, the object id, then the attributes: one more sphere, earlier ones kept |
| LegacyDirectX.LoadLights | CDirectx.cpp:484-503 | one light per `PointLight` element, in document order |
| LegacyDirectX.LoadMaterials | CDirectx.cpp:506-541 | one material and one recorded id per `Material` element, in document order |
| LegacyDirectX.LoadBoxes | CDirectx.cpp:544-577 | one box per `Box` element, numbered by the pre-incremented `nextObjectId` |
| LegacyDirectX.LoadSpheres | CDirectx.cpp:580-613 | one sphere per `Sphere` element, numbered on from the boxes |
| LegacyDirectX.Scene.constructor | CDirectx.cpp:446-453 | the scene starts with zero ambient light and four empty arrays |
| LegacyDirectX.Scene.LoadWorld | CDirectx.cpp:444-614 | everything is cleared; a file that does not load or has no `World` element leaves it cleared; otherwise the ambient light and the four arrays are loaded from the `World` element |
| LegacyDirectX.Scene.LoadAmbient | CDirectx.cpp:467-481 | the ambient light is zero, with the `Color` attributes of the first `AmbientLight` element read over it in order |
| LegacyDirectX.Scene.LoadElements | CDirectx.cpp:483-613 | the four element loops fill the cleared arrays and keep the ambient light |
| LegacyDirectX.Scene.LoadLightsAndMaterials | CDirectx.cpp:483-541 | the point lights and materials are loaded and the material ids recorded |
| LegacyDirectX.Scene.LoadObjects | CDirectx.cpp:543-613 | the boxes and spheres are loaded, sharing one object counter |
| LegacyDirectX.Scene.LoadedObjects | CDirectx.cpp:457-613 | boxes get ids 2, 3, … and spheres continue after the last box; each material index is the one the `Material` attributes chose, or the slot's own |
| LegacyDirectX.KeyFlags.constructor | CDirectx.cpp:902-937 | no key starts down |
| LegacyDirectX.KeyFlags.IsDown | CDirectx.cpp:902-937 | only W, A, S, D and the four arrow keys have a flag |
| LegacyDirectX.KeyFlags.SetKey | CDirectx.cpp:904-914 | the switch sets a tracked key's flag and no other; an untracked key changes nothing |
| LegacyDirectX.KeyFlags.KeyDown | CDirectx.cpp:917-937 | Escape quits and changes no flag; a tracked key is then down; no other flag changes |
| LegacyDirectX.KeyFlags.KeyUp | CDirectx.cpp:902-916 | the key is not down afterwards and no other flag changes |
| LegacyDirectX.LowByte | CDirectx.cpp:570-571 | the `cl_uchar` shadow flag keeps the scanned value modulo 256: a byte, equal to the value when it fits |
| LegacyDirectX.IndexStep | CDirectx.cpp:558-568 | one attribute either leaves the material index or, as a `Material` attribute, sets it to the lookup's match |
| LegacyDirectX.LightStep | CDirectx.cpp:493-496 | an attribute other than `Color` and `Position` changes nothing; `Color` keeps the position and `Position` keeps the colour |
| LegacyDirectX.LightAttributes | CDirectx.cpp:490-499 | attributes none of which a light reads leave the light unchanged |
| LegacyDirectX.MaterialStep | CDirectx.cpp:519-534 | an attribute other than the eight material field names changes nothing (an `id` goes to the recorded name instead) |
| LegacyDirectX.MaterialAttributes | CDirectx.cpp:514-537 | attributes none of which a material reads leave the material unchanged |
| LegacyDirectX.MaterialName | CDirectx.cpp:511-518 | the recorded id is "" or the value of some `id` attribute |
| LegacyDirectX.BoxStep | CDirectx.cpp:554-571 | one attribute keeps the object id and a byte shadow flag, and an unread name changes nothing |
| LegacyDirectX.BoxAttributes | CDirectx.cpp:551-573 | the attribute loop keeps a byte shadow flag a byte |
| LegacyDirectX.SphereStep | CDirectx.cpp:590-607 | one attribute keeps the object id and a byte shadow flag, and an unread name changes nothing |
| LegacyDirectX.SphereAttributes | CDirectx.cpp:587-609 | the attribute loop keeps a byte shadow flag a byte |
| LegacyDirectX.AmbientAttributes | CDirectx.cpp:472-479 | without a `Color` attribute the ambient light is unchanged |
| LegacyDirectX.WorldElement | CDirectx.cpp:460-465 | no document gives no world; a document gives one exactly when it has a `World` child, and it is named `World` |
| LegacyDirectX.AmbientOf | CDirectx.cpp:467-481 | the ambient light is black when there is no `AmbientLight` child or when its attributes name no `Color` |
| EcsEnums.SystemNumber | ECS/ECSEnums.h:13-21 | a system's number is its position in the system list, and `e_systemUnknown` (-1) exactly for a name not in the list |
| EcsEnums.SystemFlag | ECS/ECSEnums.h:27 | a system flag is a non-zero 32-bit mask |
| EcsEnums.SystemValues | ECS/SystemList.h:49-61 | PlayerController, CreaturePhysics and Camera are systems 0, 1 and 2 with flags 1, 2 and 4, and there are three systems |
| EcsEnums.FlagsDisjoint | ECS/ECSEnums.h:23-31 | each system flag is one bit, and two flags share a bit if and only if they belong to the same system |
| EcsComponents.BearingsComponent.constructor | ECS/ComponentList.h:33-39 | a bearings component holds the sector, position and three rotation axes it was built with |
| EcsComponents.InputComponent.constructor | ECS/ECS.cpp:70-71 | an input component starts with no mouse movement and the given toggle flags |
| EcsComponents.Lookup | ECS/Components.h:29-37 | the search finds nothing exactly when no entry has the entity id, and otherwise the component of the first entry that has it |
| EcsComponents.EntityIds | ECS/Components.h:44 | the ids in use are exactly the `m_entityId`s of the entries |
| EcsComponents.EntityIdsAppend | ECS/Components.h:23-28 | appending an entry adds its id to the ids in use and nothing else |
| EcsComponents.ComponentList.constructor | ECS/Components.h:21 | the static list starts empty |
| EcsComponents.ComponentList.Components | ECS/Components.h:21 | the components in list order, one per entry |
| EcsComponents.ComponentList.Create | ECS/Components.h:23-28 | `Create` appends the new component with its entity id, changes nothing else, returns it, and the id then has a component |
| EcsComponents.ComponentList.GetByEntityId | ECS/Components.h:29-37 | the iterator loop returns the first component with the id, and null exactly when there is none |
| EcsComponents.ComponentList.MustGetByEntityId | ECS/Components.h:38-43 | with the component present (the `Assert_`), it returns that first component |
| EcsComponents.CreateLookup | ECS/Components.h:23-37 | after a `Create`, other ids find what they found before, an id that already had a component keeps finding the first one, and a new id finds the new component |
| EcsSystems.System.constructor | ECS/Systems.cpp:13-15 | a system's static registered list starts empty |
| EcsSystems.System.Register | ECS/Systems.h:31 | `Register` appends the id to the registered list and changes nothing else |
| EcsSystems.System.Update | ECS/Systems.cpp:21-35 | the system-scope update visits every registered id in order, once per entry, with the bearings `MustGetByEntityId` finds for it |
| EcsSystems.System.UpdateEntity | ECS/Systems.cpp:38-53 | the per-entity updates of the Camera, PlayerController and CreaturePhysics systems leave the bearings unchanged |
| Ecs.Ecs.constructor | ECS/ECS.cpp:16-17 | at start-up the next entity id is 1, no update is running, and every component list and registered list is empty |
| Ecs.Ecs.CreateEntity | ECS/ECS.cpp:20-41 | the entity gets the next id, which then grows by one; a component is created for each component data given; the id is registered with exactly the systems whose flag bit the mask sets |
| Ecs.Ecs.RegisterAll | ECS/ECS.cpp:36-40 | every system registers the id exactly when its flag bit is set |
| Ecs.Ecs.CreateComponents | ECS/ECS.cpp:29-34 | a component is created for the id exactly for each component data given, and the ids in use stay below the next id |
| Ecs.Ecs.RegisterWith | ECS/ECS.cpp:37-39 | one system registers the id exactly when its flag bit is set, and the others are untouched |
| Ecs.Ecs.Update | ECS/ECS.cpp:44-53 | each system's update runs in list order with `g_doingUpdate` clear afterwards, each handing over the bearings of its registered entities |
| Ecs.Ecs.OnMouseMove | ECS/ECS.cpp:56-73 | outside an update, every input component's mouse movement grows by the relative movement, and its key flags stay |
| Ecs.Ecs.SetInputState | ECS/ECS.cpp:76-96 | outside an update, every input component's key flags become the given ones, and its mouse movement stays |
| Ecs.Ecs.GetCameraTransform | ECS/ECS.cpp:99-122 | it fails, leaving the outputs, exactly when no entity is registered with the camera; otherwise the outputs are the first camera entity's position, sector and axes, forward Z, up Y and left X |
| CreaturePhysics.PhysicsComponent.constructor | ECS/Systems/CECSSystemCreaturePhysics.cpp:17 | a physics component holds the position delta and cylinder half extents it was built with |
| CreaturePhysics.StepIsAxisMove | ECS/Systems/CECSSystemCreaturePhysics.cpp:34-43 | the step `p += delta * min(collisionTime, 1)` lands at `p + delta` clamped to the wall it moves towards |
| CreaturePhysics.StaysInside | ECS/Systems/CECSSystemCreaturePhysics.cpp:31-44 | a coordinate that starts between the two walls stays between them |
| CreaturePhysics.FullDelta | ECS/Systems/CECSSystemCreaturePhysics.cpp:42-43 | with a collision time of at least 1 the whole delta is applied |
| CreaturePhysics.Moved | ECS/Systems/CECSSystemCreaturePhysics.cpp:32-44 | each axis moves on its own, as the one-axis step says |
| CreaturePhysics.UpdateEntity | ECS/Systems/CECSSystemCreaturePhysics.cpp:14-45 | an entity in a sector outside the table is left alone; otherwise only its position changes, each axis moving by its delta up to the sector's wall |
| CreaturePhysics.AxisMove | ECS/Systems/CECSSystemCreaturePhysics.cpp:34-43 | no delta stays put; a move never overshoots the delta nor passes the wall it heads for, and is the whole delta when it stays inside the walls |
| Input.Toggled | Game/CInput.h:34-47 | `SetInputToggle` changes no toggle but the one it names |
| Input.IgnoredOnlyJumpRelease | Game/InputToggleList.h:15-20 | of the six toggles only Jump is not reset on key up, so the only call ignored is a Jump release that comes from input |
| Input.ToggledOn | Game/CInput.h:34-47 | a call that is not ignored leaves the toggle on exactly when `enable` was given |
| Input.ActivatedDeactivatedExclusive | Game/CInput.h:64-71 | a toggle is never activated and deactivated in the same frame; an activated toggle is on and a deactivated one is off |
| Input.InputState.constructor | Game/CInput.h:25-32 | every toggle starts off, this frame and last frame |
| Input.InputState.SetInputToggle | Game/CInput.h:34-60 | a release from input of a toggle not reset on key up changes nothing; otherwise the toggle's state becomes `enable` and no other state changes |
| Input.IsOn | Game/CInput.h:64-65 | a toggle is on exactly when its state is non-zero, so a state stored from `enable` is on exactly when `enable` was true |
| Input.IsActivated | Game/CInput.h:67-68 | activated means on this frame and off last frame |
| Input.IsDeactivated | Game/CInput.h:70-71 | deactivated means off this frame and on last frame |
| Input.InputState.InputToggleOn | Game/CInput.h:65 | `InputToggleOn` is true exactly when the toggle's state this frame is non-zero |
| Input.InputState.InputToggleActivated | Game/CInput.h:68 | an activated toggle is on, and it is activated exactly when it is on and its state last frame was 0 |
| Input.InputState.InputToggleDeactivated | Game/CInput.h:71 | a deactivated toggle is off, and it is deactivated exactly when it is off and its state last frame was non-zero |
| GameCamera.ClampPitch | Game/CCamera.h:104-114 | the clamp keeps the pitch in [-1.5, 1.5] and changes it if and only if it was outside |
| GameCamera.ClampIsNearest | Game/CCamera.h:108-111 | the clamped pitch is the allowed pitch nearest the requested one |
| GameCamera.Flat | Game/CCamera.h:66-67 | `fwd2D[1] = 0` keeps x and z and zeroes the height |
| GameCamera.FacingOf | Game/CCamera.h:122-133 | the facing's forward vector is the one of the two angles |
| GameCamera.SqrtNonZero | Game/CCamera.h:130-132 | a true square root of a positive number is positive, so `normalize` does not divide by zero |
| GameCamera.LengthSqOfHeight | Game/CCamera.h:132 | a vector with non-zero height has a positive squared length |
| GameCamera.LengthPositive | Game/CCamera.h:130-132 | a vector of non-zero length has positive squared length and length |
| GameCamera.ForwardIsUnit | Game/CCamera.h:125-127 | with cos² + sin² = 1 the forward vector has unit length |
| GameCamera.FirstCrossLengthSq | Game/CCamera.h:129-130 | `cross(fwd, tempUp)` has the squared length cos²(pitch) |
| GameCamera.CrossHeightScaled | Game/CCamera.h:130-132 | when `left` scaled by `l` is `cross(fwd, tempUp)`, `l` times the height of `cross(left, fwd)` is `fwd.x² + fwd.z²`; so for a positive `l` that height is positive whenever forward is not vertical |
| GameCamera.FacingDefinedInPitchRange | Game/CCamera.h:104-133 | within the clamp of `PitchUp`, both normalisations of `UpdateCameraFacing` are defined whatever the yaw |
| GameCamera.FacingOrthonormal | Game/CCamera.h:122-133 | left is perpendicular to forward and up to both; left and up are unit vectors, each a positive multiple of the cross product it normalises |
| GameCamera.LeftIsHorizontal | Game/CCamera.h:129-130 | left has no height |
| GameCamera.FlatLength | Game/CCamera.h:64-70 | the flattened forward vector is as long as `cross(fwd, tempUp)`, so `Forward2D` is defined whenever the facing is |
| GameCamera.Forward2DOf | Game/CCamera.h:64-70 | `fwd2D` is horizontal and a multiple of the flattened forward vector by its length |
| GameCamera.Forward2DIsUnit | Game/CCamera.h:64-70 | `fwd2D` has unit length |
| GameCamera.Faced | Game/CCamera.h:122-133 | a new facing leaves the position alone |
| GameCamera.Camera.constructor | Game/CCamera.h:17-49 | the camera starts at the origin with yaw and pitch 0, a 6 by 1 view at distance 6, and the facing of those angles |
| GameCamera.Camera.UpdateCameraFacing | Game/CCamera.h:122-133 | forward is computed from the angles, then left and up from the two normalised cross products; the shared data is marked stale and nothing but the facing changes |
| GameCamera.Camera.SetPosition | Game/CCamera.h:54-57 | the position becomes `pos` and nothing else changes |
| GameCamera.Camera.GetForward | Game/CCamera.h:59-62 | `Forward` reads the forward vector of the angles, a unit vector |
| GameCamera.Camera.Forward2D | Game/CCamera.h:64-70 | `Forward2D` is the forward vector flattened and normalised: a horizontal unit vector |
| GameCamera.Camera.GetLeft | Game/CCamera.h:72-75 | `Left` is a horizontal unit vector perpendicular to forward |
| GameCamera.Camera.MoveForward | Game/CCamera.h:77-81 | the position moves by forward times `amount`; nothing else changes |
| GameCamera.Camera.MoveForward2D | Game/CCamera.h:83-90 | the position moves by `Forward2D` times `amount`, so its height stays; nothing else changes |
| GameCamera.Camera.MoveLeft | Game/CCamera.h:92-96 | the position moves by left times `amount`; nothing else changes |
| GameCamera.Camera.YawRight | Game/CCamera.h:98-102 | the yaw grows by `amount`, the pitch stays, and the facing is that of the new angles |
| GameCamera.Camera.PitchUp | Game/CCamera.h:104-114 | the pitch becomes the clamp of the old pitch plus `amount`, the yaw stays, and the facing follows |
| GameCamera.Camera.SetYaw | Game/CCamera.h:116-120 | the yaw becomes `angle`, the pitch stays, and the facing follows |
| GameCamera.Forward | Game/CCamera.h:125-127 | the forward vector's height is `sin(angleY)` and its horizontal part is `(cos(angleX), sin(angleX))` scaled by `cos(angleY)` |
| LegacyCamera.Camera.constructor | CCamera.h:7-32 | the camera starts six units behind the origin, yaw 1.57, pitch 0, view distance and width 6, with the facing of those angles |
| LegacyCamera.Camera.GetCameraData | CCamera.h:38 | the camera data holds the forward vector of the angles, with left, up and forward mutually perpendicular |
| LegacyCamera.Camera.UpdateCameraFacing | CCamera.h:79-89 | the facing of the two angles is written and the position, angles and view stay |
| LegacyCamera.Camera.MoveForward | CCamera.h:43-46 | the position moves by forward times `amount`; nothing else changes |
| LegacyCamera.Camera.MoveForward2D | CCamera.h:48-54 | the position moves by the flattened, normalised forward vector times `amount`, keeping its height |
| LegacyCamera.Camera.MoveLeft | CCamera.h:56-59 | the position moves by left times `amount`; nothing else changes |
| LegacyCamera.Camera.YawRight | CCamera.h:61-65 | the yaw grows by `amount`, the pitch stays, and the facing follows |
| LegacyCamera.Camera.YawUp | CCamera.h:67-77 | the pitch becomes the clamp of the old pitch plus `amount`, the yaw stays, and the facing follows |
| LegacyCamera.Camera.ViewDistance | CCamera.h:40 | the view distance is the 6 the constructor sets, since nothing writes it again |
| LegacyCamera.Camera.ViewWidth | CCamera.h:41 | the view width is the 6 the constructor sets, since nothing writes it again |
| Player.Jumped | Game/CPlayer.cpp:47-48 | a jump sets the vertical speed to 0.1 only when the player is on the ground and Jump was activated; the horizontal speed stays |
| Player.Step | Game/CPlayer.cpp:45-61 | the position moves by the walk and then by the velocity; the player is on the ground afterwards exactly when it ends at or below height zero, with vertical speed 0 on the ground and reduced by 0.3 times the elapsed time in the air |
| Player.OpposingKeysCancel | Game/CPlayer.cpp:33-43 | holding forward and back, or left and right, together adds nothing along that pair |
| Player.WalkIsHorizontal | Game/CPlayer.cpp:33-43 | with horizontal walking directions the walk never changes the height |
| Player.StaysOnGround | Game/CPlayer.cpp:45-61 | a player resting on the ground who walks horizontally and does not jump stays on the ground at the same height |
| Player.JumpTakesOff | Game/CPlayer.cpp:47-56 | a jump lifts a grounded player into the air unless it stands more than 0.1 below zero; a player in the air cannot jump |
| Player.Player.constructor | Game/CPlayer.cpp:14-25 | the player starts at the origin at rest and not on the ground |
| Player.Player.MoveDelta | Game/CPlayer.cpp:30-43 | the walk adds forward and left strides and takes away back and right ones, for the toggles that are on; it is horizontal |
| Player.Player.Advance | Game/CPlayer.cpp:45-61 | the player's fields after the walk, the jump test, the move by the velocity and the landing test are the step of the old ones |
| Player.Player.Update | Game/CPlayer.cpp:28-64 | the player takes one step with the walk of the toggles that are on and the Jump activation, and the camera is put at the new position with nothing else of the shared data changed |
| Player.Player.SetPosition | Game/CPlayer.cpp:67-74 | the player is at (X, Y, Z), in the air, with its velocity kept, and the camera follows |
| Player.Player.SetFacing | Game/CPlayer.cpp:77-80 | the camera's yaw becomes `angle`, its pitch and view values stay, the shared camera gets the facing of the new angles and nothing else in it changes, and the player's own state is unchanged |
| Player.Stride | Game/CPlayer.cpp:33-43 | one stride is the direction scaled by `moveAmount * elapsed` |
| Player.WalkDelta | Game/CPlayer.cpp:30-43 | no toggle gives no move, and forward or back alone is one forward stride, added or taken away |
| OS.LastSeparator | Platform/OS.cpp:25 | `find_last_of("\\/")` finds nothing exactly when the path has no separator, and otherwise the last separator |
| OS.GetAbsolutePath | Platform/OS.cpp:15-34 | it fails, leaving the result, exactly when `GetFullPathName` reports failure by returning 0; otherwise the result is the buffer's text cut at its last separator, then a backslash |
| OS.DirectoryWithSeparator | Platform/OS.cpp:25-30 | a path with a separator keeps exactly the text before its last separator, followed by a backslash |
| OS.DirectoryWithoutSeparator | Platform/OS.cpp:26 | a path without a separator is kept whole |
| OS.DirectoryIdempotent | Platform/OS.cpp:24-30 | stripping the file name twice gives what stripping once gave |
| OS.Directory | Platform/OS.cpp:24-30 | a path without a separator is kept; otherwise the result is no longer than the path, ends in a backslash, and the text before that backslash is a prefix of the path |

## Left out

- Windows, Direct3D 10 and OpenCL plumbing is foreign API calls and I/O. This covers device and context set-up, kernel compilation and launch, texture sharing, screenshots, the window procedure apart from its key flags, `main`, and the frame-rate counter.
- OS.GetAbsolutePath: when the full path does not fit in `MAX_PATH`, `GetFullPathName` returns the size it needs, which is not 0. The buffer is then not filled, and the source still returns true with whatever the buffer held. The model's `resolved` text is whatever the buffer holds, so it covers that case, but the model does not tell an unfilled buffer from a resolved path.
- Loading files is a parameter of the operations that need it. This covers the tinyxml2 parse, `CDirectX::LoadTexture`, `GetFullPathName` and the existence check for `RecordedVideo/Video<i>.mp4`.
- `sin`, `cos` and `sqrt` are parameters with stated axioms. IEEE floating point, rounding and NaN are not modelled because everything is over the reals.
- `DegreesToRadians` in Game/MatrixMath.h is not part of this model, because it matters only through the trigonometric parameters.
- `refract` in KernelCode/KernelMath.h is not part of this model. It takes the square root of a value that can be negative.
- Float text parsing (`sscanf "%f"` for floats and `Vec3`) is a parameter. So are the `"%f, %f, %f"` and `"%u"` scans of `LoadWorld`.
- `sscanf "%i"` is modelled as optional white space, an optional sign and decimal digits. Its hexadecimal and octal forms are not modelled.
- `float3::operator=(const float[3])` is not part of this model. It writes only component 0 and returns nothing, which is undefined behaviour.
- `delete` applied to an array allocated with `new[]` is not part of this model. Freeing host buffers is not modelled.
- ECS/Components.cpp, the constructors that build components from schema data, is not part of this model. It depends on trigonometry and on a sector-name lookup that is not in the source. `Create` receives the constructed component instead.
- Struct layout, padding and the `sizeof % 16` checks of the shared GPU records are ABI concerns, not behaviour.
- The Blender exporter, Game/CGame, Game/CInput.cpp (`CInput::OnMouseMove`, which only forwards to the camera), the `Release` of Game/CWorld.h and Platform/STexture2D.h are not part of this model, because they are delegation or release-only code.
- `CInput::Update` is declared in Game/CInput.h but defined nowhere in the source. The last-frame toggle states are therefore changed only by the constructor.
- ECS/ECS.cpp calls `UpdateSystem`, `CECSComponentInput::All`, `GetRegisteredEntityCount` and `GetRegisteredEntity`, which ECS/Systems.h and ECS/Components.h do not declare. The model calls the system-scope `Update` that ECS/Systems.h declares, and reads the component list's entries and the system's registered list directly.
- Creature physics uses `CECSComponentPhysics` and `ECS::GetWorldData`, which no header declares. The component is declared in the model and the sector table is a parameter.
- KernelCode/Shared/SSharedDataRoot.h declares only `m_camera`, but KernelCode/Shared/SSharedDataRoot.cpp also returns a world. The model's shared root holds both.
- Game/CCamera.h writes `m_viewWidthHeightDistance` into the shared camera, but KernelCode/Shared/SCamera.h removed that field. The model keeps the three view values in the camera object.
- Game/CWorld.cpp reads diffuse and specular amounts that DataSchemas/DataSchemas.h does not declare. The world source records in `world.dfy` carry them.
- DataSchemas/DataSchemasStructs.cpp and DataSchemas/DataSchemasXML.h expand `Field_Schema` with different arities. Each expansion is modelled against its own macros.
- LegacyCamera.Camera.GetCameraData: CCamera.h returns `SCamera&`, through which a caller could write. The model returns a copy. Its one caller, the kernel set-up in CDirectx.cpp, only reads the data, so no write is lost.
- `CPlayer::Init`, `m_playerHeight` and `m_crouched` are declared in Game/CPlayer.h. Game/CPlayer.cpp never defines `Init` and never reads or writes either field, so they are not modelled.
- Recording side effects on the file system and on other processes are not modelled, such as directory changes and running ffmpeg. Only the flag, the frame counter and the choice of video index are.
- `Assert_` is modelled as a precondition, for example in `MustGetByEntityId` and `SetInputToggle`. The crash it causes is not modelled.
- Ecs.Ecs.CreateEntity: `g_nextEntityId` is an `unsigned int`, but the model's id is an unbounded natural number, so wrap-around after 2^32 entities is not modelled.
- World.World.Load: `nextObjectId` is an `unsigned int` and is not wrapped, so the distinct-id result assumes fewer than 2^32 objects.
- LegacyDirectX.LoadBoxes: `nextObjectId` is not wrapped either.
- DirectX.Recorder.DrawScene: `m_recordingFrameNumber` is an `int` and its overflow is not modelled.
- RoundUp.RoundsUpToMultiple: proved only for a positive group size, a non-negative size, and a size plus group that fits in `size_t`. C's truncating `%` and the conversion to `size_t` are modelled in `ShrRoundUp`.
- RoundUp.ShrRoundUp: `global_size + group_size - r` is `int` arithmetic in C, and its overflow is undefined behaviour. The model computes the sum without bounds and then converts it to `size_t`, so an `int` overflow is not modelled.
- SchemaXml.ScanInt: `%i` reads into an `int`, and a number outside its range is undefined behaviour for `sscanf`. The model reads the digits as an unbounded integer, so `SchemaXml.FromStringBool` does not model that overflow either.
- LegacyDirectX.LowByte: the three bytes that the `%u` scan writes past the one-byte shadow flag land in the `m_pack1b`..`m_pack1d` padding of SharedGeometry.h. The records do not model the padding, so those writes are not modelled.
- SharedArray.SharedArray.GetAndUpdateMem: buffer sizes are not modelled. The model's buffer is a handle, and an upload makes the device copy equal to the elements in use. In the source, `clCreateBuffer` sizes the buffer by `SizeInBytes()`, which is the count at that moment times `sizeof(T)`. A later upload writes the count at its own moment times `sizeof(T)` into the same buffer.
- SharedArray.SharedArray.Resize: a resize within the allocation keeps the buffer, so the next upload can write more bytes than the buffer was created with. The model does not capture that mismatch.
- LegacySharedArray.LegacySharedArray.GetAndUpdateMem: buffer sizes in bytes are not modelled. Here `Resize` creates the buffer whenever it reallocates, sized to the new allocation, so every later upload fits in it.
- CreaturePhysics.UpdateEntity: a zero delta divides by zero in the source. The model treats it as no movement on that axis.
- GameCamera.Camera.UpdateCameraFacing: the proof needs `cos` to be positive while the pitch is within the clamp. This is part of the camera's invariant, not a consequence of a modelled cosine.
- LegacyDirectX.Scene.LoadWorld: a record appended with `AddOne` starts as whatever its slot held before. The model returns those starting values as ghost results and does not describe them further.
