# SFML GLSL value marshalling, modelled in Dafny

SFML's shader uniforms take their values in GLSL's own layouts. This project
models the small value layer that builds them (the `sf::Glsl` types):

- `Matrix<Columns, Rows>` (`Glsl::Mat3`, `Glsl::Mat4`) is a buffer of
  `Columns * Rows` floats in column-major order. It is filled either verbatim
  from a raw float array or from an `sf::Transform`. A `Mat4` takes the
  transform's 4x4 matrix whole. A `Mat3` takes its 2D block: source indices
  0, 1, 3, 4, 5, 7, 12, 13, 15.
- `Vector4<T>` (`Glsl::Vec4`, `Glsl::Ivec4`, `Glsl::Bvec4`) is a four-component
  value. It has a zero default, a component-wise constructor and a
  component-wise cast from another component type. `Vec4` alone can also be
  built from an `sf::Color`, each 8-bit channel divided by 255.
- The helpers `initializeMatrix` (3x3 and 4x4) and `copyMatrix` fill the buffers.

Files:

- `glsl_vector.dfy`, module `GlslVector`: pure values. `Vector4<T>` is a
  datatype and its constructors are functions. Casts are a function parameter
  applied per component; the C++ standard conversions between float, int and
  bool are written out. `Color` holds four channels in 0..255.
- `glsl_matrix.dfy`, module `GlslMatrix`: `Matrix` is a class whose
  `elements` field is an `array<real>` of length `columns * rows`. The C++
  member is called `array`, which is a reserved word in Dafny. The
  constructors fill the array in place through the imperative
  `CopyMatrix` (a loop) and `InitializeMatrix3` (nine assignments).
  A transform's matrix is `TransformMatrix`, a 16-element sequence.
  `Reduce2D` states the mat3 layout. Two reference definitions stand beside
  it. `Expand2D`, its inverse, embeds a 3x3 matrix into the 4x4 matrix of a
  2D transform. `Apply` multiplies a column-major matrix by a vector, and it
  gives the documented translation arrays their meaning.

Floats are modelled as `real`.

The 3x3 `initializeMatrix` writes `from[0]`, `from[1]` and `from[3]` to
`to[0..2]` (src/SFML/Graphics/Glsl.cpp:45). In column-major order that is the
first column of the mat3; `Reduce2D` states the layout per (column, row).

## Model

| member | source | states |
|---|---|---|
| `GlslVector.Default` | include/SFML/Graphics/Glsl.inl:98-104 | the default vector is the integer zero vector cast to the component type: every component is `T(0)` |
| `GlslVector.DefaultsAreZero` | include/SFML/Graphics/Glsl.hpp:295-299 | vec4, ivec4 and bvec4 default to all 0.0, all 0 and all false |
| `GlslVector.ComponentOrder` | include/SFML/Graphics/Glsl.inl:112-118 | the component-wise constructor stores X, Y, Z, W in that order, and every vector is the construction from its own components |
| `GlslVector.Convert` | include/SFML/Graphics/Glsl.inl:126-133 | the conversion vector's component i is the cast of the source's component i, for each of the four |
| `GlslVector.ConvertIdentity` | include/SFML/Graphics/Glsl.inl:126-133 | converting with an identity cast leaves the vector unchanged |
| `GlslVector.ConvertCompose` | include/SFML/Graphics/Glsl.inl:126-133 | two conversions in a row are one conversion by the composed cast |
| `GlslVector.FloatToInt` | include/SFML/Graphics/Glsl.inl:128-131 | a float-to-int cast truncates toward zero: it keeps the sign, never grows in magnitude and moves by less than 1 |
| `GlslVector.IntToFloat` | include/SFML/Graphics/Glsl.inl:128-131 | an int-to-float cast keeps the value: truncating the float gives the same int |
| `GlslVector.FloatToBool` | include/SFML/Graphics/Glsl.inl:128-131 | a float casts to false exactly when it is zero |
| `GlslVector.IntToBool` | include/SFML/Graphics/Glsl.inl:128-131 | an int casts to false exactly when it is zero, the same as casting it through float |
| `GlslVector.BoolToInt` | include/SFML/Graphics/Glsl.inl:128-131 | a bool casts to 0 or 1, and casting that back gives the same bool |
| `GlslVector.BoolToFloat` | include/SFML/Graphics/Glsl.inl:128-131 | a bool casts to 0.0 or 1.0, the float of its int cast, and casting that back gives the same bool |
| `GlslVector.IntFloatRoundTrip` | include/SFML/Graphics/Glsl.inl:126-133 | ivec4 to vec4 and back gives the same vector |
| `GlslVector.BoolRoundTrips` | include/SFML/Graphics/Glsl.inl:126-133 | bvec4 to ivec4 and back, and bvec4 to vec4 and back, give the same vector |
| `GlslVector.IntBoolRoundTrip` | include/SFML/Graphics/Glsl.inl:126-133 | ivec4 to bvec4 and back maps each component to 0 if it was 0 and to 1 otherwise |
| `GlslVector.FloatIntRoundTrip` | include/SFML/Graphics/Glsl.inl:126-133 | vec4 to ivec4 and back gives each component's truncation toward zero, as a whole number: same sign, no larger in magnitude, less than 1 away |
| `GlslVector.Normalize` | include/SFML/Graphics/Glsl.inl:197-200 | a normalised channel lies in [0, 1]; it is 0 exactly for channel 0 and 1 exactly for channel 255 |
| `GlslVector.NormalizeMonotonic` | include/SFML/Graphics/Glsl.inl:197-200 | normalisation keeps the order of channels, in both directions |
| `GlslVector.FromColor` | include/SFML/Graphics/Glsl.inl:196-202 | vec4 from a colour is the channels r, g, b, a each cast by the normalisation; every component lies in [0, 1] |
| `GlslVector.ColorRoundTrip` | include/SFML/Graphics/Glsl.inl:196-202 | the colour is recovered exactly from its vec4, so the normalisation loses nothing |
| `GlslVector.FromColorInjective` | include/SFML/Graphics/Glsl.hpp:249-254 | two colours give the same vec4 if and only if they are the same colour |
| `GlslMatrix.Reduce2D` | src/SFML/Graphics/Glsl.cpp:44-47 | a mat3 has 9 elements; its entry at (column, row) is the 4x4 entry at (Lift(column), Lift(row)), where x and y stay in place and the homogeneous coordinate moves from 2 to 3 |
| `GlslMatrix.Reduce2DIndices` | src/SFML/Graphics/Glsl.cpp:45-47 | the mat3 element k is source element [0, 1, 3, 4, 5, 7, 12, 13, 15][k] |
| `GlslMatrix.Reduce2DIgnoresUnused` | src/SFML/Graphics/Glsl.cpp:44-47 | changing source index 2, 6, 8, 9, 10, 11 or 14 leaves the mat3 unchanged |
| `GlslMatrix.Reduce2DReadsUsed` | src/SFML/Graphics/Glsl.cpp:44-47 | changing any of the nine used source indices to any different value changes the mat3 |
| `GlslMatrix.Expand2D` | src/SFML/Graphics/Glsl.cpp:44 | the 2D embedding of a 3x3 matrix leaves the z axis alone and places entry (column, row) at (Lift(column), Lift(row)) |
| `GlslMatrix.ReduceExpand` | src/SFML/Graphics/Glsl.cpp:44-47 | embedding a 3x3 matrix into 4x4 and reducing it returns the 3x3 matrix |
| `GlslMatrix.ExpandReduce` | src/SFML/Graphics/Glsl.cpp:44-47 | re-expanding the mat3 restores the 4x4 matrix if and only if it is the matrix of a 2D transform (z row and column of the identity) |
| `GlslMatrix.Reduce2DTranslation` | src/SFML/Graphics/Glsl.cpp:45-47 | a 2D translation transform (x at 12, y at 13) becomes the documented mat3 array: 1 on the diagonal, x at 6, y at 7 |
| `GlslMatrix.Translation3Moves` | include/SFML/Graphics/Glsl.hpp:164-176 | read column-major, the documented mat3 translation array moves every point (px, py, 1) to (px + x, py + y, 1) |
| `GlslMatrix.Translation4Moves` | include/SFML/Graphics/Glsl.hpp:189-201 | read column-major, the documented mat4 translation array moves every point by (x, y, z), with the translation at indices 12, 13, 14 and 1 at 0, 5, 10, 15 |
| `GlslMatrix.Matrix.FromPointer` | include/SFML/Graphics/Glsl.inl:65-68 | the new matrix holds exactly columns * rows elements, equal to the first columns * rows raw elements in order |
| `GlslMatrix.Matrix.FromTransform` | include/SFML/Graphics/Glsl.inl:79-82 | only for 3x3 and 4x4; a mat3 holds exactly Reduce2D of the transform's matrix, a mat4 that matrix verbatim |
| `GlslMatrix.InitializeMatrix3` | src/SFML/Graphics/Glsl.cpp:39-48 | after filling, the mat3's 9 elements are exactly Reduce2D of the transform's matrix |
| `GlslMatrix.InitializeMatrix4` | src/SFML/Graphics/Glsl.cpp:52-56 | after filling, the mat4's 16 elements are the transform's 16 elements verbatim |
| `GlslMatrix.CopyMatrix` | src/SFML/Graphics/Glsl.cpp:60-63 | dest[i] equals source[i] for i < count and every dest[j] with j >= count is unchanged; with count 0 nothing changes |

## Left out

- `sf::Shader` (include/SFML/Graphics/Shader.hpp) is not part of this model: its implementation, Shader.cpp, is not part of this model either, and it is OpenGL glue. This covers the uniform location cache, the texture table, texture-unit assignment, compile and link, loading from files, memory and streams, `bind`, `isAvailable` and the deprecated `setParameter` overloads.
- IEEE float rounding is not modelled: floats are `real`. So `color.r / 255.f` and the int/float casts are exact here.
- IntToFloat: exact for every integer. A C++ float rounds integers above 2^24 in magnitude.
- FloatToInt: truncates any real. In C++ an out-of-range float-to-int cast is undefined behaviour.
- The internals of `sf::Transform` and `sf::Color` are not part of this model. `Transform::getMatrix()` is an opaque 16-element column-major sequence, and a colour is four channels in 0..255.
- Raw pointers: the `const float*` sources of `copyMatrix` and of the raw-data constructor are read-only sequences. So pointer arithmetic and overlapping `std::copy` ranges are not modelled.
- The `BaseVector4` / `Vector4` split is a single datatype here. The derived `Vector4<T>` and `Vector4<float>` constructors (include/SFML/Graphics/Glsl.inl:148-188) add no state and only forward, so they are the same functions.
- Only `Vec4` has a colour constructor. This is expressed by typing: `FromColor` returns `Vector4<real>`, and no such function exists for `Ivec4` or `Bvec4`.
- `Vec2`, `Vec3` and their int/bool variants are typedefs of `sf::Vector2` and `sf::Vector3`, which are not part of this model.
- The template sizes `Columns` and `Rows` are constant fields of `Matrix`. "Only 3x3 and 4x4 from a transform" is a precondition, standing for the C++ overload set that does not compile for other sizes.
