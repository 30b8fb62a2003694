/** The four-component GLSL vector values (vec4, ivec4, bvec4): construction
    with a zero default, from four components, by a component-wise cast from
    another component type and, for the float flavour only, from an 8-bit
    RGBA colour. */
module GlslVector {

  /** A 4D vector. The components are declared, and so laid out, in the
      order x, y, z, w. */
  datatype Vector4<T> = Vector4(x: T, y: T, z: T, w: T)

  /** vec4: 4D float vector (a C++ float is modelled as a real). */
  type Vec4 = Vector4<real>

  /** ivec4: 4D int vector. */
  type Ivec4 = Vector4<int>

  /** bvec4: 4D bool vector. */
  type Bvec4 = Vector4<bool>

  /** The tightly packed layout of a vector: its components in declaration order. */
  function Components<T>(v: Vector4<T>): (s: seq<T>)
    ensures |s| == 4
  {
    [v.x, v.y, v.z, v.w]
  }

  /** The conversion constructor: the same cast applied to each component
      independently, in place. */
  function Convert<U, T>(other: Vector4<U>, cast: U -> T): (v: Vector4<T>)
    ensures forall i :: 0 <= i < 4 ==> Components(v)[i] == cast(Components(other)[i])
  {
    Vector4(cast(other.x), cast(other.y), cast(other.z), cast(other.w))
  }

  /** The default constructor: every component is initialised from the
      integer literal 0, that is, the integer zero vector cast to T. */
  function Default<T>(fromInt: int -> T): (v: Vector4<T>)
    ensures v == Convert(Vector4(0, 0, 0, 0), fromInt)
    ensures forall i :: 0 <= i < 4 ==> Components(v)[i] == fromInt(0)
  {
    Vector4(fromInt(0), fromInt(0), fromInt(0), fromInt(0))
  }

  // The standard conversions between the three component types.

  /** An int-to-float cast keeps the value: truncating it again gives the same int. */
  function IntToFloat(i: int): (f: real)
    ensures FloatToInt(f) == i
  {
    assert i < 0 ==> (-(i as real)).Floor == -i;
    i as real
  }

  /** A float-to-int cast truncates toward zero. */
  function FloatToInt(r: real): (i: int)
    ensures 0.0 <= r ==> 0 <= i && i as real <= r < i as real + 1.0
    ensures r < 0.0 ==> i <= 0 && i as real - 1.0 < r <= i as real
  {
    if r >= 0.0 then r.Floor else -((-r).Floor)
  }

  /** A float-to-bool cast is false exactly for zero. */
  function FloatToBool(r: real): (b: bool)
    ensures !b <==> r == 0.0
  {
    r != 0.0
  }

  /** An int-to-bool cast is false exactly for zero, and agrees with casting
      through float. */
  function IntToBool(i: int): (b: bool)
    ensures !b <==> i == 0
    ensures b == FloatToBool(IntToFloat(i))
  {
    i != 0
  }

  /** A bool-to-int cast gives 0 or 1, and casting back gives the bool again. */
  function BoolToInt(b: bool): (i: int)
    ensures i == 0 || i == 1
    ensures IntToBool(i) == b
  {
    if b then 1 else 0
  }

  /** A bool-to-float cast gives 0.0 or 1.0, and casting back gives the bool again. */
  function BoolToFloat(b: bool): (f: real)
    ensures f == 0.0 || f == 1.0
    ensures FloatToBool(f) == b
    ensures f == IntToFloat(BoolToInt(b))
  {
    if b then 1.0 else 0.0
  }

  /** Every vector type default-constructs to its zero: 0.0, 0 and false. */
  lemma {:induction false} DefaultsAreZero()
    ensures Default(IntToFloat) == Vector4(0.0, 0.0, 0.0, 0.0)
    ensures Default((i: int) => i) == Vector4(0, 0, 0, 0)
    ensures Default(IntToBool) == Vector4(false, false, false, false)
  {
  }

  /** The component-wise constructor stores its arguments in order, and
      every vector is the component-wise construction of its own components. */
  lemma {:induction false} ComponentOrder<T>(x: T, y: T, z: T, w: T, v: Vector4<T>)
    ensures Components(Vector4(x, y, z, w)) == [x, y, z, w]
    ensures Vector4(v.x, v.y, v.z, v.w) == v
  {
  }

  /** Converting with an identity cast leaves a vector unchanged. */
  lemma {:induction false} ConvertIdentity<T>(v: Vector4<T>, cast: T -> T)
    requires forall t :: cast(t) == t
    ensures Convert(v, cast) == v
  {
  }

  /** Two successive conversions are one conversion by the composed cast. */
  lemma {:induction false} ConvertCompose<A, B, C>(v: Vector4<A>, f: A -> B, g: B -> C)
    ensures Convert(Convert(v, f), g) == Convert(v, (a: A) => g(f(a)))
  {
  }

  /** int to float and back is exact. */
  lemma {:induction false} IntFloatRoundTrip(v: Ivec4)
    ensures Convert(Convert(v, IntToFloat), FloatToInt) == v
  {
    ConvertCompose(v, IntToFloat, FloatToInt);
  }

  /** bvec4 to ivec4 and back, and bvec4 to vec4 and back, give the same vector. */
  lemma {:induction false} BoolRoundTrips(v: Bvec4)
    ensures Convert(Convert(v, BoolToInt), IntToBool) == v
    ensures Convert(Convert(v, BoolToFloat), FloatToBool) == v
  {
    ConvertCompose(v, BoolToInt, IntToBool);
    ConvertCompose(v, BoolToFloat, FloatToBool);
  }

  /** ivec4 to bvec4 and back maps every component to 0 if it was 0 and to 1 otherwise. */
  lemma {:induction false} IntBoolRoundTrip(v: Ivec4, k: nat)
    requires k < 4
    ensures Components(Convert(Convert(v, IntToBool), BoolToInt))[k]
         == if Components(v)[k] == 0 then 0 else 1
  {
    assert Components(Convert(Convert(v, IntToBool), BoolToInt))[k]
        == BoolToInt(IntToBool(Components(v)[k]));
  }

  /** float to int and back truncates every component toward zero: the
      result is the truncated integer, never grows in magnitude, keeps its
      sign, and moves by less than 1. */
  lemma {:induction false} FloatIntRoundTrip(v: Vec4, k: nat)
    requires k < 4
    ensures var t := Components(Convert(Convert(v, FloatToInt), IntToFloat))[k];
            var s := Components(v)[k];
            t == FloatToInt(s) as real &&
            (0.0 <= s ==> 0.0 <= t <= s < t + 1.0) &&
            (s < 0.0 ==> t - 1.0 < s <= t <= 0.0)
  {
    var s := Components(v)[k];
    assert Components(Convert(Convert(v, FloatToInt), IntToFloat))[k]
        == IntToFloat(FloatToInt(s));
  }

  // The colour constructor of vec4.

  /** An 8-bit colour channel. */
  type Channel = c: int | 0 <= c < 256

  /** An RGBA colour with four 8-bit channels. */
  datatype Color = Color(r: Channel, g: Channel, b: Channel, a: Channel)

  /** The channels of a colour as an integer 4-vector, in the order r, g, b, a. */
  function Channels(color: Color): Vector4<Channel>
  {
    Vector4(color.r, color.g, color.b, color.a)
  }

  /** Normalises one channel from [0, 255] to [0, 1]. */
  function Normalize(c: Channel): (f: real)
    ensures 0.0 <= f <= 1.0
    ensures f == 0.0 <==> c == 0
    ensures f == 1.0 <==> c == 255
  {
    c as real / 255.0
  }

  /** Normalisation keeps the order of channels, in both directions. */
  lemma {:induction false} NormalizeMonotonic(c: Channel, d: Channel)
    ensures c < d <==> Normalize(c) < Normalize(d)
  {
  }

  /** vec4 from a colour: each channel divided by 255, in the order r, g, b, a. */
  function FromColor(color: Color): (v: Vec4)
    ensures v == Convert(Channels(color), Normalize)
    ensures forall i :: 0 <= i < 4 ==> 0.0 <= Components(v)[i] <= 1.0
  {
    Vector4(Normalize(color.r), Normalize(color.g), Normalize(color.b), Normalize(color.a))
  }

  /** Recovers a channel from its normalised value. */
  function Denormalize(f: real): int
  {
    (f * 255.0).Floor
  }

  /** The colour can be read back from its vec4: the normalisation is lossless. */
  lemma {:induction false} ColorRoundTrip(color: Color)
    ensures var v := FromColor(color);
            Color(Denormalize(v.x), Denormalize(v.y), Denormalize(v.z), Denormalize(v.w)) == color
  {
  }

  /** Two colours give the same vec4 exactly when they are the same colour. */
  lemma {:induction false} FromColorInjective(c1: Color, c2: Color)
    ensures FromColor(c1) == FromColor(c2) <==> c1 == c2
  {
    if FromColor(c1) == FromColor(c2) {
      ColorRoundTrip(c1);
      ColorRoundTrip(c2);
    }
  }
}
