/** `getCleanValue` and `getCleanTransform`, which the model export uses so that a value typed
    into the editor is written back as typed, and a computed value loses the noise of
    floating-point arithmetic. */
module CleanValues {
  import opened Common

  /** The JavaScript values these helpers see. */
  datatype JsValue = Undefined | Null | Num(n: real) | Str(s: string) | Bool(b: bool)

  /** `value !== undefined && value !== null` */
  predicate Present(v: JsValue)
  {
    !v.Undefined? && !v.Null?
  }

  /** JavaScript truthiness. */
  predicate ValueTruthy(v: JsValue)
  {
    match v
    case Undefined => false
    case Null => false
    case Num(n) => n != 0.0
    case Str(s) => s != ""
    case Bool(b) => b
  }

  /** The number's decimal form has more than six digits after the point. */
  predicate ManyDecimals(x: real)
  {
    (x * 1000000.0).Floor as real != x * 1000000.0
  }

  /** `Math.round(x * 1000000) / 1000000`, with `Math.round(y) = floor(y + 0.5)`. */
  function RoundMicro(x: real): real
  {
    ((x * 1000000.0 + 0.5).Floor as real) / 1000000.0
  }

  /** `getCleanValue(originalValue, currentValue)` */
  function GetCleanValue(originalValue: JsValue, currentValue: JsValue): (r: JsValue)
  {
    if Present(originalValue) then originalValue
    else if currentValue.Num? && ManyDecimals(currentValue.n) then Num(RoundMicro(currentValue.n))
    else currentValue
  }

  /** The stored input wins whenever there is one; without one, anything that is not a
      number, and a number with at most six decimals, comes back unchanged. */
  lemma CleanValueCases(originalValue: JsValue, currentValue: JsValue)
    ensures Present(originalValue) ==> GetCleanValue(originalValue, currentValue) == originalValue
    ensures !Present(originalValue) && !currentValue.Num? ==> GetCleanValue(originalValue, currentValue) == currentValue
    ensures !Present(originalValue) && currentValue.Num? && !ManyDecimals(currentValue.n)
            ==> GetCleanValue(originalValue, currentValue) == currentValue
    ensures GetCleanValue(originalValue, currentValue).Num? ==> Present(originalValue) || currentValue.Num?
  {
  }

  /** Rounding moves a number by at most half a millionth and leaves at most six decimals. */
  lemma RoundMicroSpec(x: real)
    ensures -0.0000005 < RoundMicro(x) - x <= 0.0000005
    ensures !ManyDecimals(RoundMicro(x))
  {
    var k := (x * 1000000.0 + 0.5).Floor;
    assert k as real <= x * 1000000.0 + 0.5 < k as real + 1.0;
    assert RoundMicro(x) * 1000000.0 == k as real;
  }

  /** A cleaned number is within half a millionth of the computed one, and cleaning it again
      changes nothing. */
  lemma CleanValueIdempotent(currentValue: JsValue)
    ensures var c := GetCleanValue(Undefined, currentValue);
            && GetCleanValue(Undefined, c) == c
            && (currentValue.Num? ==> c.Num? && -0.0000005 < c.n - currentValue.n <= 0.0000005)
  {
    if currentValue.Num? {
      RoundMicroSpec(currentValue.n);
    }
  }

  /** `0.1 + 0.2` computed in doubles is `0.30000000000000004`; it is cleaned to `0.3`. */
  lemma CleanValueExample()
    ensures GetCleanValue(Null, Num(0.30000000000000004)) == Num(0.3)
  {
    assert (0.30000000000000004 * 1000000.0).Floor == 300000;
    assert (0.30000000000000004 * 1000000.0 + 0.5).Floor == 300000;
  }

  /** A transform as JSON: three values named x, y and z. */
  datatype Transform = Transform(x: JsValue, y: JsValue, z: JsValue)

  /** `getCleanTransform(originalTransform, currentTransform)`; a missing stored transform
      (`originalTransform?.x` of `undefined` or `null`) makes every component `undefined`. */
  function GetCleanTransform(originalTransform: Option<Transform>, currentTransform: Transform): (r: Transform)
    ensures originalTransform.None? ==>
              r == Transform(GetCleanValue(Undefined, currentTransform.x),
                             GetCleanValue(Undefined, currentTransform.y),
                             GetCleanValue(Undefined, currentTransform.z))
    ensures originalTransform.Some? && Present(originalTransform.value.x) ==> r.x == originalTransform.value.x
    ensures originalTransform.Some? && Present(originalTransform.value.y) ==> r.y == originalTransform.value.y
    ensures originalTransform.Some? && Present(originalTransform.value.z) ==> r.z == originalTransform.value.z
  {
    var ox, oy, oz := if originalTransform.Some? then originalTransform.value.x else Undefined,
                      if originalTransform.Some? then originalTransform.value.y else Undefined,
                      if originalTransform.Some? then originalTransform.value.z else Undefined;
    Transform(GetCleanValue(ox, currentTransform.x), GetCleanValue(oy, currentTransform.y),
              GetCleanValue(oz, currentTransform.z))
  }
}
