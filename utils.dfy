/**
 * Helpers of src/lib/webgl-hover/utils.ts: attribute lookups with defaults,
 * the degree/radian conversion, the displacement vector and the cover-fit
 * texture scale. JavaScript numbers are modelled as reals.
 */
module Utils {
  import opened Wrappers

  /** A two-component shader value, `[x, y]` in the source. */
  datatype Vec2 = Vec2(x: real, y: real)

  /** `Math.PI`; the properties below only use that it is positive. */
  const PI: real := 3.141592653589793

  /** `Math.cos` and `Math.sin`, left uninterpreted. */
  datatype Trig = Trig(cos: real -> real, sin: real -> real)

  /**
   * The attributes of a DOM element: `getAttribute(name)` is `el[name]` when
   * `name in el` and `null` otherwise.
   */
  type Element = map<string, string>

  /** `getAttributeAsFloat`: a present attribute, even an empty one, is parsed. */
  function GetAttributeAsFloat(el: Element, attribute: string, defaultValue: real,
                               parseFloat: string -> real): (r: real)
    ensures attribute !in el ==> r == defaultValue
    ensures attribute in el ==> r == parseFloat(el[attribute])
  {
    if attribute in el then parseFloat(el[attribute]) else defaultValue
  }

  /** `getAttributeAsString`: `getAttribute(a) || defaultValue`, so "" falls back too. */
  function GetAttributeAsString(el: Element, attribute: string, defaultValue: string): (r: string)
    ensures attribute !in el || el[attribute] == "" ==> r == defaultValue
    ensures attribute in el && el[attribute] != "" ==> r == el[attribute]
    ensures r == "" ==> defaultValue == ""
  {
    if attribute in el && el[attribute] != "" then el[attribute] else defaultValue
  }

  /** Setting an attribute to a non-empty value is what the string lookup then reads back. */
  lemma GetAttributeAsStringReadsBack(el: Element, attribute: string, value: string, defaultValue: string)
    requires value != ""
    ensures GetAttributeAsString(el[attribute := value], attribute, defaultValue) == value
    ensures GetAttributeAsString(el - {attribute}, attribute, defaultValue) == defaultValue
  {
  }

  /** `degreesToRadians`; `RadiansToDegrees` undoes it exactly over the reals. */
  function DegreesToRadians(degrees: real): (r: real)
    ensures RadiansToDegrees(r) == degrees
    ensures (r == 0.0) == (degrees == 0.0)
    ensures (r > 0.0) == (degrees > 0.0)
  {
    degrees * (PI / 180.0)
  }

  /** The inverse conversion `getConfig` applies to the stored rotation. */
  function RadiansToDegrees(radians: real): (d: real)
    ensures (d > 0.0) == (radians > 0.0)
  {
    radians * (180.0 / PI)
  }

  /** Converting to degrees and back returns the stored radians. */
  lemma RadiansRoundTrip(radians: real)
    ensures DegreesToRadians(RadiansToDegrees(radians)) == radians
  {
  }

  /** The conversion is linear: it preserves sums and scalings. */
  lemma DegreesToRadiansLinear(a: real, b: real, k: real)
    ensures DegreesToRadians(a + b) == DegreesToRadians(a) + DegreesToRadians(b)
    ensures DegreesToRadians(k * a) == k * DegreesToRadians(a)
  {
  }

  /** `calculateDisplacementVector`: `intensity` along the direction `angleInDegrees`. */
  function DisplacementVector(trig: Trig, intensity: real, angleInDegrees: real): (r: Vec2)
    ensures intensity == 0.0 ==> r == Vec2(0.0, 0.0)
  {
    var angleRad := DegreesToRadians(angleInDegrees);
    Vec2(intensity * trig.cos(angleRad), intensity * trig.sin(angleRad))
  }

  /** Both components scale linearly with the intensity. */
  lemma DisplacementScales(trig: Trig, k: real, intensity: real, angle: real)
    ensures DisplacementVector(trig, k * intensity, angle)
         == Vec2(k * DisplacementVector(trig, intensity, angle).x,
                 k * DisplacementVector(trig, intensity, angle).y)
  {
    var a := DegreesToRadians(angle);
    assert k * intensity * trig.cos(a) == k * (intensity * trig.cos(a));
    assert k * intensity * trig.sin(a) == k * (intensity * trig.sin(a));
  }

  /**
   * Changing only the intensity keeps the direction: the two vectors for one
   * angle are parallel.
   */
  lemma DisplacementSameDirection(trig: Trig, i1: real, i2: real, angle: real)
    ensures DisplacementVector(trig, i1, angle).x * DisplacementVector(trig, i2, angle).y
         == DisplacementVector(trig, i1, angle).y * DisplacementVector(trig, i2, angle).x
  {
    var a := DegreesToRadians(angle);
    var c, s := trig.cos(a), trig.sin(a);
    calc {
      (i1 * c) * (i2 * s);
      i1 * i2 * (c * s);
      (i1 * s) * (i2 * c);
    }
  }

  /**
   * `calculateTextureScale`. Over the reals the source's result is defined
   * unless it divides by zero (a zero height, or a zero ratio as divisor),
   * where JavaScript yields a non-finite pair; that case is `None`.
   */
  function CalculateTextureScale(planeWidth: real, planeHeight: real,
                                 textureWidth: real, textureHeight: real): (r: Option<Vec2>)
    // only degenerate dimensions leave the scale undefined
    ensures r.None? ==> planeWidth == 0.0 || planeHeight == 0.0 || textureWidth == 0.0 || textureHeight == 0.0
    // scaleX / scaleY == planeRatio / textureRatio, cross-multiplied
    ensures r.Some? ==> r.value.x * textureWidth * planeHeight == r.value.y * planeWidth * textureHeight
    // one axis is untouched
    ensures r.Some? ==> r.value.x == 1.0 || r.value.y == 1.0
  {
    if planeHeight == 0.0 || textureHeight == 0.0 then None
    else
      var planeRatio := planeWidth / planeHeight;
      var textureRatio := textureWidth / textureHeight;
      if planeRatio > textureRatio then
        if textureRatio == 0.0 then None
        else
          assert planeRatio / textureRatio * textureRatio == planeRatio;
          Some(Vec2(planeRatio / textureRatio, 1.0))
      else
        if planeRatio == 0.0 then None
        else
          assert textureRatio / planeRatio * planeRatio == textureRatio;
          Some(Vec2(1.0, textureRatio / planeRatio))
  }

  /**
   * Cover fit: for positive dimensions the scale is defined, never shrinks
   * the texture, and exactly the axis along which the texture is too short
   * grows (so the other stays at 1.0).
   */
  lemma {:induction false} TextureScaleCovers(planeWidth: real, planeHeight: real,
                                              textureWidth: real, textureHeight: real)
    requires planeWidth > 0.0 && planeHeight > 0.0 && textureWidth > 0.0 && textureHeight > 0.0
    ensures CalculateTextureScale(planeWidth, planeHeight, textureWidth, textureHeight).Some?
    ensures var s := CalculateTextureScale(planeWidth, planeHeight, textureWidth, textureHeight).value;
      s.x >= 1.0 && s.y >= 1.0 && (s.x == 1.0 || s.y == 1.0)
  {
    var planeRatio := planeWidth / planeHeight;
    var textureRatio := textureWidth / textureHeight;
    assert textureRatio > 0.0;
    assert planeRatio > 0.0;
    if planeRatio > textureRatio {
      DivideGreaterIsAboveOne(planeRatio, textureRatio);
    } else {
      DivideGreaterIsAboveOne(textureRatio, planeRatio);
    }
  }

  lemma DivideGreaterIsAboveOne(a: real, b: real)
    requires 0.0 < b <= a
    ensures a / b >= 1.0
  {
    assert a / b * b == a;
  }

  /** Equal aspect ratios need no correction: the else branch returns (1, 1). */
  lemma TextureScaleSameAspect(width: real, height: real, k: real)
    requires width != 0.0 && height != 0.0 && k != 0.0
    ensures CalculateTextureScale(width, height, k * width, k * height) == Some(Vec2(1.0, 1.0))
  {
    var ratio := width / height;
    assert (k * width) / (k * height) == ratio;
    assert ratio != 0.0;
    assert ratio / ratio == 1.0;
  }

  /** A 16x9 plane over a 4x3 texture: the first branch, widening x by 4/3. */
  lemma TextureScaleSixteenNineOverFourThree()
    ensures CalculateTextureScale(16.0, 9.0, 4.0, 3.0) == Some(Vec2((16.0 / 9.0) / (4.0 / 3.0), 1.0))
    ensures CalculateTextureScale(16.0, 9.0, 4.0, 3.0) == Some(Vec2(4.0 / 3.0, 1.0))
  {
  }
}
