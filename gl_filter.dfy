/** The image filter page (pages/gl-filter/main.ts): an image drawn on a plane whose texture
    coordinates are cropped, in place, to a centred window of the image, and the aspect-fit
    scale of the mesh on screen. */
module GlFilter {
  import opened Common

  /** Scale factors along x and y. */
  datatype Scale = Scale(x: real, y: real)

  // --------------------------------------------------------------- the scale choices

  /** The UV crop of `setup` against the unit plane (`planeAspect = 1`): the longer axis of the
      image is scaled down by its aspect ratio, the other is kept. */
  function SetupScale(width: real, height: real): (s: Scale)
    requires 0.0 < width && 0.0 < height
    ensures s.x == 1.0 || s.y == 1.0
    ensures 0.0 < s.x <= 1.0 && 0.0 < s.y <= 1.0
  {
    var planeAspect := 1.0;
    var imageAspect := width / height;
    if imageAspect > planeAspect then
      RatioBound(planeAspect, imageAspect);
      Scale(planeAspect / imageAspect, 1.0)
    else Scale(1.0, imageAspect / planeAspect)
  }

  /** At most one axis is scaled, both factors lie in (0, 1], and `scaleY = scaleX * width /
      height`: measured in image pixels the cropped window is square, which is what a unit
      plane shows undistorted. (The source builds the plane at the image's own width and
      height, while the crop assumes `planeAspect = 1`.) */
  lemma SetupScaleShape(width: real, height: real)
    requires 0.0 < width && 0.0 < height
    ensures var s := SetupScale(width, height);
      && (s.x == 1.0 || s.y == 1.0)
      && 0.0 < s.x <= 1.0 && 0.0 < s.y <= 1.0
      && s.y == s.x * (width / height)
    ensures (width > height ==> SetupScale(width, height).x == height / width)
    ensures (width <= height ==> SetupScale(width, height).y == width / height)
  {
    var ia := width / height;
    assert width > height <==> ia > 1.0;
    if ia > 1.0 {
      assert 1.0 / ia < 1.0;
      assert (1.0 / ia) * ia == 1.0;
      assert 1.0 / ia == height / width;
    }
  }

  /** The mesh scale of `updateMeshUVs`: the image is fitted inside the screen, full size along
      the axis where it is relatively longer. */
  function FitScale(screenAspect: real, imageAspect: real): (s: Scale)
    requires 0.0 < screenAspect && 0.0 < imageAspect
    ensures s.x == 1.0 || s.y == 1.0
    ensures 0.0 < s.x <= 1.0 && 0.0 < s.y <= 1.0
  {
    if imageAspect > screenAspect then
      RatioBound(screenAspect, imageAspect);
      Scale(1.0, screenAspect / imageAspect)
    else
      RatioBound(imageAspect, screenAspect);
      Scale(imageAspect / screenAspect, 1.0)
  }

  /** The larger factor is 1, both lie in (0, 1], and `scaleX / scaleY` is `imageAspect /
      screenAspect`. */
  lemma FitScaleShape(screenAspect: real, imageAspect: real)
    requires 0.0 < screenAspect && 0.0 < imageAspect
    ensures var s := FitScale(screenAspect, imageAspect);
      && (s.x == 1.0 || s.y == 1.0)
      && 0.0 < s.x <= 1.0 && 0.0 < s.y <= 1.0
      && s.x * screenAspect == s.y * imageAspect
  {
    var s := FitScale(screenAspect, imageAspect);
    if imageAspect > screenAspect {
      RatioBound(screenAspect, imageAspect);
    } else {
      RatioBound(imageAspect, screenAspect);
    }
  }

  /** A positive ratio whose numerator is at most its denominator lies in (0, 1]. */
  lemma RatioBound(a: real, b: real)
    requires 0.0 < a <= b
    ensures 0.0 < a / b <= 1.0 && (a / b) * b == a
  {
    assert a / b <= b / b;
  }

  // --------------------------------------------------------------- the UV rewrite

  /** `(t - 0.5) * scale + 0.5`: scale a texture coordinate about the texture centre. */
  function Rescale(t: real, scale: real): real
  {
    (t - 0.5) * scale + 0.5
  }

  /** The centre stays put, a factor of 1 changes nothing, and scaling by 1/s undoes s. */
  lemma RescaleFixes(t: real, s: real)
    ensures Rescale(0.5, s) == 0.5
    ensures Rescale(t, 1.0) == t
    ensures s != 0.0 ==> Rescale(Rescale(t, s), 1.0 / s) == t
  {
    if s != 0.0 {
      assert (t - 0.5) * s * (1.0 / s) == t - 0.5;
    }
  }

  /** With a factor in (0, 1] a coordinate of [0, 1] lands in the centred window
      [0.5 - s/2, 0.5 + s/2], so it stays in [0, 1]. */
  lemma RescaleWindow(t: real, s: real)
    requires 0.0 <= t <= 1.0 && 0.0 < s <= 1.0
    ensures 0.5 - s / 2.0 <= Rescale(t, s) <= 0.5 + s / 2.0
    ensures 0.0 <= Rescale(t, s) <= 1.0
  {
    var d := t - 0.5;
    assert -0.5 <= d <= 0.5;
    assert -0.5 * s <= d * s <= 0.5 * s by {
      assert (d + 0.5) * s >= 0.0;
      assert (0.5 - d) * s >= 0.0;
    }
  }

  /** The buffer after the loop: u entries (even positions) scaled by sx, v entries by sy. */
  function RescaledUvs(uv: seq<real>, s: Scale): (r: seq<real>)
    ensures |r| == |uv|
    ensures forall k :: 0 <= k < |uv| && uv[k] == 0.5 ==> r[k] == 0.5
    ensures s == Scale(1.0, 1.0) ==> r == uv
  {
    seq(|uv|, k requires 0 <= k < |uv| => Rescale(uv[k], if k % 2 == 0 then s.x else s.y))
  }

  /** `for (i = 0; i < uv.length; i += 2)`: rewrite each (u, v) pair in place. */
  method RewriteUvs(uv: array<real>, s: Scale)
    requires uv.Length % 2 == 0
    modifies uv
    ensures uv[..] == RescaledUvs(old(uv[..]), s)
  {
    var i := 0;
    while i < uv.Length
      invariant i % 2 == 0 && i <= uv.Length
      invariant forall k :: 0 <= k < i ==> uv[k] == Rescale(old(uv[k]), if k % 2 == 0 then s.x else s.y)
      invariant forall k :: i <= k < uv.Length ==> uv[k] == old(uv[k])
    {
      var u := uv[i];
      var v := uv[i + 1];
      var scaledU := (u - 0.5) * s.x + 0.5;
      var scaledV := (v - 0.5) * s.y + 0.5;
      uv[i] := scaledU;
      uv[i + 1] := scaledV;
      i := i + 2;
    }
  }

  /** After the setup crop, texture coordinates of [0, 1] stay in [0, 1], the length is
      unchanged, and every coordinate on the uncropped axis is unchanged. */
  lemma SetupRewriteBounds(uv: seq<real>, width: real, height: real, k: nat)
    requires 0.0 < width && 0.0 < height && k < |uv| && 0.0 <= uv[k] <= 1.0
    ensures var r, s := RescaledUvs(uv, SetupScale(width, height)), SetupScale(width, height);
      && |r| == |uv|
      && 0.0 <= r[k] <= 1.0
      && ((if k % 2 == 0 then s.x else s.y) == 1.0 ==> r[k] == uv[k])
  {
    var s := SetupScale(width, height);
    SetupScaleShape(width, height);
    RescaleWindow(uv[k], if k % 2 == 0 then s.x else s.y);
    RescaleFixes(uv[k], if k % 2 == 0 then s.x else s.y);
  }

  // ------------------------------------------------------------------ the filter

  class Filter {
    /** The container's client size, which is also the canvas size at a pixel ratio of 1. */
    var width: real
    var height: real
    /** The natural size of the loaded image, 0 until it loads. */
    var imageWidth: real
    var imageHeight: real
    /** The mesh's scale, absent before `setup` builds the mesh. */
    var meshScale: Option<Scale>

    constructor(width: real, height: real)
      ensures this.width == width && this.height == height
      ensures imageWidth == 0.0 && imageHeight == 0.0 && meshScale == None
    {
      this.width := width;
      this.height := height;
      imageWidth := 0.0;
      imageHeight := 0.0;
      meshScale := None;
    }

    /** `setup()` once the image has loaded: record its size, build the mesh at scale 1, and
        crop the plane's texture coordinates to the image's aspect ratio. */
    method Setup(loadedWidth: real, loadedHeight: real, uv: array<real>)
      requires 0.0 < loadedWidth && 0.0 < loadedHeight && uv.Length % 2 == 0
      modifies this, uv
      ensures imageWidth == loadedWidth && imageHeight == loadedHeight
      ensures width == old(width) && height == old(height)
      ensures meshScale == Some(Scale(1.0, 1.0))
      ensures uv[..] == RescaledUvs(old(uv[..]), SetupScale(loadedWidth, loadedHeight))
    {
      imageWidth, imageHeight := loadedWidth, loadedHeight;
      meshScale := Some(Scale(1.0, 1.0));
      var planeAspect := 1.0;
      var imageAspect := loadedWidth / loadedHeight;
      var scaleX, scaleY := 1.0, 1.0;
      if imageAspect > planeAspect {
        scaleX := planeAspect / imageAspect;
      } else {
        scaleY := imageAspect / planeAspect;
      }
      RewriteUvs(uv, Scale(scaleX, scaleY));
    }

    /** `updateMeshUVs()`: fit the image's aspect ratio into the screen's. */
    method UpdateMeshUVs()
      requires meshScale.Some? && 0.0 < width && 0.0 < height
      requires 0.0 < imageWidth && 0.0 < imageHeight
      modifies this`meshScale
      ensures meshScale == Some(FitScale(width / height, imageWidth / imageHeight))
    {
      var screenAspect := width / height;
      var imageAspect := imageWidth / imageHeight;
      var scaleX, scaleY := 1.0, 1.0;
      if imageAspect > screenAspect {
        scaleX := 1.0;
        scaleY := screenAspect / imageAspect;
      } else {
        scaleX := imageAspect / screenAspect;
        scaleY := 1.0;
      }
      meshScale := Some(Scale(scaleX, scaleY));
    }
  }
}
