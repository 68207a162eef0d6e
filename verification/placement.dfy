/** The pure part of the `bmfont-text` component: the atlas image URL, the
    scale from layout pixels to scene units, the derived height, anchor
    resolution, and the transform the text mesh ends up with. Arithmetic is
    over `real`; IEEE rounding is not modelled. */
module Placement {
  import opened JsString

  /** The wrap width, in layout pixels, handed to the layout engine on every update. */
  const TextRenderWidth: real := 1000.0

  /** `Math.PI`, the angle the mesh is turned about its Y axis. */
  const Pi: real := 3.141592653589793

  /** The key of the entity's object map under which the text mesh is published. */
  const BmfontKey: string := "bmfont-text"

  /** The component's data record, after schema defaults have been applied.
      An empty `fntImage` or `anchor` is the JavaScript falsy value. */
  datatype TextData = TextData(
    text: string,
    width: real,
    height: real,
    align: string,
    letterSpacing: real,
    lineHeight: real,
    fnt: string,
    fntImage: string,
    mode: string,
    color: string,
    opacity: real,
    anchor: string)

  /** The schema defaults of the component. */
  const Defaults: TextData := TextData(
    "", 5.0, 0.0, "left", 0.0, 38.0,
    "https://cdn.rawgit.com/bryik/aframe-bmfont-text-component/aa0655cf90f646e12c40ab4708ea90b4686cfb45/assets/DejaVu-sdf.fnt",
    "", "normal", "#000", 1.0, "left")

  /** The two metrics of the layout engine's result that the component reads. */
  datatype LayoutMetrics = LayoutMetrics(height: real, descender: real)

  /** The options handed to the layout engine. */
  datatype LayoutOptions = LayoutOptions(
    text: string, width: real, align: string, letterSpacing: real, lineHeight: real, mode: string)

  datatype Vec3 = Vec3(x: real, y: real, z: real) {
    function Scaled(k: real): Vec3 { Vec3(x * k, y * k, z * k) }
    function Plus(v: Vec3): Vec3 { Vec3(x + v.x, y + v.y, z + v.z) }
    function Times(v: Vec3): Vec3 { Vec3(x * v.x, y * v.y, z * v.z) }
  }

  /** Position, Euler rotation and scale of a scene-graph object. */
  datatype Transform = Transform(position: Vec3, rotation: Vec3, scale: Vec3)

  /** The atlas image the loader fetches: `fntImage` when it is non-empty, else
      `fnt` with its first ".fnt" replaced by ".png". */
  function ImageUrl(fnt: string, fntImage: string): (url: string)
    ensures fntImage != "" ==> url == fntImage
    ensures fntImage == "" && !Occurs(fnt, ".fnt") ==> url == fnt
    ensures fntImage == "" && Occurs(fnt, ".fnt") ==> |url| == |fnt|
  {
    if fntImage != "" then fntImage else ReplaceFirst(fnt, ".fnt", ".png")
  }

  /** A descriptor URL whose first ".fnt" follows `pre` has just that ".fnt"
      turned into ".png"; a later ".fnt" in `post` is kept. */
  lemma ImageUrlSwapsFirstFnt(pre: string, post: string)
    requires !Occurs(pre, ".fnt")
    ensures ImageUrl(pre + ".fnt" + post, "") == pre + ".png" + post
  {
    var s := pre + ".fnt" + post;
    forall k | 0 <= k < |pre|
      ensures !OccursAt(s, ".fnt", k)
    {
      if k + 4 <= |pre| {
        assert !OccursAt(pre, ".fnt", k);
        assert s[k..k + 4] == pre[k..k + 4];
      } else {
        // an occurrence here would put one of 'f', 'n', 't' at index |pre|, which holds '.'
        var d := |pre| - k;
        assert s[k..k + 4][d] == s[|pre|] == '.';
        assert ".fnt"[d] != '.';
      }
    }
    ReplaceFirstAt(pre, ".fnt", post, ".png");
  }

  /** Scene units per layout pixel. */
  function TextScale(width: real): (s: real)
    ensures s * TextRenderWidth == width
  {
    width / TextRenderWidth
  }

  /** The height written back into the component data: the layout's vertical
      extent, height plus descender, in scene units. */
  function DerivedHeight(width: real, m: LayoutMetrics): (h: real)
    ensures width >= 0.0 && m.height + m.descender >= 0.0 ==> h >= 0.0
  {
    TextScale(width) * (m.height + m.descender)
  }

  /** The wrap box maps onto the configured width, and the derived height keeps
      the layout's proportions: height / width == (height + descender) / 1000. */
  lemma DerivedHeightKeepsAspect(width: real, m: LayoutMetrics)
    ensures TextScale(width) * TextRenderWidth == width
    ensures DerivedHeight(width, m) * TextRenderWidth == width * (m.height + m.descender)
  {
  }

  /** The anchor actually used: "align" and the empty anchor both mean `align`. */
  function ResolveAnchor(anchor: string, align: string): (r: string)
    ensures anchor == "align" || anchor == "" ==> r == align
    ensures anchor != "align" && anchor != "" ==> r == anchor
  {
    if anchor == "align" then align
    else if anchor != "" then anchor
    else align
  }

  /** Fraction of the extent the mesh is shifted back along one axis: none when
      the near edge is named, all of it when only the far edge is, half otherwise. */
  function Tiebreak(nearNamed: bool, farNamed: bool): (t: real)
    ensures 0.0 <= t <= 1.0
  {
    if nearNamed then 0.0 else if farNamed then 1.0 else 0.5
  }

  /** Offset along one axis for an anchor, with `near`/`far` the names of that
      axis's edges ("left"/"right" or "bottom"/"top"). */
  ghost function AxisOffset(anchor: string, near: string, far: string, extent: real): (r: real)
    ensures Occurs(anchor, near) ==> r == 0.0
    ensures !Occurs(anchor, near) && Occurs(anchor, far) ==> r == -extent
    ensures !Occurs(anchor, near) && !Occurs(anchor, far) ==> r == -extent / 2.0
  {
    -(extent * Tiebreak(Occurs(anchor, near), Occurs(anchor, far)))
  }

  /** For a non-negative extent the offset never leaves the extent: the origin
      lies on the text's box along that axis. */
  lemma AxisOffsetWithinExtent(anchor: string, near: string, far: string, extent: real)
    requires extent >= 0.0
    ensures -extent <= AxisOffset(anchor, near, far, extent) <= 0.0
  {
  }

  /** The transform the text mesh has when it is published: turned a half turn
      about Y, scaled uniformly so that the wrap width becomes `-width`, and
      shifted within the text's extent on x, with z left at 0. */
  ghost function PublishedTransform(data: TextData, m: LayoutMetrics): (t: Transform)
    ensures t.rotation == Vec3(0.0, Pi, 0.0)
    ensures t.scale.x == t.scale.y == t.scale.z && t.scale.x * TextRenderWidth == -data.width
    ensures data.width >= 0.0 ==> -data.width <= t.position.x <= 0.0
    ensures t.position.z == 0.0
  {
    var s := TextScale(data.width);
    var anchor := ResolveAnchor(data.anchor, data.align);
    Transform(
      Vec3(AxisOffset(anchor, "left", "right", data.width),
           AxisOffset(anchor, "bottom", "top", DerivedHeight(data.width, m)),
           0.0),
      Vec3(0.0, Pi, 0.0),
      Vec3(-s, -s, -s))
  }

  /** Rotation by a half turn about Y. */
  function HalfTurnY(v: Vec3): Vec3 {
    Vec3(-v.x, v.y, -v.z)
  }

  /** Where a point of the mesh's own (layout pixel) space lands in the parent's
      space, for a transform turned a half turn about Y: scale, then rotate, then
      translate. */
  function ToParent(t: Transform, p: Vec3): Vec3
    requires t.rotation == Vec3(0.0, Pi, 0.0)
  {
    t.position.Plus(HalfTurnY(t.scale.Times(p)))
  }

  /** Mirroring by -scale and turning by a half turn leave the layout's x axis
      pointing the same way: a layout point (px, py, pz) lands at
      (xOffset + s*px, yOffset - s*py, s*pz). */
  lemma LayoutPointInParent(data: TextData, m: LayoutMetrics, p: Vec3)
    ensures var t := PublishedTransform(data, m);
            var s := TextScale(data.width);
            ToParent(t, p) == Vec3(t.position.x + s * p.x, t.position.y - s * p.y, s * p.z)
  {
  }

  /** The wrap box, 0 to 1000 layout pixels, spans exactly `width` scene units. */
  lemma WrapBoxSpansWidth(data: TextData, m: LayoutMetrics, y: real, z: real)
    ensures var t := PublishedTransform(data, m);
            ToParent(t, Vec3(TextRenderWidth, y, z)).x - ToParent(t, Vec3(0.0, y, z)).x == data.width
  {
  }

  /** The point of the wrap box named by the resolved anchor sits at the entity's
      origin: its left edge for "left", its right edge for "right" alone, its
      middle otherwise. */
  lemma AnchoredEdgeAtOrigin(data: TextData, m: LayoutMetrics, y: real, z: real)
    ensures var t := PublishedTransform(data, m);
            var a := ResolveAnchor(data.anchor, data.align);
            && (Occurs(a, "left") ==> ToParent(t, Vec3(0.0, y, z)).x == 0.0)
            && (!Occurs(a, "left") && Occurs(a, "right") ==>
                  ToParent(t, Vec3(TextRenderWidth, y, z)).x == 0.0)
            && (!Occurs(a, "left") && !Occurs(a, "right") ==>
                  ToParent(t, Vec3(TextRenderWidth / 2.0, y, z)).x == 0.0)
  {
  }

  /** The axes are independent: the x offset depends only on the width and the
      resolved anchor, the y offset only on the derived height and the resolved anchor. */
  lemma OffsetsIndependent(d1: TextData, m1: LayoutMetrics, d2: TextData, m2: LayoutMetrics)
    requires ResolveAnchor(d1.anchor, d1.align) == ResolveAnchor(d2.anchor, d2.align)
    ensures d1.width == d2.width ==> PublishedTransform(d1, m1).position.x == PublishedTransform(d2, m2).position.x
    ensures DerivedHeight(d1.width, m1) == DerivedHeight(d2.width, m2) ==>
              PublishedTransform(d1, m1).position.y == PublishedTransform(d2, m2).position.y
  {
  }

  /** With the schema defaults the scale factor is 0.005, the text is
      left-anchored at x == 0 and vertically centred. */
  lemma DefaultPlacement(m: LayoutMetrics)
    ensures TextScale(Defaults.width) == 0.005
    ensures PublishedTransform(Defaults, m).scale == Vec3(-0.005, -0.005, -0.005)
    ensures PublishedTransform(Defaults, m).position.x == 0.0
    ensures PublishedTransform(Defaults, m).position.y == -DerivedHeight(Defaults.width, m) / 2.0
  {
    assert OccursAt("left", "left", 0);
    assert !Occurs("left", "bottom");
    assert !Occurs("left", "top") by {
      forall k ensures !OccursAt("left", "top", k) {
        if 0 <= k && k + 3 <= 4 {
          assert "left"[k] != 't';
        }
      }
    }
  }
}
