/** The stateful side of the `bmfont-text` component: the text mesh whose
    transform is set field by field, the entity's object map the mesh is
    published in, and the component whose `update` and `remove` handlers
    change them. */
module BmfontText {
  import opened JsString
  import opened Placement

  /** A text mesh: the options its geometry was laid out with, the metrics the
      layout reported, and its transform, which starts as the identity. */
  class Mesh {
    const options: LayoutOptions
    const metrics: LayoutMetrics
    var position: Vec3
    var rotation: Vec3
    var scale: Vec3

    constructor (options: LayoutOptions, metrics: LayoutMetrics)
      ensures this.options == options && this.metrics == metrics
      ensures position == Vec3(0.0, 0.0, 0.0) && rotation == Vec3(0.0, 0.0, 0.0)
      ensures scale == Vec3(1.0, 1.0, 1.0)
    {
      this.options := options;
      this.metrics := metrics;
      position := Vec3(0.0, 0.0, 0.0);
      rotation := Vec3(0.0, 0.0, 0.0);
      scale := Vec3(1.0, 1.0, 1.0);
    }

    function Transform(): Transform
      reads this
    {
      Placement.Transform(position, rotation, scale)
    }
  }

  /** The host entity, reduced to its map from keys to attached objects. */
  class Entity {
    var objects: map<string, Mesh>

    constructor (objects: map<string, Mesh>)
      ensures this.objects == objects
    {
      this.objects := objects;
    }

    /** Attach `obj` under `key`, replacing whatever was there. */
    method SetObject3D(key: string, obj: Mesh)
      modifies this
      ensures objects == old(objects)[key := obj]
    {
      objects := objects[key := obj];
    }

    /** Detach whatever is attached under `key`. */
    method RemoveObject3D(key: string)
      modifies this
      ensures objects == old(objects) - {key}
    {
      objects := objects - {key};
    }
  }

  /** What the font loader reports: the descriptor failed to load, or it loaded
      and the layout engine laid the text out with these metrics. */
  datatype FontLoad = FontFailed | FontLoaded(metrics: LayoutMetrics)

  /** The `opt` record handed to the font loader: the descriptor URL, fetched
      first, and the image URL, fetched only once the descriptor has loaded. */
  datatype LoadRequest = LoadRequest(font: string, image: string)

  /** How an update ended: the font error was thrown, the texture never
      arrived, or the new mesh was published. */
  datatype UpdateOutcome = FontLoadError | AwaitingTexture | Published

  /** The URLs requested for `data`. */
  function RequestFor(data: TextData): (req: LoadRequest)
    ensures req.font == data.fnt
    ensures data.fntImage != "" ==> req.image == data.fntImage
    ensures data.fntImage == "" && !Occurs(data.fnt, ".fnt") ==> req.image == data.fnt
  {
    LoadRequest(data.fnt, ImageUrl(data.fnt, data.fntImage))
  }

  class TextComponent {
    var data: TextData
    const el: Entity

    constructor (el: Entity, data: TextData)
      ensures this.el == el && this.data == data
    {
      this.el := el;
      this.data := data;
    }

    /** The `update` handler: request the font and the atlas image, and once
        both have arrived lay the text out and publish it. A font error is
        thrown before anything changes; a texture that never arrives leaves
        everything as it was. */
    method Update(font: FontLoad, textureLoaded: bool)
      returns (req: LoadRequest, fetched: seq<string>, outcome: UpdateOutcome)
      modifies this, el
      ensures req == RequestFor(old(data))
      ensures fetched == if font.FontFailed? then [req.font] else [req.font, req.image]
      ensures outcome == (if font.FontFailed? then FontLoadError
                          else if !textureLoaded then AwaitingTexture
                          else Published)
      ensures outcome != Published ==> data == old(data) && el.objects == old(el.objects)
      ensures outcome == Published ==>
                && data == old(data).(height := DerivedHeight(old(data).width, font.metrics))
                && BmfontKey in el.objects
                && fresh(el.objects[BmfontKey])
                && el.objects == old(el.objects)[BmfontKey := el.objects[BmfontKey]]
                && el.objects[BmfontKey].Transform() == PublishedTransform(old(data), font.metrics)
                && el.objects[BmfontKey].options ==
                     LayoutOptions(old(data).text, TextRenderWidth, old(data).align,
                                   old(data).letterSpacing, old(data).lineHeight, old(data).mode)
                && el.objects[BmfontKey].metrics == font.metrics
    {
      req := LoadRequest(data.fnt, ImageUrl(data.fnt, data.fntImage));
      fetched := [req.font];
      if font.FontFailed? {
        outcome := FontLoadError;
        return;
      }
      fetched := fetched + [req.image];
      if !textureLoaded {
        outcome := AwaitingTexture;
        return;
      }
      Start(font.metrics);
      outcome := Published;
    }

    /** The loader callback: build the mesh, write the derived height back into
        the data, orient and scale the mesh, offset it by the anchor, publish it. */
    method Start(metrics: LayoutMetrics)
      modifies this, el
      ensures data == old(data).(height := DerivedHeight(old(data).width, metrics))
      ensures BmfontKey in el.objects
      ensures fresh(el.objects[BmfontKey])
      ensures el.objects == old(el.objects)[BmfontKey := el.objects[BmfontKey]]
      ensures el.objects[BmfontKey].Transform() == PublishedTransform(old(data), metrics)
      ensures el.objects[BmfontKey].metrics == metrics
      ensures el.objects[BmfontKey].options ==
                LayoutOptions(data.text, TextRenderWidth, data.align, data.letterSpacing,
                              data.lineHeight, data.mode)
    {
      var options := LayoutOptions(data.text, TextRenderWidth, data.align, data.letterSpacing,
                                   data.lineHeight, data.mode);
      var text := new Mesh(options, metrics);
      var textScale := TextScale(data.width);
      data := data.(height := DerivedHeight(data.width, metrics));

      text.rotation := text.rotation.(y := Pi);
      text.scale := text.scale.Scaled(-textScale);
      assert text.scale == Vec3(1.0 * -textScale, 1.0 * -textScale, 1.0 * -textScale);

      var anchor := ResolveAnchor(data.anchor, data.align);
      if IndexOf(anchor, "left") < 0 {
        text.position := text.position.(x := text.position.x -
          data.width * (if IndexOf(anchor, "right") >= 0 then 1.0 else 0.5));
      }
      assert text.position.x == AxisOffset(anchor, "left", "right", data.width);
      if IndexOf(anchor, "bottom") < 0 {
        text.position := text.position.(y := text.position.y -
          data.height * (if IndexOf(anchor, "top") >= 0 then 1.0 else 0.5));
      }
      assert text.position.y == AxisOffset(anchor, "bottom", "top", data.height);
      assert text.rotation == Vec3(0.0, Pi, 0.0);
      assert text.scale == Vec3(-textScale, -textScale, -textScale);
      assert text.position.z == 0.0;
      assert anchor == ResolveAnchor(old(data).anchor, old(data).align);

      el.SetObject3D(BmfontKey, text);
    }

    /** The `remove` handler: detach the text mesh; nothing else is touched. */
    method Remove()
      modifies el
      ensures el.objects == old(el.objects) - {BmfontKey}
      ensures BmfontKey !in el.objects
    {
      el.RemoveObject3D(BmfontKey);
    }
  }
}
