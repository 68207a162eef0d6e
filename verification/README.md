# bmfont-text placement, modelled in Dafny

This project models the core of the A-Frame `bmfont-text` component (`index.js`). The component renders a string as a signed-distance-field text mesh. The model covers what its `update` handler computes and changes once the font and atlas texture have loaded:

- the atlas image URL it asks the texture loader for;
- the fixed wrap width of 1000 layout pixels and the scale factor `width / 1000` from layout pixels to scene units;
- the derived `height`, which is written back into the component data;
- the half-turn about Y and the uniform scale of `-textScale` that orient the mesh;
- the anchor resolution and the x/y position offsets;
- publishing the mesh under the `'bmfont-text'` key of the entity's object map, and removing it again in `remove`.

Files:

- `jsstring.dfy` (module `JsString`): the JavaScript `indexOf` and first-occurrence `replace` that the component relies on. `Occurs` is an existential reference meaning of "contains"; `IndexOf` is proved to return the first occurrence or -1.
- `placement.dfy` (module `Placement`): the component's data record and schema defaults. It holds the pure formulas (`ImageUrl`, `TextScale`, `DerivedHeight`, `ResolveAnchor`, `AxisOffset`) and the specification `PublishedTransform` of the transform the mesh ends up with. Lemmas relate these to each other and to the mesh's geometry (`ToParent`: scale, then rotate, then translate, as the scene graph composes an object's matrix).
- `component.dfy` (module `BmfontText`): the classes whose fields change. `Mesh` holds a transform that starts as the identity. `Entity` holds the object map. `TextComponent` holds the data record, and its `Update`, `Start` and `Remove` methods change the data, the mesh and the map step by step, as the handlers do. `Start` computes the offsets with `IndexOf` and `-=`, as the source does, and is proved to produce exactly `PublishedTransform`.

The asynchronous loaders are parameters of `Update`. The font either failed or loaded; if it loaded, the layout engine's two metrics (`layout.height`, `layout.descender`) come with it as opaque inputs. The texture either arrived or did not. The texture loader is given only a success callback, so a texture that fails to load means nothing is ever published. A font error is thrown before anything changes.

Two choices of the code shape the model. The scale factor divides by the fixed wrap width 1000, not by the layout's own width. The schema's default anchor is `left`.

## Model

| member | source | states |
|---|---|---|
| JsString.IndexOf | index.js:145-150 | `indexOf`: -1 exactly when the pattern does not occur; otherwise an occurrence with no earlier one |
| JsString.ReplaceFirst | index.js:81 | `replace` with a string pattern: the input is unchanged when the pattern is absent; otherwise the length changes by `|rep| - |pat|` |
| JsString.ReplaceFirstAt | index.js:81 | only the first occurrence is replaced: `pre + pat + post` becomes `pre + rep + post` when `pat` first occurs after `pre`, even if `post` contains `pat` |
| Placement.ImageUrl | index.js:81 | a non-empty `fntImage` is used as it is; otherwise `fnt` is used, unchanged when it has no ".fnt", and the same length when it has one |
| Placement.ImageUrlSwapsFirstFnt | index.js:81 | for a descriptor URL `pre + ".fnt" + post`, where `pre` has no ".fnt", the image URL is `pre + ".png" + post`; a later ".fnt" is kept |
| Placement.TextScale | index.js:119 | the scale factor times the wrap width 1000 gives back the configured width |
| Placement.DerivedHeight | index.js:126 | the derived height is non-negative whenever the width and the layout's height plus descender are |
| Placement.DerivedHeightKeepsAspect | index.js:119-126 | `textScale * 1000 == width`, and `height * 1000 == width * (layout.height + layout.descender)`: the height keeps the layout's proportions |
| Placement.ResolveAnchor | index.js:144 | the anchor "align" and the empty anchor both resolve to `align`; any other anchor resolves to itself |
| Placement.Tiebreak | index.js:145-150 | the fraction of the extent the mesh is shifted back lies between 0 and 1 |
| Placement.AxisOffset | index.js:145-150 | the offset is 0 when the anchor contains the near edge ("left"/"bottom"), even if it also contains the far edge; otherwise minus the extent when it contains the far edge ("right"/"top"); otherwise minus half the extent |
| Placement.AxisOffsetWithinExtent | index.js:145-150 | for a non-negative extent the offset lies in `[-extent, 0]` |
| Placement.PublishedTransform | index.js:137-150 | the published transform is a half turn about Y, a uniform scale that takes the wrap width to `-width`, a z of 0, and for a non-negative width an x offset within `[-width, 0]` |
| Placement.LayoutPointInParent | index.js:137-150 | the half-turn about Y and the scale of `-textScale` map a layout point `(px, py, pz)` to `(xOffset + s*px, yOffset - s*py, s*pz)`: the text is not mirrored left to right |
| Placement.WrapBoxSpansWidth | index.js:89-141 | the wrap box, from 0 to 1000 layout pixels, spans exactly `width` scene units in the parent |
| Placement.AnchoredEdgeAtOrigin | index.js:143-150 | the entity's origin sits at the wrap box's left edge for a "left" anchor, at its right edge for "right" alone, and at its middle otherwise |
| Placement.OffsetsIndependent | index.js:144-150 | the x offset depends only on the width and the resolved anchor; the y offset depends only on the derived height and the resolved anchor |
| Placement.DefaultPlacement | index.js:20-62 | with the schema defaults (width 5, anchor "left"), the scale factor is 0.005, the mesh scale is -0.005 on every axis, x is 0, and y is minus half the height |
| BmfontText.RequestFor | index.js:79-82 | the `opt` record handed to the loader: the font URL is `fnt`; the image URL is `fntImage` when that is non-empty, and `fnt` when neither holds ".fnt" |
| BmfontText.Mesh.constructor | index.js:122 | a new mesh has position and rotation 0 and scale 1 |
| BmfontText.Entity.SetObject3D | index.js:153 | the key now maps to the object; every other key is unchanged |
| BmfontText.Entity.RemoveObject3D | index.js:162 | the key is gone; every other key is unchanged |
| BmfontText.TextComponent.Start | index.js:84-154 | the data gets the derived height and nothing else changes in it; a fresh mesh is published under 'bmfont-text' with transform `PublishedTransform(data, metrics)`, laid out with wrap width 1000 and the data's text, align, letter spacing, line height and mode; every other key of the object map is unchanged |
| BmfontText.TextComponent.Update | index.js:73-181 | hands the loader `fnt` and the image URL; the font is fetched first and the image only after the font has loaded; a font error is reported and leaves data and map unchanged; a missing texture leaves them unchanged; otherwise the data gets the derived height and a fresh mesh with `PublishedTransform`, the metrics and the layout options of `Start` is published under 'bmfont-text', every other key unchanged |
| BmfontText.TextComponent.Remove | index.js:161-163 | the 'bmfont-text' key is removed from the object map and every other key is unchanged |

## Left out

- Font and texture loading (`fontLoader`, `loadFont`, the texture loader): these are asynchronous I/O. Their outcomes are parameters of `Update`.
- The glyph layout and geometry built by the external `three-bmfont-text` library: its `layout.height` and `layout.descender` are inputs. The library is not part of this model.
- The SDF shader and material (color, opacity, double-sided, transparency) and the texture's `needsUpdate` and `anisotropy` flags: these are renderer calls whose internals are not part of this model.
- `console.log` diagnostics and the guard that throws when A-Frame is absent.
- The commented-out legacy width code and the back-propagation to a sibling geometry component: neither is executed.
- The unused `textscale` schema field.
- The `a-text` primitive in `extras/text-primitive.js`: it is a table of attribute mappings with no logic. Its default anchor "align" is covered by `ResolveAnchor`.
- Floating point: arithmetic is over `real`, and `Math.PI` is the shortest decimal, 3.141592653589793, that rounds to its double value. `ToParent` treats the rotation by that value as an exact half turn.
- Schema parsing: the data record is taken after A-Frame has applied the defaults. An unset string is the empty string, which is JavaScript's falsy value, as `fntImage` and `anchor` use it.
- Overlapping in-flight loads are not modelled: `Update` runs the requests and their callbacks as one step, so a load that finishes after a newer update cannot be expressed. The code has nothing that would discard such a late load.
- Positions in strings: a `char` is a Unicode scalar value, while JavaScript's `indexOf` counts UTF-16 code units. Only whether the result is negative is used, and that is the same in both.
- The scene-graph side of attaching an object: `Entity` keeps only the key-to-object map.
