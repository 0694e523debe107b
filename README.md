# PIXI → Skia translator and shape builders, modelled in Dafny

This project models the core of a TypeScript program that draws scenes with
PIXI.js and exports them to CanvasKit (Skia compiled to WebAssembly), and it
proves properties of that model.

The model covers the following parts:

- **The current translator** (`src/ts/core/pixi2skia/convert.ts`,
  module `Pixi2Skia`). It walks a PIXI scene tree and issues
  immediate-mode canvas calls:
  - four transform calls per Graphics object;
  - one `drawPath` per fill or stroke of each rectangle, circle or polygon;
  - one `drawImage` per sprite.

  Textures are preloaded one at a time, depth first. The same tree is then
  rendered onto the visible canvas and onto a recording canvas.
- **The earlier translator** (`src/ts/core/convert.ts`, module
  `LegacyConvert`). Sprites draw nothing, and polygons are always closed and
  filled. The module also holds the byte/Base64 helpers
  `canvasToUint8Array` and `uint8ArrayToBase64`, with Base64 as in section 4
  of RFC 4648 (module `Base64`).
- **The standalone renderers** (`src/ts/core/pixi2skia/shapes.ts`,
  module `SkiaShapes`).
- **The two shape-builder libraries**: `src/ts/core/pixi/wrapper.ts`
  (module `Wrapper`) and `src/ts/core/shapes.ts` (module `CoreShapes`).
  They build PIXI Graphics objects: name, `isClosed`, rotation about an
  anchor, style, and the drawing calls of each shape.
- **The QR-code scene** (`src/ts/scenes/qr_code.scene.ts`, module
  `QrCode`).
- **The striped container** (`src/ts/stripedContainer.ts`, module
  `StripedContainer`).
- **The colour table and the debug logger** (`src/ts/helpers.ts`, module
  `Helpers`).

## How the model is built

The model represents the two libraries and the data they exchange as
follows:

- **CanvasKit canvas** (`Skia.Canvas`): a class whose one field is the log
  of commands it received. Its save depth is a function of that log.
- **PIXI Graphics object** (`Pixi.Graphics`): a class holding the fields
  the builders set, plus the drawing calls made on it. `Record()` returns
  all of it as a value.
- **PIXI Container** (`Pixi.Container`): keeps its children in order, with
  a name and a hit area.
- **Scene tree the translators read** (`Scene.Node`): a value. Its
  Graphics nodes carry the `graphicsData` PIXI computed for them.

Every method that changes a canvas or a Graphics object is proved against a
function giving exactly what it appends or the state it leaves. The
lemmas then state what those functions mean:

- save/restore balance;
- the paint order inside a shape;
- which draws a style allows;
- the order in which the tree is visited;
- what the texture cache holds after a preload;
- vertex order and geometry of each shape;
- the QR grid layout and the stripe layout.

The helpers `degrees2radians`, `radians2degrees`, `decimal2RGBA`,
`parseColorString` and `string2hex` are not defined in the repository, and
neither are `Math.PI`, `Math.sqrt`, `cos` and `sin`. The model keeps them
as symbolic terms:

- angles are a `Geometry.Angle` term;
- colours are a `Skia.Colour` term;
- cos/sin are a function parameter `trig`;
- `Math.sqrt(3)` is a parameter `sqrt3`.

### Behaviour worth noting

- **Texture preload does not deduplicate keys.** Each sprite's key is
  loaded again, one load at a time in tree order, and the last load wins
  (src/ts/core/pixi2skia/convert.ts:298-309; `Pixi2Skia.LastLoadWins`,
  `Pixi2Skia.LoadsInOrder`).
- **A black polygon fill is never drawn.** `_renderPolygon` tests the fill
  colour for truthiness, so a `0x000000` fill, which is also the default
  for a missing fill style, draws no fill
  (src/ts/core/pixi2skia/convert.ts:158; `Primitives.ClosedPolygonAgainstPolygon`).
- **Containers are not transformed.** `_renderPixiContainer` applies no
  transform to a container and emits no save or restore for it; only
  Graphics objects are transformed
  (src/ts/core/pixi2skia/convert.ts:228-245; `Pixi2Skia.ContainerIsTransparent`).
- **Light and padding QR cells get no fill.** They ask for
  `getColor('white')`, which is not in the colour table
  (src/ts/scenes/qr_code.scene.ts:46-50, src/ts/helpers.ts:119;
  `QrCode.CellColour`).
- **The stripe container's hit area is too large.** It is built as
  `Rectangle(x, y, x + width, y + height)` (src/ts/stripedContainer.ts:31;
  `StripedContainer.CreateStripedContainer`, `StripedContainer.HitAreaAsWrittenOvershoots`);
  see Findings.

## Model

| member | source | states |
|---|---|---|
| Pixi2Skia.ApplyPixiTransformationsToSkia | src/ts/core/pixi2skia/convert.ts:12-35 | appends exactly the four calls of `TransformCommands`: translate(position), translate(−pivot·scale), rotate(radians2degrees(rotation), pivot·scale), scale(scale), and nothing else |
| Primitives.TransformCommands | src/ts/core/pixi2skia/convert.ts:12-35 | the four transform calls touch no save/restore and are only translate, rotate and scale |
| Primitives.TransformMatchesPixi | src/ts/core/pixi2skia/convert.ts:12-35 | the four canvas calls map every local point exactly where PIXI's local-to-parent transform puts it |
| Primitives.PivotLandsOnPosition | src/ts/core/pixi2skia/convert.ts:18-28 | under the four calls the pivot lands on the position |
| Pixi2Skia.ExtractPixiGraphicsData | src/ts/core/pixi2skia/convert.ts:44-61 | one segment per graphicsData entry, same order and shape; a missing fill or line style gives colour 0 and width 0; every segment carries the object's `isClosed` |
| Pixi2Skia.ExtractIgnoresVisibility | src/ts/core/pixi2skia/convert.ts:47-59 | the extraction reads only shape, colour and width: inputs that agree on these give the same segments |
| Pixi2Skia.RenderRectangle | src/ts/core/pixi2skia/convert.ts:73-101 | appends the closed rectangle path filled, then stroked iff lineWidth > 0 |
| Pixi2Skia.RenderCircle | src/ts/core/pixi2skia/convert.ts:113-135 | appends the circle path at (x, y, r) filled, then stroked iff lineWidth > 0 |
| Pixi2Skia.RenderPolygon | src/ts/core/pixi2skia/convert.ts:147-176 | appends the polygon path, closed iff isClosed, filled iff fillColor is truthy, then stroked iff lineWidth > 0 |
| Primitives.RectanglePathCorners | src/ts/core/pixi2skia/convert.ts:76-81 | the rectangle path visits (x,y), (x+w,y), (x+w,y+h), (x,y+h) in that order and is closed |
| Primitives.PolygonPathShape | src/ts/core/pixi2skia/convert.ts:148-155 | the polygon path is moveTo(p0,p1), then one lineTo per later pair in order, then close iff closed |
| Primitives.TracePolygon | src/ts/core/pixi2skia/convert.ts:148-155 | the path-building loop yields exactly the polygon path |
| Primitives.PolygonPathRoundTrip | src/ts/core/pixi2skia/convert.ts:148-155 | reading the polygon path back gives the original coordinate list and the closed flag |
| Primitives.OpenPathVertices | src/ts/core/pixi2skia/convert.ts:149-153 | a moveTo to the first vertex and a lineTo to each later one visit exactly the vertex list |
| Primitives.Pairs | src/ts/core/pixi2skia/convert.ts:149-153 | an even coordinate list denotes |s|/2 vertices, the k-th being (s[2k], s[2k+1]) |
| Primitives.FlattenPairs | src/ts/core/pixi2skia/convert.ts:149-153 | writing the vertices back out gives the coordinate list |
| Primitives.LineTosVertices | src/ts/core/pixi2skia/convert.ts:151-153 | the lineTo calls visit the vertices in list order |
| Primitives.PaintPassesOrder | src/ts/core/pixi2skia/convert.ts:95-100 | the draws of one shape are path draws on the same path: at most one fill, then a stroke iff lineWidth > 0, and nothing on the save stack |
| Primitives.ClosedPolygonAgainstPolygon | src/ts/core/convert.ts:83-110 | the always-filled closed polygon equals the current translator's closed polygon when the fill colour is non-zero; with fill 0 it adds exactly the fill the current one omits |
| Pixi2Skia.RenderSegment | src/ts/core/pixi2skia/convert.ts:199-213 | a segment dispatches on RECT, CIRC, POLY; any other type appends nothing |
| Pixi2Skia.RenderSegments | src/ts/core/pixi2skia/convert.ts:199-213 | the segments are rendered in list order |
| Pixi2Skia.RenderPixiGraphics | src/ts/core/pixi2skia/convert.ts:187-217 | appends save, the transform, the segments' commands, restore |
| Pixi2Skia.SegmentPaintOrder | src/ts/core/pixi2skia/convert.ts:199-213 | one segment draws only paths, at most two, the fill before the stroke |
| Pixi2Skia.SegmentsOnlyDrawPaths | src/ts/core/pixi2skia/convert.ts:199-213 | the segments of a Graphics object draw only paths and touch no save/restore |
| Pixi2Skia.SegmentsPaintCounts | src/ts/core/pixi2skia/convert.ts:199-213 | the segments draw exactly one fill per filled segment and one stroke per stroked one |
| Pixi2Skia.UnsupportedSegmentSkipped | src/ts/core/pixi2skia/convert.ts:209-212 | an entry of an unsupported type is skipped: removing it changes nothing, and nothing throws |
| Pixi2Skia.GraphicsBracketed | src/ts/core/pixi2skia/convert.ts:187-217 | a Graphics object's commands open with save, then the four transform calls, and close with restore; between them nothing touches the stack; the save depth is unchanged |
| Pixi2Skia.RenderPixiSprite | src/ts/core/pixi2skia/convert.ts:256-265 | appends exactly one drawImage of the cache entry for the first texture id at (x, y), with no check for a miss |
| Pixi2Skia.RenderPixiContainer | src/ts/core/pixi2skia/convert.ts:228-245 | the children are rendered in list order |
| Pixi2Skia.RenderPixiChild | src/ts/core/pixi2skia/convert.ts:234-243 | a child is tested as Sprite, then Graphics, then Container |
| Pixi2Skia.ContainerIsTransparent | src/ts/core/pixi2skia/convert.ts:228-245 | a container adds no transform, save or restore: nesting children in one changes nothing |
| Pixi2Skia.ContainerNeutral | src/ts/core/pixi2skia/convert.ts:228-245 | rendering any tree leaves the save depth as it found it |
| Pixi2Skia.NodeNeutral | src/ts/core/pixi2skia/convert.ts:234-243 | rendering any one child leaves the save depth as it found it |
| Pixi2Skia.ImageDrawsFollowSprites | src/ts/core/pixi2skia/convert.ts:228-265 | the image draws of a render are one per reachable sprite, in depth-first order |
| Pixi2Skia.NodeImageDraws | src/ts/core/pixi2skia/convert.ts:234-243 | one child's image draws are those of its sprites, in depth-first order |
| Pixi2Skia.GraphicsDrawNoImages | src/ts/core/pixi2skia/convert.ts:187-217 | a Graphics object draws no image |
| Pixi2Skia.TextureCache.Set | src/ts/core/pixi2skia/convert.ts:304 | `Map.set`: a repeated key is overwritten |
| Pixi2Skia.TextureLoader.Load | src/ts/core/pixi2skia/convert.ts:277-294 | each load is logged in order, and its answer depends on its position and request only |
| Pixi2Skia.ParseTextures | src/ts/core/pixi2skia/convert.ts:297-312 | the cache, the load log and the outcome are those of loading the walk's requests one at a time, stopping at the first failure |
| Pixi2Skia.ParseChild | src/ts/core/pixi2skia/convert.ts:298-309 | a sprite loads its first texture id at its width and height; a container recurses; anything else loads nothing |
| Pixi2Skia.PreloadTextures | src/ts/core/pixi2skia/convert.ts:275-319 | the preload starts from an empty map and is the sequential load of every reachable sprite's texture, in depth-first order |
| Pixi2Skia.LoadsInOrder | src/ts/core/pixi2skia/convert.ts:298-309 | loads happen one at a time in request order; every load before the last succeeded; a failure stops the preload at the request that failed |
| Pixi2Skia.FailureStops | src/ts/core/pixi2skia/convert.ts:289-291 | once a load has thrown, nothing more is loaded or stored |
| Pixi2Skia.LoadLast | src/ts/core/pixi2skia/convert.ts:302-304 | the last load of a successful preload stores its image under its url after all the earlier ones |
| Pixi2Skia.LoadedKeys | src/ts/core/pixi2skia/convert.ts:297-312 | after a successful preload the cache holds exactly the keys it held plus every requested url |
| Pixi2Skia.UnrequestedKept | src/ts/core/pixi2skia/convert.ts:297-312 | a key no request names keeps its image |
| Pixi2Skia.LastLoadWins | src/ts/core/pixi2skia/convert.ts:300-304 | a repeated url maps to the image of its last load: no deduplication |
| Pixi2Skia.ChainPreloads | src/ts/core/pixi2skia/convert.ts:298-309 | a successful preload of one list followed by a preload of the next is the preload of both |
| Pixi2Skia.FailedPreloadStops | src/ts/core/pixi2skia/convert.ts:298-309 | a preload that failed on a prefix fails the whole walk with nothing further loaded |
| Pixi2Skia.NoCacheMissAfterPreload | src/ts/core/pixi2skia/convert.ts:261-264 | after a successful preload, no drawImage of the render receives `undefined` |
| Pixi2Skia.SpriteDrawsHit | src/ts/core/pixi2skia/convert.ts:261-264 | sprites whose keys are all cached draw only defined images |
| Pixi2Skia.Convert | src/ts/core/pixi2skia/convert.ts:330-394 | a failed preload rejects before any canvas exists; otherwise the visible and capture canvases get the same commands, the container's render, at depth 0; the drawing callback completes iff the capture is truthy (a falsy one ends in the throwing debugLog('err')), and calls back iff a callback was given |
| Scene.SpritesIn | src/ts/core/pixi2skia/convert.ts:228-245 | the sprites a render reaches, depth first, are all sprites |
| Scene.RenderedSpritesRequested | src/ts/core/pixi2skia/convert.ts:297-312 | every sprite a render reaches had its texture requested by the preload |
| Scene.RenderedSpriteRequested | src/ts/core/pixi2skia/convert.ts:298-309 | every sprite reached through one child had its texture requested through that child |
| Scene.UrlsMembers | src/ts/core/pixi2skia/convert.ts:301-304 | a url is in the cache's key set exactly when some request names it |
| LegacyConvert.ApplyTransformationsToSkia | src/ts/core/convert.ts:5-26 | appends the same four transform calls, in the same order, as the current translator |
| LegacyConvert.ExtractGraphicsData | src/ts/core/convert.ts:236-253 | one item per entry, same order and shape, with the 0/0 defaults and no `isClosed` |
| LegacyConvert.ExtractionsAgree | src/ts/core/convert.ts:236-253 | the two extractions agree on shape and style, except that the legacy one carries no `isClosed` |
| LegacyConvert.DrawRectangle | src/ts/core/convert.ts:28-56 | appends the closed rectangle path filled, then stroked iff lineWidth > 0 |
| LegacyConvert.DrawCircle | src/ts/core/convert.ts:58-80 | appends the circle path filled, then stroked iff lineWidth > 0 |
| LegacyConvert.DrawPolygon | src/ts/core/convert.ts:83-110 | appends the polygon path, always closed and always filled, then stroked iff lineWidth > 0 |
| LegacyConvert.RenderItem | src/ts/core/convert.ts:120-134 | an item dispatches on RECT, CIRC, POLY; any other type appends nothing |
| LegacyConvert.RenderItems | src/ts/core/convert.ts:120-134 | the items are rendered in list order |
| LegacyConvert.RenderGraphics | src/ts/core/convert.ts:112-137 | appends save, the transform, the items' commands, restore |
| LegacyConvert.RenderContainer | src/ts/core/convert.ts:139-155 | the children are rendered in list order |
| LegacyConvert.RenderChild | src/ts/core/convert.ts:140-154 | a sprite appends nothing, a Graphics is rendered, a container recursed |
| LegacyConvert.ConvertPixiContainerToSkia | src/ts/core/convert.ts:256-271 | the canvas is cleared with getColor('carbon') and then the container is rendered |
| LegacyConvert.ItemPaintOrder | src/ts/core/convert.ts:120-134 | a supported item always draws its fill, then its stroke iff lineWidth > 0; an unsupported one draws nothing |
| LegacyConvert.PolygonItemClosed | src/ts/core/convert.ts:83-110 | every draw of a polygon item is on the closed polygon path |
| LegacyConvert.ItemsOnlyDrawPaths | src/ts/core/convert.ts:120-134 | the items draw only paths and touch no save/restore |
| LegacyConvert.LegacyGraphicsBracketed | src/ts/core/convert.ts:112-137 | save first, the four transform calls, restore last, nothing on the stack between; depth unchanged |
| LegacyConvert.SpriteSkipped | src/ts/core/convert.ts:142-144 | a sprite child produces no canvas command |
| LegacyConvert.LegacyContainerIsTransparent | src/ts/core/convert.ts:139-155 | a container adds nothing of its own |
| LegacyConvert.LegacyContainerNeutral | src/ts/core/convert.ts:139-155 | rendering any tree leaves the save depth unchanged |
| LegacyConvert.LegacyNodeNeutral | src/ts/core/convert.ts:140-154 | rendering any one child leaves the save depth unchanged |
| LegacyConvert.LegacyDrawsNoImages | src/ts/core/convert.ts:139-155 | the earlier translator never draws an image |
| LegacyConvert.LegacyNodeDrawsNoImages | src/ts/core/convert.ts:140-154 | no child draws an image |
| LegacyConvert.ClearComesFirst | src/ts/core/convert.ts:265-268 | the clear is the first command and the only one |
| LegacyConvert.LegacyNoClear | src/ts/core/convert.ts:139-155 | rendering a tree never clears |
| LegacyConvert.LegacyNodeNoClear | src/ts/core/convert.ts:140-154 | rendering a child never clears |
| LegacyConvert.TranslatorsAgree | src/ts/core/convert.ts:112-155 | on trees without sprites, whose polygons are closed and have a non-zero fill, the two translators issue the same commands |
| LegacyConvert.NodesAgree | src/ts/core/convert.ts:140-154 | the same agreement for one child |
| LegacyConvert.ItemAgrees | src/ts/core/convert.ts:120-134 | an item and a segment with the same shape and style draw the same, when the polygon case is closed and filled |
| LegacyConvert.ItemsAgree | src/ts/core/convert.ts:120-134 | item lists that draw the same item by item draw the same |
| LegacyConvert.TranslatorsDifferOnSprites | src/ts/core/convert.ts:142-144 | a tree that reaches a sprite is drawn differently by the two translators |
| LegacyConvert.BinaryString | src/ts/core/convert.ts:180-182 | `String.fromCharCode` per byte: one character per byte with that code |
| LegacyConvert.CharCodes | src/ts/core/convert.ts:171-174 | byte i is the char code of character i |
| LegacyConvert.CharCodesBinary | src/ts/core/convert.ts:171-182 | reading char codes back from the binary string gives the bytes |
| LegacyConvert.Atob | src/ts/core/convert.ts:170 | `atob` succeeds iff the text is valid Base64, and gives one character per decoded byte |
| LegacyConvert.Btoa | src/ts/core/convert.ts:184 | `btoa` succeeds iff every character is below 256 |
| LegacyConvert.AfterComma | src/ts/core/convert.ts:169 | the text after the first comma exists iff there is a comma, and the string is split exactly there |
| LegacyConvert.UpToComma | src/ts/core/convert.ts:169 | the first piece of a split at ',' is the longest comma-free prefix |
| LegacyConvert.SecondPiece | src/ts/core/convert.ts:169 | `split(',')[1]` exists iff there is a comma, and holds no comma |
| LegacyConvert.NoCommaThrows | src/ts/core/convert.ts:169-170 | without a comma `atob(undefined)` throws |
| LegacyConvert.CanvasToUint8Array | src/ts/core/convert.ts:167-176 | fails iff atob fails; otherwise a new array as long as the binary string, byte i its char code, equal to the Base64 decoding |
| LegacyConvert.CharCodeArray | src/ts/core/convert.ts:171-174 | the index loop fills a new array as long as the binary string with each character's code, which is the byte list the string was made from |
| LegacyConvert.Uint8ArrayToBase64 | src/ts/core/convert.ts:178-185 | one character per byte, then `btoa`, which succeeds; the result is the Base64 encoding of the bytes |
| LegacyConvert.DataUrlRoundTrip | src/ts/core/convert.ts:167-185 | a data URL carrying `uint8ArrayToBase64(bytes)` decodes back to those bytes |
| LegacyConvert.SplitAtFirstComma | src/ts/core/convert.ts:169 | a comma-free header is split off exactly |
| LegacyConvert.EncodeInvertsDecode | src/ts/core/convert.ts:167-185 | re-encoding the decoded bytes gives back the Base64 text iff the text is canonical |
| Base64.DecodeEncode | src/ts/core/convert.ts:178-185 | decoding the encoding of any bytes gives the bytes |
| Base64.EncodeDecode | src/ts/core/convert.ts:167-185 | for decodable text, encoding its bytes gives the text back iff it is canonical |
| Base64.EncodeIsCanonical | src/ts/core/convert.ts:184 | every encoding is canonical |
| Base64.CanonicalDecodeEncodes | src/ts/core/convert.ts:167-185 | canonical text is the encoding of what it decodes to |
| Base64.EncodeLength | src/ts/core/convert.ts:184 | an encoding's length is a multiple of four |
| Base64.EncodeShape | src/ts/core/convert.ts:184 | an encoding has no whitespace, a length divisible by four, and its unpadded body is the alphabet characters of the sextets |
| Base64.FromToSextets | src/ts/core/convert.ts:178-185 | regrouping the sextets of any bytes gives the bytes |
| Base64.ToFromSextets | src/ts/core/convert.ts:167-176 | canonical sextets regroup to bytes that give back those sextets |
| Base64.ToSextetsLength | src/ts/core/convert.ts:184 | the sextet count mod 4 follows the byte count mod 3 |
| Base64.FromSextetsLength | src/ts/core/convert.ts:170 | the byte count mod 3 follows the sextet count mod 4 |
| Base64.ToSextetsCanonical | src/ts/core/convert.ts:184 | the sextets of any bytes have zero spare bits in their last group |
| Base64.ValueOf | src/ts/core/convert.ts:170 | an alphabet character's value maps back to it |
| Base64.ValueOfCharOf | src/ts/core/convert.ts:184 | every sextet's character is in the alphabet and decodes to it |
| Base64.ValuesChars | src/ts/core/convert.ts:178-185 | characters of sextets read back to the sextets |
| Base64.CharsValues | src/ts/core/convert.ts:167-176 | sextets of alphabet text write back to the text |
| Base64.GroupBytes | src/ts/core/convert.ts:184 | three bytes split into four sextets and join back |
| Base64.GroupSextets | src/ts/core/convert.ts:170 | four sextets join into three bytes and split back |
| Base64.StripWhitespace | src/ts/core/convert.ts:170 | `atob` drops ASCII whitespace |
| Base64.StripNoWhitespace | src/ts/core/convert.ts:170 | text without whitespace is left as it is |
| Base64.PaddingRestored | src/ts/core/convert.ts:170 | text of length 4k is its unpadded body plus the padding its length calls for |
| SkiaShapes.DrawRectangle | src/ts/core/pixi2skia/shapes.ts:5-33 | appends the closed four-corner path filled once, then stroked once iff lineWidth > 0 |
| SkiaShapes.DrawCircle | src/ts/core/pixi2skia/shapes.ts:35-57 | appends one circle at (x, y, r), filled, then stroked iff lineWidth > 0 |
| SkiaShapes.DrawPolygon | src/ts/core/pixi2skia/shapes.ts:60-87 | appends moveTo(p0,p1) and one lineTo per later pair, always closed and filled, then stroked iff lineWidth > 0 |
| SkiaShapes.DrawsKeepTransform | src/ts/core/pixi2skia/shapes.ts:5-87 | appending only path draws leaves the canvas transform unchanged |
| SkiaShapes.DrawsKeepDepth | src/ts/core/pixi2skia/shapes.ts:5-87 | appending only path draws leaves the save depth unchanged |
| SkiaShapes.RenderersKeepCanvasState | src/ts/core/pixi2skia/shapes.ts:5-87 | none of the three renderers changes the save depth or the transform |
| SkiaShapes.FillOnceThenStroke | src/ts/core/pixi2skia/shapes.ts:26-32 | each renderer draws exactly one fill, then exactly one stroke iff lineWidth > 0 |
| Wrapper.ApplyRotationTo | src/ts/core/pixi/wrapper.ts:19-23 | pivot = position = (x, y), rotation = degrees2radians(angle), and nothing else changes |
| Wrapper.ApplyStyleTo | src/ts/core/pixi/wrapper.ts:34-37 | appends a lineStyle iff borderThickness > 0, then a beginFill iff fillColor is truthy |
| Wrapper.CreateShapeGraphics | src/ts/core/pixi/wrapper.ts:52-61 | a new object with its name and `isClosed` set, rotated only for a non-zero angle, then styled |
| Wrapper.CreateClosedShape | src/ts/core/pixi/wrapper.ts:89-91 | the shared setup with the defaults borderThickness 0, borderColor "", angle 0 and `isClosed` true |
| Wrapper.CreateRectangle | src/ts/core/pixi/wrapper.ts:78-94 | the setup, then exactly one drawRect(x, y, width, height) |
| Wrapper.CreateSemiCircle | src/ts/core/pixi/wrapper.ts:110-135 | the setup, then moveTo the centre, an arc from degrees2radians(90) to that plus π, lineTo the centre |
| Wrapper.CreateCircle | src/ts/core/pixi/wrapper.ts:151-166 | the setup, then one drawCircle(cx, cy, radius) |
| Wrapper.CreateTriangle | src/ts/core/pixi/wrapper.ts:183-209 | the setup, then the polygon [top, left, right] |
| Wrapper.CreateEquilateralTriangle | src/ts/core/pixi/wrapper.ts:225-252 | the setup, then the triangle polygon with height (√3/2)·side |
| Wrapper.CreateRightTriangle | src/ts/core/pixi/wrapper.ts:269-295 | the setup, then the polygon [(cx, cy−c1), (cx+c2, cy), (cx, cy)] |
| Wrapper.TraceStar | src/ts/core/pixi/wrapper.ts:341-352 | the loop appends a moveTo to the first of the 2·spikes vertices and a lineTo to each later one |
| Wrapper.CreateStar | src/ts/core/pixi/wrapper.ts:311-358 | the setup, the star's vertices, then closePath |
| Wrapper.CreateSpiral | src/ts/core/pixi/wrapper.ts:371-427 | name set, `isClosed` false, beginFill(fillColor), lineStyle(thickness, string2hex(color)), then the spiral's points |
| Wrapper.TraceSpiral | src/ts/core/pixi/wrapper.ts:408-424 | the loop appends the points i = 0 … totalPoints, a moveTo for the first and a lineTo for each later one |
| Wrapper.CreateSprite | src/ts/core/pixi/wrapper.ts:441-461 | the sprite has the given src, x, y, width and height, and its name is the text after the last '/' of src |
| Wrapper.IsClosedFlags | src/ts/core/pixi/wrapper.ts:91-394 | `isClosed` is true for the rectangle, semicircle, circle, three triangles and star, and false for the spiral |
| ShapeRecords.StyleGuard | src/ts/core/pixi/wrapper.ts:34-37 | the style calls are a lineStyle iff borderThickness > 0 and a beginFill iff fillColor is truthy, with those arguments, line style first |
| ShapeRecords.ShapeGraphicsSetup | src/ts/core/pixi/wrapper.ts:52-61 | the setup sets the name and `isClosed`; a non-zero angle sets pivot = position = (x, y) and the rotation; a zero angle leaves the transform at PIXI's default |
| ShapeRecords.RotatesAboutAnchor | src/ts/core/pixi/wrapper.ts:19-23 | a rotated shape turns about (x, y): that point stays where it is |
| ShapeRecords.UnrotatedStaysPut | src/ts/core/pixi/wrapper.ts:57 | with a zero angle the transform is the identity on every point |
| ShapeRecords.RectangleDefaults | src/ts/core/pixi/wrapper.ts:89-92 | with no options a rectangle has no border, no rotation, and one drawRect after a fill iff the colour is truthy |
| ShapeRecords.SemiCircleOutline | src/ts/core/pixi/wrapper.ts:125-132 | the semicircle ends with moveTo the centre, a clockwise arc from 90° to 90° + π, lineTo the centre |
| ShapeRecords.TriangleShape | src/ts/core/pixi/wrapper.ts:198-206 | the triangle's vertices are top, left, right: base horizontal and baseWidth long, apex above cx, height apart, centred on (cx, cy) |
| ShapeRecords.EquilateralSides | src/ts/core/pixi/wrapper.ts:239-249 | when sqrt3² = 3 the three sides all have length sideLength, left and right are symmetric about cx and share y |
| ShapeRecords.RightTriangleShape | src/ts/core/pixi/wrapper.ts:284-292 | the third vertex is (cx, cy), the angle there is right, and the legs are catet1 and catet2 long |
| ShapeRecords.PolylineCalls | src/ts/core/pixi/wrapper.ts:346-351 | one call per point: moveTo for the first, lineTo for the rest |
| ShapeRecords.PolylineRoundTrip | src/ts/core/pixi/wrapper.ts:346-351 | the calls' points read back to the point list |
| ShapeRecords.StarOutline | src/ts/core/pixi/wrapper.ts:338-356 | the star is 2·spikes + 1 calls: moveTo the first vertex, lineTo each later one, closePath |
| ShapeRecords.StarRadii | src/ts/core/pixi/wrapper.ts:341-346 | with unit cos/sin, even vertices are r from the centre and odd ones r/2 |
| ShapeRecords.PolarDistance | src/ts/core/pixi/wrapper.ts:344-345 | a point at polar radius r is r from the centre |
| ShapeRecords.SpiralOutline | src/ts/core/pixi/wrapper.ts:393-424 | the spiral is open, starts with beginFill then lineStyle, then 100·floor(radius/spacing) + 1 points, moveTo first, and no closePath |
| ShapeRecords.SpiralWidens | src/ts/core/pixi/wrapper.ts:408-418 | point i is (i/total)·radius from the centre |
| ShapeRecords.SpiralEnds | src/ts/core/pixi/wrapper.ts:408-418 | the spiral starts at the centre and ends radius away from it |
| ShapeRecords.Split | src/ts/core/pixi/wrapper.ts:457 | `split` gives at least one piece, and no piece holds the separator |
| ShapeRecords.SplitJoin | src/ts/core/pixi/wrapper.ts:457 | joining the pieces with the separator gives the string back |
| ShapeRecords.SpriteLabel | src/ts/core/pixi/wrapper.ts:457-458 | the label is a slash-free suffix of src, preceded by '/' when shorter than src |
| ShapeRecords.LastPieceIsSpriteLabel | src/ts/core/pixi/wrapper.ts:457-458 | the last piece of the split is that label |
| ShapeRecords.SpriteLabelNoSlash | src/ts/core/pixi/wrapper.ts:457-458 | without a '/', the label is the whole of src |
| ShapeRecords.SpriteLabelAfterSlash | src/ts/core/pixi/wrapper.ts:457-458 | the label of dir/name is name |
| CoreShapes.ApplyRotationTo | src/ts/core/shapes.ts:15-19 | pivot = position = (x, y), rotation = degrees2radians(angle) |
| CoreShapes.ApplyStyleTo | src/ts/core/shapes.ts:30-33 | a lineStyle iff borderThickness > 0, then a beginFill iff fillColor is truthy |
| CoreShapes.CreateShapeGraphics | src/ts/core/shapes.ts:48-56 | name set, `isClosed` never set, rotated only for a non-zero angle, then styled |
| CoreShapes.CreateShape | src/ts/core/shapes.ts:84-86 | the shared setup with the defaults borderThickness 0, borderColor "", angle 0 |
| CoreShapes.CreateRectangle | src/ts/core/shapes.ts:73-89 | the setup, then exactly one drawRect(x, y, width, height) |
| CoreShapes.CreateSemiCircle | src/ts/core/shapes.ts:105-130 | moveTo the centre, an arc from 90° to 90° + π in radians, lineTo the centre |
| CoreShapes.CreateCircle | src/ts/core/shapes.ts:146-161 | the setup, then one drawCircle |
| CoreShapes.CreateTriangle | src/ts/core/shapes.ts:178-204 | the polygon top, left, right with half-height and half-base offsets |
| CoreShapes.CreateEquilateralTriangle | src/ts/core/shapes.ts:220-247 | the triangle polygon with height (√3/2)·side |
| CoreShapes.CreateRightTriangle | src/ts/core/shapes.ts:264-290 | the polygon top (cx, cy−c1), bottom-right (cx+c2, cy), right angle (cx, cy) |
| CoreShapes.OnlyIsClosedDiffers | src/ts/core/shapes.ts:48-56 | every builder here makes what its counterpart in wrapper.ts makes, except that `isClosed` is left unset |
| Helpers.GetColor | src/ts/helpers.ts:100-120 | defined exactly for the seven names, each an opaque rgba string |
| Helpers.GetColorValues | src/ts/helpers.ts:106-117 | the rgba string of each of the seven names |
| Helpers.GetColorUndefined | src/ts/helpers.ts:119 | 'white', 'brightSilver' and '' are undefined |
| Helpers.GetColorInjective | src/ts/helpers.ts:106-117 | different names give different colours |
| Helpers.DebugLog | src/ts/helpers.ts:7-91 | throws iff the status is 'err'; logs the status label, the `[Debug log]:` bubble, the message and a trailing '.' |
| Helpers.LogPrefix | src/ts/helpers.ts:62-76 | the line opens with `%c[label]` for every status but 'info' and ends its prefix with `%c[Debug log]:%c ` |
| Helpers.DebugLogKeepsMessage | src/ts/helpers.ts:64-75 | the logged line determines the message |
| QrCode.NatToString | src/ts/scenes/qr_code.scene.ts:53 | a number prints as at least one decimal digit, two from 10 on |
| QrCode.NatToStringInjective | src/ts/scenes/qr_code.scene.ts:53 | different numbers print differently |
| QrCode.CellNameInjective | src/ts/scenes/qr_code.scene.ts:53 | the label `cell_(col,row)` determines the column and the row |
| QrCode.CommaAfterDigits | src/ts/scenes/qr_code.scene.ts:53 | in a label the first comma follows the column's digits |
| QrCode.RowRecords | src/ts/scenes/qr_code.scene.ts:38-63 | a row has gridSize = |sequence| + 6 cells |
| QrCode.DrawQR | src/ts/scenes/qr_code.scene.ts:28-67 | a new container named qr_code_container holding only Graphics cells, gridSize rows of gridSize cells, row by row |
| QrCode.DrawRow | src/ts/scenes/qr_code.scene.ts:38-63 | the inner loop appends one row's cells, left to right, and changes nothing else |
| QrCode.CreateCell | src/ts/scenes/qr_code.scene.ts:39-60 | the cell at (col, row) is the rectangle its layout calls for |
| QrCode.CreateQRCodeScene | src/ts/scenes/qr_code.scene.ts:5-26 | exactly two children: the background rectangle, then the QR container at (45, 45) with width 360 |
| QrCode.RowMajorLayout | src/ts/scenes/qr_code.scene.ts:37-64 | the grid holds rows·gridSize cells, the k-th in row k / gridSize and column k % gridSize |
| QrCode.RowMajorIndex | src/ts/scenes/qr_code.scene.ts:37-38 | row·n + col splits back into row and col |
| QrCode.CellPlacement | src/ts/scenes/qr_code.scene.ts:43-60 | a cell is named cell_(col,row), has no border and no rotation, and is the rectangle at (startX + col·cellSize, startY + row·cellSize), cellSize + 0.5 on a side |
| QrCode.CellColour | src/ts/scenes/qr_code.scene.ts:39-50 | a cell is filled iff it is not padding and its bit is 1, and then with carbon; padding and light cells are not filled |
| QrCode.NeighboursOverlap | src/ts/scenes/qr_code.scene.ts:43-57 | neighbouring cells overlap by exactly 0.5 across and down |
| QrCode.GridFits | src/ts/scenes/qr_code.scene.ts:33-35 | gridSize·cellSize is at most width and more than width − gridSize |
| StripedContainer.CreateStripedContainer | src/ts/stripedContainer.ts:15-34 | a new container holding only Graphics lines, one per i = 0, s, 2s, … below width, with s = lineWidth + offsetWidth, each the stripe at offset i, in loop order; its hit area is the rectangle as written, `Rectangle(x, y, x + width, y + height)` |
| StripedContainer.CreateStripe | src/ts/stripedContainer.ts:19-25 | a line is lineStyle(lineWidth, lineColor), beginFill(), moveTo(x+i, y), lineTo(x+i, y+height), endFill() |
| StripedContainer.StripeRecords | src/ts/stripedContainer.ts:18-28 | there is one stripe record per count |
| StripedContainer.StripeCountUnique | src/ts/stripedContainer.ts:18 | the number of stripes is fixed by the width and the step |
| StripedContainer.BelowBound | src/ts/stripedContainer.ts:18 | with a positive step, the loop runs at most floor(width/step) + 1 times |
| StripedContainer.StripesLeftToRight | src/ts/stripedContainer.ts:18-27 | with a positive step, offsets increase strictly, lie in [0, width), and a positive width gives at least one stripe |
| StripedContainer.StripesInsideHitArea | src/ts/stripedContainer.ts:18-31 | each stripe is a vertical line from the top edge of the hit area to its bottom edge, at an x inside it |
| StripedContainer.HitAreaAsWritten | src/ts/stripedContainer.ts:31 | the rectangle the source builds starts at (x, y) but its right edge is at (x + width) + x and its bottom edge at (y + height) + y: x and y too far |
| StripedContainer.HitArea | src/ts/stripedContainer.ts:31 | the corrected hit area spans exactly [x, x+width] × [y, y+height] |
| StripedContainer.HitAreaAsWrittenOvershoots | src/ts/stripedContainer.ts:31 | the rectangle as written reaches x + width too far: right edge 120 instead of 110 for x = 10, width = 100 |
| StripedContainer.HitAreaAsWrittenAgreesOnlyAtOrigin | src/ts/stripedContainer.ts:31 | the rectangle as written equals the intended one iff x = 0 and y = 0 |

## Left out

- Texture decoding is abstracted by the `TextureLoader` class. This covers
  `fetch`, `createImageBitmap` and `MakeImageFromCanvasImageSource` in
  `__loadTextureFrom`. The loader's answer for each load is a parameter
  function of its position and request.
- CanvasKit plumbing is kept only as the canvas's command log. This covers
  `MakeCanvasSurface`, `drawOnce`, the `PictureRecorder`, `Paint`
  allocation and `delete`, antialiasing, `getSizes` and the bounds
  rectangle. Whether the recorder yields a picture is a parameter of
  `Pixi2Skia.Convert`.
- Pixi2Skia.Convert: the `drawOnce` frame callback is treated as running
  inside the session. In the source it runs later, after `pixi2skia`'s
  promise has resolved and `paint.delete()` has run. So a falsy capture
  (`Outcome.CaptureFailed`) throws from that callback and does not reject
  `pixi2skia`.
- How PIXI turns drawing calls into `graphicsData` is library code. The
  builders' records and the translators' input are not connected by a
  proof.
- `renderSprite`, `imageToCanvas` and `toDataURL` in
  `src/ts/core/convert.ts` are left out. They involve a promise inside a
  synchronous draw, Blob and URL objects, and DOM access. The data URL is a
  parameter of `LegacyConvert.CanvasToUint8Array`.
- Console output of `debugLog` and of the translators' `console.log` calls
  is left out. The CSS arguments of the `%c` directives are left out too.
- These helpers are not defined in the repository and are kept as
  symbolic terms: `decimal2RGBA`, `radians2degrees`, `degrees2radians`,
  `parseColorString`, `string2hex`. Only the canvas's point mapping
  (`Skia.MapOne`) gives one of them a meaning; see the next line.
- Primitives.TransformMatchesPixi: assumes that `radians2degrees` converts
  exactly and that CanvasKit's `rotate` takes degrees, so that
  `rotate(radians2degrees(a), rx, ry)` turns by exactly the angle `a`.
  `Skia.MapOne` reads the rotate call that way, and the lemma's conclusion
  rests on it.
- `Math.PI`, `cos`, `sin` and `Math.sqrt(3)` are parameters. Only the
  structure and the ordering of stars, spirals, semicircles and the
  equilateral triangle are proved. Their distances are proved under the
  assumption of exact cos/sin (or √3).
- Floating point is not modelled; numbers are reals.
- The stripe loop adds `i += step` exactly. Rounding that could add or
  drop a stripe is not modelled.
- Wrapper.CreateSpiral: when radius/spacing is below 1, the source divides
  0 by 0 and draws one point at NaN. The model places that point at the
  centre.
- Wrapper.CreateSpiral: a spacing of 0 makes the source's loop bound
  infinite. The model requires a non-zero spacing.
- Wrapper.CreateStar: spikes is a natural number. Fractional or negative
  spike counts are not modelled.
- Wrapper.CreateStar: the optional `angle` is added as a radian offset to
  the vertex angles, as the source does, and it also rotates the shape.
- StripedContainer.CreateStripedContainer: for a positive width the
  source's loop does not end unless lineWidth + offsetWidth > 0. The model
  requires that. With a non-positive width the loop never runs and any
  step is allowed.
- `addChild` is modelled as an append. It does not model re-parenting a
  child that already has a parent, and it does not model the parent link.
- The QR data `qr_sequence` is a parameter of
  `QrCode.CreateQRCodeScene`. `createQRCodeScene`'s `centerPoint` is unused
  by the source and is left out.
- `getColor` looks names up in a plain object. Inherited names such as
  `'toString'` would return something there; the model treats only the
  seven names as defined.
- Polygons have an even number of coordinates, at least two, because the
  renderers index `points[0]`, `points[1]` and `points[i + 1]`. Odd or
  shorter lists are not modelled.
- These files are not part of this model:
  - `src/ts/core/stripedContainer.ts`;
  - `src/ts/core/sprite.ts`;
  - the demo scenes;
  - the UI and page wiring;
  - the build configuration.

## Findings

| source | as written | input that shows it | evidently intended | confidence | as-written member | corrected member |
|---|---|---|---|---|---|---|
| src/ts/stripedContainer.ts:31 | `new PIXI.Rectangle(x, y, x + width, y + height)` passes the right and bottom edges where PIXI expects a width and a height | x = 10, y = 0, width = 100, height = 50: the hit area reaches x = 120, while the stripes lie in [10, 110) | `new PIXI.Rectangle(x, y, width, height)`, as the later copy in src/ts/core/stripedContainer.ts:63 writes it | not executed | StripedContainer.HitAreaAsWrittenOvershoots | StripedContainer.HitArea |
