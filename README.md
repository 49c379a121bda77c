# Musicard `Classic` card, modelled in Dafny

`Classic(option)` in `dist/index.mjs` renders a "now playing" music card as a
2458x837 PNG. It has three parts, and this project models each of them:

- **Options.** It merges the caller's options over a default record. It clamps
  `progress` to [10, 100] and `imageDarkness` to [0, 100]. It cuts `name` and
  `author` to 18 characters followed by `"..."`.
- **Canvas drawing.** It draws, in a fixed order:
  - a left panel, either from a background image (two crops and a darkness
    overlay) or two flat rounded rectangles;
  - the thumbnail, or a generated placeholder;
  - a progress bar;
  - four text labels.
- **Fonts.** When the module loads, it registers seven Plus Jakarta Sans
  weights under logical names through `registerFont`. That function takes the
  first candidate path that exists or throws. `generateSvg` wraps SVG markup
  in a base64 `data:` URI.

The modules are:

- `Wrappers` (`wrappers.dfy`): `Option`, `Result` and `Outcome`.
- `Svg` (`svg.dfy`): `generateSvg`. The prefix is fixed; the base64 encoder
  is an opaque function parameter.
- `Fonts` (`fonts.dfy`):
  - `registerFont` is a method with a loop over the candidate paths;
  - the `GlobalFonts` registry is a class with a `map` field;
  - the module-level `forEach` is a loop over the font table;
  - both loops are proved against specification functions (`FirstFound`,
    `Leading`, `Installed`).
- `CardOptions` (`options.dfy`):
  - the options object is a map from field to JavaScript value, and the spread
    merge is map union;
  - the merged object is read as a `Settings` record;
  - the clamps and truncation are functions over that record.
- `Drawing` (`drawing.dfy`): the 2D context is a `Canvas` class. It holds the
  current `fillStyle` and `font` and a log of draw calls. `fillText` logs the
  style and font in effect when it is called.
- `ClassicTheme` (`classic.dfy`):
  - `Classic` is a method that merges, loads the thumbnail, overwrites the four
    normalised fields in place, then draws on a fresh canvas;
  - it is proved equal to the specification function `Render`, which gives
    the encoded card as a log of draws.
- `ClassicProperties` and `ClassicBackground` (`properties.dfy`): what a
  rendered card is, stated in terms of the caller's options.

Image decoding and cropping are external libraries. Their outcome is an input:
- `thumbnailDecodes` says whether a supplied thumbnail loads;
- `BackgroundLoad` says whether a supplied background image loads and both
  crops succeed, or which step threw.

A failed thumbnail load propagates as `Err(ThumbnailNotDecoded)`, because the
source does not catch it. A failed background load falls back to the flat
panels.

The image background is two crops of the image, at y offsets -170 and -845.
The crops are 1568x512 and 1568x272 with radius 50, drawn at (0, 0) and
(0, 565).

The two font candidate paths are the same path, as written at
`dist/index.mjs:17-20`. The search is modelled as written, and
`Fonts.CandidatesCollapse` states what follows from that.

In the model, which runs the two crops in order (top first), a failure of
only the second crop leaves the first crop drawn under the flat fallback
(`ClassicBackground.BottomCropFallback`), and only a failed decode or a failed
first crop gives exactly the card without a background image. The real crops
run concurrently; "## Left out" says what the sequential order does not
capture.

## Model

| member | source | states |
|---|---|---|
| Svg.GenerateSvg | dist/index.mjs:10 | the URI starts with `data:image/svg+xml;base64,` and the rest is exactly the encoding of the markup |
| Svg.Payload | dist/index.mjs:10 | inverse reader: defined exactly on strings with the prefix, and prefix + payload rebuilds the URI |
| Svg.PayloadOfGenerated | dist/index.mjs:10 | reading back a generated URI gives the encoding of the markup (round trip) |
| Svg.GenerateSvgInjective | dist/index.mjs:10 | markups with different encodings give different URIs |
| Fonts.FirstFound | dist/index.mjs:22-27 | the index found exists and every earlier candidate is missing; None means that no candidate exists |
| Fonts.Candidates | dist/index.mjs:17-20 | there are two candidates, and both are the font file under the fonts directory |
| Fonts.NotFoundMessageOfPair | dist/index.mjs:28 | for two candidates the error message is "Font file not found at " followed by both paths joined by " or " |
| Fonts.CandidatesCollapse | dist/index.mjs:17-20 | both candidates are one path, so the search succeeds iff that path exists, and it then finds that path |
| Fonts.FontRegistry.constructor | dist/index.mjs:13 | the registry starts empty |
| Fonts.FontRegistry.RegisterFromPath | dist/index.mjs:24 | binds the name to the path and changes no other entry |
| Fonts.RegisterFont | dist/index.mjs:16-29 | if some candidate exists: Pass, with the name bound to the first existing candidate and nothing else changed; otherwise: the error "Font file not found at p or p" and the registry unchanged |
| Fonts.Leading | dist/index.mjs:45 | the number of leading table rows whose file exists: all rows before it exist, and the row at it does not |
| Fonts.Installed | dist/index.mjs:45 | registering rows never drops a registered font and leaves every name outside the rows bound as before |
| Fonts.InstalledKeys | dist/index.mjs:45 | registering rows adds exactly their logical names to the registry's keys |
| Fonts.InstalledLookup | dist/index.mjs:45 | a row whose name no later row reuses ends up bound to its own file |
| Fonts.RegisterTable | dist/index.mjs:45 | forEach registers the rows in order up to the first missing file; it passes iff every file exists, and otherwise fails with the error of the first missing font, keeping the earlier fonts registered |
| Fonts.LeadingAllPresent | dist/index.mjs:45 | when every file exists, the registration reaches the end of the table |
| Fonts.TableNamesDistinct | dist/index.mjs:35-43 | the seven logical names are pairwise distinct |
| Fonts.TableNamesAreLogicalNames | dist/index.mjs:35-43 | the table's names are exactly bold, extrabold, extralight, light, medium, regular and semibold |
| Fonts.TableInstalls | dist/index.mjs:35-45 | with all files present, the table adds exactly the seven names, each bound to its own file |
| Fonts.NamesOfPrefix | dist/index.mjs:45 | the names of a prefix of the table are among the table's names |
| Fonts.LoadModuleFonts | dist/index.mjs:35-45 | module load passes iff all seven files exist; then the registry gains exactly the seven logical names, each bound to its file; on failure it gains no other name |
| CardOptions.FalsyValues | dist/index.mjs:72-84 | the values `||` and `!` treat as false are exactly undefined, 0 and the empty string; every Buffer is truthy |
| CardOptions.DefaultsRecord | dist/index.mjs:48-61 | the default object has exactly the twelve non-image fields, each with its default: 10 for progress and imageDarkness, a non-empty string for the others |
| CardOptions.Merge | dist/index.mjs:63 | the spread keeps every caller field, keeps every default the caller does not override, and has no other key |
| CardOptions.SpreadAgrees | dist/index.mjs:48-63 | reading field k of the spread object gives the caller's value when given, otherwise the default |
| CardOptions.MergedField | dist/index.mjs:63 | each field of the merged record is the caller's value when given, else the field's default |
| CardOptions.MergedFromSpread | dist/index.mjs:63 | every field of the merged record is the same field of the spread object `{ ...defaults, ...option }` |
| CardOptions.MergedNumbers | dist/index.mjs:48-63 | merged progress and imageDarkness are the caller's numbers when given, otherwise 10 |
| CardOptions.MergedLabels | dist/index.mjs:48-63 | merged name and author are the caller's when given, otherwise "Musicard" and "By Unburn" |
| CardOptions.MergedTimes | dist/index.mjs:48-63 | merged start and end time are the caller's when given, otherwise "0:00" |
| CardOptions.MergedColors | dist/index.mjs:48-63 | the merged bar, progress and background colours are the caller's when given, otherwise #5F2D00, #FF7A00 and #070707 |
| CardOptions.MergedTextColors | dist/index.mjs:48-63 | the merged name, author and time colours are the caller's when given, otherwise #FF7A00, #FFFFFF and #FFFFFF |
| CardOptions.MergedImages | dist/index.mjs:48-63 | the image fields have no default: exactly what the caller gave, or absent |
| CardOptions.MergedDefaults | dist/index.mjs:48-63 | an empty options object yields the default record |
| CardOptions.Clamp | dist/index.mjs:75-76 | the result lies in [lo, hi], equals x when x is already inside, and is the nearer bound otherwise |
| CardOptions.Ellipsize | dist/index.mjs:77-78 | a label of at most 18 code units is kept; a longer one becomes its first 18 code units followed by "...", 21 code units in all |
| CardOptions.EllipsizeIdempotent | dist/index.mjs:77-78 | cutting twice is cutting once, and a cut label has at most 21 code units |
| CardOptions.Normalise | dist/index.mjs:75-78 | progress lies in [10, 100], imageDarkness in [0, 100], and name and author have at most 21 code units; every other field is unchanged |
| CardOptions.NormaliseIdempotent | dist/index.mjs:75-78 | normalising twice is normalising once |
| CardOptions.Opacity | dist/index.mjs:98-99 | the overlay's fill-opacity lies in [0, 1] for a darkness in [0, 100]; it is 0 at 0 and 1 at 100 |
| Drawing.Canvas.constructor | dist/index.mjs:80-81 | a 2458x837 context with the default fill style and font, and nothing drawn |
| Drawing.Canvas.DrawImage | dist/index.mjs:92 | appends one image draw at the given position to the log |
| Drawing.Canvas.SetFillStyle | dist/index.mjs:135 | sets the current fill style |
| Drawing.Canvas.SetFont | dist/index.mjs:136 | sets the current font |
| Drawing.Canvas.FillText | dist/index.mjs:137 | appends a text draw carrying the fill style and font in effect at the call |
| Drawing.Canvas.Encode | dist/index.mjs:148 | the encoded image has the canvas size and everything drawn, in order |
| ClassicTheme.Completed | dist/index.mjs:124 | for progress in [10, 100] the filled width lies in [134.2, 1342], and it is the full track at 100 |
| ClassicTheme.Thumbnail | dist/index.mjs:65-73 | the caller's thumbnail iff it is truthy, otherwise the placeholder filled with progressColor and the glyph in backgroundColor |
| ClassicTheme.BackgroundDraws | dist/index.mjs:83-121 | one to three draws; the last is the flat panels in backgroundColor or the darkness overlay; without a truthy background image there is only one draw |
| ClassicTheme.ProgressBarOf | dist/index.mjs:124-131 | the bar uses the bar, progress and background colours; for progress in [10, 100] the filled width lies in [134.2, 1342]; the knob is 40 left of its end |
| ClassicTheme.ForegroundDraws | dist/index.mjs:123-146 | six draws: the thumbnail at (1621,0), the bar at (113,635), then four texts: name, author, start time and end time |
| ClassicTheme.Layout | dist/index.mjs:83-146 | seven to nine draws, the thumbnail sixth from the end |
| ClassicTheme.Render | dist/index.mjs:47-150 | a rendered card is 2458x837 with seven to nine draws |
| ClassicTheme.Classic | dist/index.mjs:47-150 | the method (merge, thumbnail load, in-place clamps and cuts, drawing, encoding) returns exactly `Render` |
| ClassicTheme.Compose | dist/index.mjs:80-148 | a fresh canvas, the background draws then the foreground draws, encoded at 2458x837 |
| ClassicTheme.DrawBackground | dist/index.mjs:83-121 | appends the background draws for the given load outcome, including the try/catch fallback |
| ClassicTheme.DrawForeground | dist/index.mjs:123-146 | appends the thumbnail, the bar and the four labels, each label in the colour and font set just before it |
| ClassicProperties.RenderFails | dist/index.mjs:72-73 | rendering fails iff the caller supplies a truthy thumbnail that does not decode |
| ClassicProperties.RenderedForeground | dist/index.mjs:80-146 | the card is 2458x837 and ends with the thumbnail at (1621,0), the bar at (113,635), then name (113,230; 124px extrabold), author (113,370; 87px regular), start (113,768) and end (1332,768; 50px semibold), each in its colour |
| ClassicProperties.BackgroundImagesOnCanvas | dist/index.mjs:83-121 | the background part draws images only, all anchored inside the canvas |
| ClassicProperties.LayoutWellPlaced | dist/index.mjs:83-146 | every draw is anchored inside the canvas; every text uses a registered family; the texts are exactly the last four draws |
| ClassicProperties.RenderedWellPlaced | dist/index.mjs:83-146 | the same, for the rendered card |
| ClassicProperties.RenderedThumbnail | dist/index.mjs:65-123 | the thumbnail slot at (1621,0) holds the caller's truthy thumbnail, or else the placeholder filled with progressColor and the glyph in backgroundColor |
| ClassicProperties.ProgressBarGeometry | dist/index.mjs:124-133 | for progress in [10, 100], completed = 1342*progress/100 lies in [134.2, 1342], the knob is at completed - 40, and the bar ends inside the canvas |
| ClassicProperties.RenderedProgress | dist/index.mjs:75-133 | the rendered bar at (113,635) uses the caller's colours and the clamped progress, with completed in [134.2, 1342] and the knob at completed - 40 |
| ClassicProperties.RenderedLabels | dist/index.mjs:77-146 | the labels drawn are the cut name and author and the two times, in their colours |
| ClassicProperties.DefaultLayout | dist/index.mjs:48-146 | the default settings draw the flat panel, the placeholder, a bar at 134.2 with the knob at 94.2, and "Musicard", "By Unburn", "0:00", "0:00" |
| ClassicProperties.DefaultCard | dist/index.mjs:47-150 | an empty options object renders exactly that default card, whatever the outcome flags are |
| ClassicBackground.MergedWithoutBackground | dist/index.mjs:63 | dropping backgroundImage from the caller changes only that merged field |
| ClassicBackground.LayoutFallback | dist/index.mjs:111-120 | a failed decode or first crop draws exactly what no background image draws |
| ClassicBackground.FallbackMatchesNoImage | dist/index.mjs:84-121 | if the image fails to decode or its first crop fails, the card equals the card rendered without a background image |
| ClassicBackground.FlatBackground | dist/index.mjs:84-92 | with no truthy background image, the panel is the flat image in backgroundColor at (0,0), and the card has 7 draws |
| ClassicBackground.LayoutLoaded | dist/index.mjs:94-110 | a loaded image gives the top crop at (0,0), the bottom crop at (0,565), then the overlay at (0,0) |
| ClassicBackground.ImageBackground | dist/index.mjs:76-110 | the same for the rendered card, with crop geometry (0,-170,1568x512) and (0,-845,1568x272), radius 50; the overlay opacity is clamped darkness/100, in [0, 1] |
| ClassicBackground.LayoutBottomCrop | dist/index.mjs:103-120 | if only the second crop fails, the first crop stays in the log under the flat fallback |
| ClassicBackground.BottomCropFallback | dist/index.mjs:103-120 | the same for the rendered card: that crop followed by the card rendered without a background image |

## Left out

- Pixels are not modelled: rasterisation, SVG rendering, glyph shaping and PNG encoding. A card is the size of its canvas plus its ordered log of draw calls.
- `loadImage` and `cropImage` are external decoders. Their success is an input: `thumbnailDecodes` and `BackgroundLoad`. The generated SVGs (placeholder, flat panels, darkness overlay, progress bar) are assumed to load.
- The two crops run under `Promise.all`, which is modelled as sequential, top crop first:
  - On success, the model draws the top crop before the bottom one. The real order is whichever crop resolves first.
  - If the top crop fails, the bottom crop's late `then` may still draw at (0,565). The model does not draw it.
  - If the bottom crop fails, the model draws the top crop before the fallback. In the real code, the top crop may also land after the fallback.
- Images are identified by the parameters that produce them. The SVG markup and the progress bar's fixed rectangle sizes are not modelled. Base64 is an opaque function in `Svg`, and the layout does not build the data URIs.
- `fs.existsSync` is a set of existing paths. `GlobalFonts` is a name-to-path map, and re-registering a name replaces its path. `path.join` normalisation is not modelled: the fonts directory is a parameter `root`, joined with "/". The ESM `__dirname` shim is not modelled.
- Numbers are exact reals. Floating-point rounding of `1342 * progress / 100` and of `imageDarkness / 100` is not modelled, and neither are NaN, Infinity and number-to-string formatting in the markup.
- Strings are sequences of UTF-16 code units. The model cannot produce a cut label that splits a surrogate pair, which `slice` can.
- CardOptions.Ellipsize: labels with characters outside the Basic Multilingual Plane (emoji and other four-byte characters) are outside the model, because such a character is two code units in JavaScript but cannot be written as two Dafny characters; the 18-unit test of lines 77-78 is modelled only for labels without them.
- CardOptions.Merged: requires `CallerTyped`, which states the JavaScript type the source assumes for each defaulted field. Three caller inputs are therefore outside the model:
  - a number passed as `name`, where `.length` is undefined and no cut happens;
  - an explicit `undefined` for a defaulted field, which overrides the default in the spread;
  - a string passed as `progress`.
- Unknown extra fields of the caller's object are not modelled. The source ignores them.
- The card is returned through a promise. The model returns it directly.

