/** `Classic`: composes the card. The image decoders and the cropper are
    outside the model; whether they succeed is an input. The card is the
    log of draw calls on a 2458x837 canvas. */
module ClassicTheme {
  import opened Wrappers
  import opened CardOptions
  import opened Drawing

  const Width: int := 2458
  const Height: int := 837
  /** The progress track is this wide; the filled part is proportional to progress. */
  const TrackWidth: real := 1342.0
  /** The knob sits this far left of the end of the filled part. */
  const KnobOffset: real := 40.0

  const NameFont: Font := Font(124, "extrabold")
  const AuthorFont: Font := Font(87, "regular")
  const TimeFont: Font := Font(50, "semibold")

  /** What became of a truthy background image: loaded and both crops made,
      or the first step that threw. The crops are taken in the order listed. */
  datatype BackgroundLoad = Loaded | DecodeFailed | TopCropFailed | BottomCropFailed

  datatype RenderError = ThumbnailNotDecoded

  /** The field is present and truthy. */
  predicate Supplied(v: Option<Value>)
  {
    v.Some? && Truthy(v.value)
  }

  /** `option.thumbnailImage || noImageSvg`, as loaded: the caller's image
      when truthy, else the placeholder square in the progress colour with
      the glyph in the background colour. */
  function Thumbnail(s: Settings): (r: Picture)
    ensures r.Decoded? || r.Placeholder?
    ensures r.Decoded? <==> Supplied(s.thumbnailImage)
    ensures r.Decoded? ==> r.source == s.thumbnailImage.value
    ensures r.Placeholder? ==> r.fill == s.progressColor && r.glyph == s.backgroundColor
  {
    if Supplied(s.thumbnailImage) then Decoded(s.thumbnailImage.value)
    else Placeholder(s.progressColor, s.backgroundColor)
  }

  /** Width of the filled part of the progress bar. */
  function Completed(progress: real): (r: real)
    ensures MinProgress <= progress <= MaxProgress ==> 134.2 <= r <= TrackWidth
    ensures progress == MaxProgress ==> r == TrackWidth
  {
    TrackWidth * progress / 100.0
  }

  function TopPanel(image: Value): Picture
  {
    Cropped(image, 0, -170, 1568, 512, 50)
  }

  function BottomPanel(image: Value): Picture
  {
    Cropped(image, 0, -845, 1568, 272, 50)
  }

  /** Lines 83-121: the left panel, from the background image or flat. */
  function BackgroundDraws(s: Settings, background: BackgroundLoad): (r: seq<Draw>)
    ensures 1 <= |r| <= 3
    ensures r[|r| - 1].DrawImage? && (r[|r| - 1].picture.FlatPanels? || r[|r| - 1].picture.Darkness?)
    ensures r[|r| - 1].DrawImage? && r[|r| - 1].picture.FlatPanels? ==> r[|r| - 1].picture.fill == s.backgroundColor
    ensures !Supplied(s.backgroundImage) ==> |r| == 1
  {
    var flat := [DrawImage(FlatPanels(s.backgroundColor), 0, 0)];
    if !Supplied(s.backgroundImage) then flat
    else
      var image := s.backgroundImage.value;
      match background
      case Loaded =>
        [DrawImage(TopPanel(image), 0, 0), DrawImage(BottomPanel(image), 0, 565),
         DrawImage(Darkness(Opacity(s.imageDarkness)), 0, 0)]
      case DecodeFailed => flat
      case TopCropFailed => flat
      case BottomCropFailed => [DrawImage(TopPanel(image), 0, 0)] + flat
  }

  /** The progress bar image: track, filled part and knob. */
  function ProgressBarOf(s: Settings): (r: Picture)
    ensures r.ProgressBar?
    ensures r.track == s.progressBarColor && r.fill == s.progressColor && r.stroke == s.backgroundColor
    ensures MinProgress <= s.progress <= MaxProgress ==> 134.2 <= r.completed <= TrackWidth
    ensures r.knobX == r.completed - KnobOffset
  {
    var completed := Completed(s.progress);
    ProgressBar(s.progressBarColor, s.progressColor, s.backgroundColor, completed, completed - KnobOffset)
  }

  /** Lines 123-146: thumbnail, progress bar, then the labels. */
  function ForegroundDraws(s: Settings, thumbnail: Picture): (r: seq<Draw>)
    ensures |r| == 6
    ensures r[0] == DrawImage(thumbnail, 1621, 0) && r[1] == DrawImage(ProgressBarOf(s), 113, 635)
    ensures r[2].FillText? && r[3].FillText? && r[4].FillText? && r[5].FillText?
    ensures [r[2].text, r[3].text, r[4].text, r[5].text] == [s.name, s.author, s.startTime, s.endTime]
  {
    [
      DrawImage(thumbnail, 1621, 0),
      DrawImage(ProgressBarOf(s), 113, 635),
      FillText(s.name, 113, 230, s.nameColor, NameFont),
      FillText(s.author, 113, 370, s.authorColor, AuthorFont),
      FillText(s.startTime, 113, 768, s.timeColor, TimeFont),
      FillText(s.endTime, 1332, 768, s.timeColor, TimeFont)
    ]
  }

  /** Lines 83-146: every draw call, in order. */
  function Layout(s: Settings, thumbnail: Picture, background: BackgroundLoad): (r: seq<Draw>)
    ensures 7 <= |r| <= 9
    ensures r[|r| - 6] == DrawImage(thumbnail, 1621, 0)
  {
    BackgroundDraws(s, background) + ForegroundDraws(s, thumbnail)
  }

  /** What `Classic(caller)` returns, given whether a supplied thumbnail
      decodes and what became of a supplied background image. */
  function Render(caller: map<Field, Value>, thumbnailDecodes: bool, background: BackgroundLoad)
    : (r: Result<Png, RenderError>)
    requires CallerTyped(caller)
    ensures r.Ok? ==> r.value.width == Width && r.value.height == Height && 7 <= |r.value.draws| <= 9
  {
    var option := Merged(caller);
    var thumbnail := Thumbnail(option);
    if thumbnail.Decoded? && !thumbnailDecodes then Err(ThumbnailNotDecoded)
    else Ok(Png(Width, Height, Layout(Normalise(option), thumbnail, background)))
  }

  /** `Classic(option)`: merge, load the thumbnail, normalise in place, then
      draw and encode. */
  method Classic(caller: map<Field, Value>, thumbnailDecodes: bool, background: BackgroundLoad)
    returns (r: Result<Png, RenderError>)
    requires CallerTyped(caller)
    ensures r == Render(caller, thumbnailDecodes, background)
  {
    var option := Merged(caller);
    var thumbnail := Thumbnail(option);
    if thumbnail.Decoded? && !thumbnailDecodes {
      return Err(ThumbnailNotDecoded);
    }

    option := option.(progress := Clamp(MinProgress, MaxProgress, option.progress));
    option := option.(imageDarkness := Clamp(MinDarkness, MaxDarkness, option.imageDarkness));
    option := option.(name := Ellipsize(option.name));
    option := option.(author := Ellipsize(option.author));

    var png := Compose(option, thumbnail, background);
    r := Ok(png);
  }

  /** Lines 80-148: draws the card on a fresh canvas and encodes it. */
  method Compose(option: Settings, thumbnail: Picture, background: BackgroundLoad)
    returns (png: Png)
    ensures png == Png(Width, Height, Layout(option, thumbnail, background))
  {
    var canvas := new Canvas(Width, Height);
    DrawBackground(canvas, option, background);
    DrawForeground(canvas, option, thumbnail);
    png := canvas.Encode();
  }

  /** Lines 83-121: the left panel. A background image that fails to load
      or to crop falls back to the flat panels. */
  method DrawBackground(canvas: Canvas, option: Settings, background: BackgroundLoad)
    modifies canvas`log
    ensures canvas.log == old(canvas.log) + BackgroundDraws(option, background)
  {
    if !Supplied(option.backgroundImage) {
      canvas.DrawImage(FlatPanels(option.backgroundColor), 0, 0);
    } else {
      var image := option.backgroundImage.value;
      var failed := background == DecodeFailed || background == TopCropFailed;
      if !failed {
        canvas.DrawImage(TopPanel(image), 0, 0);
        failed := background == BottomCropFailed;
        if !failed {
          canvas.DrawImage(BottomPanel(image), 0, 565);
          canvas.DrawImage(Darkness(Opacity(option.imageDarkness)), 0, 0);
        }
      }
      if failed {
        canvas.DrawImage(FlatPanels(option.backgroundColor), 0, 0);
      }
    }
  }

  /** Lines 123-146: thumbnail, progress bar, then the labels, each painted
      with the fill style and font set just before it. */
  method DrawForeground(canvas: Canvas, option: Settings, thumbnail: Picture)
    modifies canvas`log, canvas`fillStyle, canvas`font
    ensures canvas.log == old(canvas.log) + ForegroundDraws(option, thumbnail)
    ensures canvas.fillStyle == option.timeColor && canvas.font == TimeFont
  {
    canvas.DrawImage(thumbnail, 1621, 0);
    var completed := Completed(option.progress);
    canvas.DrawImage(ProgressBar(option.progressBarColor, option.progressColor,
                                 option.backgroundColor, completed, completed - KnobOffset), 113, 635);

    canvas.SetFillStyle(option.nameColor);
    canvas.SetFont(NameFont);
    canvas.FillText(option.name, 113, 230);

    canvas.SetFillStyle(option.authorColor);
    canvas.SetFont(AuthorFont);
    canvas.FillText(option.author, 113, 370);

    canvas.SetFillStyle(option.timeColor);
    canvas.SetFont(TimeFont);
    canvas.FillText(option.startTime, 113, 768);
    canvas.FillText(option.endTime, 1332, 768);
  }
}
