/** What a rendered card is, stated in terms of the caller's options. */
module ClassicProperties {
  import opened Wrappers
  import opened CardOptions
  import opened Drawing
  import opened ClassicTheme
  import Fonts

  /** Rendering fails exactly when the caller supplies a truthy thumbnail
      that does not decode; omitting the thumbnail never fails, and a
      background image never makes it fail. */
  lemma RenderFails(caller: map<Field, Value>, thumbnailDecodes: bool, background: BackgroundLoad)
    requires CallerTyped(caller)
    ensures Render(caller, thumbnailDecodes, background).Err?
            <==> ThumbnailImage in caller && Truthy(caller[ThumbnailImage]) && !thumbnailDecodes
  {
    MergedImages(caller);
  }

  /** The card is 2458x837, and its last six draws are the thumbnail at
      (1621, 0), the progress bar at (113, 635), then name, author, start and
      end time at their fixed positions, each in its colour and font. */
  lemma RenderedForeground(caller: map<Field, Value>, thumbnailDecodes: bool, background: BackgroundLoad)
    requires CallerTyped(caller)
    requires Render(caller, thumbnailDecodes, background).Ok?
    ensures var png := Render(caller, thumbnailDecodes, background).value;
            var s := Normalise(Merged(caller));
            var n := |png.draws|;
            && png.width == 2458 && png.height == 837
            && n >= 7
            && png.draws[n - 6] == DrawImage(Thumbnail(Merged(caller)), 1621, 0)
            && png.draws[n - 5] == DrawImage(ProgressBarOf(s), 113, 635)
            && png.draws[n - 4] == FillText(s.name, 113, 230, s.nameColor, Font(124, "extrabold"))
            && png.draws[n - 3] == FillText(s.author, 113, 370, s.authorColor, Font(87, "regular"))
            && png.draws[n - 2] == FillText(s.startTime, 113, 768, s.timeColor, Font(50, "semibold"))
            && png.draws[n - 1] == FillText(s.endTime, 1332, 768, s.timeColor, Font(50, "semibold"))
  {
  }

  /** A draw call is anchored inside the 2458x837 canvas. */
  predicate OnCanvas(d: Draw)
  {
    0 <= d.x < Width && 0 <= d.y < Height
  }

  /** A text draw names one of the registered font families. */
  predicate RegisteredFont(d: Draw)
  {
    d.FillText? ==> d.font.family in Fonts.LogicalNames
  }

  /** The background part draws images only, all inside the canvas. */
  lemma BackgroundImagesOnCanvas(s: Settings, background: BackgroundLoad)
    ensures forall d | d in BackgroundDraws(s, background) :: d.DrawImage? && OnCanvas(d)
  {
  }

  /** Every draw is anchored inside the canvas, every text uses a registered
      family, and the texts are exactly the last four draws, so every text is
      painted over every image. */
  lemma LayoutWellPlaced(s: Settings, thumbnail: Picture, background: BackgroundLoad)
    ensures var d := Layout(s, thumbnail, background);
            && |d| >= 7
            && (forall i | 0 <= i < |d| :: OnCanvas(d[i]) && RegisteredFont(d[i]))
            && (forall i | 0 <= i < |d| :: d[i].FillText? <==> i >= |d| - 4)
  {
    var b := BackgroundDraws(s, background);
    var f := ForegroundDraws(s, thumbnail);
    var d := Layout(s, thumbnail, background);
    BackgroundImagesOnCanvas(s, background);
    assert |b| >= 1;
    forall i | 0 <= i < |d|
      ensures OnCanvas(d[i]) && RegisteredFont(d[i])
      ensures d[i].FillText? <==> i >= |d| - 4
    {
      if i < |b| {
        assert d[i] == b[i] && b[i] in b;
      } else {
        assert d[i] == f[i - |b|];
      }
    }
  }

  /** Lifted to the rendered card. */
  lemma RenderedWellPlaced(caller: map<Field, Value>, thumbnailDecodes: bool, background: BackgroundLoad)
    requires CallerTyped(caller)
    requires Render(caller, thumbnailDecodes, background).Ok?
    ensures var d := Render(caller, thumbnailDecodes, background).value.draws;
            && |d| >= 7
            && (forall i | 0 <= i < |d| :: OnCanvas(d[i]) && RegisteredFont(d[i]))
            && (forall i | 0 <= i < |d| :: d[i].FillText? <==> i >= |d| - 4)
  {
    var m := Merged(caller);
    LayoutWellPlaced(Normalise(m), Thumbnail(m), background);
  }

  /** The thumbnail slot shows the caller's truthy thumbnail as decoded, or
      else the placeholder in the progress colour with the glyph in the
      background colour. */
  lemma RenderedThumbnail(caller: map<Field, Value>, thumbnailDecodes: bool, background: BackgroundLoad)
    requires CallerTyped(caller)
    requires Render(caller, thumbnailDecodes, background).Ok?
    ensures var d := Render(caller, thumbnailDecodes, background).value.draws;
            var m := Merged(caller);
            && |d| >= 6
            && d[|d| - 6] == DrawImage(if ThumbnailImage in caller && Truthy(caller[ThumbnailImage])
                                       then Decoded(caller[ThumbnailImage])
                                       else Placeholder(m.progressColor, m.backgroundColor), 1621, 0)
  {
    MergedImages(caller);
    RenderedForeground(caller, thumbnailDecodes, background);
  }

  /** The bar of clamped settings: the filled width is the progress as a
      share of the track, between 134.2 and 1342, so the bar drawn at x = 113
      ends inside the canvas. */
  lemma ProgressBarGeometry(s: Settings)
    requires MinProgress <= s.progress <= MaxProgress
    ensures var bar := ProgressBarOf(s);
            && bar == ProgressBar(s.progressBarColor, s.progressColor, s.backgroundColor,
                                  1342.0 * s.progress / 100.0, 1342.0 * s.progress / 100.0 - 40.0)
            && 134.2 <= bar.completed <= 1342.0
            && 113.0 + bar.completed <= Width as real
  {
  }

  /** The filled part of the bar is the clamped progress as a share of the
      1342-pixel track, between 134.2 and 1342, so the bar drawn at x = 113
      ends inside the canvas; the knob sits 40 pixels left of its end. */
  lemma RenderedProgress(caller: map<Field, Value>, thumbnailDecodes: bool, background: BackgroundLoad)
    requires CallerTyped(caller)
    requires Render(caller, thumbnailDecodes, background).Ok?
    ensures var d := Render(caller, thumbnailDecodes, background).value.draws;
            var m := Merged(caller);
            var p := Clamp(MinProgress, MaxProgress, m.progress);
            && |d| >= 5
            && d[|d| - 5] == DrawImage(ProgressBar(m.progressBarColor, m.progressColor, m.backgroundColor,
                                                   1342.0 * p / 100.0, 1342.0 * p / 100.0 - 40.0), 113, 635)
            && 134.2 <= 1342.0 * p / 100.0 <= 1342.0
            && 113.0 + 1342.0 * p / 100.0 <= Width as real
  {
    RenderedForeground(caller, thumbnailDecodes, background);
    var m := Merged(caller);
    var s := Normalise(m);
    assert s.progress == Clamp(MinProgress, MaxProgress, m.progress);
    assert s.progressBarColor == m.progressBarColor && s.progressColor == m.progressColor
        && s.backgroundColor == m.backgroundColor;
    ProgressBarGeometry(s);
  }

  /** The labels: name and author truncated to 18 characters plus "..."
      when longer, the two times as given, each in its colour. */
  lemma RenderedLabels(caller: map<Field, Value>, thumbnailDecodes: bool, background: BackgroundLoad)
    requires CallerTyped(caller)
    requires Render(caller, thumbnailDecodes, background).Ok?
    ensures var d := Render(caller, thumbnailDecodes, background).value.draws;
            var m := Merged(caller);
            && |d| >= 4
            && d[|d| - 4].text == Ellipsize(m.name) && d[|d| - 4].style == m.nameColor
            && d[|d| - 3].text == Ellipsize(m.author) && d[|d| - 3].style == m.authorColor
            && d[|d| - 2].text == m.startTime && d[|d| - 2].style == m.timeColor
            && d[|d| - 1].text == m.endTime && d[|d| - 1].style == m.timeColor
  {
    RenderedForeground(caller, thumbnailDecodes, background);
  }

  /** The default settings draw the flat panel, the placeholder, a bar
      filled to 10%, and the default labels. */
  lemma DefaultLayout(background: BackgroundLoad)
    ensures var s := Settings(10.0, "Musicard", "By Unburn", "0:00", "0:00",
                              "#5F2D00", "#FF7A00", "#070707", "#FF7A00",
                              "#FFFFFF", "#FFFFFF", 10.0, None, None);
            Layout(Normalise(s), Placeholder("#FF7A00", "#070707"), background) == [
              DrawImage(FlatPanels("#070707"), 0, 0),
              DrawImage(Placeholder("#FF7A00", "#070707"), 1621, 0),
              DrawImage(ProgressBar("#5F2D00", "#FF7A00", "#070707", 134.2, 94.2), 113, 635),
              FillText("Musicard", 113, 230, "#FF7A00", Font(124, "extrabold")),
              FillText("By Unburn", 113, 370, "#FFFFFF", Font(87, "regular")),
              FillText("0:00", 113, 768, "#FFFFFF", Font(50, "semibold")),
              FillText("0:00", 1332, 768, "#FFFFFF", Font(50, "semibold"))]
  {
    var s := Settings(10.0, "Musicard", "By Unburn", "0:00", "0:00",
                      "#5F2D00", "#FF7A00", "#070707", "#FF7A00",
                      "#FFFFFF", "#FFFFFF", 10.0, None, None);
    assert |s.name| == 8 && |s.author| == 9;
    assert Normalise(s) == s;
    assert Completed(10.0) == 134.2;
  }

  /** An empty options object renders the default card, whatever the
      outcome flags say. */
  lemma DefaultCard(thumbnailDecodes: bool, background: BackgroundLoad)
    ensures CallerTyped(map[])
    ensures Render(map[], thumbnailDecodes, background)
            == Ok(Png(2458, 837, [
                 DrawImage(FlatPanels("#070707"), 0, 0),
                 DrawImage(Placeholder("#FF7A00", "#070707"), 1621, 0),
                 DrawImage(ProgressBar("#5F2D00", "#FF7A00", "#070707", 134.2, 94.2), 113, 635),
                 FillText("Musicard", 113, 230, "#FF7A00", Font(124, "extrabold")),
                 FillText("By Unburn", 113, 370, "#FFFFFF", Font(87, "regular")),
                 FillText("0:00", 113, 768, "#FFFFFF", Font(50, "semibold")),
                 FillText("0:00", 1332, 768, "#FFFFFF", Font(50, "semibold"))]))
  {
    MergedDefaults();
    DefaultLayout(background);
  }
}

module ClassicBackground {
  import opened Wrappers
  import opened CardOptions
  import opened Drawing
  import opened ClassicTheme

  lemma GetWithoutBackground(caller: map<Field, Value>, k: Field)
    ensures Get(caller - {BackgroundImage}, k) == if k == BackgroundImage then None else Get(caller, k)
  {
  }

  lemma TypedWithoutBackground(caller: map<Field, Value>)
    requires CallerTyped(caller)
    ensures CallerTyped(caller - {BackgroundImage})
  {
  }

  /** Dropping the background image from the caller's object changes only
      that field of the merged options. */
  lemma MergedWithoutBackground(caller: map<Field, Value>)
    requires CallerTyped(caller)
    ensures CallerTyped(caller - {BackgroundImage})
    ensures Merged(caller - {BackgroundImage}) == Merged(caller).(backgroundImage := None)
  {
    TypedWithoutBackground(caller);
    forall k ensures Get(caller - {BackgroundImage}, k) == if k == BackgroundImage then None else Get(caller, k) {
      GetWithoutBackground(caller, k);
    }
  }

  /** A failed decode or first crop draws what no background image draws. */
  lemma LayoutFallback(s: Settings, thumbnail: Picture, background: BackgroundLoad, other: BackgroundLoad)
    requires background == DecodeFailed || background == TopCropFailed
    ensures Layout(s, thumbnail, background) == Layout(s.(backgroundImage := None), thumbnail, other)
  {
    assert BackgroundDraws(s, background) == BackgroundDraws(s.(backgroundImage := None), other);
  }

  /** When the background image fails to decode or its first crop fails,
      the card is exactly the card drawn without a background image. */
  lemma FallbackMatchesNoImage(caller: map<Field, Value>, thumbnailDecodes: bool,
                               background: BackgroundLoad, other: BackgroundLoad)
    requires CallerTyped(caller)
    requires background == DecodeFailed || background == TopCropFailed
    ensures CallerTyped(caller - {BackgroundImage})
    ensures Render(caller, thumbnailDecodes, background)
            == Render(caller - {BackgroundImage}, thumbnailDecodes, other)
  {
    MergedWithoutBackground(caller);
    var m := Merged(caller);
    assert Thumbnail(m.(backgroundImage := None)) == Thumbnail(m);
    assert Normalise(m.(backgroundImage := None)) == Normalise(m).(backgroundImage := None);
    LayoutFallback(Normalise(m), Thumbnail(m), background, other);
  }

  /** With no truthy background image the panel is the flat two-rectangle
      image in the background colour, drawn once at (0, 0). */
  lemma FlatBackground(caller: map<Field, Value>, thumbnailDecodes: bool, background: BackgroundLoad)
    requires CallerTyped(caller)
    requires !(BackgroundImage in caller && Truthy(caller[BackgroundImage]))
    requires Render(caller, thumbnailDecodes, background).Ok?
    ensures var d := Render(caller, thumbnailDecodes, background).value.draws;
            |d| == 7 && d[0] == DrawImage(FlatPanels(Merged(caller).backgroundColor), 0, 0)
  {
    MergedImages(caller);
  }

  /** A loaded background image: the two crops, then the overlay. */
  lemma LayoutLoaded(s: Settings, thumbnail: Picture)
    requires Supplied(s.backgroundImage)
    ensures var d := Layout(s, thumbnail, Loaded);
            && |d| == 9
            && d[0] == DrawImage(TopPanel(s.backgroundImage.value), 0, 0)
            && d[1] == DrawImage(BottomPanel(s.backgroundImage.value), 0, 565)
            && d[2] == DrawImage(Darkness(Opacity(s.imageDarkness)), 0, 0)
  {
  }

  /** A loaded background image gives the top crop at (0, 0), the bottom
      crop at (0, 565), then the darkness overlay at (0, 0), whose opacity is
      the clamped darkness over 100 and lies in [0, 1]. */
  lemma ImageBackground(caller: map<Field, Value>, thumbnailDecodes: bool)
    requires CallerTyped(caller)
    requires BackgroundImage in caller && Truthy(caller[BackgroundImage])
    requires Render(caller, thumbnailDecodes, Loaded).Ok?
    ensures var d := Render(caller, thumbnailDecodes, Loaded).value.draws;
            var image := caller[BackgroundImage];
            var opacity := Clamp(MinDarkness, MaxDarkness, Merged(caller).imageDarkness) / 100.0;
            && |d| == 9
            && d[0] == DrawImage(Cropped(image, 0, -170, 1568, 512, 50), 0, 0)
            && d[1] == DrawImage(Cropped(image, 0, -845, 1568, 272, 50), 0, 565)
            && d[2] == DrawImage(Darkness(opacity), 0, 0)
            && 0.0 <= opacity <= 1.0
  {
    MergedImages(caller);
    var m := Merged(caller);
    var s := Normalise(m);
    assert s.backgroundImage == m.backgroundImage;
    LayoutLoaded(s, Thumbnail(m));
  }

  /** A failed second crop leaves the first crop under the flat fallback. */
  lemma LayoutBottomCrop(s: Settings, thumbnail: Picture, other: BackgroundLoad)
    requires Supplied(s.backgroundImage)
    ensures Layout(s, thumbnail, BottomCropFailed)
            == [DrawImage(TopPanel(s.backgroundImage.value), 0, 0)]
               + Layout(s.(backgroundImage := None), thumbnail, other)
  {
    assert BackgroundDraws(s, BottomCropFailed)
        == [DrawImage(TopPanel(s.backgroundImage.value), 0, 0)] + BackgroundDraws(s.(backgroundImage := None), other);
    assert ForegroundDraws(s, thumbnail) == ForegroundDraws(s.(backgroundImage := None), thumbnail);
  }

  /** When only the second crop fails, the first crop has already been drawn
      and the flat fallback is drawn over it: the card is that crop followed
      by the card drawn without a background image. */
  lemma BottomCropFallback(caller: map<Field, Value>, thumbnailDecodes: bool, other: BackgroundLoad)
    requires CallerTyped(caller)
    requires BackgroundImage in caller && Truthy(caller[BackgroundImage])
    requires Render(caller, thumbnailDecodes, BottomCropFailed).Ok?
    ensures CallerTyped(caller - {BackgroundImage})
    ensures Render(caller - {BackgroundImage}, thumbnailDecodes, other).Ok?
    ensures Render(caller, thumbnailDecodes, BottomCropFailed).value.draws
            == [DrawImage(Cropped(caller[BackgroundImage], 0, -170, 1568, 512, 50), 0, 0)]
               + Render(caller - {BackgroundImage}, thumbnailDecodes, other).value.draws
  {
    MergedImages(caller);
    MergedWithoutBackground(caller);
    var m := Merged(caller);
    var s := Normalise(m);
    assert Thumbnail(m.(backgroundImage := None)) == Thumbnail(m);
    assert Normalise(m.(backgroundImage := None)) == s.(backgroundImage := None);
    assert s.backgroundImage == m.backgroundImage;
    LayoutBottomCrop(s, Thumbnail(m), other);
  }
}
