/** The tray icon (electron/modules/tray.js): the minutes caption and the
    arithmetic that decides the heart glyph, a heart outline filled from the
    bottom by the elapsed fraction of the run. Lengths are exact rationals; the
    canvas calls that rasterize them are reduced to the drawing they are asked
    to do. */
module Tray {
  import opened Wrappers
  import opened Decimal
  import opened State
  import opened Timer

  datatype Palette = Palette(bg: string, card: string, stroke: string, accent: string, primary: string)

  const ThemePalettes: map<string, Palette> := map[
    "pink" := Palette("#FFE2F5", "#FDB3DB", "#BF6091", "#E47ED1", "#e91e63"),
    "green" := Palette("#E0F2F1", "#B2DFDB", "#00695C", "#4DB6AC", "#2e7d32"),
    "neutral" := Palette("#F3F3F3", "#E8E8E8", "#9E9E9E", "#BDBDBD", "#8C8C8C"),
    "blue" := Palette("#E3F2FD", "#90CAF9", "#1565C0", "#42A5F5", "#1976D2"),
    "purple" := Palette("#F3E5F5", "#CE93D8", "#6A1B9A", "#AB47BC", "#8E24AA"),
    "orange" := Palette("#FFF3E0", "#FFCC80", "#E65100", "#FF9800", "#F57C00")
  ]

  /** `settings.theme || 'neutral'`. */
  function ThemeName(theme: string): string {
    if theme == "" then "neutral" else theme
  }

  /** The primary colour of the theme's palette, the neutral one for an unknown name. */
  function HeartColor(theme: string): (color: string)
    ensures ThemeName(theme) in ThemePalettes ==> color == ThemePalettes[ThemeName(theme)].primary
    ensures ThemeName(theme) !in ThemePalettes ==> color == "#8C8C8C"
  {
    var name := ThemeName(theme);
    if name in ThemePalettes then ThemePalettes[name].primary else ThemePalettes["neutral"].primary
  }

  /** An unset or unknown theme paints in neutral grey; a known one in its own primary. */
  lemma ThemeFallback(theme: string)
    ensures theme == "" || theme !in ThemePalettes ==> HeartColor(theme) == "#8C8C8C"
    ensures theme in ThemePalettes ==> HeartColor(theme) == ThemePalettes[theme].primary
    ensures exists name :: name in ThemePalettes && HeartColor(theme) == ThemePalettes[name].primary
  {
    var name := if ThemeName(theme) in ThemePalettes then ThemeName(theme) else "neutral";
    assert name in ThemePalettes && HeartColor(theme) == ThemePalettes[name].primary;
  }

  // ---------------------------------------------------------------------------
  // Progress

  /** The length of the run: `initialSeconds` when it is set (nonzero), else the
      configured length of the current mode in seconds. */
  function Total(t: TimerFields, d: Durations): (total: real)
    ensures t.initialSeconds != 0 ==> total == t.initialSeconds as real
    ensures t.initialSeconds == 0 && t.isBreak ==> total == d.breakMinutes * 60.0
    ensures t.initialSeconds == 0 && !t.isBreak ==> total == d.workMinutes * 60.0
  {
    if t.initialSeconds != 0 then t.initialSeconds as real
    else if t.isBreak then d.breakMinutes * 60.0
    else d.workMinutes * 60.0
  }

  /** Right after a start, and after a resume that fills in a missing length,
      the total the tray divides by is the length of the run in seconds. */
  lemma TotalIsRunLength(s: AppState, isBreak: bool, d: Durations, now: int)
    ensures var secs := DurationSeconds(if isBreak then d.breakMinutes else d.workMinutes);
            secs > 0 ==> Total(StartStep(s, isBreak, d, now).state.timer, d) == secs as real
    ensures !s.timer.running && s.timer.remainingSeconds > 0 && s.timer.initialSeconds == 0 ==>
            Total(ResumeStep(s, now).state.timer, d) == s.timer.remainingSeconds as real
  {
  }

  function Clamp01(x: real): real {
    if x < 0.0 then 0.0 else if x > 1.0 then 1.0 else x
  }

  /** The elapsed fraction of the run, from the remaining seconds (taken as 0 when negative). */
  function Fraction(total: real, remaining: int): (f: real)
    ensures 0.0 <= f <= 1.0
    ensures total <= 0.0 ==> f == 0.0
    ensures Max(0, remaining) as real >= total ==> f == 0.0
    ensures total > 0.0 && remaining <= 0 ==> f == 1.0
    ensures total > 0.0 && 0 <= remaining && remaining as real < total ==>
            f == 1.0 - remaining as real / total && 0.0 < f
  {
    var rem := Max(0, remaining) as real;
    if total > 0.0 then Clamp01(1.0 - rem / total) else 0.0
  }

  /** Less time left never shows less progress. */
  lemma {:induction false} FractionMonotone(total: real, r1: int, r2: int)
    requires r1 <= r2
    ensures Fraction(total, r2) <= Fraction(total, r1)
  {
    if total > 0.0 {
      var a, b := Max(0, r1) as real, Max(0, r2) as real;
      assert a <= b;
      assert a / total <= b / total by {
        assert b / total - a / total == (b - a) / total;
        assert (b - a) / total >= 0.0;
      }
    }
  }

  // ---------------------------------------------------------------------------
  // Canvas

  const Scale := 2
  const PointHeight := 26
  const HeartPoints := 18
  const MinWidthPoints := 32
  const HeartMargin := 8

  /** The pixel canvas, the point size it is shrunk to, and the heart's side in pixels. */
  datatype Canvas = Canvas(width: int, height: int, pointWidth: int, pointHeight: int, heartSize: int)

  /** The canvas at a given supersampling scale. */
  function CanvasFor(scale: int): (c: Canvas)
    requires scale >= 1
    ensures c.height == c.pointHeight * scale
    ensures (c.pointWidth - 1) * scale < c.width <= c.pointWidth * scale
    ensures c.width >= MinWidthPoints * scale
    ensures c.heartSize + HeartMargin <= c.width && c.heartSize <= c.height
  {
    var heartSize := HeartPoints * scale;
    var minWidth := MinWidthPoints * scale;
    var w := Max(minWidth, heartSize + HeartMargin);
    var pointW := (w + scale - 1) / scale;
    CeilDiv(w, scale);
    Canvas(w, PointHeight * scale, pointW, PointHeight, heartSize)
  }

  /** `(w + s - 1) / s` is `Math.ceil(w / s)`. */
  lemma CeilDiv(w: int, s: int)
    requires s >= 1
    ensures ((w + s - 1) / s - 1) * s < w <= ((w + s - 1) / s) * s
  {
    var q, r := (w + s - 1) / s, (w + s - 1) % s;
    assert w + s - 1 == q * s + r && 0 <= r < s;
    assert q * s - s == (q - 1) * s;
  }

  /** At scale 2 the canvas is 64 x 52 pixels, shown as 32 x 26 points, with a 36-pixel heart. */
  lemma TrayCanvas()
    ensures CanvasFor(Scale) == Canvas(64, 52, 32, 26, 36)
  {
  }

  // ---------------------------------------------------------------------------
  // The heart outline

  datatype Point = Point(x: real, y: real)
  datatype Cubic = Cubic(c1: Point, c2: Point, end: Point)
  /** A closed path: a start point and the cubic Bezier segments drawn from it. */
  datatype Outline = Outline(start: Point, curves: seq<Cubic>)

  /** `drawHeartPath`: a heart centred at (x, y) in a width x height box, drawn as
      four cubic segments from the bottom tip, over the left hump to the centre
      cusp, over the right hump and back to the tip. */
  function HeartOutline(x: real, y: real, width: real, height: real): (o: Outline)
    ensures |o.curves| == 4
    ensures o.start == Point(x, y + height / 2.0) && o.curves[3].end == o.start
  {
    var leftX, rightX := x - width / 2.0, x + width / 2.0;
    var topY, bottomY := y - height / 2.0, y + height / 2.0;
    var midY := y;
    var heartTopY := topY + height * 0.15;
    Outline(Point(x, bottomY), [
      Cubic(Point(leftX + width * 0.25, bottomY - height * 0.1), Point(leftX, midY), Point(leftX + width * 0.1, heartTopY)),
      Cubic(Point(leftX + width * 0.15, topY + height * 0.05), Point(x - width * 0.05, topY + height * 0.1), Point(x, heartTopY)),
      Cubic(Point(x + width * 0.05, topY + height * 0.1), Point(rightX - width * 0.15, topY + height * 0.05), Point(rightX - width * 0.1, heartTopY)),
      Cubic(Point(rightX, midY), Point(rightX - width * 0.25, bottomY - height * 0.1), Point(x, bottomY))
    ])
  }

  /** The start point followed by each segment's two control points and end point. */
  function ControlPolygon(o: Outline): (pts: seq<Point>)
    requires |o.curves| == 4
    ensures |pts| == 13 && pts[0] == o.start
    ensures forall k :: 0 <= k < 4 ==> pts[3 * k + 1] == o.curves[k].c1 && pts[3 * k + 2] == o.curves[k].c2 &&
                                        pts[3 * k + 3] == o.curves[k].end
  {
    var c := o.curves;
    [o.start, c[0].c1, c[0].c2, c[0].end, c[1].c1, c[1].c2, c[1].end,
     c[2].c1, c[2].c2, c[2].end, c[3].c1, c[3].c2, c[3].end]
  }

  function Mirror(p: Point, axis: real): Point {
    Point(2.0 * axis - p.x, p.y)
  }

  /** The path starts and ends at the bottom tip, its centre cusp lies 15% of the
      height below the top, and the widest control points sit on the box's sides
      at mid-height (the curves bend towards them without passing through). */
  lemma HeartLandmarks(x: real, y: real, w: real, h: real)
    ensures var o := HeartOutline(x, y, w, h);
            o.start == Point(x, y + h / 2.0) && o.curves[3].end == o.start &&
            o.curves[1].end == Point(x, y - h / 2.0 + 0.15 * h) &&
            o.curves[0].c2 == Point(x - w / 2.0, y) && o.curves[3].c1 == Point(x + w / 2.0, y)
  {
  }

  /** The heart is symmetric about the vertical line through x: walking the
      control polygon backwards gives the mirror image of walking it forwards. */
  lemma HeartSymmetric(x: real, y: real, w: real, h: real)
    ensures var pts := ControlPolygon(HeartOutline(x, y, w, h));
            forall i :: 0 <= i < 13 ==> pts[12 - i] == Mirror(pts[i], x)
  {
  }

  /** Every control point lies in the width x height box, so the curves do too
      and a band across the box covers the heart's full width. */
  lemma HeartInsideBox(x: real, y: real, w: real, h: real)
    requires w >= 0.0 && h >= 0.0
    ensures var pts := ControlPolygon(HeartOutline(x, y, w, h));
            forall i :: 0 <= i < 13 ==>
              x - w / 2.0 <= pts[i].x <= x + w / 2.0 && y - h / 2.0 <= pts[i].y <= y + h / 2.0
  {
  }

  // ---------------------------------------------------------------------------
  // The fill

  datatype Rect = Rect(x: real, y: real, width: real, height: real)

  const FillAlpha := 0.8

  /** The band filled inside the heart for a given elapsed fraction, if any. */
  function FillBand(cx: real, cy: real, heartWidth: real, heartHeight: real, frac: real): (band: Option<Rect>)
    ensures band.None? <==> frac <= 0.0
    ensures band.Some? ==> band.value.y + band.value.height == cy + heartHeight / 2.0 &&
                           band.value.width == heartWidth
  {
    if frac > 0.0 then
      var fillHeight := heartHeight * frac;
      Some(Rect(cx - heartWidth / 2.0, cy + heartHeight / 2.0 - fillHeight, heartWidth, fillHeight))
    else None
  }

  /** Nothing is filled at zero progress. Otherwise the band spans the heart's
      width, is `frac` of its height and sits on its bottom edge, so it stays
      inside the box; a full fraction covers the box and a half covers the
      lower half. */
  lemma FillBandAnchored(cx: real, cy: real, hw: real, hh: real, frac: real)
    requires hh >= 0.0 && frac <= 1.0
    ensures FillBand(cx, cy, hw, hh, frac).None? <==> frac <= 0.0
    ensures frac > 0.0 ==>
            var b := FillBand(cx, cy, hw, hh, frac).value;
            b.y + b.height == cy + hh / 2.0 && b.height == hh * frac &&
            b.x == cx - hw / 2.0 && b.width == hw &&
            cy - hh / 2.0 <= b.y &&
            (frac == 1.0 ==> b.y == cy - hh / 2.0) &&
            (frac == 0.5 ==> b.y == cy)
  {
    if frac > 0.0 {
      assert hh * frac <= hh * 1.0;
    }
  }

  datatype Fill = Fill(clip: Outline, band: Rect, color: string, alpha: real)

  /** The drawing requested for the icon: the canvas, and the clipped band if any. */
  datatype TrayImage = BaseIcon | Rendered(canvas: Canvas, fill: Option<Fill>)

  /** `renderTrayImage`: the icon drawn for a timer state and settings at `now`. */
  function RenderTrayImage(s: AppState, settings: Settings, now: int): (img: TrayImage)
    ensures img.Rendered?
  {
    var c := CanvasFor(Scale);
    var color := HeartColor(settings.theme);
    var frac := Fraction(Total(s.timer, settings.durations), Remaining(s, now));
    var cx, cy := c.width as real / 2.0, c.height as real / 2.0;
    var side := c.heartSize as real;
    match FillBand(cx, cy, side, side, frac)
    case None => Rendered(c, None)
    case Some(band) => Rendered(c, Some(Fill(HeartOutline(cx, cy, side, side), band, color, FillAlpha)))
  }

  /** The icon is a 64 x 52 canvas; the heart is left empty exactly when no
      progress is shown, and otherwise the band, clipped to the heart centred at
      (32, 26), rises from the heart's bottom at y = 44 by 36 times the elapsed
      fraction, in the theme colour at 80% opacity. */
  lemma {:induction false} RenderShowsProgress(s: AppState, settings: Settings, now: int)
    ensures var img := RenderTrayImage(s, settings, now);
            var frac := Fraction(Total(s.timer, settings.durations), Remaining(s, now));
            img.canvas == Canvas(64, 52, 32, 26, 36) &&
            (img.fill.None? <==> frac == 0.0) &&
            (img.fill.Some? ==>
               img.fill.value.clip == HeartOutline(32.0, 26.0, 36.0, 36.0) &&
               img.fill.value.band == Rect(14.0, 44.0 - 36.0 * frac, 36.0, 36.0 * frac) &&
               img.fill.value.color == HeartColor(settings.theme) &&
               img.fill.value.alpha == 0.8)
  {
    TrayCanvas();
    var frac := Fraction(Total(s.timer, settings.durations), Remaining(s, now));
    FillBandAnchored(32.0, 26.0, 36.0, 36.0, frac);
  }

  /** A freshly started run with a positive length shows an empty heart. */
  lemma FreshRunShowsEmptyHeart(s: AppState, isBreak: bool, settings: Settings, now: int)
    requires DurationSeconds(if isBreak then settings.durations.breakMinutes else settings.durations.workMinutes) > 0
    ensures RenderTrayImage(StartStep(s, isBreak, settings.durations, now).state, settings, now).fill == None
  {
    StartRunsDuration(s, isBreak, settings.durations, now);
    RenderShowsProgress(StartStep(s, isBreak, settings.durations, now).state, settings, now);
  }

  /** When a run of positive length ends naturally, the heart is filled over the whole box. */
  lemma EndedRunShowsFullHeart(s: AppState, settings: Settings, now: int)
    requires s.timer.running && s.timer.initialSeconds > 0 && s.timer.endTs - now < 1000
    ensures var ended := TickStep(s, now).state;
            var img := RenderTrayImage(ended, settings, now);
            img.fill.Some? && img.fill.value.band == Rect(14.0, 8.0, 36.0, 36.0)
  {
    var ended := TickStep(s, now).state;
    TickRunning(s, now);
    assert Remaining(ended, now) == 0;
    RenderShowsProgress(ended, settings, now);
  }

  // ---------------------------------------------------------------------------
  // The tray object

  datatype TrayIcon = TrayIcon(image: TrayImage, title: string, toolTip: string)

  /** `updateTrayTitleAndIcon` on an existing tray: the image is redrawn unless
      rendering fails, and the title and tooltip show the whole minutes left. */
  function Refresh(icon: TrayIcon, s: AppState, settings: Settings, now: int, renderOk: bool): (r: TrayIcon)
    ensures AllDigits(r.title) && r.toolTip == "Timer: " + r.title + " minutes remaining"
    ensures renderOk ==> r.image == RenderTrayImage(s, settings, now)
    ensures !renderOk ==> r.image == icon.image
  {
    var caption := NatToString(MinutesFloor(Remaining(s, now)));
    TrayIcon(if renderOk then RenderTrayImage(s, settings, now) else icon.image,
             caption, "Timer: " + caption + " minutes remaining")
  }

  /** The title reads back as the whole minutes left, never negative; a failed
      render keeps the previous image. */
  lemma {:induction false} TitleShowsMinutes(icon: TrayIcon, s: AppState, settings: Settings, now: int, renderOk: bool)
    ensures var r := Refresh(icon, s, settings, now, renderOk);
            var m := MinutesFloor(Remaining(s, now));
            AllDigits(r.title) && ParseDigits(r.title) == m &&
            (Remaining(s, now) >= 0 ==> m * 60 <= Remaining(s, now) < m * 60 + 60) &&
            r.toolTip == "Timer: " + r.title + " minutes remaining" &&
            (renderOk ==> r.image == RenderTrayImage(s, settings, now)) &&
            (!renderOk ==> r.image == icon.image)
  {
    ParseNatToString(MinutesFloor(Remaining(s, now)));
  }

  class TrayManager {
    /** The timer whose state and settings (those of its state manager) the icon shows. */
    const timer: TimerManager
    /** The tray icon, absent until `CreateTray`. */
    var tray: Option<TrayIcon>

    constructor (timer: TimerManager)
      ensures this.timer == timer && tray == None
    {
      this.timer := timer;
      tray := None;
    }

    /** Creates the icon from the base image, then draws the current state on it. */
    method CreateTray(now: int, renderOk: bool)
      modifies this`tray
      ensures tray == Some(Refresh(TrayIcon(BaseIcon, "", ""), timer.store.state, timer.store.settings, now, renderOk))
    {
      tray := Some(TrayIcon(BaseIcon, "", ""));
      UpdateTrayTitleAndIcon(now, renderOk);
    }

    method UpdateTrayTitleAndIcon(now: int, renderOk: bool)
      modifies this`tray
      ensures old(tray).None? ==> tray == None
      ensures old(tray).Some? ==>
              tray == Some(Refresh(old(tray).value, timer.store.state, timer.store.settings, now, renderOk))
    {
      if tray.None? {
        return;
      }
      var rem := timer.TimeRemainingSeconds(now);
      var minutesLeft := MinutesFloor(rem);
      var icon := tray.value;
      if renderOk {
        icon := icon.(image := RenderTrayImage(timer.store.state, timer.store.settings, now));
      }
      var caption := NatToString(minutesLeft);
      icon := icon.(title := caption, toolTip := "Timer: " + caption + " minutes remaining");
      tray := Some(icon);
    }
  }
}
