/**
 * The video-surface geometry of NativeActivity.updateVideoSurfaces: from the
 * frame geometry libvlc reported, the decor-view size and the orientation, the
 * layout params of the video (and subtitles) surface and of its clipping frame.
 * Java doubles are modelled as exact reals.
 */
module Geometry {

  /** The seven values of CURRENT_SIZE, SURFACE_BEST_FIT (0) to SURFACE_ORIGINAL (6). */
  datatype SizeMode = BestFit | FitHorizontal | FitVertical | Fill | Ratio16x9 | Ratio4x3 | Original

  /** The frame geometry held in the mVideo* fields, as onNewLayout stores it. */
  datatype VideoLayout = VideoLayout(
    width: nat, height: nat,
    visibleWidth: nat, visibleHeight: nat,
    sarNum: nat, sarDen: nat)

  /** An integer width and height: a layout param pair or a window size. */
  datatype Rect = Rect(width: int, height: int)

  /** The double-valued (dw, dh) the switch works on. */
  datatype Dims = Dims(w: real, h: real)

  /** The displayed width vw and the aspect ratio ar of the visible picture. */
  datatype Aspect = Aspect(vw: real, ar: real)

  /** What one run of updateVideoSurfaces writes. */
  datatype SurfaceUpdate =
    | NoVideo                                          // returns before touching anything
    | InvalidSize(window: Rect)                        // setWindowSize only, then "Invalid surface size"
    | Resized(window: Rect, video: Rect, frame: Rect)  // setWindowSize and both layout params

  // ---------------------------------------------------------------------------
  // The "is there a video" guard

  const Int32Modulus: int := 0x1_0000_0000

  /** A Java int result: x reduced to the 32-bit two's-complement range. */
  function Int32(x: int): (r: int)
    ensures -0x8000_0000 <= r < 0x8000_0000
    ensures (x - r) % Int32Modulus == 0
    ensures -0x8000_0000 <= x < 0x8000_0000 ==> r == x
  {
    var m := x % Int32Modulus;
    if m >= 0x8000_0000 then m - Int32Modulus else m
  }

  /** The guard as written: `mVideoWidth * mVideoHeight == 0` is a 32-bit product. */
  predicate HasVideoAsWritten(v: VideoLayout) {
    Int32(v.width * v.height) != 0
  }

  /** The product wraps to 0 for a 65536 x 65536 frame, which the guard then treats as no video. */
  lemma OverflowHidesVideo()
    ensures var v := VideoLayout(65536, 65536, 65536, 65536, 1, 1);
            HasVideo(v) && !HasVideoAsWritten(v)
  {
  }

  /** The guard as intended: both decoded dimensions are non-zero. */
  predicate HasVideo(v: VideoLayout) {
    v.width > 0 && v.height > 0
  }

  /** The two guards agree on every frame whose pixel count fits a Java int. */
  lemma HasVideoAgreesWithoutOverflow(v: VideoLayout)
    requires v.width * v.height < 0x8000_0000
    ensures HasVideoAsWritten(v) <==> HasVideo(v)
  {
  }

  /**
   * What libvlc promises about a frame it reports: a visible area, and a
   * usable sample aspect ratio whenever it is not the "unknown" num == den.
   */
  predicate Displayable(v: VideoLayout) {
    && v.visibleWidth > 0 && v.visibleHeight > 0
    && (v.sarNum != v.sarDen ==> v.sarNum > 0 && v.sarDen > 0)
  }

  /** The frames the activity may hold: either no video at all or a displayable one. */
  predicate Resolvable(v: VideoLayout) {
    HasVideo(v) ==> Displayable(v)
  }

  // ---------------------------------------------------------------------------
  // Orientation normalisation

  /** True when the measured shape contradicts the orientation flag. */
  predicate SwapsAxes(sw: nat, sh: nat, portrait: bool) {
    (sw > sh && portrait) || (sw < sh && !portrait)
  }

  /** The decor-view size with width and height exchanged to agree with the orientation. */
  function Normalize(sw: nat, sh: nat, portrait: bool): (d: Rect)
    ensures d == Rect(sw, sh) || d == Rect(sh, sw)
    ensures portrait ==> d.width <= d.height
    ensures !portrait ==> d.width >= d.height
  {
    if SwapsAxes(sw, sh, portrait) then Rect(sh, sw) else Rect(sw, sh)
  }

  /** A size that already agrees with the orientation is left as it is. */
  lemma NormalizeIdempotent(sw: nat, sh: nat, portrait: bool)
    ensures var d := Normalize(sw, sh, portrait);
            d.width >= 0 && d.height >= 0 && Normalize(d.width, d.height, portrait) == d
  {
  }

  // ---------------------------------------------------------------------------
  // Aspect ratio of the source

  function SourceAspect(v: VideoLayout): (a: Aspect)
    requires Displayable(v)
    ensures a.vw > 0.0 && a.ar > 0.0
    ensures a.ar * (v.visibleHeight as real) == a.vw
    ensures v.sarNum == v.sarDen ==> a.vw == v.visibleWidth as real
    ensures v.sarDen > 0 ==> a.vw * (v.sarDen as real) == (v.visibleWidth * v.sarNum) as real
  {
    var vh := v.visibleHeight as real;
    if v.sarDen == v.sarNum then
      // no indication about the density: square pixels
      Aspect(v.visibleWidth as real, v.visibleWidth as real / vh)
    else
      var vw := v.visibleWidth as real * v.sarNum as real / v.sarDen as real;
      Aspect(vw, vw / vh)
  }

  // ---------------------------------------------------------------------------
  // Fitting to the display

  /** The modes that fit the largest rectangle of a given aspect inside the display. */
  predicate Letterboxed(mode: SizeMode) {
    mode.BestFit? || mode.Ratio16x9? || mode.Ratio4x3?
  }

  /** The aspect ratio a mode fits to: forced for 16:9 and 4:3, the source's otherwise. */
  function TargetAspect(mode: SizeMode, ar: real): (t: real)
    ensures ar > 0.0 ==> t > 0.0
    ensures mode.Ratio16x9? ==> t == 16.0 / 9.0
    ensures mode.Ratio4x3? ==> t == 4.0 / 3.0
    ensures !mode.Ratio16x9? && !mode.Ratio4x3? ==> t == ar
  {
    match mode
    case Ratio16x9 => 16.0 / 9.0
    case Ratio4x3 => 4.0 / 3.0
    case _ => ar
  }

  /** The branch shared by BEST_FIT, 16:9 and 4:3: shrink one side to the aspect. */
  function LetterboxFit(d: Dims, ar: real): (r: Dims)
    requires d.w > 0.0 && d.h > 0.0 && ar > 0.0
    ensures r.w > 0.0 && r.h > 0.0
    ensures r.w == r.h * ar
    ensures r.w <= d.w && r.h <= d.h
    ensures r.w == d.w || r.h == d.h
  {
    if d.w / d.h < ar then
      assert d.w < ar * d.h by { DivLessMul(d.w, d.h, ar); }
      Dims(d.w, d.w / ar)
    else
      assert ar * d.h <= d.w by { DivLessMul(d.w, d.h, ar); }
      Dims(d.h * ar, d.h)
  }

  lemma DivLessMul(x: real, y: real, c: real)
    requires y > 0.0
    ensures x / y < c <==> x < c * y
  {
    assert x == (x / y) * y;
  }

  /** No rectangle of that aspect inside the display is larger than the fitted one. */
  lemma LetterboxFitIsLargest(d: Dims, ar: real, x: Dims)
    requires d.w > 0.0 && d.h > 0.0 && ar > 0.0
    requires x.w == x.h * ar && x.w <= d.w && x.h <= d.h
    ensures x.w <= LetterboxFit(d, ar).w && x.h <= LetterboxFit(d, ar).h
  {
  }

  /** Both sides are kept exactly when the display already has the target aspect. */
  lemma LetterboxKeepsBothIffAspectsAgree(d: Dims, ar: real)
    requires d.w > 0.0 && d.h > 0.0 && ar > 0.0
    ensures LetterboxFit(d, ar) == d <==> d.w == d.h * ar
  {
  }

  /** The switch on the size mode. */
  function Fit(d: Dims, mode: SizeMode, a: Aspect, visibleHeight: real): (r: Dims)
    requires d.w > 0.0 && d.h > 0.0 && a.vw > 0.0 && a.ar > 0.0 && visibleHeight > 0.0
    ensures r.w > 0.0 && r.h > 0.0
    ensures Letterboxed(mode) ==>
              && r.w == r.h * TargetAspect(mode, a.ar)
              && r.w <= d.w && r.h <= d.h
              && (r.w == d.w || r.h == d.h)
    ensures mode.FitHorizontal? ==> r.w == d.w && r.w == r.h * a.ar
    ensures mode.FitVertical? ==> r.h == d.h && r.w == r.h * a.ar
    ensures mode.Fill? ==> r == d
    ensures mode.Original? ==> r == Dims(a.vw, visibleHeight)
  {
    match mode
    case BestFit => LetterboxFit(d, a.ar)
    case FitHorizontal => Dims(d.w, d.w / a.ar)
    case FitVertical => Dims(d.h * a.ar, d.h)
    case Fill => d
    case Ratio16x9 => LetterboxFit(d, 16.0 / 9.0)
    case Ratio4x3 => LetterboxFit(d, 4.0 / 3.0)
    case Original => Dims(a.vw, visibleHeight)
  }

  /** The final (dw, dh): normalised display size fitted by the mode. */
  function Resolve(v: VideoLayout, sw: nat, sh: nat, portrait: bool, mode: SizeMode): (r: Dims)
    requires Displayable(v) && sw > 0 && sh > 0
    ensures r.w > 0.0 && r.h > 0.0
    ensures var n := Normalize(sw, sh, portrait);
            Letterboxed(mode) ==> r.w <= n.width as real && r.h <= n.height as real
  {
    var n := Normalize(sw, sh, portrait);
    Fit(Dims(n.width as real, n.height as real), mode, SourceAspect(v), v.visibleHeight as real)
  }

  // ---------------------------------------------------------------------------
  // Rounding

  /** Math.ceil: the least integer not below x. */
  function Ceil(x: real): (c: int)
    ensures x <= c as real < x + 1.0
  {
    var f := x.Floor;
    if f as real == x then f else f + 1
  }

  /** Math.floor: the greatest integer not above x. */
  function Floor(x: real): (f: int)
    ensures f as real <= x < f as real + 1.0
  {
    x.Floor
  }

  /** A resolved visible size scaled up to the full decoded plane. */
  function Scaled(d: real, full: nat, visible: nat): real
    requires visible > 0
  {
    d * full as real / visible as real
  }

  // ---------------------------------------------------------------------------
  // updateVideoSurfaces

  function SurfaceUpdateFor(v: VideoLayout, sw: nat, sh: nat, portrait: bool, mode: SizeMode): (u: SurfaceUpdate)
    requires Resolvable(v)
    ensures u.NoVideo? <==> !HasVideo(v)
    ensures u.InvalidSize? <==> HasVideo(v) && (sw == 0 || sh == 0)
    ensures !u.NoVideo? ==> u.window == Rect(sw, sh)
    ensures u.Resized? ==>
              var r := Resolve(v, sw, sh, portrait, mode);
              && Scaled(r.w, v.width, v.visibleWidth) <= u.video.width as real < Scaled(r.w, v.width, v.visibleWidth) + 1.0
              && Scaled(r.h, v.height, v.visibleHeight) <= u.video.height as real < Scaled(r.h, v.height, v.visibleHeight) + 1.0
              && u.frame.width as real <= r.w < u.frame.width as real + 1.0
              && u.frame.height as real <= r.h < u.frame.height as real + 1.0
  {
    if !HasVideo(v) then NoVideo
    else
      var n := Normalize(sw, sh, portrait);
      assert n.width * n.height == sw * sh;
      if n.width * n.height == 0 then InvalidSize(Rect(sw, sh))
      else
        var r := Resolve(v, sw, sh, portrait, mode);
        var video := Rect(Ceil(Scaled(r.w, v.width, v.visibleWidth)), Ceil(Scaled(r.h, v.height, v.visibleHeight)));
        Resized(Rect(sw, sh), video, Rect(Floor(r.w), Floor(r.h)))
  }

  /** "Crop if necessary": when the decoded plane covers the visible area, the surface covers the frame. */
  lemma CropIfNecessary(v: VideoLayout, sw: nat, sh: nat, portrait: bool, mode: SizeMode)
    requires HasVideo(v) && Displayable(v) && sw > 0 && sh > 0
    requires v.width >= v.visibleWidth && v.height >= v.visibleHeight
    ensures var u := SurfaceUpdateFor(v, sw, sh, portrait, mode);
            u.video.width >= u.frame.width && u.video.height >= u.frame.height
  {
    var u := SurfaceUpdateFor(v, sw, sh, portrait, mode);
    var r := Resolve(v, sw, sh, portrait, mode);
    ScaledCovers(r.w, v.width, v.visibleWidth);
    ScaledCovers(r.h, v.height, v.visibleHeight);
  }

  lemma ScaledCovers(d: real, full: nat, visible: nat)
    requires d > 0.0 && 0 < visible <= full
    ensures Scaled(d, full, visible) >= d
  {
  }

  /** In the letterboxing modes the clipping frame never exceeds the normalised display. */
  lemma FrameFitsDisplay(v: VideoLayout, sw: nat, sh: nat, portrait: bool, mode: SizeMode)
    requires HasVideo(v) && Displayable(v) && sw > 0 && sh > 0 && Letterboxed(mode)
    ensures var u := SurfaceUpdateFor(v, sw, sh, portrait, mode);
            var n := Normalize(sw, sh, portrait);
            u.frame.width <= n.width && u.frame.height <= n.height
  {
  }

  /** 1920x1080 square pixels best-fitted to a 1000x1000 display: 1000 x 562.5. */
  lemma BestFitExample()
    ensures SurfaceUpdateFor(VideoLayout(1920, 1080, 1920, 1080, 1, 1), 1000, 1000, true, BestFit)
            == Resized(Rect(1000, 1000), Rect(1000, 563), Rect(1000, 562))
  {
  }

  /** The same frame with FILL takes the whole display. */
  lemma FillExample()
    ensures SurfaceUpdateFor(VideoLayout(1920, 1080, 1920, 1080, 1, 1), 1000, 1000, true, Fill)
            == Resized(Rect(1000, 1000), Rect(1000, 1000), Rect(1000, 1000))
  {
  }
}
