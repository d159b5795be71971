/**
 * The fullscreen zoom overlay: one object holding the image list, the current
 * index, a zoom level in [1, 3] and a pan offset, driven by buttons, pointer
 * drags and the keyboard.
 *
 * `State` is the value the overlay's fields hold; the functions below give each
 * handler's effect on it, the lemmas state what the handlers promise, and the
 * class `Overlay` performs the same steps in place on its fields.
 */
module ZoomModal {
  import opened Strings

  const MinZoom: int := 1
  const MaxZoom: int := 3

  /** One entry of the image list passed to `open`. */
  datatype ImageDescriptor = ImageDescriptor(src: string, alt: string, index: int)

  /** Width and height of a laid-out box, as the page measures it. */
  datatype Rect = Rect(width: real, height: real)

  /** What the zoom controls display: the percentage label and the two disabled flags. */
  datatype ZoomControls = ZoomControls(levelText: string, zoomOutDisabled: bool, zoomInDisabled: bool)

  /** What the navigation controls display: the two disabled flags and whether both are shown. */
  datatype NavControls = NavControls(prevDisabled: bool, nextDisabled: bool, shown: bool)

  /** The overlay's fields. `hidden` is the `aria-hidden="true"` attribute; `shownSrc`/`shownAlt` are the image element's. */
  datatype State = State(
    images: seq<ImageDescriptor>,
    index: int,
    zoom: int,
    tx: real,
    ty: real,
    panning: bool,
    startX: real,
    startY: real,
    hidden: bool,
    shownSrc: string,
    shownAlt: string)

  /** Zoom stays within [MinZoom, MaxZoom] and the image is centred whenever it is not zoomed. */
  ghost predicate Inv(s: State)
  {
    MinZoom <= s.zoom <= MaxZoom && (s.zoom == MinZoom ==> s.tx == 0.0 && s.ty == 0.0)
  }

  /** The index names an existing image. */
  predicate HasImage(s: State)
  {
    0 <= s.index < |s.images|
  }

  // ---------------------------------------------------------------------------
  // Derived views

  /** updateZoomControls: label `${zoom * 100}%`, each button disabled at its bound. */
  function ZoomControlsFor(zoom: int): ZoomControls
    requires 0 <= zoom
  {
    ZoomControls(DecimalString(zoom * 100) + "%", zoom <= MinZoom, zoom >= MaxZoom)
  }

  /** updateNavigationControls: each button disabled at its end, both shown only for more than one image. */
  function NavControlsFor(index: int, length: int): NavControls
  {
    NavControls(index <= 0, index >= length - 1, length > 1)
  }

  // ---------------------------------------------------------------------------
  // Handlers, as functions of the state

  /** loadCurrentImage: nothing when the index names no image; otherwise show it and reset zoom and pan. */
  function Loaded(s: State): State
  {
    if !HasImage(s) then s
    else
      var img := s.images[s.index];
      s.(shownSrc := img.src, shownAlt := img.alt, zoom := MinZoom, tx := 0.0, ty := 0.0)
  }

  /** open(images, startIndex): no clamping of `startIndex`. */
  function Opened(s: State, images: seq<ImageDescriptor>, startIndex: int): State
  {
    Loaded(s.(images := images, index := startIndex, zoom := MinZoom, tx := 0.0, ty := 0.0)).(hidden := false)
  }

  /** close: hides the overlay; zoom and pan are left as they are. */
  function Closed(s: State): State
  {
    s.(hidden := true)
  }

  function ZoomedIn(s: State): State
  {
    if s.zoom < MaxZoom then s.(zoom := s.zoom + 1) else s
  }

  function ZoomedOut(s: State): State
  {
    if s.zoom > MinZoom then
      var t := s.(zoom := s.zoom - 1);
      if t.zoom == 1 then t.(tx := 0.0, ty := 0.0) else t
    else s
  }

  function Previous(s: State): State
  {
    if s.index > 0 then Loaded(s.(index := s.index - 1)) else s
  }

  function Next(s: State): State
  {
    if s.index < |s.images| - 1 then Loaded(s.(index := s.index + 1)) else s
  }

  function Max(a: real, b: real): real { if a >= b then a else b }
  function Min(a: real, b: real): real { if a <= b then a else b }

  /** The largest translation along one axis: half of what the scaled image overhangs the container, or 0. */
  function Slack(size: real, zoom: int, container: real): (m: real)
    ensures m >= 0.0
  {
    Max(0.0, (size * zoom as real - container) / 2.0)
  }

  /** `Math.max(-m, Math.min(m, t))`. */
  function Clamp(t: real, m: real): (r: real)
    requires m >= 0.0
    ensures -m <= r <= m
    ensures -m <= t <= m ==> r == t
    ensures t < -m ==> r == -m
    ensures t > m ==> r == m
  {
    Max(-m, Min(m, t))
  }

  /** The translation lies within the slack on both axes. */
  predicate WithinBounds(s: State, image: Rect, container: Rect)
  {
    var mx := Slack(image.width, s.zoom, container.width);
    var my := Slack(image.height, s.zoom, container.height);
    -mx <= s.tx <= mx && -my <= s.ty <= my
  }

  /** constrainPan. */
  function Constrained(s: State, image: Rect, container: Rect): State
  {
    s.(tx := Clamp(s.tx, Slack(image.width, s.zoom, container.width)),
       ty := Clamp(s.ty, Slack(image.height, s.zoom, container.height)))
  }

  /** startPan at pointer position (x, y). */
  function PanStarted(s: State, x: real, y: real): State
  {
    if s.zoom <= 1 then s else s.(panning := true, startX := x - s.tx, startY := y - s.ty)
  }

  /** pan to pointer position (x, y). */
  function Panned(s: State, x: real, y: real, image: Rect, container: Rect): State
  {
    if !s.panning || s.zoom <= 1 then s
    else Constrained(s.(tx := x - s.startX, ty := y - s.startY), image, container)
  }

  function PanEnded(s: State): State
  {
    s.(panning := false)
  }

  /** The new state after a keydown, and whether the browser's default action was prevented. */
  datatype KeyOutcome = KeyOutcome(state: State, prevented: bool)

  /** handleKeydown. */
  function KeyHandled(s: State, key: string): KeyOutcome
  {
    if s.hidden then KeyOutcome(s, false)
    else if key == "Escape" then KeyOutcome(Closed(s), false)
    else if key == "ArrowLeft" then KeyOutcome(Previous(s), true)
    else if key == "ArrowRight" then KeyOutcome(Next(s), true)
    else if key == "+" || key == "=" then KeyOutcome(ZoomedIn(s), true)
    else if key == "-" then KeyOutcome(ZoomedOut(s), true)
    else KeyOutcome(s, false)
  }

  // ---------------------------------------------------------------------------
  // What the handlers promise

  /** Every handler keeps zoom within [1, 3] and the pan centred at zoom 1. */
  lemma HandlersKeepInv(s: State, images: seq<ImageDescriptor>, start: int, x: real, y: real, image: Rect, container: Rect, key: string)
    requires Inv(s)
    ensures Inv(Opened(s, images, start)) && Inv(Closed(s)) && Inv(Loaded(s))
    ensures Inv(ZoomedIn(s)) && Inv(ZoomedOut(s)) && Inv(Previous(s)) && Inv(Next(s))
    ensures Inv(PanStarted(s, x, y)) && Inv(Panned(s, x, y, image, container)) && Inv(PanEnded(s))
    ensures Inv(Constrained(s, image, container))
    ensures Inv(KeyHandled(s, key).state)
  {
  }

  /** zoomIn raises the level by exactly one below the maximum, and touches nothing else. */
  lemma ZoomInSteps(s: State)
    ensures s.zoom < MaxZoom ==> ZoomedIn(s) == s.(zoom := s.zoom + 1)
    ensures s.zoom >= MaxZoom ==> ZoomedIn(s) == s
  {
  }

  /** zoomOut lowers the level by exactly one above the minimum; arriving at 1 recentres the image. */
  lemma ZoomOutSteps(s: State)
    ensures s.zoom > MinZoom ==> ZoomedOut(s).zoom == s.zoom - 1
    ensures s.zoom <= MinZoom ==> ZoomedOut(s) == s
    ensures ZoomedOut(s).zoom == 1 && s.zoom > MinZoom ==> ZoomedOut(s).tx == 0.0 && ZoomedOut(s).ty == 0.0
    ensures s.zoom > 2 ==> ZoomedOut(s) == s.(zoom := s.zoom - 1)
  {
  }

  /** Zooming out undoes zooming in. */
  lemma ZoomOutUndoesZoomIn(s: State)
    requires Inv(s) && s.zoom < MaxZoom
    ensures ZoomedOut(ZoomedIn(s)) == s
  {
  }

  /** A zoom button is disabled exactly when pressing it would change nothing. */
  lemma ZoomControlsMatchNoOps(s: State)
    requires Inv(s)
    ensures ZoomControlsFor(s.zoom).zoomInDisabled <==> ZoomedIn(s) == s
    ensures ZoomControlsFor(s.zoom).zoomOutDisabled <==> ZoomedOut(s) == s
    ensures !(ZoomControlsFor(s.zoom).zoomInDisabled && ZoomControlsFor(s.zoom).zoomOutDisabled)
  {
  }

  /** The levelText reads the zoom level as a percentage: "100%", "200%" or "300%". */
  lemma {:induction false} ZoomLabelReadsPercent(zoom: int)
    requires MinZoom <= zoom <= MaxZoom
    ensures var levelText := ZoomControlsFor(zoom).levelText;
      |levelText| >= 2 && levelText[|levelText| - 1] == '%' && DecimalValue(levelText[..|levelText| - 1]) == zoom * 100
    ensures ZoomControlsFor(zoom).levelText == ["100%", "200%", "300%"][zoom - 1]
  {
    var levelText := ZoomControlsFor(zoom).levelText;
    assert levelText[..|levelText| - 1] == DecimalString(zoom * 100);
    DecimalRoundTrip(zoom * 100);
    assert DecimalString(1) == "1" && DecimalString(2) == "2" && DecimalString(3) == "3";
    assert DecimalString(10) == "10" && DecimalString(20) == "20" && DecimalString(30) == "30";
  }

  /** A navigation button is disabled exactly when pressing it would change nothing. */
  lemma NavControlsMatchNoOps(s: State)
    ensures NavControlsFor(s.index, |s.images|).prevDisabled <==> Previous(s) == s
    ensures NavControlsFor(s.index, |s.images|).nextDisabled <==> Next(s) == s
  {
    if s.index > 0 {
      assert Previous(s).index != s.index;
    }
    if s.index < |s.images| - 1 {
      assert Next(s).index != s.index;
    }
  }

  /** previousImage/nextImage move by exactly one, and a newly shown image starts unzoomed and centred. */
  lemma NavigationSteps(s: State)
    ensures s.index > 0 ==> Previous(s).index == s.index - 1 && Previous(s).images == s.images
    ensures s.index < |s.images| - 1 ==> Next(s).index == s.index + 1 && Next(s).images == s.images
    ensures s.index > 0 && s.index - 1 < |s.images| ==>
      var t := Previous(s);
      t.zoom == 1 && t.tx == 0.0 && t.ty == 0.0 && t.shownSrc == s.images[s.index - 1].src
    ensures 0 <= s.index + 1 < |s.images| ==>
      var t := Next(s);
      t.zoom == 1 && t.tx == 0.0 && t.ty == 0.0 && t.shownSrc == s.images[s.index + 1].src
  {
  }

  /** Once the index names an image, navigation keeps it so. */
  lemma NavigationStaysOnImages(s: State)
    requires HasImage(s)
    ensures HasImage(Previous(s)) && HasImage(Next(s))
  {
  }

  /** open always starts unzoomed and centred at `startIndex`, whatever came before. */
  lemma OpenResets(s: State, images: seq<ImageDescriptor>, startIndex: int)
    ensures var t := Opened(s, images, startIndex);
      t.zoom == 1 && t.tx == 0.0 && t.ty == 0.0 && t.index == startIndex && t.images == images && !t.hidden
    ensures 0 <= startIndex < |images| ==>
      Opened(s, images, startIndex).shownSrc == images[startIndex].src &&
      Opened(s, images, startIndex).shownAlt == images[startIndex].alt
    ensures !(0 <= startIndex < |images|) ==>
      Opened(s, images, startIndex).shownSrc == s.shownSrc
  {
  }

  /** With a single image the navigation is hidden, both buttons are disabled, and arrow keys change nothing. */
  lemma SingleImage(s: State, image: ImageDescriptor, key: string)
    requires key == "ArrowLeft" || key == "ArrowRight"
    ensures var t := Opened(s, [image], 0);
      NavControlsFor(t.index, |t.images|) == NavControls(true, true, false) &&
      KeyHandled(t, key).state == t
  {
  }

  /** Constraining leaves the translation within the slack on both axes. */
  lemma ConstrainedWithinBounds(s: State, image: Rect, container: Rect)
    ensures WithinBounds(Constrained(s, image, container), image, container)
  {
  }

  /** A translation already within bounds is left alone, so constraining twice is constraining once. */
  lemma ConstrainIdempotent(s: State, image: Rect, container: Rect)
    ensures WithinBounds(s, image, container) ==> Constrained(s, image, container) == s
    ensures Constrained(Constrained(s, image, container), image, container) == Constrained(s, image, container)
  {
  }

  /** startPan begins a drag only when zoomed in; pan moves only during a zoomed drag; endPan always ends it. */
  lemma PanGuards(s: State, x: real, y: real, image: Rect, container: Rect)
    ensures PanStarted(s, x, y).panning <==> s.panning || s.zoom > 1
    ensures s.zoom <= 1 ==> PanStarted(s, x, y) == s
    ensures !s.panning || s.zoom <= 1 ==> Panned(s, x, y, image, container) == s
    ensures s.panning && s.zoom > 1 ==> WithinBounds(Panned(s, x, y, image, container), image, container)
    ensures !PanEnded(s).panning && PanEnded(s).(panning := s.panning) == s
  {
  }

  /** Pressing and moving without displacement leaves an in-bounds image where it was. */
  lemma PressAndHoldKeepsPosition(s: State, x: real, y: real, image: Rect, container: Rect)
    requires s.zoom > 1 && WithinBounds(s, image, container)
    ensures var t := Panned(PanStarted(s, x, y), x, y, image, container);
      t.tx == s.tx && t.ty == s.ty
  {
  }

  /** The slack grows with the zoom level when sizes are non-negative. */
  lemma {:induction false} SlackGrows(size: real, zoom: int, container: real)
    requires size >= 0.0
    ensures Slack(size, zoom, container) <= Slack(size, zoom + 1, container)
  {
    assert size * (zoom + 1) as real == size * zoom as real + size;
  }

  /** Zooming in keeps an in-bounds translation in bounds. */
  lemma ZoomInKeepsBounds(s: State, image: Rect, container: Rect)
    requires image.width >= 0.0 && image.height >= 0.0
    requires WithinBounds(s, image, container)
    ensures WithinBounds(ZoomedIn(s), image, container)
  {
    SlackGrows(image.width, s.zoom, container.width);
    SlackGrows(image.height, s.zoom, container.height);
  }

  /** zoomOut from 3 to 2 does not re-constrain: an image panned to the edge at 3 overhangs at 2. */
  lemma ZoomOutMayLeaveBounds()
    ensures var s := State([], 0, 3, 100.0, 0.0, false, 0.0, 0.0, false, "", "");
      var r := Rect(100.0, 100.0);
      Inv(s) && WithinBounds(s, r, r) && !WithinBounds(ZoomedOut(s), r, r)
  {
  }

  /** The keyboard map while the overlay is shown; nothing at all while it is hidden. */
  lemma KeyMap(s: State, key: string)
    ensures s.hidden ==> KeyHandled(s, key) == KeyOutcome(s, false)
    ensures !s.hidden ==>
      (key == "Escape" ==> KeyHandled(s, key) == KeyOutcome(Closed(s), false)) &&
      (key == "ArrowLeft" ==> KeyHandled(s, key) == KeyOutcome(Previous(s), true)) &&
      (key == "ArrowRight" ==> KeyHandled(s, key) == KeyOutcome(Next(s), true)) &&
      (key == "+" || key == "=" ==> KeyHandled(s, key) == KeyOutcome(ZoomedIn(s), true)) &&
      (key == "-" ==> KeyHandled(s, key) == KeyOutcome(ZoomedOut(s), true))
    ensures key !in {"Escape", "ArrowLeft", "ArrowRight", "+", "=", "-"} ==> KeyHandled(s, key) == KeyOutcome(s, false)
  {
  }

  // ---------------------------------------------------------------------------
  // The overlay object

  /** The pre-rendered overlay markup the object picks up when it is created. */
  datatype Markup = Markup(ariaHidden: bool, imageSrc: string, imageAlt: string, zoomControls: ZoomControls, navControls: NavControls)

  class Overlay {
    var images: seq<ImageDescriptor>
    var currentImageIndex: int
    var zoomLevel: int
    var isPanning: bool
    var startX: real
    var startY: real
    var translateX: real
    var translateY: real
    var hidden: bool
    var shownSrc: string
    var shownAlt: string
    var zoomControls: ZoomControls
    var navControls: NavControls

    /** The overlay's fields as one value. */
    function Current(): State
      reads this
    {
      State(images, currentImageIndex, zoomLevel, translateX, translateY, isPanning, startX, startY, hidden, shownSrc, shownAlt)
    }

    ghost predicate Valid()
      reads this
    {
      Inv(Current())
    }

    /** The controls display the current zoom level and position. */
    ghost predicate ControlsCurrent()
      reads this
      requires Valid()
    {
      zoomControls == ZoomControlsFor(zoomLevel) && navControls == NavControlsFor(currentImageIndex, |images|)
    }

    constructor (markup: Markup)
      ensures Valid()
      ensures Current() == State([], 0, MinZoom, 0.0, 0.0, false, 0.0, 0.0, markup.ariaHidden, markup.imageSrc, markup.imageAlt)
      ensures zoomControls == markup.zoomControls && navControls == markup.navControls
    {
      images := [];
      currentImageIndex := 0;
      zoomLevel := 1;
      isPanning := false;
      startX, startY := 0.0, 0.0;
      translateX, translateY := 0.0, 0.0;
      hidden := markup.ariaHidden;
      shownSrc, shownAlt := markup.imageSrc, markup.imageAlt;
      zoomControls, navControls := markup.zoomControls, markup.navControls;
    }

    method Open(imageData: seq<ImageDescriptor>, startIndex: int)
      requires Valid()
      modifies this
      ensures Valid() && ControlsCurrent()
      ensures Current() == Opened(old(Current()), imageData, startIndex)
    {
      images := imageData;
      currentImageIndex := startIndex;
      zoomLevel := 1;
      translateX := 0.0;
      translateY := 0.0;
      LoadCurrentImage();
      UpdateZoomControls();
      UpdateNavigationControls();
      hidden := false;
    }

    method Close()
      requires Valid()
      modifies this
      ensures Valid()
      ensures Current() == Closed(old(Current()))
      ensures zoomControls == old(zoomControls) && navControls == old(navControls)
    {
      hidden := true;
    }

    method LoadCurrentImage()
      requires Valid()
      modifies this
      ensures Valid()
      ensures Current() == Loaded(old(Current()))
      ensures zoomControls == old(zoomControls) && navControls == old(navControls)
    {
      if !(0 <= currentImageIndex < |images|) {
        return;
      }
      var currentImage := images[currentImageIndex];
      shownSrc := currentImage.src;
      shownAlt := currentImage.alt;
      zoomLevel := 1;
      translateX := 0.0;
      translateY := 0.0;
    }

    method ZoomIn()
      requires Valid()
      modifies this
      ensures Valid()
      ensures Current() == ZoomedIn(old(Current()))
      ensures navControls == old(navControls)
      ensures zoomControls == if old(zoomLevel) < MaxZoom then ZoomControlsFor(zoomLevel) else old(zoomControls)
      ensures old(ControlsCurrent()) ==> ControlsCurrent()
    {
      if zoomLevel < MaxZoom {
        zoomLevel := zoomLevel + 1;
        UpdateZoomControls();
      }
    }

    method ZoomOut()
      requires Valid()
      modifies this
      ensures Valid()
      ensures Current() == ZoomedOut(old(Current()))
      ensures navControls == old(navControls)
      ensures zoomControls == if old(zoomLevel) > MinZoom then ZoomControlsFor(zoomLevel) else old(zoomControls)
      ensures old(ControlsCurrent()) ==> ControlsCurrent()
    {
      if zoomLevel > MinZoom {
        zoomLevel := zoomLevel - 1;
        if zoomLevel == 1 {
          translateX := 0.0;
          translateY := 0.0;
        }
        UpdateZoomControls();
      }
    }

    method PreviousImage()
      requires Valid()
      modifies this
      ensures Valid()
      ensures Current() == Previous(old(Current()))
      ensures old(currentImageIndex) > 0 ==> ControlsCurrent()
      ensures old(currentImageIndex) <= 0 ==> zoomControls == old(zoomControls) && navControls == old(navControls)
    {
      if currentImageIndex > 0 {
        currentImageIndex := currentImageIndex - 1;
        LoadCurrentImage();
        UpdateNavigationControls();
        UpdateZoomControls();
      }
    }

    method NextImage()
      requires Valid()
      modifies this
      ensures Valid()
      ensures Current() == Next(old(Current()))
      ensures old(currentImageIndex) < |old(images)| - 1 ==> ControlsCurrent()
      ensures old(currentImageIndex) >= |old(images)| - 1 ==> zoomControls == old(zoomControls) && navControls == old(navControls)
    {
      if currentImageIndex < |images| - 1 {
        currentImageIndex := currentImageIndex + 1;
        LoadCurrentImage();
        UpdateNavigationControls();
        UpdateZoomControls();
      }
    }

    /** A press at pointer position (clientX, clientY); mouse and touch give the same position. */
    method StartPan(clientX: real, clientY: real)
      requires Valid()
      modifies this
      ensures Valid()
      ensures Current() == PanStarted(old(Current()), clientX, clientY)
      ensures zoomControls == old(zoomControls) && navControls == old(navControls)
    {
      if zoomLevel <= 1 {
        return;
      }
      isPanning := true;
      startX := clientX - translateX;
      startY := clientY - translateY;
    }

    /** A move to (clientX, clientY); `image` and `container` are the measured boxes. */
    method Pan(clientX: real, clientY: real, image: Rect, container: Rect)
      requires Valid()
      modifies this
      ensures Valid()
      ensures Current() == Panned(old(Current()), clientX, clientY, image, container)
      ensures zoomControls == old(zoomControls) && navControls == old(navControls)
    {
      if !isPanning || zoomLevel <= 1 {
        return;
      }
      translateX := clientX - startX;
      translateY := clientY - startY;
      ConstrainPan(image, container);
    }

    method EndPan()
      requires Valid()
      modifies this
      ensures Valid()
      ensures Current() == PanEnded(old(Current()))
      ensures zoomControls == old(zoomControls) && navControls == old(navControls)
    {
      isPanning := false;
    }

    method ConstrainPan(image: Rect, container: Rect)
      requires Valid()
      modifies this
      ensures Valid()
      ensures Current() == Constrained(old(Current()), image, container)
      ensures WithinBounds(Current(), image, container)
      ensures zoomControls == old(zoomControls) && navControls == old(navControls)
    {
      var maxTranslateX := Slack(image.width, zoomLevel, container.width);
      var maxTranslateY := Slack(image.height, zoomLevel, container.height);
      translateX := Clamp(translateX, maxTranslateX);
      translateY := Clamp(translateY, maxTranslateY);
    }

    method UpdateZoomControls()
      requires Valid()
      modifies this`zoomControls
      ensures zoomControls == ZoomControlsFor(zoomLevel)
    {
      zoomControls := ZoomControlsFor(zoomLevel);
    }

    method UpdateNavigationControls()
      modifies this`navControls
      ensures navControls == NavControlsFor(currentImageIndex, |images|)
    {
      navControls := NavControlsFor(currentImageIndex, |images|);
    }

    /** A keydown anywhere on the page; `prevented` says whether its default action was cancelled. */
    method HandleKeydown(key: string) returns (prevented: bool)
      requires Valid()
      modifies this
      ensures Valid()
      ensures Current() == KeyHandled(old(Current()), key).state
      ensures prevented == KeyHandled(old(Current()), key).prevented
      ensures old(ControlsCurrent()) ==> ControlsCurrent()
      ensures !prevented ==> zoomControls == old(zoomControls) && navControls == old(navControls)
    {
      if hidden {
        return false;
      }
      prevented := false;
      if key == "Escape" {
        Close();
      } else if key == "ArrowLeft" {
        prevented := true;
        PreviousImage();
      } else if key == "ArrowRight" {
        prevented := true;
        NextImage();
      } else if key == "+" || key == "=" {
        prevented := true;
        ZoomIn();
      } else if key == "-" {
        prevented := true;
        ZoomOut();
      }
    }
  }
}
