// The display-mode side of the SDL video code: which desktop-sized modes
// `StartupGraphics` offers as fullscreen and windowed entries, how it clamps
// the configured screen size and picks the default toggle modes, which of
// the three pixel-aspect rules `DeterminePixelAspect` applies, and the far
// clip `StartFrame` chooses.

module VideoModes {
  import opened Wrappers

  /**
   * The window modes of a display mode. The source compares the mode code
   * with 0 (`current_window_mode > 0` means fullscreen of some kind): here
   * Invalid and Windowed are the codes at or below 0, Fullscreen and
   * Borderless those above.
   */
  datatype WindowMode = Invalid | Windowed | Fullscreen | Borderless

  predicate IsFullscreenCode(m: WindowMode)
  {
    m.Fullscreen? || m.Borderless?
  }

  /** A screen mode as the engine lists it. */
  datatype DisplayMode = DisplayMode(width: int, height: int, depth: int, windowMode: WindowMode)

  /** A mode as SDL reports it: size and bits per pixel of its format. */
  datatype SdlMode = SdlMode(w: int, h: int, bitsPerPixel: int)

  /** C's `/` on `int`: the quotient truncated toward zero. */
  function CDiv(a: int, b: int): (q: int)
    requires b != 0
    ensures a >= 0 && b > 0 ==> q == a / b
  {
    if (a >= 0) == (b > 0) then
      (if a >= 0 then a / b else (-a) / (-b))
    else
      -((if a >= 0 then a else -a) / (if b > 0 then b else -b))
  }

  // ---------------------------------------------------------------------
  // The mode filter of StartupGraphics
  // ---------------------------------------------------------------------

  /** The depths the engine accepts. */
  predicate SupportedDepth(depth: int)
  {
    depth == 15 || depth == 16 || depth == 24 || depth == 32
  }

  /**
   * A mode passes the filter when it fits on the desktop, its width is a
   * multiple of 16 (`(w & 15) == 0` in two's complement is the Euclidean
   * `w % 16 == 0`, also for negative `w`) and its depth is supported.
   */
  predicate ModeAccepted(m: SdlMode, desktopW: int, desktopH: int)
  {
    m.w <= desktopW && m.h <= desktopH && m.w % 16 == 0 && SupportedDepth(m.bitsPerPixel)
  }

  /** A mode strictly smaller than the desktop in both dimensions. */
  predicate OffersWindow(m: SdlMode, desktopW: int, desktopH: int)
  {
    m.w < desktopW && m.h < desktopH
  }

  function FullscreenEntry(m: SdlMode): DisplayMode
  {
    DisplayMode(m.w, m.h, m.bitsPerPixel, Fullscreen)
  }

  function WindowedEntry(m: SdlMode): DisplayMode
  {
    DisplayMode(m.w, m.h, m.bitsPerPixel, Windowed)
  }

  /** The entries one SDL mode contributes: none, a fullscreen one, or that and a windowed copy. */
  function EntriesFor(m: SdlMode, desktopW: int, desktopH: int): seq<DisplayMode>
  {
    if !ModeAccepted(m, desktopW, desktopH) then []
    else if OffersWindow(m, desktopW, desktopH) then [FullscreenEntry(m), WindowedEntry(m)]
    else [FullscreenEntry(m)]
  }

  /** The entries the whole filter loop adds, in SDL's order. */
  function AcceptedModes(modes: seq<SdlMode>, desktopW: int, desktopH: int): seq<DisplayMode>
    decreases |modes|
  {
    if modes == [] then []
    else AcceptedModes(modes[..|modes| - 1], desktopW, desktopH) + EntriesFor(modes[|modes| - 1], desktopW, desktopH)
  }

  /** What every entry of the filter's output satisfies. */
  predicate Admissible(d: DisplayMode, desktopW: int, desktopH: int)
  {
    && d.width <= desktopW && d.height <= desktopH
    && d.width % 16 == 0 && SupportedDepth(d.depth)
    && (d.windowMode.Fullscreen? || (d.windowMode.Windowed? && d.width < desktopW && d.height < desktopH))
  }

  /** Every added entry fits, is 16-aligned, has a supported depth, and is windowed only below the desktop size. */
  lemma {:induction false} AcceptedModesAdmissible(modes: seq<SdlMode>, desktopW: int, desktopH: int)
    ensures forall k :: 0 <= k < |AcceptedModes(modes, desktopW, desktopH)| ==>
              Admissible(AcceptedModes(modes, desktopW, desktopH)[k], desktopW, desktopH)
  {
    if modes != [] {
      var init := modes[..|modes| - 1];
      AcceptedModesAdmissible(init, desktopW, desktopH);
      var r := AcceptedModes(modes, desktopW, desktopH);
      var p := AcceptedModes(init, desktopW, desktopH);
      var e := EntriesFor(modes[|modes| - 1], desktopW, desktopH);
      assert r == p + e;
      forall k | 0 <= k < |r|
        ensures Admissible(r[k], desktopW, desktopH)
      {
        if k < |p| {
          assert r[k] == p[k];
        } else {
          assert r[k] == e[k - |p|];
        }
      }
    }
  }

  /** `d` is one of the entries the filter makes for an accepted SDL mode `m`. */
  predicate EntryOf(d: DisplayMode, m: SdlMode, desktopW: int, desktopH: int)
  {
    ModeAccepted(m, desktopW, desktopH) && (d == FullscreenEntry(m) || (OffersWindow(m, desktopW, desktopH) && d == WindowedEntry(m)))
  }

  /** Every entry comes from an accepted SDL mode, as its fullscreen entry or its windowed copy. */
  lemma {:induction false} AcceptedModesOrigin(modes: seq<SdlMode>, desktopW: int, desktopH: int)
    ensures forall k :: 0 <= k < |AcceptedModes(modes, desktopW, desktopH)| ==>
              exists i :: 0 <= i < |modes| && EntryOf(AcceptedModes(modes, desktopW, desktopH)[k], modes[i], desktopW, desktopH)
  {
    if modes != [] {
      var init := modes[..|modes| - 1];
      AcceptedModesOrigin(init, desktopW, desktopH);
      var r := AcceptedModes(modes, desktopW, desktopH);
      var p := AcceptedModes(init, desktopW, desktopH);
      var e := EntriesFor(modes[|modes| - 1], desktopW, desktopH);
      assert r == p + e;
      forall k | 0 <= k < |r|
        ensures exists i :: 0 <= i < |modes| && EntryOf(r[k], modes[i], desktopW, desktopH)
      {
        if k < |p| {
          assert r[k] == p[k];
          var i :| 0 <= i < |init| && EntryOf(p[k], init[i], desktopW, desktopH);
          assert modes[i] == init[i];
        } else {
          assert r[k] == e[k - |p|];
          assert EntryOf(r[k], modes[|modes| - 1], desktopW, desktopH);
        }
      }
    } else {
      assert AcceptedModes(modes, desktopW, desktopH) == [];
    }
  }

  /** Every accepted SDL mode is offered fullscreen, and windowed too when it is below the desktop size. */
  lemma {:induction false} AcceptedModesComplete(modes: seq<SdlMode>, desktopW: int, desktopH: int, i: nat)
    requires i < |modes| && ModeAccepted(modes[i], desktopW, desktopH)
    ensures FullscreenEntry(modes[i]) in AcceptedModes(modes, desktopW, desktopH)
    ensures OffersWindow(modes[i], desktopW, desktopH) ==> WindowedEntry(modes[i]) in AcceptedModes(modes, desktopW, desktopH)
  {
    var init := modes[..|modes| - 1];
    var e := EntriesFor(modes[|modes| - 1], desktopW, desktopH);
    assert AcceptedModes(modes, desktopW, desktopH) == AcceptedModes(init, desktopW, desktopH) + e;
    if i < |init| {
      assert init[i] == modes[i];
      AcceptedModesComplete(init, desktopW, desktopH, i);
    } else {
      assert FullscreenEntry(modes[i]) in e;
    }
  }

  /** Each SDL mode adds at most two entries. */
  lemma {:induction false} AcceptedModesLength(modes: seq<SdlMode>, desktopW: int, desktopH: int)
    ensures |AcceptedModes(modes, desktopW, desktopH)| <= 2 * |modes|
  {
    if modes != [] {
      AcceptedModesLength(modes[..|modes| - 1], desktopW, desktopH);
    }
  }

  // ---------------------------------------------------------------------
  // The windowed toggle default
  // ---------------------------------------------------------------------

  /** The index of the first windowed entry, if there is one. */
  function FirstWindowed(s: seq<DisplayMode>): (r: Option<nat>)
    ensures r.None? <==> forall j :: 0 <= j < |s| ==> !s[j].windowMode.Windowed?
    ensures r.Some? ==> r.value < |s| && s[r.value].windowMode.Windowed?
                        && forall j :: 0 <= j < r.value ==> !s[j].windowMode.Windowed?
  {
    if s == [] then None
    else if s[0].windowMode.Windowed? then Some(0)
    else
      match FirstWindowed(s[1..])
      case None =>
        assert forall j :: 1 <= j < |s| ==> s[j] == s[1..][j - 1];
        None
      case Some(k) =>
        assert forall j :: 1 <= j < |s| ==> s[j] == s[1..][j - 1];
        Some(k + 1)
  }

  /** The search loop of `StartupGraphics` for the first windowed entry. */
  method FindFirstWindowed(screenModes: seq<DisplayMode>) returns (found: Option<nat>)
    ensures found == FirstWindowed(screenModes)
  {
    var i := 0;
    while i < |screenModes|
      invariant i <= |screenModes|
      invariant forall j :: 0 <= j < i ==> !screenModes[j].windowMode.Windowed?
    {
      if screenModes[i].windowMode.Windowed? {
        return Some(i);
      }
      i := i + 1;
    }
    return None;
  }

  /**
   * Starting from an empty list, the filter yields a windowed default exactly
   * when some accepted mode is strictly smaller than the desktop, and the
   * default it yields is such a mode.
   */
  lemma WindowedDefaultExists(modes: seq<SdlMode>, desktopW: int, desktopH: int)
    ensures FirstWindowed(AcceptedModes(modes, desktopW, desktopH)).Some? <==>
              exists i :: 0 <= i < |modes| && ModeAccepted(modes[i], desktopW, desktopH) && OffersWindow(modes[i], desktopW, desktopH)
    ensures FirstWindowed(AcceptedModes(modes, desktopW, desktopH)).Some? ==>
              var d := AcceptedModes(modes, desktopW, desktopH)[FirstWindowed(AcceptedModes(modes, desktopW, desktopH)).value];
              d.width < desktopW && d.height < desktopH
  {
    var r := AcceptedModes(modes, desktopW, desktopH);
    AcceptedModesAdmissible(modes, desktopW, desktopH);
    AcceptedModesOrigin(modes, desktopW, desktopH);
    if i :| 0 <= i < |modes| && ModeAccepted(modes[i], desktopW, desktopH) && OffersWindow(modes[i], desktopW, desktopH) {
      AcceptedModesComplete(modes, desktopW, desktopH, i);
      var k :| 0 <= k < |r| && r[k] == WindowedEntry(modes[i]);
      assert r[k].windowMode.Windowed?;
    }
    match FirstWindowed(r)
    case None =>
    case Some(k) =>
      assert Admissible(r[k], desktopW, desktopH);
      var i :| 0 <= i < |modes| && EntryOf(r[k], modes[i], desktopW, desktopH);
  }

  // ---------------------------------------------------------------------
  // Pixel aspect
  // ---------------------------------------------------------------------

  /**
   * The value `DeterminePixelAspect` stores: the forced ratio, square pixels,
   * or the Monitor Size setting scaled by height over width (kept symbolic:
   * the float arithmetic is not modelled).
   */
  datatype PixelAspect = Forced(ratio: real) | Square | MonitorScaled(monitorAspect: real, height: int, width: int)

  /** The CRT test: the desktop is narrower than 7:5, with C's truncating division. */
  predicate IsCrt(desktopW: int, desktopH: int)
  {
    desktopW < CDiv(desktopH * 7, 5)
  }

  /** For a non-negative height the CRT test is the exact ratio test `5 * (w + 1) <= 7 * h`. */
  lemma CrtTestExact(desktopW: int, desktopH: int)
    requires desktopH >= 0
    ensures IsCrt(desktopW, desktopH) <==> 5 * (desktopW + 1) <= 7 * desktopH
  {
    var q := (desktopH * 7) / 5;
    assert 5 * q <= 7 * desktopH < 5 * q + 5;
  }

  /** A 1920x1080 desktop is not a CRT, a 1280x1024 one is. */
  lemma CrtExamples()
    ensures !IsCrt(1920, 1080) && IsCrt(1280, 1024) && !IsCrt(1512, 1080)
  {
  }

  /**
   * Whether the current mode counts as fullscreen: its code is above 0,
   * unless it is the desktop size and graphics are shutting down.
   */
  predicate TreatedAsFullscreen(mode: WindowMode, screenW: int, screenH: int, desktopW: int, desktopH: int, shutdown: bool)
  {
    IsFullscreenCode(mode) && !(screenW == desktopW && screenH == desktopH && shutdown)
  }

  /** The branch choice of `DeterminePixelAspect`. */
  function ChoosePixelAspect(forced: real, monitorAspect: real, mode: WindowMode, screenW: int, screenH: int,
                             desktopW: int, desktopH: int, shutdown: bool): (r: PixelAspect)
    ensures forced > 0.1 ==> r == Forced(forced)
    ensures forced <= 0.1 ==>
              (r.Square? <==> !TreatedAsFullscreen(mode, screenW, screenH, desktopW, desktopH, shutdown) && !IsCrt(desktopW, desktopH))
    ensures forced <= 0.1 && !r.Square? ==> r == MonitorScaled(monitorAspect, screenH, screenW)
  {
    if forced > 0.1 then Forced(forced)
    else if !TreatedAsFullscreen(mode, screenW, screenH, desktopW, desktopH, shutdown) && !IsCrt(desktopW, desktopH) then Square
    else MonitorScaled(monitorAspect, screenH, screenW)
  }

  /** A windowed mode on a desktop at least 7:5 wide always has square pixels unless the ratio is forced. */
  lemma WindowedWideIsSquare(forced: real, monitorAspect: real, screenW: int, screenH: int, desktopW: int, desktopH: int, shutdown: bool)
    requires forced <= 0.1 && desktopH >= 0 && 5 * desktopW >= 7 * desktopH
    ensures ChoosePixelAspect(forced, monitorAspect, Windowed, screenW, screenH, desktopW, desktopH, shutdown) == Square
  {
    CrtTestExact(desktopW, desktopH);
  }

  /** A native-size fullscreen mode during shutdown is treated as windowed. */
  lemma ShutdownNativeIsWindowed(mode: WindowMode, desktopW: int, desktopH: int)
    ensures !TreatedAsFullscreen(mode, desktopW, desktopH, desktopW, desktopH, true)
  {
  }

  // ---------------------------------------------------------------------
  // The video state
  // ---------------------------------------------------------------------

  /** The far clip used when distance culling is off. */
  const DefaultFarClip: real := 64000.0

  /** The globals and console variables the video code reads and writes. */
  class VideoState {
    var screenModes: seq<DisplayMode>
    var desktopWidth: int
    var desktopHeight: int
    var currentScreenWidth: int
    var currentScreenHeight: int
    var currentWindowMode: WindowMode
    var toggleWindowed: DisplayMode
    var toggleFullscreen: DisplayMode
    var borderlessMode: DisplayMode
    var graphicsShutdown: bool
    var forcedPixelAspectRatio: real
    var monitorAspectRatio: real
    var pixelAspectRatio: PixelAspect
    var drawCulling: bool
    var drawCullingDistance: real
    var rendererFarClip: real

    /**
     * The settings as loaded before start-up: no modes listed, desktop size 0,
     * a 1.77777 monitor, no forced pixel aspect and square pixels (the console
     * variable defaults of i_video.cc). The screen size, window mode, toggles
     * and the culling settings are defined elsewhere and come in as parameters.
     */
    constructor (screenW: int, screenH: int, mode: WindowMode, toggleW: DisplayMode, toggleF: DisplayMode,
                 culling: bool, cullingDistance: real, farClip: real)
      ensures screenModes == [] && desktopWidth == 0 && desktopHeight == 0
      ensures currentScreenWidth == screenW && currentScreenHeight == screenH && currentWindowMode == mode
      ensures toggleWindowed == toggleW && toggleFullscreen == toggleF
      ensures !graphicsShutdown && forcedPixelAspectRatio == 0.0 && monitorAspectRatio == 1.77777
      ensures pixelAspectRatio == Square
      ensures drawCulling == culling && drawCullingDistance == cullingDistance && rendererFarClip == farClip
    {
      screenModes := [];
      desktopWidth, desktopHeight := 0, 0;
      currentScreenWidth, currentScreenHeight := screenW, screenH;
      currentWindowMode := mode;
      toggleWindowed, toggleFullscreen := toggleW, toggleF;
      borderlessMode := DisplayMode(0, 0, 0, Borderless);
      graphicsShutdown := false;
      forcedPixelAspectRatio, monitorAspectRatio := 0.0, 1.77777;
      pixelAspectRatio := Square;
      drawCulling, drawCullingDistance := culling, cullingDistance;
      rendererFarClip := farClip;
    }

    /** `AddDisplayResolution`: the mode is appended to the list. */
    method AddDisplayResolution(mode: DisplayMode)
      modifies this`screenModes
      ensures screenModes == old(screenModes) + [mode]
    {
      screenModes := screenModes + [mode];
    }

    /** The mode-filter loop of `StartupGraphics` over SDL's fullscreen modes. */
    method AddAcceptedModes(allModes: seq<SdlMode>)
      modifies this`screenModes
      ensures screenModes == old(screenModes) + AcceptedModes(allModes, desktopWidth, desktopHeight)
    {
      var i := 0;
      while i < |allModes|
        invariant i <= |allModes|
        invariant screenModes == old(screenModes) + AcceptedModes(allModes[..i], desktopWidth, desktopHeight)
      {
        var possible := allModes[i];
        assert allModes[..i + 1][..i] == allModes[..i];
        if possible.w <= desktopWidth && possible.h <= desktopHeight && possible.w % 16 == 0
           && SupportedDepth(possible.bitsPerPixel)
        {
          AddDisplayResolution(FullscreenEntry(possible));
          if possible.w < desktopWidth && possible.h < desktopHeight {
            AddDisplayResolution(WindowedEntry(possible));
          }
        }
        i := i + 1;
      }
      assert allModes[..i] == allModes;
    }

    /**
     * `StartupGraphics` after SDL has reported the desktop mode and the list
     * of fullscreen modes: clamp the screen size, list the accepted modes and
     * fill in the default toggle modes that are still Invalid.
     */
    method StartupGraphics(desktop: SdlMode, allModes: seq<SdlMode>)
      modifies this`desktopWidth, this`desktopHeight, this`currentScreenWidth, this`currentScreenHeight
      modifies this`screenModes, this`toggleWindowed, this`borderlessMode, this`toggleFullscreen
      ensures desktopWidth == desktop.w && desktopHeight == desktop.h
      ensures currentScreenWidth == (if old(currentScreenWidth) > desktop.w then desktop.w else old(currentScreenWidth))
      ensures currentScreenHeight == (if old(currentScreenHeight) > desktop.h then desktop.h else old(currentScreenHeight))
      ensures screenModes == old(screenModes) + AcceptedModes(allModes, desktop.w, desktop.h)
      ensures toggleWindowed ==
                if old(toggleWindowed).windowMode.Invalid? && FirstWindowed(screenModes).Some?
                then screenModes[FirstWindowed(screenModes).value] else old(toggleWindowed)
      ensures borderlessMode == DisplayMode(desktop.w, desktop.h, desktop.bitsPerPixel, Borderless)
      ensures toggleFullscreen == if old(toggleFullscreen).windowMode.Invalid? then borderlessMode else old(toggleFullscreen)
    {
      desktopWidth := desktop.w;
      desktopHeight := desktop.h;
      ClampScreenSize();
      AddAcceptedModes(allModes);
      DefaultToggles(desktop);
    }

    /** The clamp of the configured screen size to the desktop. */
    method ClampScreenSize()
      modifies this`currentScreenWidth, this`currentScreenHeight
      ensures currentScreenWidth == (if old(currentScreenWidth) > desktopWidth then desktopWidth else old(currentScreenWidth))
      ensures currentScreenHeight == (if old(currentScreenHeight) > desktopHeight then desktopHeight else old(currentScreenHeight))
    {
      if currentScreenWidth > desktopWidth {
        currentScreenWidth := desktopWidth;
      }
      if currentScreenHeight > desktopHeight {
        currentScreenHeight := desktopHeight;
      }
    }

    /** The toggle defaults: only an Invalid toggle is replaced. */
    method DefaultToggles(desktop: SdlMode)
      modifies this`toggleWindowed, this`borderlessMode, this`toggleFullscreen
      ensures toggleWindowed ==
                if old(toggleWindowed).windowMode.Invalid? && FirstWindowed(screenModes).Some?
                then screenModes[FirstWindowed(screenModes).value] else old(toggleWindowed)
      ensures borderlessMode == DisplayMode(desktop.w, desktop.h, desktop.bitsPerPixel, Borderless)
      ensures toggleFullscreen == if old(toggleFullscreen).windowMode.Invalid? then borderlessMode else old(toggleFullscreen)
    {
      if toggleWindowed.windowMode.Invalid? {
        var found := FindFirstWindowed(screenModes);
        if found.Some? {
          toggleWindowed := screenModes[found.value];
        }
      }
      borderlessMode := DisplayMode(desktop.w, desktop.h, desktop.bitsPerPixel, Borderless);
      if toggleFullscreen.windowMode.Invalid? {
        toggleFullscreen := borderlessMode;
      }
    }

    /** `DeterminePixelAspect`: store the ratio the branch rules choose. */
    method DeterminePixelAspect()
      modifies this`pixelAspectRatio
      ensures pixelAspectRatio == ChoosePixelAspect(forcedPixelAspectRatio, monitorAspectRatio, currentWindowMode,
                                                    currentScreenWidth, currentScreenHeight,
                                                    desktopWidth, desktopHeight, graphicsShutdown)
    {
      if forcedPixelAspectRatio > 0.1 {
        pixelAspectRatio := Forced(forcedPixelAspectRatio);
        return;
      }
      var isCrt := desktopWidth < CDiv(desktopHeight * 7, 5);
      var isFullscreen := IsFullscreenCode(currentWindowMode);
      if isFullscreen && currentScreenWidth == desktopWidth && currentScreenHeight == desktopHeight && graphicsShutdown {
        isFullscreen := false;
      }
      if !isFullscreen && !isCrt {
        pixelAspectRatio := Square;
        return;
      }
      pixelAspectRatio := MonitorScaled(monitorAspectRatio, currentScreenHeight, currentScreenWidth);
    }

    /** The far-clip choice of `StartFrame`. */
    method StartFrame()
      modifies this`rendererFarClip
      ensures drawCulling ==> rendererFarClip == drawCullingDistance
      ensures !drawCulling ==> rendererFarClip == DefaultFarClip
    {
      if drawCulling {
        rendererFarClip := drawCullingDistance;
      } else {
        rendererFarClip := DefaultFarClip;
      }
    }
  }

  /**
   * After start-up from an empty list, every listed mode fits the desktop.
   */
  lemma StartupBounds(desktop: SdlMode, allModes: seq<SdlMode>, screenModes: seq<DisplayMode>)
    requires screenModes == AcceptedModes(allModes, desktop.w, desktop.h)
    ensures forall k :: 0 <= k < |screenModes| ==> screenModes[k].width <= desktop.w && screenModes[k].height <= desktop.h
  {
    AcceptedModesAdmissible(allModes, desktop.w, desktop.h);
  }
}
