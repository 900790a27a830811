/**
 Opening the window (`openApp`) and embedding an OpenGL 4.6 context into it
 (`embedApp`). The Win32 and WGL calls are not modelled as code: which of them fail
 is a parameter (`Wgl.failing`), and what they do to the thread's rendering contexts
 (which contexts exist, which one is current) is the state of `Wgl`.
 */
module Window {
  import opened Wrappers
  import opened OpenGLApp

  // ---------------------------------------------------------------------------
  // Window placement

  /** The two window styles `openApp` chooses between: WS_POPUP | WS_VISIBLE, or WS_OVERLAPPEDWINDOW. */
  datatype Style = PopupVisible | OverlappedWindow

  /** CW_USEDEFAULT, (int) 0x80000000. */
  const CwUseDefault: int := -0x8000_0000

  /** The style, position and size handed to CreateWindow. */
  datatype Placement = Placement(style: Style, x: int, y: int, width: int, height: int)

  /** A zero width or a zero height asks for a full-screen window. */
  predicate FullScreenRequested(width: int, height: int)
  {
    width == 0 || height == 0
  }

  /** Where `openApp` puts the window, given the requested size and the screen size. */
  function PlaceWindow(width: int, height: int, screenWidth: int, screenHeight: int): (p: Placement)
    ensures p.style == PopupVisible <==> FullScreenRequested(width, height)
    ensures p.style == PopupVisible ==>
      p.x == 0 && p.y == 0 && p.width == screenWidth && p.height == screenHeight
    ensures p.style == OverlappedWindow ==>
      p.x == CwUseDefault && p.y == CwUseDefault && p.width == width && p.height == height
  {
    if FullScreenRequested(width, height) then
      Placement(PopupVisible, 0, 0, screenWidth, screenHeight)
    else
      Placement(OverlappedWindow, CwUseDefault, CwUseDefault, width, height)
  }

  /**
   On a screen of non-zero size the window never has a zero side, and placing it a
   second time with the size it got changes nothing.
   */
  lemma PlacementStable(width: int, height: int, screenWidth: int, screenHeight: int)
    requires screenWidth != 0 && screenHeight != 0
    ensures var p := PlaceWindow(width, height, screenWidth, screenHeight);
      && p.width != 0 && p.height != 0
      && PlaceWindow(p.width, p.height, screenWidth, screenHeight).width == p.width
      && PlaceWindow(p.width, p.height, screenWidth, screenHeight).height == p.height
  {
  }

  // ---------------------------------------------------------------------------
  // The embedding handshake

  /** The calls of `embedApp` that can fail, in the order it makes them. */
  datatype EmbedStep =
    | GetDeviceContext
    | ChoosePixelFormat
    | SetPixelFormat
    | CreateTempContext
    | ActivateTempContext
    | CreateContext46
    | ActivateContext46

  const EmbedSteps: seq<EmbedStep> :=
    [GetDeviceContext, ChoosePixelFormat, SetPixelFormat, CreateTempContext,
     ActivateTempContext, CreateContext46, ActivateContext46]

  /** The two rendering contexts `embedApp` creates: the legacy bootstrap one and the 4.6 core one. */
  datatype Ctx = TempContext | Context46

  /** The rendering contexts that exist and the one current on the calling thread. */
  datatype Contexts = Contexts(live: set<Ctx>, current: Option<Ctx>)

  /** The position of the first step of `steps` that fails, or |steps| when none does. */
  function FirstFailing(steps: seq<EmbedStep>, failing: set<EmbedStep>): (n: nat)
    ensures n <= |steps|
    ensures n < |steps| ==> steps[n] in failing
    ensures forall i :: 0 <= i < n ==> steps[i] !in failing
  {
    if steps == [] then 0
    else if steps[0] in failing then 0
    else 1 + FirstFailing(steps[1..], failing)
  }

  /** The step `embedApp` gives up at, if any. */
  function FailedStep(failing: set<EmbedStep>): (s: Option<EmbedStep>)
    ensures s.Some? ==> s.value in failing
    ensures s.None? <==> forall t :: t in EmbedSteps ==> t !in failing
  {
    var n := FirstFailing(EmbedSteps, failing);
    if n < |EmbedSteps| then Some(EmbedSteps[n]) else None
  }

  /** The steps `embedApp` attempts: up to and including the first failing one. */
  function StepsRun(failing: set<EmbedStep>): (run: seq<EmbedStep>)
    ensures 1 <= |run| <= |EmbedSteps|
    ensures run == EmbedSteps[..|run|]
    ensures forall i :: 0 <= i < |run| - 1 ==> run[i] !in failing
    ensures FailedStep(failing).Some? <==> run[|run| - 1] in failing
  {
    var n := FirstFailing(EmbedSteps, failing);
    if n < |EmbedSteps| then EmbedSteps[..n + 1] else EmbedSteps
  }

  /**
   The rendering contexts `embedApp` leaves behind, as written: a failure to activate the
   bootstrap context or to create the 4.6 context returns without deleting the bootstrap
   context; deleting the bootstrap context while it is current leaves none current.
   */
  function ContextsAfter(before: Contexts, failed: Option<EmbedStep>): Contexts
  {
    match failed
    case Some(ActivateTempContext) => Contexts(before.live + {TempContext}, None)
    case Some(CreateContext46) => Contexts(before.live + {TempContext}, Some(TempContext))
    case Some(ActivateContext46) => Contexts(before.live, None)
    case Some(_) => before
    case None => Contexts(before.live + {Context46}, Some(Context46))
  }

  /** The same, with the bootstrap context deleted on every failure path. */
  function ContextsAfterReleasing(before: Contexts, failed: Option<EmbedStep>): Contexts
  {
    match failed
    case Some(ActivateTempContext) => Contexts(before.live, None)
    case Some(CreateContext46) => Contexts(before.live, None)
    case _ => ContextsAfter(before, failed)
  }

  /** The first of the pixel-format steps (device context, choose and set the format) that fails. */
  function PixelFormatFailure(failing: set<EmbedStep>): Option<EmbedStep>
  {
    if GetDeviceContext in failing then Some(GetDeviceContext)
    else if ChoosePixelFormat in failing then Some(ChoosePixelFormat)
    else if SetPixelFormat in failing then Some(SetPixelFormat)
    else None
  }

  /** The first of the context steps (create and activate each context) that fails. */
  function ContextFailure(failing: set<EmbedStep>): Option<EmbedStep>
  {
    if CreateTempContext in failing then Some(CreateTempContext)
    else if ActivateTempContext in failing then Some(ActivateTempContext)
    else if CreateContext46 in failing then Some(CreateContext46)
    else if ActivateContext46 in failing then Some(ActivateContext46)
    else None
  }

  /** The pixel-format steps attempted. */
  function PixelFormatRun(failing: set<EmbedStep>): seq<EmbedStep>
  {
    if GetDeviceContext in failing then [GetDeviceContext]
    else if ChoosePixelFormat in failing then [GetDeviceContext, ChoosePixelFormat]
    else [GetDeviceContext, ChoosePixelFormat, SetPixelFormat]
  }

  /** The context steps attempted, once the pixel format is set. */
  function ContextRun(failing: set<EmbedStep>): seq<EmbedStep>
  {
    if CreateTempContext in failing then [CreateTempContext]
    else if ActivateTempContext in failing then [CreateTempContext, ActivateTempContext]
    else if CreateContext46 in failing then [CreateTempContext, ActivateTempContext, CreateContext46]
    else [CreateTempContext, ActivateTempContext, CreateContext46, ActivateContext46]
  }

  /** The position of the first failing step, written out step by step. */
  lemma {:induction false} FirstFailingUnrolled(failing: set<EmbedStep>)
    ensures FirstFailing(EmbedSteps, failing) ==
      if GetDeviceContext in failing then 0
      else if ChoosePixelFormat in failing then 1
      else if SetPixelFormat in failing then 2
      else if CreateTempContext in failing then 3
      else if ActivateTempContext in failing then 4
      else if CreateContext46 in failing then 5
      else if ActivateContext46 in failing then 6
      else 7
  {
    var e0 := EmbedSteps;
    var e1 := [ChoosePixelFormat, SetPixelFormat, CreateTempContext, ActivateTempContext, CreateContext46, ActivateContext46];
    var e2 := [SetPixelFormat, CreateTempContext, ActivateTempContext, CreateContext46, ActivateContext46];
    var e3 := [CreateTempContext, ActivateTempContext, CreateContext46, ActivateContext46];
    var e4 := [ActivateTempContext, CreateContext46, ActivateContext46];
    var e5 := [CreateContext46, ActivateContext46];
    var e6 := [ActivateContext46];
    assert e0[1..] == e1 && e1[1..] == e2 && e2[1..] == e3 && e3[1..] == e4;
    assert e4[1..] == e5 && e5[1..] == e6 && e6[1..] == [];
    var n6 := FirstFailing(e6, failing);
    assert n6 == if ActivateContext46 in failing then 0 else 1;
    var n5 := FirstFailing(e5, failing);
    assert n5 == if CreateContext46 in failing then 0 else 1 + n6;
    var n4 := FirstFailing(e4, failing);
    assert n4 == if ActivateTempContext in failing then 0 else 1 + n5;
    var n3 := FirstFailing(e3, failing);
    assert n3 == if CreateTempContext in failing then 0 else 1 + n4;
    var n2 := FirstFailing(e2, failing);
    assert n2 == if SetPixelFormat in failing then 0 else 1 + n3;
    var n1 := FirstFailing(e1, failing);
    assert n1 == if ChoosePixelFormat in failing then 0 else 1 + n2;
  }

  /** The first failing step and the steps attempted, split at the two phases of the handshake. */
  lemma EmbedStepsUnrolled(failing: set<EmbedStep>)
    ensures FailedStep(failing) ==
      if PixelFormatFailure(failing).Some? then PixelFormatFailure(failing) else ContextFailure(failing)
    ensures StepsRun(failing) ==
      PixelFormatRun(failing) + if PixelFormatFailure(failing).Some? then [] else ContextRun(failing)
  {
    FirstFailingUnrolled(failing);
    var n := FirstFailing(EmbedSteps, failing);
    var e := EmbedSteps;
    if n == 0 {
      assert e[..1] == [GetDeviceContext];
    } else if n == 1 {
      assert e[..2] == [GetDeviceContext, ChoosePixelFormat];
    } else if n == 2 {
      assert e[..3] == [GetDeviceContext, ChoosePixelFormat, SetPixelFormat];
    } else if n == 3 {
      assert e[..4] == [GetDeviceContext, ChoosePixelFormat, SetPixelFormat] + [CreateTempContext];
    } else if n == 4 {
      assert e[..5] == [GetDeviceContext, ChoosePixelFormat, SetPixelFormat] +
        [CreateTempContext, ActivateTempContext];
    } else if n == 5 {
      assert e[..6] == [GetDeviceContext, ChoosePixelFormat, SetPixelFormat] +
        [CreateTempContext, ActivateTempContext, CreateContext46];
    } else if n == 6 {
      assert e[..7] == [GetDeviceContext, ChoosePixelFormat, SetPixelFormat] +
        [CreateTempContext, ActivateTempContext, CreateContext46, ActivateContext46];
    } else {
      assert e == [GetDeviceContext, ChoosePixelFormat, SetPixelFormat] +
        [CreateTempContext, ActivateTempContext, CreateContext46, ActivateContext46];
    }
  }

  /** What one WGL call does to the contexts when it succeeds (`ok`) or fails. */
  function CallEffect(c: Contexts, s: EmbedStep, ok: bool): Contexts
  {
    match s
    case CreateTempContext => if ok then c.(live := c.live + {TempContext}) else c
    case CreateContext46 => if ok then c.(live := c.live + {Context46}) else c
    // a failed wglMakeCurrent leaves no context current
    case ActivateTempContext => c.(current := if ok then Some(TempContext) else None)
    case ActivateContext46 => c.(current := if ok then Some(Context46) else None)
    case _ => c
  }

  /** The WGL driver as `embedApp` sees it. */
  class Wgl {
    /** Which calls fail in this run. */
    const failing: set<EmbedStep>
    var ctx: Contexts
    /** The calls made so far, in order. */
    var attempted: seq<EmbedStep>

    constructor (failing: set<EmbedStep>)
      ensures this.failing == failing && ctx == Contexts({}, None) && attempted == []
    {
      this.failing := failing;
      ctx := Contexts({}, None);
      attempted := [];
    }

    method Call(s: EmbedStep) returns (ok: bool)
      modifies this
      ensures ok == (s !in failing)
      ensures attempted == old(attempted) + [s]
      ensures ctx == CallEffect(old(ctx), s, ok)
    {
      ok := s !in failing;
      attempted := attempted + [s];
      ctx := CallEffect(ctx, s, ok);
    }

    /** wglDeleteContext: a current context stops being current before it is deleted. */
    method Delete(c: Ctx)
      modifies this
      ensures ctx.live == old(ctx.live) - {c}
      ensures ctx.current == if old(ctx.current) == Some(c) then None else old(ctx.current)
      ensures attempted == old(attempted)
    {
      ctx := Contexts(ctx.live - {c}, if ctx.current == Some(c) then None else ctx.current);
    }
  }

  /** Lines 268-312 of `embedApp`: get the device context, then choose and set the pixel format. */
  method PreparePixelFormat(wgl: Wgl) returns (ok: bool)
    modifies wgl
    ensures ok <==> PixelFormatFailure(wgl.failing).None?
    ensures wgl.attempted == old(wgl.attempted) + PixelFormatRun(wgl.failing)
    ensures wgl.ctx == old(wgl.ctx)
  {
    ok := wgl.Call(GetDeviceContext);
    if !ok { return; }
    ok := wgl.Call(ChoosePixelFormat);
    if !ok { return; }
    ok := wgl.Call(SetPixelFormat);
  }

  /**
   Lines 314-360 of `embedApp`: create and activate the bootstrap context, create the 4.6
   context through it, delete the bootstrap context and activate the 4.6 one.
   */
  method CreateContexts(wgl: Wgl) returns (ok: bool)
    requires TempContext !in wgl.ctx.live && Context46 !in wgl.ctx.live
    modifies wgl
    ensures ok <==> ContextFailure(wgl.failing).None?
    ensures wgl.attempted == old(wgl.attempted) + ContextRun(wgl.failing)
    ensures wgl.ctx == ContextsAfter(old(wgl.ctx), ContextFailure(wgl.failing))
  {
    ok := wgl.Call(CreateTempContext);
    if !ok { return; }
    ok := wgl.Call(ActivateTempContext);
    if !ok { return; }
    ok := wgl.Call(CreateContext46);
    if !ok { return; }
    wgl.Delete(TempContext);
    assert wgl.ctx.live == old(wgl.ctx.live) + {Context46};
    ok := wgl.Call(ActivateContext46);
    if !ok {
      wgl.Delete(Context46);
      assert wgl.ctx == Contexts(old(wgl.ctx.live), None);
    }
  }

  /** The same steps, deleting the bootstrap context before each early return that follows its creation. */
  method CreateContextsReleasingTemp(wgl: Wgl) returns (ok: bool)
    requires TempContext !in wgl.ctx.live && Context46 !in wgl.ctx.live
    modifies wgl
    ensures ok <==> ContextFailure(wgl.failing).None?
    ensures wgl.attempted == old(wgl.attempted) + ContextRun(wgl.failing)
    ensures wgl.ctx == ContextsAfterReleasing(old(wgl.ctx), ContextFailure(wgl.failing))
  {
    ok := wgl.Call(CreateTempContext);
    if !ok { return; }
    ok := wgl.Call(ActivateTempContext);
    if !ok {
      wgl.Delete(TempContext);
      assert wgl.ctx == Contexts(old(wgl.ctx.live), None);
      return;
    }
    ok := wgl.Call(CreateContext46);
    if !ok {
      wgl.Delete(TempContext);
      assert wgl.ctx == Contexts(old(wgl.ctx.live), None);
      return;
    }
    wgl.Delete(TempContext);
    assert wgl.ctx.live == old(wgl.ctx.live) + {Context46};
    ok := wgl.Call(ActivateContext46);
    if !ok {
      wgl.Delete(Context46);
      assert wgl.ctx == Contexts(old(wgl.ctx.live), None);
    }
  }

  /**
   `embedApp`: each step in order, returning false at the first that fails; on success
   the game loop and the cleanup closures are installed on the app.
   */
  method EmbedApp(app: App, wgl: Wgl) returns (ok: bool)
    requires TempContext !in wgl.ctx.live && Context46 !in wgl.ctx.live
    modifies app, wgl
    ensures ok <==> FailedStep(wgl.failing).None?
    ensures wgl.attempted == old(wgl.attempted) + StepsRun(wgl.failing)
    ensures wgl.ctx == ContextsAfter(old(wgl.ctx), FailedStep(wgl.failing))
    ensures app.gameLoopInstalled == (old(app.gameLoopInstalled) || ok)
    ensures app.width == old(app.width) && app.height == old(app.height)
    ensures app.mousePosX == old(app.mousePosX) && app.mousePosY == old(app.mousePosY)
    ensures app.mouseDiffX == old(app.mouseDiffX) && app.mouseDiffY == old(app.mouseDiffY)
    ensures app.isResizedInCurrentFrame == old(app.isResizedInCurrentFrame)
  {
    EmbedStepsUnrolled(wgl.failing);
    ok := PreparePixelFormat(wgl);
    if !ok {
      return;
    }
    ok := CreateContexts(wgl);
    if !ok {
      return;
    }
    app.gameLoopInstalled := true;
  }

  /** `embedApp` as intended: no failure path leaves the bootstrap context behind. */
  method EmbedAppReleasingTemp(app: App, wgl: Wgl) returns (ok: bool)
    requires TempContext !in wgl.ctx.live && Context46 !in wgl.ctx.live
    modifies app, wgl
    ensures ok <==> FailedStep(wgl.failing).None?
    ensures wgl.attempted == old(wgl.attempted) + StepsRun(wgl.failing)
    ensures wgl.ctx == ContextsAfterReleasing(old(wgl.ctx), FailedStep(wgl.failing))
    ensures app.gameLoopInstalled == (old(app.gameLoopInstalled) || ok)
    ensures app.width == old(app.width) && app.height == old(app.height)
    ensures app.mousePosX == old(app.mousePosX) && app.mousePosY == old(app.mousePosY)
    ensures app.mouseDiffX == old(app.mouseDiffX) && app.mouseDiffY == old(app.mouseDiffY)
    ensures app.isResizedInCurrentFrame == old(app.isResizedInCurrentFrame)
  {
    EmbedStepsUnrolled(wgl.failing);
    ok := PreparePixelFormat(wgl);
    if !ok {
      return;
    }
    ok := CreateContextsReleasingTemp(wgl);
    if !ok {
      return;
    }
    app.gameLoopInstalled := true;
  }

  /**
   `openApp`: a zero width or height is replaced by the screen size (a borderless window at
   the origin), otherwise the requested size is kept at the default position; then the
   context is embedded by `embedApp` as written, so a failed handshake can leave the
   bootstrap context behind.
   */
  method OpenApp(app: App, screenWidth: int, screenHeight: int, wgl: Wgl)
    returns (ok: bool, placement: Placement)
    requires TempContext !in wgl.ctx.live && Context46 !in wgl.ctx.live
    modifies app, wgl
    ensures placement == PlaceWindow(old(app.width), old(app.height), screenWidth, screenHeight)
    ensures app.width == placement.width && app.height == placement.height
    ensures ok <==> FailedStep(wgl.failing).None?
    ensures wgl.attempted == old(wgl.attempted) + StepsRun(wgl.failing)
    ensures wgl.ctx == ContextsAfter(old(wgl.ctx), FailedStep(wgl.failing))
    ensures app.gameLoopInstalled == (old(app.gameLoopInstalled) || ok)
    ensures app.mousePosX == old(app.mousePosX) && app.mousePosY == old(app.mousePosY)
    ensures app.mouseDiffX == old(app.mouseDiffX) && app.mouseDiffY == old(app.mouseDiffY)
    ensures app.isResizedInCurrentFrame == old(app.isResizedInCurrentFrame)
  {
    var fullScreen := app.width == 0 || app.height == 0;
    if fullScreen {
      app.width := screenWidth;
      app.height := screenHeight;
    }
    placement := Placement(
      if fullScreen then PopupVisible else OverlappedWindow,
      if fullScreen then 0 else CwUseDefault,
      if fullScreen then 0 else CwUseDefault,
      app.width, app.height);
    ok := EmbedApp(app, wgl);
  }

  /** `openApp` over the corrected handshake, which releases the bootstrap context on failure. */
  method OpenAppReleasingTemp(app: App, screenWidth: int, screenHeight: int, wgl: Wgl)
    returns (ok: bool, placement: Placement)
    requires TempContext !in wgl.ctx.live && Context46 !in wgl.ctx.live
    modifies app, wgl
    ensures placement == PlaceWindow(old(app.width), old(app.height), screenWidth, screenHeight)
    ensures app.width == placement.width && app.height == placement.height
    ensures ok <==> FailedStep(wgl.failing).None?
    ensures wgl.attempted == old(wgl.attempted) + StepsRun(wgl.failing)
    ensures wgl.ctx == ContextsAfterReleasing(old(wgl.ctx), FailedStep(wgl.failing))
    ensures app.gameLoopInstalled == (old(app.gameLoopInstalled) || ok)
    ensures app.mousePosX == old(app.mousePosX) && app.mousePosY == old(app.mousePosY)
    ensures app.mouseDiffX == old(app.mouseDiffX) && app.mouseDiffY == old(app.mouseDiffY)
    ensures app.isResizedInCurrentFrame == old(app.isResizedInCurrentFrame)
  {
    var fullScreen := app.width == 0 || app.height == 0;
    if fullScreen {
      app.width := screenWidth;
      app.height := screenHeight;
    }
    placement := Placement(
      if fullScreen then PopupVisible else OverlappedWindow,
      if fullScreen then 0 else CwUseDefault,
      if fullScreen then 0 else CwUseDefault,
      app.width, app.height);
    ok := EmbedAppReleasingTemp(app, wgl);
  }

  // ---------------------------------------------------------------------------
  // Properties of the handshake

  /** Every step of the handshake is in the list. */
  lemma AllStepsListed(s: EmbedStep)
    ensures s in EmbedSteps
  {
    match s
    case GetDeviceContext => assert EmbedSteps[0] == s;
    case ChoosePixelFormat => assert EmbedSteps[1] == s;
    case SetPixelFormat => assert EmbedSteps[2] == s;
    case CreateTempContext => assert EmbedSteps[3] == s;
    case ActivateTempContext => assert EmbedSteps[4] == s;
    case CreateContext46 => assert EmbedSteps[5] == s;
    case ActivateContext46 => assert EmbedSteps[6] == s;
  }

  /** The handshake succeeds iff no call fails, and then every step was attempted. */
  lemma EmbedSucceedsIffNoFailure(failing: set<EmbedStep>)
    ensures FailedStep(failing).None? <==> failing == {}
    ensures FailedStep(failing).None? ==> StepsRun(failing) == EmbedSteps
  {
    if FailedStep(failing).None? {
      forall t | t in failing ensures false {
        AllStepsListed(t);
      }
    }
  }

  /** The 4.6 context is only ever attempted after the bootstrap context was created and made current. */
  lemma Context46NeedsBootstrap(failing: set<EmbedStep>)
    ensures CreateContext46 in StepsRun(failing) ==>
      CreateTempContext !in failing && ActivateTempContext !in failing
  {
    var run := StepsRun(failing);
    if CreateContext46 in run {
      var i :| 0 <= i < |run| && run[i] == CreateContext46;
      assert run[i] == EmbedSteps[i];
      assert i == 5;
      assert run[3] == CreateTempContext && run[4] == ActivateTempContext;
    }
  }

  /** After a successful handshake exactly the 4.6 context was added, and it is current. */
  lemma EmbedSuccessContexts(before: Contexts, failing: set<EmbedStep>)
    requires FailedStep(failing).None?
    ensures ContextsAfter(before, FailedStep(failing)) == Contexts(before.live + {Context46}, Some(Context46))
  {
  }

  /**
   As written, a failed handshake leaves a context behind exactly when it fails at making
   the bootstrap context current or at creating the 4.6 context: the bootstrap context leaks.
   */
  lemma EmbedLeaksBootstrap(before: Contexts, failing: set<EmbedStep>)
    requires TempContext !in before.live && Context46 !in before.live
    ensures var failed := FailedStep(failing);
      failed.Some? && ContextsAfter(before, failed).live != before.live <==>
      failed == Some(ActivateTempContext) || failed == Some(CreateContext46)
  {
  }

  /** A concrete failure: when the 4.6 context cannot be created, the bootstrap context stays alive and current. */
  lemma EmbedLeakExample()
    ensures FailedStep({CreateContext46}) == Some(CreateContext46)
    ensures ContextsAfter(Contexts({}, None), FailedStep({CreateContext46})) ==
      Contexts({TempContext}, Some(TempContext))
  {
    var failing := {CreateContext46};
    assert EmbedSteps[0] !in failing && EmbedSteps[1] !in failing && EmbedSteps[2] !in failing;
    assert EmbedSteps[3] !in failing && EmbedSteps[4] !in failing && EmbedSteps[5] in failing;
    assert FirstFailing(EmbedSteps, failing) == 5;
  }

  /** With the bootstrap context released, every failed handshake leaves the contexts it found, and none current after a context was made current. */
  lemma ReleasingLeavesNothing(before: Contexts, failing: set<EmbedStep>)
    requires TempContext !in before.live && Context46 !in before.live
    ensures var failed := FailedStep(failing);
      failed.Some? ==> ContextsAfterReleasing(before, failed).live == before.live
  {
  }
}
