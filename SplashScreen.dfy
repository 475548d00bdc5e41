/** The splash screen widget: its configuration, the placement and layout derived once
    at construction, the close flag behind the `close_splashscreen` property, and the
    recurring close check. */
module Splash {
  import opened PyValues
  import opened Validation
  import opened Geometry
  import opened Layout
  import Lifecycle

  class SplashScreen {
    const config: Config
    const placement: Placement
    const layout: Regions
    const fillerLabelRequired: bool

    /** The stored close flag. */
    var closeRequested: bool
    var state: Lifecycle.WindowState
    /** A close check is scheduled on the event loop. */
    var checkPending: bool
    /** How many times the window has been destroyed. */
    var destroyCount: nat

    function Machine(): Lifecycle.Machine
      reads this`state, this`checkPending, this`destroyCount
    {
      Lifecycle.Machine(state, checkPending, destroyCount)
    }

    ghost predicate Valid()
      reads this`state, this`checkPending, this`destroyCount
    {
      Lifecycle.Inv(Machine()) &&
      Validate(config).Passed? &&
      layout == CreateLayout(placement.width, placement.height) &&
      fillerLabelRequired == (placement.height > 2 * AppInfoHeight)
    }

    /** The window set-up after a successful check: placed, laid out, flag clear,
        first close check scheduled. */
    constructor (cfg: Config, screenWidth: nat, screenHeight: nat)
      requires Validate(cfg).Passed?
      ensures Valid()
      ensures config == cfg && placement == PositionWindow(screenWidth, screenHeight)
      ensures !closeRequested && Machine() == Lifecycle.Initial
    {
      config := cfg;
      var p := PositionWindow(screenWidth, screenHeight);
      placement := p;
      fillerLabelRequired := p.height > 2 * AppInfoHeight;
      layout := CreateLayout(p.width, p.height);
      closeRequested := false;
      state := Lifecycle.Open;
      checkPending := true;
      destroyCount := 0;
    }

    /** The `close_splashscreen` getter: the stored flag, nothing changed. */
    method GetCloseSplashscreen() returns (flag: bool)
      ensures flag == closeRequested
    {
      flag := closeRequested;
    }

    /** The `close_splashscreen` setter: a `bool` is stored; anything else is a
        TypeError reporting its type, and the stored flag stays as it was. */
    method SetCloseSplashscreen(v: PyValue) returns (typeError: Option<PyType>)
      modifies this`closeRequested
      ensures v.PyBool? ==> typeError.None? && closeRequested == v.b
      ensures !v.PyBool? ==> typeError == Some(TypeOf(v)) && closeRequested == old(closeRequested)
    {
      if TypeOf(v) != BoolType {
        return Some(TypeOf(v));
      }
      closeRequested := v.b;
      return None;
    }

    /** `destroy()`: the open window is closed and its destruction counted. */
    method Destroy()
      requires state == Lifecycle.Open
      modifies this`state, this`destroyCount
      ensures state == Lifecycle.Closed && destroyCount == old(destroyCount) + 1
    {
      state := Lifecycle.Closed;
      destroyCount := destroyCount + 1;
    }

    /** `_check_close`, run when the scheduled check fires on an open window. */
    method CheckClose()
      requires state == Lifecycle.Open && !checkPending
      modifies this`state, this`checkPending, this`destroyCount
      ensures Machine() == Lifecycle.CheckClose(old(Machine()), closeRequested)
    {
      if closeRequested {
        Destroy();
      } else {
        checkPending := true;
      }
    }

    /** The event loop reaches the end of a 500 ms interval: a scheduled check runs. */
    method Tick()
      requires Valid()
      modifies this`state, this`checkPending, this`destroyCount
      ensures Valid()
      ensures Machine() == Lifecycle.Tick(old(Machine()), closeRequested)
    {
      if checkPending {
        checkPending := false;
        CheckClose();
      }
    }
  }

  /** Construction: the arguments are checked first; only if every one passes is a
      window set up. */
  method Create(cfg: Config, screenWidth: nat, screenHeight: nat) returns (screen: SplashScreen?, outcome: Outcome)
    ensures outcome == Validate(cfg)
    ensures screen != null <==> outcome.Passed?
    ensures screen != null ==>
      fresh(screen) && screen.Valid() && screen.config == cfg &&
      screen.placement == PositionWindow(screenWidth, screenHeight) &&
      !screen.closeRequested && screen.Machine() == Lifecycle.Initial
  {
    outcome := CheckUserInputTypes(cfg);
    if outcome.Passed? {
      screen := new SplashScreen(cfg, screenWidth, screenHeight);
    } else {
      screen := null;
    }
  }

  /** The caller's session from the repository's test script: construct, try six
      values of the wrong type on the close flag, set it, and let the next tick close
      the window. */
  method CloseSession(imagePath: string, screenWidth: nat, screenHeight: nat) returns (screen: SplashScreen)
    ensures screen.state == Lifecycle.Closed && screen.destroyCount == 1 && screen.closeRequested
  {
    var cfg := Config(PyStr(imagePath), PyStr("Loading..."), PyTuple([PyStr("helvetica"), PyInt(18)]),
                      PyStr("#222222"), PyStr("Your Application v1.0.0"),
                      PyTuple([PyStr("helvetica"), PyInt(36)]), PyStr("#333333"));
    assert AcceptedFont(PyTuple([PyStr("helvetica"), PyInt(18)])).Some?;
    assert AcceptedFont(PyTuple([PyStr("helvetica"), PyInt(36)])).Some?;
    PassedIffAllConform(Fields(cfg));
    var created, outcome := Create(cfg, screenWidth, screenHeight);
    screen := created;

    var original := screen.GetCloseSplashscreen();
    var wrongValues := [PyInt(10), PyFloat(1.0), PyStr("hello, world"), PyList([PyInt(1)]), PyInt(1),
                        PyDict([(PyInt(1), PyStr("1"))])];
    for k := 0 to |wrongValues|
      invariant screen.closeRequested == original
      invariant screen.Valid() && screen.Machine() == Lifecycle.Initial
    {
      var typeError := screen.SetCloseSplashscreen(wrongValues[k]);
      assert typeError.Some?;
    }

    var _ := screen.SetCloseSplashscreen(PyBool(true));
    screen.Tick();
  }
}
