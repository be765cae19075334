/**
 * The route handlers of the web server as imperative code over one shared
 * runner object, each proved to do what `RouteSpec.Step` says.  The runner's
 * own methods are abstract updates of its fields: what they do inside the
 * runner is not part of this model.
 */
module Routes {
  import opened Wrappers
  import opened HexColor
  import opened RouteSpec

  /** The LED runner thread, as far as the routes see it. */
  class Runner {
    var alarmPending: bool
    var program: Program
    var brightness: int
    var on: bool
    /** The calls the routes made on this runner so far. */
    ghost var calls: seq<Call>

    ghost function State(): RunnerState
      reads this
    {
      RunnerState(alarmPending, program, brightness, on, calls)
    }

    /** The runner as `load_state` left it at start-up. */
    constructor (program: Program, brightness: int, on: bool, alarmPending: bool)
      ensures State() == RunnerState(alarmPending, program, brightness, on, [])
    {
      this.alarmPending := alarmPending;
      this.program := program;
      this.brightness := brightness;
      this.on := on;
      this.calls := [];
    }

    method StopAlarm()
      modifies this
      ensures State() == ClearAlarm(old(State()))
    {
      alarmPending := false;
      calls := calls + [Call.StopAlarm];
    }

    method ChangeProgram(p: Pattern)
      modifies this
      ensures State() == SwitchProgram(old(State()), p)
    {
      program := Program(p, map[]);
      calls := calls + [Call.ChangeProgram(p)];
    }

    /** `runner.program.<key> = v`. */
    method SetProgramAttribute(key: string, v: Attribute)
      modifies this
      ensures State() == Assign(old(State()), key, v)
    {
      program := program.(attrs := program.attrs[key := v]);
      calls := calls + [SetAttribute(key)];
    }

    method SetBrightness(level: int)
      modifies this
      ensures State() == Brighten(old(State()), level)
    {
      brightness := level;
      calls := calls + [Call.SetBrightness(level)];
    }

    /** `runner.on = on`. */
    method SetOn(on: bool)
      modifies this
      ensures State() == Power(old(State()), on)
    {
      this.on := on;
      calls := calls + [SetPower(on)];
    }

    method SaveState()
      modifies this
      ensures State() == Save(old(State()))
    {
      calls := calls + [Call.SaveState];
    }
  }

  /** `GET /state`. */
  method StateRoute(r: Runner) returns (reply: Result<Reply, RouteError>)
    modifies r
    ensures r.State() == Step(old(r.State()), GetState).state
    ensures reply == Step(old(r.State()), GetState).reply
  {
    r.StopAlarm();
    reply := Ok(Snapshot(r.program, r.brightness, r.on));
  }

  /** `POST /rainbow`. */
  method RainbowRoute(r: Runner, speed: int, width: int) returns (reply: Result<Reply, RouteError>)
    modifies r
    ensures r.State() == Step(old(r.State()), PostRainbow(speed, width)).state
    ensures reply == Step(old(r.State()), PostRainbow(speed, width)).reply
  {
    r.StopAlarm();
    r.ChangeProgram(Rainbow);
    r.SetProgramAttribute("speed", Scalar(speed));
    r.SetProgramAttribute("width", Scalar(width));
    r.SaveState();
    reply := Ok(Message("Rainbow running !"));
  }

  /**
   * The loop of `POST /gradient`: each entry's "color" replaced in place by
   * its parsed tuple, left to right, until one entry cannot be converted.
   */
  method ConvertColors(palette: array<Entry>) returns (failure: Option<RouteError>)
    modifies palette
    ensures failure.None? <==> ConvertPalette(old(palette[..])).Ok?
    ensures failure.None? ==> palette[..] == ConvertPalette(old(palette[..])).value
    ensures failure.Some? ==> Err(failure.value) == ConvertPalette(old(palette[..]))
    ensures failure.Some? ==>
      (exists i :: 0 <= i < palette.Length && ConvertEntry(old(palette[i])).Err? &&
         (forall j :: 0 <= j < i ==> ConvertEntry(old(palette[j])).Ok? && palette[j] == ConvertEntry(old(palette[j])).value) &&
         (forall j :: i <= j < palette.Length ==> palette[j] == old(palette[j])))
  {
    ghost var was := palette[..];
    var i := 0;
    while i < palette.Length
      invariant 0 <= i <= palette.Length
      invariant forall j :: 0 <= j < i ==> ConvertEntry(was[j]).Ok? && palette[j] == ConvertEntry(was[j]).value
      invariant forall j :: i <= j < palette.Length ==> palette[j] == was[j]
    {
      var converted := ConvertEntry(palette[i]);
      if converted.Err? {
        return Some(converted.error);
      }
      palette[i] := converted.value;
      i := i + 1;
    }
    failure := None;
  }

  /** `POST /gradient`. */
  method GradientRoute(r: Runner, palette: array<Entry>) returns (reply: Result<Reply, RouteError>)
    modifies r, palette
    ensures r.State() == Step(old(r.State()), PostGradient(old(palette[..]))).state
    ensures reply == Step(old(r.State()), PostGradient(old(palette[..]))).reply
    ensures reply.Ok? ==> palette[..] == ConvertPalette(old(palette[..])).value
  {
    r.StopAlarm();
    var failure := ConvertColors(palette);
    if failure.Some? {
      return Err(failure.value);
    }
    r.ChangeProgram(Gradient);
    r.SetProgramAttribute("palette", Stops(palette[..]));
    r.SaveState();
    reply := Ok(Message("Gradient running !"));
  }

  /** `POST /cycle`. */
  method CycleRoute(r: Runner, speed: int) returns (reply: Result<Reply, RouteError>)
    modifies r
    ensures r.State() == Step(old(r.State()), PostCycle(speed)).state
    ensures reply == Step(old(r.State()), PostCycle(speed)).reply
  {
    r.StopAlarm();
    r.ChangeProgram(Cycle);
    r.SetProgramAttribute("speed", Scalar(speed));
    r.SaveState();
    reply := Ok(Message("Cycle running !"));
  }

  /** `POST /solid`: the colour is parsed before the program is switched. */
  method SolidRoute(r: Runner, color: string) returns (reply: Result<Reply, RouteError>)
    modifies r
    ensures r.State() == Step(old(r.State()), PostSolid(color)).state
    ensures reply == Step(old(r.State()), PostSolid(color)).reply
  {
    r.StopAlarm();
    var rgb := HexToRgb(color);
    if rgb.Err? {
      return Err(HexFailure(rgb.error));
    }
    r.ChangeProgram(Solid);
    r.SetProgramAttribute("color", Colour(rgb.value));
    r.SaveState();
    reply := Ok(Message("Solid running !"));
  }

  /** `POST /music`. */
  method MusicRoute(r: Runner) returns (reply: Result<Reply, RouteError>)
    modifies r
    ensures r.State() == Step(old(r.State()), PostMusic).state
    ensures reply == Step(old(r.State()), PostMusic).reply
  {
    r.StopAlarm();
    r.ChangeProgram(Music);
    r.SaveState();
    reply := Ok(Message("Music running !"));
  }

  /** `POST /brightness`: a level outside 1..255 fails the assertion before anything is set. */
  method BrightnessRoute(r: Runner, level: int) returns (reply: Result<Reply, RouteError>)
    modifies r
    ensures r.State() == Step(old(r.State()), PostBrightness(level)).state
    ensures reply == Step(old(r.State()), PostBrightness(level)).reply
  {
    r.StopAlarm();
    if !(0 < level < 256) {
      return Err(BrightnessOutOfRange(level));
    }
    r.SetBrightness(level);
    r.SaveState();
    reply := Ok(Message("Rainbow running !"));
  }

  /** `GET /off`. */
  method OffRoute(r: Runner) returns (reply: Result<Reply, RouteError>)
    modifies r
    ensures r.State() == Step(old(r.State()), GetOff).state
    ensures reply == Step(old(r.State()), GetOff).reply
  {
    r.StopAlarm();
    r.SetOn(false);
    r.SaveState();
    reply := Ok(Message("Turning off !"));
  }

  /** `GET /on`. */
  method OnRoute(r: Runner) returns (reply: Result<Reply, RouteError>)
    modifies r
    ensures r.State() == Step(old(r.State()), GetOn).state
    ensures reply == Step(old(r.State()), GetOn).reply
  {
    r.StopAlarm();
    r.SetOn(true);
    r.SaveState();
    reply := Ok(Message("Turning off !"));
  }

  /** `GET /stop_alarm`: the wrapper clears the alarm and the body does nothing. */
  method StopAlarmRoute(r: Runner) returns (reply: Result<Reply, RouteError>)
    modifies r
    ensures r.State() == Step(old(r.State()), GetStopAlarm).state
    ensures reply == Step(old(r.State()), GetStopAlarm).reply
  {
    r.StopAlarm();
    reply := Ok(NoResponse);
  }
}
