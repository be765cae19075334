/**
 * What the web server's routes do to the LED runner, stated over an abstract
 * runner state.  The runner itself (its render loop, its persistence and its
 * alarms) is not part of this model: only the calls the routes make into it
 * and the fields they assign are, each as an abstract state update.
 *
 * Every route is wrapped by `stop_all_alarms`, so the first thing each request
 * does, even `/state` and a request that then fails, is to clear the pending
 * alarm.  The route body then switches program and assigns that program's
 * parameters, or sets brightness or power, and finally asks the runner to save
 * its state.
 */
module RouteSpec {
  import opened Wrappers
  import opened HexColor

  /** The rendering programs the routes switch between. */
  datatype Pattern = Solid | Gradient | Rainbow | Cycle | Music

  /** A JSON value inside one palette entry of a `/gradient` request. */
  datatype Field = Str(s: string) | Num(n: int) | Tuple(items: seq<nat>)

  /** One palette entry: a JSON object. */
  type Entry = map<string, Field>

  /** A value the routes assign to an attribute of the active program. */
  datatype Attribute = Scalar(n: int) | Colour(rgb: seq<nat>) | Stops(entries: seq<Entry>)

  /**
   * The active program: which pattern it is, and the attributes the routes
   * assigned to it since it was switched in (its own defaults are the
   * runner's business and are not modelled).
   */
  datatype Program = Program(pattern: Pattern, attrs: map<string, Attribute>)

  /** One call or assignment a route makes on the runner, in the order made. */
  datatype Call =
    | StopAlarm
    | ChangeProgram(pattern: Pattern)
    | SetAttribute(key: string)
    | SetBrightness(level: int)
    | SetPower(on: bool)
    | SaveState

  /**
   * The abstract runner: pending alarm, active program, brightness, power
   * flag, and the log of calls the routes have made on it.
   */
  datatype RunnerState = RunnerState(
    alarmPending: bool,
    program: Program,
    brightness: int,
    on: bool,
    calls: seq<Call>)

  /** One HTTP request, its JSON body already decoded. */
  datatype Request =
    | GetState
    | PostRainbow(speed: int, width: int)
    | PostGradient(palette: seq<Entry>)
    | PostCycle(speed: int)
    | PostSolid(color: string)
    | PostMusic
    | PostBrightness(level: int)
    | GetOff
    | GetOn
    | GetStopAlarm

  /** Why a route raises instead of answering. */
  datatype RouteError =
    | HexFailure(error: HexError)   // `hex_to_rgb` raised
    | MissingColor                  // a palette entry has no "color" key
    | ColorNotText                  // a palette entry's "color" is not a string
    | BrightnessOutOfRange(level: int)

  /** What a route answers. `/stop_alarm` returns nothing at all. */
  datatype Reply =
    | Message(text: string)
    | Snapshot(program: Program, brightness: int, on: bool)
    | NoResponse

  datatype Response = Response(state: RunnerState, reply: Result<Reply, RouteError>)

  // ---------------------------------------------------------------------
  // The runner calls, as abstract state updates.  Each one logs itself.

  /** `stop_alarm()`: no alarm is pending afterwards. */
  function ClearAlarm(s: RunnerState): RunnerState {
    s.(alarmPending := false, calls := s.calls + [StopAlarm])
  }

  /** `change_program(name)`: a fresh instance of the pattern, no attributes assigned yet. */
  function SwitchProgram(s: RunnerState, p: Pattern): RunnerState {
    s.(program := Program(p, map[]), calls := s.calls + [ChangeProgram(p)])
  }

  /** `runner.program.<key> = v`. */
  function Assign(s: RunnerState, key: string, v: Attribute): RunnerState {
    s.(program := s.program.(attrs := s.program.attrs[key := v]), calls := s.calls + [SetAttribute(key)])
  }

  /** `set_brightness(level)`. */
  function Brighten(s: RunnerState, level: int): RunnerState {
    s.(brightness := level, calls := s.calls + [SetBrightness(level)])
  }

  /** `runner.on = on`. */
  function Power(s: RunnerState, on: bool): RunnerState {
    s.(on := on, calls := s.calls + [SetPower(on)])
  }

  /** `save_state()`: its only visible effect here is that it happened. */
  function Save(s: RunnerState): RunnerState {
    s.(calls := s.calls + [SaveState])
  }

  // ---------------------------------------------------------------------
  // The palette conversion of `/gradient`.

  /**
   * `entry["color"] = hex_to_rgb(entry["color"])`: the colour string becomes
   * the parsed tuple and every other key is left as it was.
   */
  function ConvertEntry(e: Entry): (r: Result<Entry, RouteError>)
    ensures r.Ok? <==> "color" in e && e["color"].Str? && HexToRgb(e["color"].s).Ok?
    ensures r.Ok? ==> r.value.Keys == e.Keys
    ensures r.Ok? ==> r.value["color"] == Tuple(HexToRgb(e["color"].s).value)
    ensures r.Ok? ==> forall k :: k in e && k != "color" ==> r.value[k] == e[k]
    ensures r.Err? && "color" !in e ==> r.error == MissingColor
    ensures r.Err? && "color" in e && !e["color"].Str? ==> r.error == ColorNotText
    ensures r.Err? && "color" in e && e["color"].Str? ==> r.error == HexFailure(HexToRgb(e["color"].s).error)
  {
    if "color" !in e then Err(MissingColor)
    else
      match e["color"]
      case Str(text) =>
        (match HexToRgb(text)
         case Ok(rgb) => Ok(e["color" := Tuple(rgb)])
         case Err(x) => Err(HexFailure(x)))
      case _ => Err(ColorNotText)
  }

  /**
   * The loop over the palette: each entry converted in place, in order; the
   * first entry that cannot be converted raises.
   */
  function ConvertPalette(es: seq<Entry>): (r: Result<seq<Entry>, RouteError>)
    ensures r.Ok? <==> forall j :: 0 <= j < |es| ==> ConvertEntry(es[j]).Ok?
    ensures r.Ok? ==> |r.value| == |es|
    ensures r.Ok? ==> forall j :: 0 <= j < |es| ==> r.value[j] == ConvertEntry(es[j]).value
    ensures forall j :: 0 <= j < |es| && ConvertEntry(es[j]).Err? &&
                        (forall i :: 0 <= i < j ==> ConvertEntry(es[i]).Ok?) ==>
              r == Err(ConvertEntry(es[j]).error)
  {
    if es == [] then Ok([])
    else
      match ConvertEntry(es[0])
      case Err(e) => Err(e)
      case Ok(first) =>
        match ConvertPalette(es[1..])
        case Err(e) => Err(e)
        case Ok(rest) => Ok([first] + rest)
  }

  // ---------------------------------------------------------------------
  // The routes.

  /** The route bodies, one call after another, as the source makes them. */
  function Step(s: RunnerState, req: Request): (out: Response)
    ensures !out.state.alarmPending
    ensures out.reply.Ok? <==> Accepted(req)
    ensures out.state.brightness == (if req.PostBrightness? && out.reply.Ok? then req.level else s.brightness)
    ensures out.state.on == (if req.GetOn? then true else if req.GetOff? then false else s.on)
    ensures 0 < s.brightness < 256 ==> 0 < out.state.brightness < 256
  {
    var c := ClearAlarm(s);
    match req
    case GetState =>
      Response(c, Ok(Snapshot(c.program, c.brightness, c.on)))
    case PostRainbow(speed, width) =>
      var t := Assign(Assign(SwitchProgram(c, Rainbow), "speed", Scalar(speed)), "width", Scalar(width));
      Response(Save(t), Ok(Message("Rainbow running !")))
    case PostGradient(palette) =>
      (match ConvertPalette(palette)
       case Err(e) => Response(c, Err(e))
       case Ok(stops) =>
         var t := Assign(SwitchProgram(c, Gradient), "palette", Stops(stops));
         Response(Save(t), Ok(Message("Gradient running !"))))
    case PostCycle(speed) =>
      var t := Assign(SwitchProgram(c, Cycle), "speed", Scalar(speed));
      Response(Save(t), Ok(Message("Cycle running !")))
    case PostSolid(color) =>
      (match HexToRgb(color)
       case Err(e) => Response(c, Err(HexFailure(e)))
       case Ok(rgb) =>
         var t := Assign(SwitchProgram(c, Solid), "color", Colour(rgb));
         Response(Save(t), Ok(Message("Solid running !"))))
    case PostMusic =>
      Response(Save(SwitchProgram(c, Music)), Ok(Message("Music running !")))
    case PostBrightness(level) =>
      if 0 < level < 256 then Response(Save(Brighten(c, level)), Ok(Message("Rainbow running !")))
      else Response(c, Err(BrightnessOutOfRange(level)))
    case GetOff =>
      Response(Save(Power(c, false)), Ok(Message("Turning off !")))
    case GetOn =>
      Response(Save(Power(c, true)), Ok(Message("Turning off !")))
    case GetStopAlarm =>
      Response(c, Ok(NoResponse))
  }

  /**
   * The runner calls a request makes, in order: `stop_alarm` first, and for
   * an accepted request other than `/state` and `/stop_alarm` the route's own
   * calls ending with `save_state`.
   */
  lemma StepCalls(s: RunnerState, req: Request)
    ensures Step(s, req).state.calls == s.calls + CallsFor(req, Accepted(req))
  {
    if req.PostGradient? || req.PostSolid? || req.PostBrightness? {
      CheckedCalls(s, req);
    } else if req.PostRainbow? || req.PostCycle? || req.PostMusic? {
      ProgramCalls(s, req);
    } else {
      PlainCalls(s, req);
    }
  }

  /** The calls of the three routes that can refuse their request. */
  lemma CheckedCalls(s: RunnerState, req: Request)
    requires req.PostGradient? || req.PostSolid? || req.PostBrightness?
    ensures Step(s, req).state.calls == s.calls + CallsFor(req, Accepted(req))
  {
  }

  /** The calls of the routes that switch program without checking anything. */
  lemma ProgramCalls(s: RunnerState, req: Request)
    requires req.PostRainbow? || req.PostCycle? || req.PostMusic?
    ensures Step(s, req).state.calls == s.calls + CallsFor(req, Accepted(req))
  {
  }

  /** The calls of the routes that leave the program alone and refuse nothing. */
  lemma PlainCalls(s: RunnerState, req: Request)
    requires req.GetState? || req.GetOff? || req.GetOn? || req.GetStopAlarm?
    ensures Step(s, req).state.calls == s.calls + CallsFor(req, Accepted(req))
  {
  }

  /**
   * An accepted request leaves the program `ProgramAfter` says, with only
   * that program's own parameters assigned; a refused one leaves it alone.
   */
  lemma StepProgram(s: RunnerState, req: Request)
    ensures Step(s, req).state.program == (if Accepted(req) then ProgramAfter(s.program, req) else s.program)
  {
  }

  /** Which requests the routes accept: the others raise after clearing the alarm. */
  predicate Accepted(req: Request) {
    match req
    case PostGradient(palette) => forall j :: 0 <= j < |palette| ==> ConvertEntry(palette[j]).Ok?
    case PostSolid(color) => HexToRgb(color).Ok?
    case PostBrightness(level) => 0 < level < 256
    case _ => true
  }

  /** The runner calls each route makes, in order; a request that raises makes only the first. */
  function CallsFor(req: Request, accepted: bool): seq<Call> {
    if !accepted then [StopAlarm]
    else
      match req
      case GetState => [StopAlarm]
      case PostRainbow(_, _) =>
        [StopAlarm, ChangeProgram(Rainbow), SetAttribute("speed"), SetAttribute("width"), SaveState]
      case PostGradient(_) => [StopAlarm, ChangeProgram(Gradient), SetAttribute("palette"), SaveState]
      case PostCycle(_) => [StopAlarm, ChangeProgram(Cycle), SetAttribute("speed"), SaveState]
      case PostSolid(_) => [StopAlarm, ChangeProgram(Solid), SetAttribute("color"), SaveState]
      case PostMusic => [StopAlarm, ChangeProgram(Music), SaveState]
      case PostBrightness(level) => [StopAlarm, SetBrightness(level), SaveState]
      case GetOff => [StopAlarm, SetPower(false), SaveState]
      case GetOn => [StopAlarm, SetPower(true), SaveState]
      case GetStopAlarm => [StopAlarm]
  }

  /** The program an accepted request leaves active: only its own parameters are assigned. */
  function ProgramAfter(p: Program, req: Request): Program
    requires Accepted(req)
  {
    match req
    case PostRainbow(speed, width) => Program(Rainbow, map["speed" := Scalar(speed), "width" := Scalar(width)])
    case PostGradient(palette) => Program(Gradient, map["palette" := Stops(ConvertPalette(palette).value)])
    case PostCycle(speed) => Program(Cycle, map["speed" := Scalar(speed)])
    case PostSolid(color) => Program(Solid, map["color" := Colour(HexToRgb(color).value)])
    case PostMusic => Program(Music, map[])
    case _ => p
  }

  // ---------------------------------------------------------------------
  // Requests handled one after another.

  /** The runner after each request of `reqs`, in order. */
  function Run(s: RunnerState, reqs: seq<Request>): RunnerState
    decreases |reqs|
  {
    if reqs == [] then s else Run(Step(s, reqs[0]).state, reqs[1..])
  }

  /** After any non-empty series of requests no alarm is pending: no route arms one. */
  lemma {:induction false} RunClearsAlarm(s: RunnerState, reqs: seq<Request>)
    requires reqs != []
    ensures !Run(s, reqs).alarmPending
    decreases |reqs|
  {
    if |reqs| > 1 {
      RunClearsAlarm(Step(s, reqs[0]).state, reqs[1..]);
    }
  }

  /** Brightness stays in 1..255 whatever is requested: out-of-range levels are refused. */
  lemma {:induction false} RunKeepsBrightnessInRange(s: RunnerState, reqs: seq<Request>)
    requires 0 < s.brightness < 256
    ensures 0 < Run(s, reqs).brightness < 256
    decreases |reqs|
  {
    if reqs != [] {
      RunKeepsBrightnessInRange(Step(s, reqs[0]).state, reqs[1..]);
    }
  }

  /** Only an accepted `/brightness` request changes the brightness. */
  lemma {:induction false} RunBrightnessUnchanged(s: RunnerState, reqs: seq<Request>)
    requires forall j :: 0 <= j < |reqs| ==> !(reqs[j].PostBrightness? && Accepted(reqs[j]))
    ensures Run(s, reqs).brightness == s.brightness
    decreases |reqs|
  {
    if reqs != [] {
      assert !(reqs[0].PostBrightness? && Accepted(reqs[0]));
      forall j | 0 <= j < |reqs[1..]| ensures !(reqs[1..][j].PostBrightness? && Accepted(reqs[1..][j])) {
        assert reqs[1..][j] == reqs[j + 1];
      }
      RunBrightnessUnchanged(Step(s, reqs[0]).state, reqs[1..]);
    }
  }

  function SaveCount(calls: seq<Call>): nat {
    if calls == [] then 0 else (if calls[0] == SaveState then 1 else 0) + SaveCount(calls[1..])
  }

  lemma {:induction false} SaveCountAppend(a: seq<Call>, b: seq<Call>)
    ensures SaveCount(a + b) == SaveCount(a) + SaveCount(b)
  {
    if a == [] {
      assert a + b == b;
    } else {
      assert (a + b)[1..] == a[1..] + b;
      SaveCountAppend(a[1..], b);
    }
  }

  /** Whether a request ends with `save_state()`: every accepted one but `/state` and `/stop_alarm`. */
  predicate Persists(req: Request) {
    Accepted(req) && !req.GetState? && !req.GetStopAlarm?
  }

  function PersistCount(reqs: seq<Request>): nat {
    if reqs == [] then 0 else (if Persists(reqs[0]) then 1 else 0) + PersistCount(reqs[1..])
  }

  /**
   * Every accepted request other than `/state` and `/stop_alarm` saves exactly
   * once; a refused request, `/state` and `/stop_alarm` never save.
   */
  lemma {:induction false} RunSaveCount(s: RunnerState, reqs: seq<Request>)
    ensures SaveCount(Run(s, reqs).calls) == SaveCount(s.calls) + PersistCount(reqs)
    decreases |reqs|
  {
    if reqs != [] {
      var out := Step(s, reqs[0]);
      StepCalls(s, reqs[0]);
      SaveCountAppend(s.calls, CallsFor(reqs[0], Accepted(reqs[0])));
      CallsForSaves(reqs[0]);
      RunSaveCount(out.state, reqs[1..]);
    }
  }

  /** The calls of one request hold one save if the request persists, none otherwise. */
  lemma CallsForSaves(req: Request)
    ensures SaveCount(CallsFor(req, Accepted(req))) == if Persists(req) then 1 else 0
  {
    var cs := CallsFor(req, Accepted(req));
    if Persists(req) {
      var n := |cs| - 1;
      assert cs == cs[..n] + [SaveState];
      SaveCountAppend(cs[..n], [SaveState]);
      SaveFree(cs[..n]);
      assert SaveCount([SaveState]) == 1;
    } else {
      assert cs == [StopAlarm];
      SaveFree(cs);
    }
  }

  lemma {:induction false} SaveFree(calls: seq<Call>)
    requires forall i :: 0 <= i < |calls| ==> calls[i] != SaveState
    ensures SaveCount(calls) == 0
  {
    if calls != [] {
      SaveFree(calls[1..]);
    }
  }
}
