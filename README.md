# raspi-LED web server: colour parsing and route semantics

This project models the control logic of the Raspberry Pi LED-strip web
server (`rpi_ws2812b_webapp/main.py`) and proves properties of it in Dafny.
Two parts of that file carry logic:

- **`hex_to_rgb`**, the colour parser. It strips every leading `#`, cuts the
  rest into chunks of `len // 3` characters and reads each chunk in base 16.
  The chunk length depends on the input. So `"#ff8000"` gives `(255, 128, 0)`,
  `"#abc"` gives `(10, 11, 12)` (no CSS-style digit doubling), `"abcd"` gives
  four components, and fewer than three digits raise because `range` is
  given a step of 0. Module `HexColor` (`hex_color.dfy`) holds the parser as
  pure functions, with lemmas about the number of components, their values
  and bounds, `#`-insensitivity, error cases, and a round trip with the
  `#rrggbb` form.
- **The HTTP route handlers**, modelled over an abstract runner state. Each
  handler is wrapped by `stop_all_alarms`, so every request first clears the
  pending alarm. This includes `/state`, `/stop_alarm`, and requests that go
  on to fail. The handler then switches program and assigns that program's
  parameters, or sets brightness or power, and finally saves.
  - Module `RouteSpec` (`route_spec.dfy`) states this as a pure function
    `Step` over a `RunnerState` record: pending alarm, active program and the
    attributes assigned to it, brightness, power flag, and a log of the
    runner calls made, in order. `Step`'s contract, with the lemmas
    `StepCalls` and `StepProgram`, gives the net effect of every route:
    which requests are accepted, the exact call order, the resulting
    program, brightness and power. Lemmas cover series of requests.
  - Module `Routes` (`routes.dfy`) holds the handlers as imperative methods
    on a `Runner` object. Each method is proved to produce exactly `Step`'s
    new state and reply. The in-place palette loop of `/gradient` runs on an
    `array` and is proved against `RouteSpec.ConvertPalette`.

`Wrappers` (`wrappers.dfy`) defines `Option` and `Result`. A `Result.Err`
stands for a Python exception raised by a handler or by `hex_to_rgb`.

Every route clears the pending alarm before its own effect. This includes
the read-only `/state` (main.py:76) and `/stop_alarm` (main.py:171). A
refused `/brightness`, `/solid` or `/gradient` request has already cleared
the alarm when it raises.

The reply texts are modelled as written. `/brightness` answers
`"Rainbow running !"` and `/on` answers `"Turning off !"`. `/stop_alarm`
returns nothing (`NoResponse` here).

## Model

| member | source | states |
|---|---|---|
| HexColor.StripHashes | rpi_ws2812b_webapp/main.py:43 | every character removed is a '#', and what is left is empty or does not start with '#' |
| HexColor.StripKeepsSuffix | rpi_ws2812b_webapp/main.py:43 | the stripped string is the untouched tail of the input |
| HexColor.HashesIgnored | rpi_ws2812b_webapp/main.py:43 | any number of leading '#' changes neither the stripped string nor the parse (`lstrip`, not a one-character strip) |
| HexColor.DigitValue | rpi_ws2812b_webapp/main.py:45 | a hex digit of either case is worth less than 16 |
| HexColor.HexValue | rpi_ws2812b_webapp/main.py:45 | the base-16 value of n digits is below 16^n |
| HexColor.Chunks | rpi_ws2812b_webapp/main.py:44-45 | every chunk of `range(0, lv, k)` slicing is non-empty and at most k long |
| HexColor.ChunksFlatten | rpi_ws2812b_webapp/main.py:44-45 | the chunks joined back give the stripped string: nothing is lost or reordered |
| HexColor.ChunkCount | rpi_ws2812b_webapp/main.py:44-45 | there are ceil(lv / k) chunks: (n-1)*k < lv <= n*k |
| HexColor.ChunkAt | rpi_ws2812b_webapp/main.py:45 | chunk j is exactly the Python slice `value[j*k : j*k + k]` |
| HexColor.ParseChunks | rpi_ws2812b_webapp/main.py:45 | parsing succeeds iff every chunk is all hex digits; then one value per chunk, in order, each the chunk's base-16 value; otherwise the error names the first chunk that is not all hex digits |
| HexColor.HexToRgb | rpi_ws2812b_webapp/main.py:42-45 | fails with a zero step iff fewer than 3 characters remain after stripping; succeeds iff at least 3 remain and all are hex digits |
| HexColor.ComponentCount | rpi_ws2812b_webapp/main.py:44-45 | a successful parse has ceil(lv / (lv//3)) components: exactly 3 iff lv is a multiple of 3, more than 3 otherwise |
| HexColor.ComponentValues | rpi_ws2812b_webapp/main.py:44-45 | component j is the base-16 value of `v[j*k : (j+1)*k]` and is below 16^k |
| HexColor.SixDigits | rpi_ws2812b_webapp/main.py:42-45 | six hex digits give exactly the three 2-digit pair values, left to right, each in 0..255 |
| HexColor.OneDigitComponents | rpi_ws2812b_webapp/main.py:44-45 | 3 to 5 hex digits give one component per digit, each below 16 |
| HexColor.ThreeDigits | rpi_ws2812b_webapp/main.py:44-45 | three hex digits give the three single-digit values, with no doubling |
| HexColor.Pairs | rpi_ws2812b_webapp/main.py:42-45 | `"#" + x + y + z` with 2-digit pairs parses to the three pair values |
| HexColor.RoundTrip | rpi_ws2812b_webapp/main.py:42-45 | writing channels below 256 as `#rrggbb` and parsing gives the channels back |
| HexColor.ExampleShortForm | rpi_ws2812b_webapp/main.py:44-45 | `"abc"` parses to (10, 11, 12) |
| HexColor.ExampleManyHashes | rpi_ws2812b_webapp/main.py:43 | `"##abc"` parses to (10, 11, 12) |
| HexColor.ExampleLongForm | rpi_ws2812b_webapp/main.py:42-45 | `"#ff8000"` parses to (255, 128, 0) |
| HexColor.ExampleTooShort | rpi_ws2812b_webapp/main.py:44-45 | `"#ab"` and `"#"` raise because the step is 0 |
| HexColor.ExampleFourDigits | rpi_ws2812b_webapp/main.py:44-45 | `"abcd"` parses to four components (10, 11, 12, 13) |
| HexColor.ExampleBadDigit | rpi_ws2812b_webapp/main.py:45 | `"#abg"` raises on the chunk `"g"` |
| RouteSpec.ConvertEntry | rpi_ws2812b_webapp/main.py:104 | an entry converts iff its "color" is a string `hex_to_rgb` accepts; the result has the same keys, "color" becomes the parsed tuple and every other key is unchanged; a missing key, a non-string colour or a parse error give their own errors |
| RouteSpec.ConvertPalette | rpi_ws2812b_webapp/main.py:102-104 | the palette converts iff every entry does; the result has the same length and order, entry j being entry j converted; otherwise the error is that of the first entry that fails |
| RouteSpec.Step | rpi_ws2812b_webapp/main.py:48-173 | after any route no alarm is pending; `/gradient` and `/solid` are accepted iff their colours parse, `/brightness` iff its level is in 1..255, and every other request always; brightness changes only by an accepted `/brightness`, power only by `/on` and `/off`; brightness in 1..255 stays in 1..255 |
| RouteSpec.StepCalls | rpi_ws2812b_webapp/main.py:48-173 | the runner calls a request makes are exactly the listed sequence: stop_alarm first and save_state last, or stop_alarm alone for a request that raises or only reads |
| RouteSpec.StepProgram | rpi_ws2812b_webapp/main.py:85-139 | an accepted program route leaves the named program with only its own parameters assigned (the gradient's palette converted, the solid colour parsed); every other request leaves the program unchanged |
| RouteSpec.RunClearsAlarm | rpi_ws2812b_webapp/main.py:48-55 | after any non-empty series of requests no alarm is pending |
| RouteSpec.RunKeepsBrightnessInRange | rpi_ws2812b_webapp/main.py:146-148 | brightness in 1..255 stays in 1..255 over any series of requests |
| RouteSpec.RunBrightnessUnchanged | rpi_ws2812b_webapp/main.py:142-150 | without an accepted `/brightness`, brightness never changes |
| RouteSpec.CallsForSaves | rpi_ws2812b_webapp/main.py:85-168 | an accepted request other than `/state` and `/stop_alarm` saves exactly once; a refused request, `/state` and `/stop_alarm` never save |
| RouteSpec.RunSaveCount | rpi_ws2812b_webapp/main.py:85-168 | over a series of requests, the number of saves is the number of accepted requests other than `/state` and `/stop_alarm` |
| Routes.Runner.constructor | rpi_ws2812b_webapp/main.py:37-39 | the runner starts from the loaded program, brightness, power flag and alarm, with no calls made yet |
| Routes.Runner.StopAlarm | rpi_ws2812b_webapp/main.py:52 | `stop_alarm()` clears the pending alarm and changes nothing else |
| Routes.Runner.ChangeProgram | rpi_ws2812b_webapp/main.py:91 | `change_program(name)` installs a fresh program of that pattern with no attributes assigned |
| Routes.Runner.SetProgramAttribute | rpi_ws2812b_webapp/main.py:92-93 | assigning `program.<key>` changes that attribute only |
| Routes.Runner.SetBrightness | rpi_ws2812b_webapp/main.py:148 | `set_brightness(b)` sets the brightness only |
| Routes.Runner.SetOn | rpi_ws2812b_webapp/main.py:157 | assigning `on` sets the power flag only |
| Routes.Runner.SaveState | rpi_ws2812b_webapp/main.py:94 | `save_state()` changes no field the routes see |
| Routes.StateRoute | rpi_ws2812b_webapp/main.py:75-83 | `/state` clears the alarm, then replies with the program, brightness and power flag |
| Routes.RainbowRoute | rpi_ws2812b_webapp/main.py:85-95 | new runner state and reply are exactly those of `Step` for `/rainbow` |
| Routes.ConvertColors | rpi_ws2812b_webapp/main.py:102-104 | the in-place loop leaves the array equal to the converted palette when every entry converts; otherwise it reports the first failing entry i, whose error it returns, and leaves entries before i converted and entries from i on as received |
| Routes.GradientRoute | rpi_ws2812b_webapp/main.py:98-108 | new runner state and reply are exactly those of `Step` for `/gradient` on the palette as received; when accepted, the request list itself holds the converted palette that was installed |
| Routes.CycleRoute | rpi_ws2812b_webapp/main.py:111-119 | new runner state and reply are exactly those of `Step` for `/cycle` |
| Routes.SolidRoute | rpi_ws2812b_webapp/main.py:122-130 | new runner state and reply are exactly those of `Step` for `/solid`; a bad colour raises before the program is switched |
| Routes.MusicRoute | rpi_ws2812b_webapp/main.py:133-139 | new runner state and reply are exactly those of `Step` for `/music` |
| Routes.BrightnessRoute | rpi_ws2812b_webapp/main.py:142-150 | new runner state and reply are exactly those of `Step` for `/brightness`; an out-of-range level raises before `set_brightness` |
| Routes.OffRoute | rpi_ws2812b_webapp/main.py:153-159 | new runner state and reply are exactly those of `Step` for `/off` |
| Routes.OnRoute | rpi_ws2812b_webapp/main.py:162-168 | new runner state and reply are exactly those of `Step` for `/on` |
| Routes.StopAlarmRoute | rpi_ws2812b_webapp/main.py:170-173 | `/stop_alarm` only clears the alarm |

## Left out

- Flask set-up, URL routing, the `/` redirect, `/status` and JSON decoding and encoding (main.py:61-83). A route receives its decoded values as parameters. `/state` replies with a snapshot record.
- `PixelStrip` construction, `begin`/`show` and the GPIO/DMA constants (main.py:21-35): hardware I/O.
- The runner (`Runner` from `presets`) is not part of this model. Its render loop, thread, alarms and persistence are abstract updates of the fields the routes see. What `change_program` installs besides the pattern, what `save_state` writes, and the fields of `runner.state` are unknown.
- `float(...)` of `speed` and `int(...)` of `width` and `brightness`: speed is an integer. A request body that does not convert raises in the source but is not modelled.
- `str(...)` of the `/solid` colour: the colour arrives as a string.
- Python `int(s, 16)` leniencies: surrounding whitespace, a `+`/`-` sign, a `0x` prefix, underscores and non-ASCII digits. The model treats every character other than `0-9a-fA-F` as an error.
- Palette entries that are not JSON objects, and JSON values other than strings and integers: palette fields are strings, integers or parsed tuples.
- Concurrency: Flask may run handlers on several threads. The model handles one request at a time, and `RouteSpec.Run` applies a series of them in order.
- Aliasing: `/gradient` installs the request's own list object as the program's palette. The model stores a copy of its contents.
- The PyQt window `SimpleInterface`, the `__main__` block (main.py:176-247) and `test_pyqt.py`: GUI layout with no control logic.
- Python `assert` is skipped under `python -O`. The model assumes assertions are enabled, as the `/brightness` check relies on them.
- Flask turns the `None` that `/stop_alarm` returns into a server error. That happens after the alarm is cleared, in the HTTP layer, and is not modelled.
