# NodeMCU LED-strip and relay controller — verified model

This project models the device-state controller of a NodeMCU (ESP8266) firmware.
The firmware serves a small HTTP API. Through it a client switches four active-low
relays on and off and sets the red, green and blue PWM levels of an LED strip.
The model covers the controller's state, its validators and its four request handlers:

- the state: a three-channel colour record `color` and four relay flags `statusRelay`.
  Both are arrays held by the class `Controller.Device`. The relay pin table
  `{14, 12, 13, 15}` is never written, so it is the constant `Controller.RelayPins`;
- the output pins, seen only as an abstract picture: `level` is the last digital
  level written to each pin, `duty` the last PWM level, and `outputs` the set of pins
  put into output mode;
- the validators `IsValidRelayPin` and `IsValidColorValue`, and the rule that
  replaces an out-of-range colour channel by 0 (`ChannelOrZero`);
- the start-up routines `InitRelay`, `InitRgb`, `ResetColor` and `Setup`, and the pin
  writers `TurnOn`, `TurnOff` and `SetColor`;
- the handlers: `RelayArgs` (route `/rgb/relay`), `RelayStatus` (`/rgb/relay/status`),
  `RgbArgs` (`/rgb`) and `RgbStatus` (`/rgb/status`).

Requests arrive already parsed. `RelayArgs` gets the action text, the relay-number
argument as sent (the success message echoes it) and the integer it parses to.
`RgbArgs` gets three integers. A handler's answer is a `Reply` holding the status
code, the content type and the body. For the two status handlers the body is the
JSON object as an ordered list of (key, value) members, not as serialised text.
`Json.Lookup` gives such a list its object meaning. The relay labels "in1".."in4"
come from a decimal rendering, `Decimal.DecimalString`. It is proved injective
through its inverse `Decimal.DigitsValue`, so the relay status object never
repeats a key.

Modules: `Decimal` (number rendering), `Json` (member lists and lookup),
`Controller` (state, validators, handlers) and `Scenarios` (request sequences and
what the status handlers then report).

`set_color` does not check its inputs (src/main.cpp:135-143). The colour stays in
[0, 255] because its only caller, `rgb_args`, clamps each channel first
(src/main.cpp:224-236), and the start-up reset writes zeros (src/main.cpp:124).
`SetColor` accepts any integers. `ColorsInRange` is proved for the power-on
state and after `ResetColor`, `InitRgb`, `Setup` and `RgbArgs`; the relay
handler and both status handlers do not write the colour record.

## Model

| member | source | states |
|---|---|---|
| Decimal.DecimalString | src/main.cpp:202 | the label number is rendered as a non-empty string of decimal digits, one digit exactly for numbers below 10, no leading zero |
| Decimal.DigitsValueOfDecimalString | src/main.cpp:202 | reading the rendered digits back gives the number (round trip) |
| Decimal.DecimalStringInjective | src/main.cpp:200-205 | distinct relay numbers get distinct renderings |
| Controller.RelaySize | src/main.cpp:33-35 | the relay count is the length of the relay pin table, 4 |
| Controller.IsValidRelayPin | src/main.cpp:54-59 | holds exactly when 0 <= num <= relay count - 1, i.e. num indexes the relay table |
| Controller.IsValidColorValue | src/main.cpp:68-73 | holds exactly when 0 <= value <= 255 |
| Controller.ChannelOrZero | src/main.cpp:224-234 | the stored channel is always valid; it is the input when the input is valid and 0 otherwise |
| Controller.StatusKey | src/main.cpp:201-202 | the key of relay index i is "in" followed by digits whose value is i + 1 |
| Controller.StatusKeys | src/main.cpp:200-205 | the four relays are labelled "in1", "in2", "in3", "in4" |
| Controller.RelayReportOfFour | src/main.cpp:196-205 | for the four relays the status object is exactly in1, in2, in3, in4 with flags 0..3, in that order |
| Controller.StatusKeyInjective | src/main.cpp:200-205 | two relay indices with the same key are equal |
| Controller.RelayReportDistinct | src/main.cpp:196-205 | the relay status object has one member per relay and no repeated key |
| Controller.RelayReportLookup | src/main.cpp:200-205 | in the relay status object, key "in(i+1)" gives flag i |
| Controller.RelayReportOtherKey | src/main.cpp:200-205 | a key that labels no relay is absent from the relay status object |
| Controller.ColorReportLookup | src/main.cpp:252-254 | in the colour status object "red", "green", "blue" give channels 0, 1, 2 and no other key is present |
| Controller.Device.constructor | src/main.cpp:23-25 | power-on state: colour (0, 0, 0), so every channel in range, all four relay flags false, no pin written |
| Controller.Device.ColorSize | src/main.cpp:99-101 | the colour record has 3 channels |
| Controller.Device.TurnOn | src/main.cpp:81-83 | drives the given pin Low (relay on) and changes no other pin |
| Controller.Device.TurnOff | src/main.cpp:89-91 | drives the given pin High (relay off) and changes no other pin |
| Controller.Device.InitRelay | src/main.cpp:40-45 | the first relaySize relay pins become outputs driven High; all other pins keep their level; a non-positive size does nothing |
| Controller.Device.ResetColor | src/main.cpp:106-114 | the three PWM pins get level 0 and every colour entry becomes 0, so all channels are in range |
| Controller.Device.InitRgb | src/main.cpp:119-125 | the three PWM pins become outputs at level 0 and the colour record is (0, 0, 0), so every channel is in range |
| Controller.Device.SetColor | src/main.cpp:135-143 | the red, green and blue pins get PWM levels r, g, b and the colour record becomes exactly (r, g, b) |
| Controller.Device.Setup | src/main.cpp:263-265 | after start-up every relay pin is an output driven High (all relays off), the PWM pins are outputs at 0 and the colour is (0, 0, 0) with every channel in range; the relay flags are untouched |
| Controller.Device.RelayArgs | src/main.cpp:150-189 | "on" with a valid number n: flag n-1 true, pin RelayPins[n-1] Low, 200 "On = <arg>"; "off": flag false, pin High, 200 "Off = <arg>"; invalid number: 400 "Erro: num of relay"; any other action: 400 "Error: incorrect action"; 200 exactly in the two valid cases; on 400 no flag and no pin changes |
| Controller.Device.RelayStatus | src/main.cpp:196-210 | answers 200 "text/json" with member "in(i+1)" = flag i for each relay, in table order, without repeated keys; lookup of each relay's key gives its flag |
| Controller.Device.RgbArgs | src/main.cpp:217-241 | always answers 200 "ok"; each channel is stored and written to its pin as itself when in [0, 255] and as 0 otherwise; afterwards all stored channels are in [0, 255] |
| Controller.Device.RgbStatus | src/main.cpp:248-259 | answers 200 "text/json" with "red", "green", "blue" mapped to the stored channels |
| Scenarios.SetThenQueryColor | src/main.cpp:248-259 | after setting (r, g, b) the colour status reports red = r, green = g, blue = b and the pins carry PWM levels r, g, b |
| Scenarios.ColorRequestRoundTrip | src/main.cpp:217-259 | from power-on, the colour request (10, 20, 30) answers 200 "ok" and the status then reports exactly red 10, green 20, blue 30 |
| Scenarios.ClampedColorRequest | src/main.cpp:217-241 | from power-on, the request (10, 300, -1) answers 200 and the status then reports (10, 0, 0) |
| Scenarios.SwitchThenQueryRelay | src/main.cpp:150-210 | after a valid "on"/"off" request the status reports the relay's new flag and its pin carries Low or High accordingly |
| Scenarios.SecondRelayOn | src/main.cpp:150-210 | from power-on and start-up, "on" for relay 2 answers 200 "On = 2" and the status is in1 false, in2 true, in3 false, in4 false |

## Left out

- WiFi association, the hostname, the compiled-in credentials and the wait loop for the connection (src/main.cpp:13-14, 267-271): network I/O.
- Route registration, request dispatch, `loop()` and `server.send` (src/main.cpp:15, 274-285): vendor HTTP library. Each handler returns the code, content type and body it would send.
- JSON serialisation: a status body is the ordered member list, not the serialised text.
- Parsing of query arguments with `toInt`: a library call. The handlers take the parsed integers as parameters; `RelayArgs` also takes the raw argument text it echoes.
- Real `pinMode`, `digitalWrite` and `analogWrite` effects: hardware. They are kept only as updates of `outputs`, `level` and `duty`.
- 32-bit overflow of the relay number minus one at the smallest `int`: the model uses mathematical integers.
- The relay pin table is a global array in the code but is never written; it is modelled as a constant sequence.
- InitRelay: requires a size no larger than the relay table. The only caller passes the table length (src/main.cpp:264); a larger size would read past the end of `relay[]` (src/main.cpp:41-43), which C++ leaves undefined.
- RelayArgs: `relayNumber` is not tied to the value `toInt` would parse from `relayText`; in the code both come from the same argument (src/main.cpp:155, 161). Every clause of the contract holds for any pairing of the two.
