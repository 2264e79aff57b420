/**
 * The device-state controller of the LED-strip / relay node: the relay
 * on/off flags and the stored colour, the input validators, and the four
 * request handlers with their effect on the output pins.
 *
 * Pin writes are kept as an abstract picture of the outputs: `level` is
 * the last digital level written to each pin, `duty` the last PWM level,
 * `outputs` the pins switched to output mode.
 */
module Controller {
  import opened Json
  import Decimal

  /** Digital output level. The relays are active-low: Low switches one on. */
  datatype Level = Low | High

  /** What a handler sends back: status code, content type and body. */
  datatype Reply<T> = Reply(code: int, contentType: string, body: T)

  /** PWM pins of the red, green and blue channels. */
  const RedPin: int := 5
  const GreenPin: int := 4
  const BluePin: int := 0

  /** The relay pin table; relay number k (1-based) is on RelayPins[k - 1]. */
  const RelayPins: seq<int> := [14, 12, 13, 15]

  /** Largest intensity of one colour channel. */
  const MaxColorValue: int := 255

  /** Number of relays: the length of the relay pin table. */
  function RelaySize(): (n: nat)
    ensures n == 4
  {
    |RelayPins|
  }

  /** `num` is an index into the relay pin table (0-based relay number). */
  function IsValidRelayPin(num: int): (r: bool)
    ensures r <==> 0 <= num < |RelayPins|
  {
    num >= 0 && num <= RelaySize() - 1
  }

  /** `value` is a PWM intensity a colour channel accepts. */
  function IsValidColorValue(value: int): (r: bool)
    ensures r <==> 0 <= value <= 255
  {
    value >= 0 && value <= MaxColorValue
  }

  /**
   * The channel value the colour handler stores for a request value: the
   * value itself when in range, 0 (not the nearest bound) otherwise.
   */
  function ChannelOrZero(value: int): (c: int)
    ensures IsValidColorValue(c)
    ensures IsValidColorValue(value) ==> c == value
    ensures !IsValidColorValue(value) ==> c == 0
  {
    if IsValidColorValue(value) then value else 0
  }

  /** The status key of the relay at 0-based index `i`: "in" and i + 1 in decimal. */
  function StatusKey(i: nat): (key: string)
    ensures |key| >= 3 && key[..2] == "in"
    ensures Decimal.IsDigits(key[2..]) && Decimal.DigitsValue(key[2..]) == i + 1
  {
    var digits := Decimal.DecimalString(i + 1);
    Decimal.DigitsValueOfDecimalString(i + 1);
    assert ("in" + digits)[2..] == digits;
    "in" + digits
  }

  /** The four relays are reported as "in1", "in2", "in3" and "in4". */
  lemma StatusKeys()
    ensures StatusKey(0) == "in1" && StatusKey(1) == "in2"
    ensures StatusKey(2) == "in3" && StatusKey(3) == "in4"
  {
  }

  /** Distinct relays have distinct status keys. */
  lemma StatusKeyInjective(i: nat, j: nat)
    requires StatusKey(i) == StatusKey(j)
    ensures i == j
  {
  }

  /** The relay status object: one member "in<k>" per relay, in table order. */
  function RelayReport(flags: seq<bool>): seq<(string, bool)>
  {
    seq(|flags|, i requires 0 <= i < |flags| => (StatusKey(i), flags[i]))
  }

  /** For the four relays of the table the status object is in1..in4 in order. */
  lemma RelayReportOfFour(flags: seq<bool>)
    requires |flags| == RelaySize()
    ensures RelayReport(flags) ==
      [("in1", flags[0]), ("in2", flags[1]), ("in3", flags[2]), ("in4", flags[3])]
  {
    StatusKeys();
  }

  /** The relay status object has no repeated key, one member per relay. */
  lemma RelayReportDistinct(flags: seq<bool>)
    ensures |RelayReport(flags)| == |flags|
    ensures DistinctKeys(RelayReport(flags))
  {
  }

  /** Looking up relay i's key in the status object gives relay i's flag. */
  lemma RelayReportLookup(flags: seq<bool>, i: nat)
    requires i < |flags|
    ensures Lookup(RelayReport(flags), StatusKey(i)) == Some(flags[i])
  {
    RelayReportDistinct(flags);
    LookupMember(RelayReport(flags), i);
  }

  /** A key that is no relay's status key is absent from the status object. */
  lemma RelayReportOtherKey(flags: seq<bool>, key: string)
    requires forall i: nat | i < |flags| :: StatusKey(i) != key
    ensures Lookup(RelayReport(flags), key) == None
  {
  }

  /** The colour status object for a stored colour record. */
  function ColorReport(c: seq<int>): seq<(string, int)>
    requires |c| == 3
  {
    [("red", c[0]), ("green", c[1]), ("blue", c[2])]
  }

  /** Each colour key looks up its own channel, and nothing else is reported. */
  lemma ColorReportLookup(c: seq<int>, key: string)
    requires |c| == 3
    ensures Lookup(ColorReport(c), "red") == Some(c[0])
    ensures Lookup(ColorReport(c), "green") == Some(c[1])
    ensures Lookup(ColorReport(c), "blue") == Some(c[2])
    ensures key != "red" && key != "green" && key != "blue" ==> Lookup(ColorReport(c), key) == None
  {
    var doc := ColorReport(c);
    assert doc[1..] == [("green", c[1]), ("blue", c[2])];
    assert doc[1..][1..] == [("blue", c[2])];
    assert Lookup(doc[1..][1..], "blue") == Some(c[2]);
    assert "red" != "green" && "red" != "blue" && "green" != "blue" by {
      assert "red"[0] != "green"[0] && "red"[0] != "blue"[0] && "green"[0] != "blue"[0];
    }
  }

  /** The digital levels left by writing `l` to every pin of `pins`. */
  function Driven(pins: seq<int>, l: Level): map<int, Level>
  {
    map p | p in pins :: l
  }

  /** The pins listed in `pins`. */
  function PinSet(pins: seq<int>): set<int>
  {
    set p | p in pins
  }

  /** Writing `l` to one more pin extends the picture by that pin. */
  lemma DrivenAppend(m: map<int, Level>, pins: seq<int>, p: int, l: Level)
    ensures m + Driven(pins + [p], l) == (m + Driven(pins, l))[p := l]
    ensures PinSet(pins + [p]) == PinSet(pins) + {p}
  {
  }

  /** The device: its state arrays and the picture of its output pins. */
  class Device {
    /** Stored colour record: red, green, blue. */
    var color: array<int>
    /** On/off flag of each relay, indexed like RelayPins. */
    var statusRelay: array<bool>
    /** Last digital level written to each pin. */
    var level: map<int, Level>
    /** Last PWM level written to each pin. */
    var duty: map<int, int>
    /** Pins switched to output mode. */
    var outputs: set<int>

    ghost predicate Valid()
      reads this
    {
      color.Length == 3 && statusRelay.Length == RelaySize()
    }

    /** Every stored colour channel is a valid PWM intensity. */
    ghost predicate ColorsInRange()
      reads this, color
    {
      forall k | 0 <= k < color.Length :: IsValidColorValue(color[k])
    }

    /** Power-on state: the initial values of the arrays, no pin written yet. */
    constructor ()
      ensures Valid() && fresh(color) && fresh(statusRelay)
      ensures color[..] == [0, 0, 0]
      ensures statusRelay[..] == [false, false, false, false]
      ensures level == map[] && duty == map[] && outputs == {}
      ensures ColorsInRange()
    {
      color := new int[3] [0, 0, 0];
      statusRelay := new bool[4] [false, false, false, false];
      level, duty, outputs := map[], map[], {};
    }

    /** Number of colour channels: the length of the colour record. */
    function ColorSize(): (n: nat)
      reads this
      requires Valid()
      ensures n == 3
    {
      color.Length
    }

    /** Switches on the relay on `pin` (active-low). */
    method TurnOn(pin: int)
      modifies this`level
      ensures level == old(level)[pin := Low]
    {
      level := level[pin := Low];
    }

    /** Switches off the relay on `pin`. */
    method TurnOff(pin: int)
      modifies this`level
      ensures level == old(level)[pin := High]
    {
      level := level[pin := High];
    }

    /**
     * Makes the first `relaySize` relay pins outputs and drives them High
     * (relays off). A non-positive `relaySize` does nothing.
     */
    method InitRelay(relaySize: int)
      requires relaySize <= RelaySize()
      modifies this`level, this`outputs
      ensures var n := if relaySize < 0 then 0 else relaySize;
        level == old(level) + Driven(RelayPins[..n], High) &&
        outputs == old(outputs) + PinSet(RelayPins[..n])
    {
      var i := 0;
      while i < relaySize
        invariant 0 <= i <= (if relaySize < 0 then 0 else relaySize)
        invariant level == old(level) + Driven(RelayPins[..i], High)
        invariant outputs == old(outputs) + PinSet(RelayPins[..i])
      {
        assert RelayPins[..i + 1] == RelayPins[..i] + [RelayPins[i]];
        DrivenAppend(old(level), RelayPins[..i], RelayPins[i], High);
        outputs := outputs + {RelayPins[i]};
        level := level[RelayPins[i] := High];
        i := i + 1;
      }
    }

    /** Writes 0 to the three PWM pins and clears the colour record. */
    method ResetColor()
      requires Valid()
      modifies this`duty, color
      ensures duty == old(duty)[RedPin := 0][GreenPin := 0][BluePin := 0]
      ensures color[..] == [0, 0, 0]
      ensures ColorsInRange()
    {
      duty := duty[RedPin := 0][GreenPin := 0][BluePin := 0];
      var i := 0;
      while i < ColorSize()
        invariant 0 <= i <= color.Length
        invariant forall k | 0 <= k < i :: color[k] == 0
        invariant duty == old(duty)[RedPin := 0][GreenPin := 0][BluePin := 0]
      {
        color[i] := 0;
        i := i + 1;
      }
      assert color[..] == [color[0], color[1], color[2]];
    }

    /** Makes the three PWM pins outputs and resets the colour to black. */
    method InitRgb()
      requires Valid()
      modifies this`outputs, this`duty, color
      ensures outputs == old(outputs) + {RedPin, GreenPin, BluePin}
      ensures duty == old(duty)[RedPin := 0][GreenPin := 0][BluePin := 0]
      ensures color[..] == [0, 0, 0]
      ensures ColorsInRange()
    {
      outputs := outputs + {RedPin, GreenPin, BluePin};
      ResetColor();
    }

    /** Writes the three PWM levels and stores them in the colour record, unchecked. */
    method SetColor(redInput: int, greenInput: int, blueInput: int)
      requires Valid()
      modifies this`duty, color
      ensures duty == old(duty)[RedPin := redInput][GreenPin := greenInput][BluePin := blueInput]
      ensures color[..] == [redInput, greenInput, blueInput]
    {
      duty := duty[RedPin := redInput];
      duty := duty[GreenPin := greenInput];
      duty := duty[BluePin := blueInput];
      color[0] := redInput;
      color[1] := greenInput;
      color[2] := blueInput;
      assert color[..] == [color[0], color[1], color[2]];
    }

    /**
     * Start-up, without the network: every relay pin an output driven High
     * (all relays off), the PWM pins outputs at level 0, the colour black.
     */
    method Setup()
      requires Valid()
      modifies this`level, this`outputs, this`duty, color
      ensures level == old(level) + Driven(RelayPins, High)
      ensures outputs == old(outputs) + PinSet(RelayPins) + {RedPin, GreenPin, BluePin}
      ensures duty == old(duty)[RedPin := 0][GreenPin := 0][BluePin := 0]
      ensures color[..] == [0, 0, 0]
      ensures forall i | 0 <= i < RelaySize() :: level[RelayPins[i]] == High
      ensures ColorsInRange()
    {
      InitRelay(RelaySize());
      assert RelayPins[..RelaySize()] == RelayPins;
      InitRgb();
    }

    /**
     * The relay handler. `action` is the first request argument,
     * `relayText` the second as sent and `relayNumber` the integer it
     * parses to, a 1-based relay number.
     */
    method RelayArgs(action: string, relayText: string, relayNumber: int) returns (reply: Reply<string>)
      requires Valid()
      modifies this`level, statusRelay
      ensures reply.contentType == "text/plain"
      ensures reply.code == 200 <==>
        (action == "on" || action == "off") && IsValidRelayPin(relayNumber - 1)
      ensures reply.code == 200 || reply.code == 400
      ensures action == "on" && IsValidRelayPin(relayNumber - 1) ==>
        reply.body == "On = " + relayText &&
        statusRelay[..] == old(statusRelay[..])[relayNumber - 1 := true] &&
        level == old(level)[RelayPins[relayNumber - 1] := Low]
      ensures action == "off" && IsValidRelayPin(relayNumber - 1) ==>
        reply.body == "Off = " + relayText &&
        statusRelay[..] == old(statusRelay[..])[relayNumber - 1 := false] &&
        level == old(level)[RelayPins[relayNumber - 1] := High]
      ensures (action == "on" || action == "off") && !IsValidRelayPin(relayNumber - 1) ==>
        reply.body == "Erro: num of relay"
      ensures action != "on" && action != "off" ==>
        reply.body == "Error: incorrect action"
      ensures reply.code == 400 ==>
        statusRelay[..] == old(statusRelay[..]) && level == old(level)
    {
      if action == "on" {
        var num := relayNumber - 1;
        if IsValidRelayPin(num) {
          TurnOn(RelayPins[num]);
          statusRelay[num] := true;
          reply := Reply(200, "text/plain", "On = " + relayText);
        } else {
          reply := Reply(400, "text/plain", "Erro: num of relay");
        }
      } else if action == "off" {
        var num := relayNumber - 1;
        if IsValidRelayPin(num) {
          TurnOff(RelayPins[num]);
          statusRelay[num] := false;
          reply := Reply(200, "text/plain", "Off = " + relayText);
        } else {
          reply := Reply(400, "text/plain", "Erro: num of relay");
        }
      } else {
        reply := Reply(400, "text/plain", "Error: incorrect action");
      }
    }

    /** The relay status handler: "in1".."in4" with each relay's flag. */
    method RelayStatus() returns (reply: Reply<seq<(string, bool)>>)
      requires Valid()
      ensures reply.code == 200 && reply.contentType == "text/json"
      ensures reply.body == RelayReport(statusRelay[..])
      ensures DistinctKeys(reply.body)
      ensures forall i: nat | i < RelaySize() :: Lookup(reply.body, StatusKey(i)) == Some(statusRelay[i])
    {
      var doc: seq<(string, bool)> := [];
      var i := 0;
      while i < RelaySize()
        invariant 0 <= i <= statusRelay.Length
        invariant doc == RelayReport(statusRelay[..i])
      {
        doc := doc + [(StatusKey(i), statusRelay[i])];
        i := i + 1;
      }
      assert statusRelay[..i] == statusRelay[..];
      RelayReportDistinct(statusRelay[..]);
      forall i: nat | i < RelaySize()
        ensures Lookup(doc, StatusKey(i)) == Some(statusRelay[i])
      {
        RelayReportLookup(statusRelay[..], i);
      }
      reply := Reply(200, "text/json", doc);
    }

    /** The colour handler: each channel out of range becomes 0; always 200 "ok". */
    method RgbArgs(redInput: int, greenInput: int, blueInput: int) returns (reply: Reply<string>)
      requires Valid()
      modifies this`duty, color
      ensures reply == Reply(200, "text/plain", "ok")
      ensures color[..] == [ChannelOrZero(redInput), ChannelOrZero(greenInput), ChannelOrZero(blueInput)]
      ensures duty == old(duty)[RedPin := ChannelOrZero(redInput)]
        [GreenPin := ChannelOrZero(greenInput)][BluePin := ChannelOrZero(blueInput)]
      ensures ColorsInRange()
    {
      var r, g, b := redInput, greenInput, blueInput;
      if !IsValidColorValue(r) {
        r := 0;
      }
      if !IsValidColorValue(g) {
        g := 0;
      }
      if !IsValidColorValue(b) {
        b := 0;
      }
      SetColor(r, g, b);
      assert color[0] == r && color[1] == g && color[2] == b;
      reply := Reply(200, "text/plain", "ok");
    }

    /** The colour status handler: "red", "green", "blue" with the stored channels. */
    method RgbStatus() returns (reply: Reply<seq<(string, int)>>)
      requires Valid()
      ensures reply.code == 200 && reply.contentType == "text/json"
      ensures reply.body == ColorReport(color[..])
      ensures Lookup(reply.body, "red") == Some(color[0])
      ensures Lookup(reply.body, "green") == Some(color[1])
      ensures Lookup(reply.body, "blue") == Some(color[2])
    {
      var doc := [("red", color[0]), ("green", color[1]), ("blue", color[2])];
      ColorReportLookup(color[..], "red");
      reply := Reply(200, "text/json", doc);
    }
  }
}
