/**
 * Request sequences a client of the node can issue, and what the status
 * handlers report afterwards.
 */
module Scenarios {
  import opened Json
  import opened Controller

  /** Setting a colour and then asking for the colour status reports that colour. */
  method SetThenQueryColor(d: Device, red: int, green: int, blue: int)
    returns (report: Reply<seq<(string, int)>>)
    requires d.Valid()
    modifies d`duty, d.color
    ensures RedPin in d.duty && d.duty[RedPin] == red
    ensures GreenPin in d.duty && d.duty[GreenPin] == green
    ensures BluePin in d.duty && d.duty[BluePin] == blue
    ensures Lookup(report.body, "red") == Some(red)
    ensures Lookup(report.body, "green") == Some(green)
    ensures Lookup(report.body, "blue") == Some(blue)
  {
    d.SetColor(red, green, blue);
    report := d.RgbStatus();
  }

  /** From power-on, the colour request (10, 20, 30) is reported back exactly. */
  method ColorRequestRoundTrip() returns (ack: Reply<string>, report: Reply<seq<(string, int)>>)
    ensures ack == Reply(200, "text/plain", "ok")
    ensures report.body == [("red", 10), ("green", 20), ("blue", 30)]
  {
    var d := new Device();
    d.Setup();
    ack := d.RgbArgs(10, 20, 30);
    report := d.RgbStatus();
  }

  /**
   * A colour request with an out-of-range channel still answers 200, and the
   * status then shows that channel as 0.
   */
  method ClampedColorRequest() returns (ack: Reply<string>, report: Reply<seq<(string, int)>>)
    ensures ack.code == 200
    ensures report.body == [("red", 10), ("green", 0), ("blue", 0)]
  {
    var d := new Device();
    d.Setup();
    ack := d.RgbArgs(10, 300, -1);
    report := d.RgbStatus();
  }

  /** After a successful relay request the status reports the relay's new flag. */
  method SwitchThenQueryRelay(d: Device, action: string, relayText: string, relayNumber: int)
    returns (ack: Reply<string>, report: Reply<seq<(string, bool)>>)
    requires d.Valid()
    requires action == "on" || action == "off"
    requires IsValidRelayPin(relayNumber - 1)
    modifies d`level, d.statusRelay
    ensures ack.code == 200
    ensures Lookup(report.body, StatusKey(relayNumber - 1)) == Some(action == "on")
    ensures RelayPins[relayNumber - 1] in d.level
    ensures d.level[RelayPins[relayNumber - 1]] == if action == "on" then Low else High
  {
    ack := d.RelayArgs(action, relayText, relayNumber);
    report := d.RelayStatus();
  }

  /** From power-on, switching on relay 2 leaves only "in2" true in the status. */
  method SecondRelayOn() returns (ack: Reply<string>, report: Reply<seq<(string, bool)>>)
    ensures ack == Reply(200, "text/plain", "On = 2")
    ensures report.body == [("in1", false), ("in2", true), ("in3", false), ("in4", false)]
  {
    var d := new Device();
    d.Setup();
    ack := d.RelayArgs("on", "2", 2);
    assert "On = " + "2" == "On = 2";
    assert d.statusRelay[..] == [false, true, false, false];
    report := d.RelayStatus();
    RelayReportOfFour(d.statusRelay[..]);
  }
}
