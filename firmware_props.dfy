/** What `process_command` promises, stated over the dispatcher's
    specification `Firmware.Dispatch`. */
module FirmwareProperties {
  import opened Text
  import opened Firmware

  lemma NotPrefix(s: string, p: string, k: nat)
    requires k < |p| && k < |s| && s[k] != p[k]
    ensures !StartsWith(s, p)
  {
    assert |p| <= |s| ==> s[..|p|][k] == s[k];
  }

  /** A command written as prefix + number is stripped to itself and hands
      the branch exactly that number. */
  lemma PrefixedNumber(p: string, n: int)
    requires |p| >= 1 && !IsSpace(p[0])
    ensures Strip(p + IntToString(n)) == p + IntToString(n)
    ensures StartsWith(p + IntToString(n), p)
    ensures (p + IntToString(n))[|p|..] == IntToString(n)
    ensures ParseArg(IntToString(n)) == Value(n)
  {
    var s := IntToString(n);
    var c := p + s;
    assert c[0] == p[0] && c[|c| - 1] == s[|s| - 1];
    StripNoSpace(c);
    assert c[..|p|] == p;
    assert c[|p|..] == s;
    ParseIntToString(n);
    assert ':' !in s by {
      forall k | 0 <= k < |s| ensures s[k] != ':' {
      }
    }
  }

  /** A command starting with `servo:` is a servo command: no earlier test
      of `process_command` matches it. */
  lemma ServoPrefixed(c: string)
    requires StartsWith(c, ServoPrefix)
    ensures Classify(c) == ServoCmd(c[|ServoPrefix|..])
  {
    assert c[0] == 's';
    assert "library_test"[0] == 'l' && "hardware_test"[0] == 'h' && "pin_test"[0] == 'p';
  }

  /** A command starting with `stepper:` is a stepper command. */
  lemma StepperPrefixed(c: string)
    requires StartsWith(c, StepperPrefix)
    ensures Classify(c) == StepperCmd(c[|StepperPrefix|..])
  {
    assert c[0] == 's' && c[2] == 'e';
    assert "library_test"[0] == 'l' && "hardware_test"[0] == 'h' && "pin_test"[0] == 'p';
    NotPrefix(c, ServoPrefix, 2);
  }

  /** A command starting with `brushMotor:` is a brushMotor command. */
  lemma BrushPrefixed(c: string)
    requires StartsWith(c, BrushPrefix)
    ensures Classify(c) == BrushMotorCmd(c[|BrushPrefix|..])
  {
    assert c[0] == 'b';
    assert "library_test"[0] == 'l' && "hardware_test"[0] == 'h' && "pin_test"[0] == 'p';
    NotPrefix(c, ServoPrefix, 0);
    NotPrefix(c, StepperPrefix, 0);
    assert c != "stepperTest" by { assert "stepperTest"[0] == 's'; }
  }

  lemma ClassifyServo(n: int)
    ensures Classify(Strip(ServoPrefix + IntToString(n))) == ServoCmd(IntToString(n))
  {
    PrefixedNumber(ServoPrefix, n);
    ServoPrefixed(ServoPrefix + IntToString(n));
  }

  lemma ClassifyStepper(n: int)
    ensures Classify(Strip(StepperPrefix + IntToString(n))) == StepperCmd(IntToString(n))
  {
    PrefixedNumber(StepperPrefix, n);
    StepperPrefixed(StepperPrefix + IntToString(n));
  }

  lemma ClassifyBrush(n: int)
    ensures Classify(Strip(BrushPrefix + IntToString(n))) == BrushMotorCmd(IntToString(n))
  {
    PrefixedNumber(BrushPrefix, n);
    BrushPrefixed(BrushPrefix + IntToString(n));
  }

  /** The exact command names are recognised as such after stripping; the
      `...Name` lemmas show that each is caught by its own test and by none
      before it. */
  lemma ClassifyHardwareTest(c: string)
    requires c == "hardware_test"
    ensures Classify(Strip(c)) == HardwareTest
  {
    StripNoSpace(c);
    HardwareTestName(c);
  }

  lemma HardwareTestName(c: string)
    requires c == "hardware_test"
    ensures Classify(c) == HardwareTest
  {
  }

  lemma ClassifyPinTest(c: string)
    requires c == "pin_test"
    ensures Classify(Strip(c)) == PinTest
  {
    StripNoSpace(c);
    PinTestName(c);
  }

  lemma PinTestName(c: string)
    requires c == "pin_test"
    ensures Classify(c) == PinTest
  {
    assert c != "library_test" && c != "hardware_test";
  }

  lemma ClassifyStepperTest(c: string)
    requires c == "stepperTest"
    ensures Classify(Strip(c)) == StepperTestCmd
  {
    StripNoSpace(c);
    StepperTestName(c);
  }

  lemma StepperTestName(c: string)
    requires c == "stepperTest"
    ensures Classify(c) == StepperTestCmd
  {
    NotPrefix(c, ServoPrefix, 2);
    NotPrefix(c, StepperPrefix, 7);
  }

  lemma ClassifyServoThenMotor(c: string)
    requires c == "servoThenMotor"
    ensures Classify(Strip(c)) == ServoThenMotorCmd
  {
    StripNoSpace(c);
    ServoThenMotorName(c);
  }

  lemma ServoThenMotorName(c: string)
    requires c == "servoThenMotor"
    ensures Classify(c) == ServoThenMotorCmd
  {
    NotPrefix(c, ServoPrefix, 5);
    NotPrefix(c, StepperPrefix, 2);
    NotPrefix(c, BrushPrefix, 0);
  }

  lemma ClassifyStepperDebug(c: string)
    requires c == "stepper_debug"
    ensures Classify(Strip(c)) == StepperDebugCmd
  {
    StripNoSpace(c);
    StepperDebugName(c);
  }

  lemma StepperDebugName(c: string)
    requires c == "stepper_debug"
    ensures Classify(c) == StepperDebugCmd
  {
    NotPrefix(c, ServoPrefix, 2);
    NotPrefix(c, StepperPrefix, 7);
    NotPrefix(c, BrushPrefix, 0);
  }

  /** `library_test` always answers the same and moves nothing. */
  lemma LibraryTestReply(hw: Hardware, a: Actuators, command: string)
    requires command == "library_test"
    ensures Dispatch(hw, a, command) == (a, "Motor: True, Audio: True")
  {
    StripNoSpace(command);
  }

  /** Anything that is not one of the nine commands gets "Unknown command"
      and changes nothing. */
  lemma UnknownCommand(hw: Hardware, a: Actuators, command: string)
    requires Strip(command) !in {"library_test", "hardware_test", "pin_test", "stepperTest",
                                 "servoThenMotor", "stepper_debug"}
    requires !StartsWith(Strip(command), ServoPrefix)
    requires !StartsWith(Strip(command), StepperPrefix)
    requires !StartsWith(Strip(command), BrushPrefix)
    ensures Dispatch(hw, a, command) == (a, "Unknown command")
  {
  }

  /** Surrounding whitespace is ignored: a command and its stripped form
      are dispatched alike. */
  lemma CommandIsStripped(hw: Hardware, a: Actuators, command: string)
    ensures Dispatch(hw, a, command) == Dispatch(hw, a, Strip(command))
  {
    StripIdempotent(command);
  }

  /** `hardware_test` reports the three start-up flags and moves nothing. */
  lemma HardwareTestReport(hw: Hardware, a: Actuators, command: string)
    requires command == "hardware_test"
    ensures Dispatch(hw, a, command).0 == a
    ensures Dispatch(hw, a, command).1 ==
      "Servo: " + (if hw.servo then "OK" else "None")
      + ", Brush: " + (if hw.esc then "OK" else "None")
      + ", Stepper: " + (if hw.stepper then "A4988_OK" else "None")
  {
    ClassifyHardwareTest(command);
  }

  /** A stripped command starting with `servo:` is handled by that branch. */
  lemma ServoDispatched(hw: Hardware, a: Actuators, c: string)
    requires StartsWith(c, ServoPrefix)
    ensures Execute(hw, a, Classify(c)) == ServoCommand(hw, a, c[|ServoPrefix|..])
  {
    ServoPrefixed(c);
  }

  /** Any command that strips to `servo:` followed by an argument `int()`
      reads as N (`servo:90`, ` servo:+90`, `servo: 090 ` alike): with the
      servo present and N accepted by the driver the angle becomes N;
      otherwise an error or "not available" and nothing changes. */
  lemma ServoArgumentEffect(hw: Hardware, a: Actuators, command: string, n: int)
    requires StartsWith(Strip(command), ServoPrefix)
    requires ParseArg(Strip(command)[|ServoPrefix|..]) == Value(n)
    ensures var (a', reply) := Dispatch(hw, a, command);
      && (hw.servo && hw.angleAccepted(n) ==>
            a' == a.(angle := Some(n)) && reply == "Servo moved to " + IntToString(n) + " degrees")
      && (!hw.servo ==> a' == a && reply == "Servo not available")
      && (hw.servo && !hw.angleAccepted(n) ==> a' == a && reply == "Servo error: " + FaultText(Rejected))
  {
    ServoDispatched(hw, a, Strip(command));
    assert Dispatch(hw, a, command) == ServoCommand(hw, a, Strip(command)[|ServoPrefix|..]);
  }

  /** `servo:N`, written as `str` prints N, is read as N. */
  lemma ServoCommandEffect(hw: Hardware, a: Actuators, n: int)
    ensures var (a', reply) := Dispatch(hw, a, ServoPrefix + IntToString(n));
      && (hw.servo && hw.angleAccepted(n) ==>
            a' == a.(angle := Some(n)) && reply == "Servo moved to " + IntToString(n) + " degrees")
      && (!hw.servo ==> a' == a && reply == "Servo not available")
      && (hw.servo && !hw.angleAccepted(n) ==> a' == a && reply == "Servo error: " + FaultText(Rejected))
  {
    PrefixedNumber(ServoPrefix, n);
    ServoArgumentEffect(hw, a, ServoPrefix + IntToString(n), n);
  }

  /** A malformed argument (not exactly one ':' or not an integer) yields the
      branch's error reply, or "not available", and leaves every actuator as
      it was. */
  lemma MalformedArgumentChangesNothing(hw: Hardware, a: Actuators, cmd: Command)
    requires cmd.ServoCmd? || cmd.StepperCmd? || cmd.BrushMotorCmd?
    requires ParseArg(cmd.rest).Malformed?
    ensures Execute(hw, a, cmd).0 == a
    ensures var reply := Execute(hw, a, cmd).1;
      var f := ParseArg(cmd.rest).fault;
      && (cmd.ServoCmd? ==> reply == (if hw.servo then "Servo error: " + FaultText(f) else "Servo not available"))
      && (cmd.StepperCmd? ==> reply == (if hw.stepper then "A4988 error: " + FaultText(f) else "A4988 stepper not available"))
      && (cmd.BrushMotorCmd? ==> reply == (if hw.esc then MotorError(f) else "ESC not available"))
  {
  }

  /** The reply to a throttle of N percent names its direction and is
      "Motor stopped" exactly when N is 0. */
  lemma MotorReplyMeaning(n: int)
    ensures MotorReply(n) == "Motor stopped" <==> n == 0
    ensures n > 0 ==> MotorReply(n) == "Motor forward at " + IntToString(n) + "%"
    ensures n < 0 ==> MotorReply(n) == "Motor reverse at " + IntToString(-n) + "%"
  {
    if n != 0 {
      var r := MotorReply(n);
      assert r[6] != "Motor stopped"[6];
    }
  }

  /** A stripped command starting with `brushMotor:` is handled by that branch. */
  lemma BrushDispatched(hw: Hardware, a: Actuators, c: string)
    requires StartsWith(c, BrushPrefix)
    ensures Execute(hw, a, Classify(c)) == BrushCommand(hw, a, c[|BrushPrefix|..])
  {
    BrushPrefixed(c);
  }

  /** Any command that strips to `brushMotor:` followed by an argument
      `int()` reads as N: the throttle becomes N/100 when the driver accepts
      it, and the reply names the direction and is "Motor stopped" exactly
      when N is 0; without the ESC, or on a rejection, nothing changes. */
  lemma BrushArgumentEffect(hw: Hardware, a: Actuators, command: string, n: int)
    requires StartsWith(Strip(command), BrushPrefix)
    requires ParseArg(Strip(command)[|BrushPrefix|..]) == Value(n)
    ensures var (a', reply) := Dispatch(hw, a, command);
      && (!hw.esc ==> a' == a && reply == "ESC not available")
      && (hw.esc && !hw.throttleAccepted(Throttle(n)) ==>
            a' == a && reply == "Motor error: " + FaultText(Rejected))
      && (hw.esc && hw.throttleAccepted(Throttle(n)) ==>
            && a' == a.(throttle := Throttle(n))
            && (reply == "Motor stopped" <==> n == 0)
            && (n > 0 ==> reply == "Motor forward at " + IntToString(n) + "%")
            && (n < 0 ==> reply == "Motor reverse at " + IntToString(-n) + "%"))
  {
    BrushDispatched(hw, a, Strip(command));
    assert Dispatch(hw, a, command) == BrushCommand(hw, a, Strip(command)[|BrushPrefix|..]);
    MotorReplyMeaning(n);
  }

  /** `brushMotor:N`, written as `str` prints N, is read as N. */
  lemma BrushMotorEffect(hw: Hardware, a: Actuators, n: int)
    ensures var (a', reply) := Dispatch(hw, a, BrushPrefix + IntToString(n));
      && (!hw.esc ==> a' == a && reply == "ESC not available")
      && (hw.esc && !hw.throttleAccepted(Throttle(n)) ==>
            a' == a && reply == "Motor error: " + FaultText(Rejected))
      && (hw.esc && hw.throttleAccepted(Throttle(n)) ==>
            && a' == a.(throttle := Throttle(n))
            && (reply == "Motor stopped" <==> n == 0)
            && (n > 0 ==> reply == "Motor forward at " + IntToString(n) + "%")
            && (n < 0 ==> reply == "Motor reverse at " + IntToString(-n) + "%"))
  {
    PrefixedNumber(BrushPrefix, n);
    BrushArgumentEffect(hw, a, BrushPrefix + IntToString(n), n);
  }

  /** `brushMotor:-50` is read as reverse at 50 percent. */
  lemma BrushMotorReverseScenario(hw: Hardware, a: Actuators, command: string)
    requires command == "brushMotor:-50"
    requires hw.esc && hw.throttleAccepted(-0.5)
    ensures Dispatch(hw, a, command) == (a.(throttle := -0.5), "Motor reverse at 50%")
  {
    assert IntToString(-50) == "-50";
    assert IntToString(50) == "50";
    assert BrushPrefix + IntToString(-50) == command;
    assert Throttle(-50) == -0.5;
    assert "Motor reverse at " + IntToString(50) + "%" == "Motor reverse at 50%";
    BrushMotorEffect(hw, a, -50);
  }

  /** `brushMotor:0` is read as stop. */
  lemma BrushMotorStopScenario(hw: Hardware, a: Actuators, command: string)
    requires command == "brushMotor:0"
    requires hw.esc && hw.throttleAccepted(0.0)
    ensures Dispatch(hw, a, command) == (a.(throttle := 0.0), "Motor stopped")
  {
    assert Throttle(0) == 0.0;
    assert IntToString(0) == "0";
    assert BrushPrefix + IntToString(0) == command;
    BrushMotorEffect(hw, a, 0);
  }

  /** `servo:200`, rejected by the driver, is answered with an error and
      neither moves the servo nor changes what `hardware_test` reports. */
  lemma ServoOutOfRangeScenario(hw: Hardware, a: Actuators, command: string, probe: string)
    requires command == "servo:200" && probe == "hardware_test"
    requires hw.servo && !hw.angleAccepted(200)
    ensures Dispatch(hw, a, command) == (a, "Servo error: " + FaultText(Rejected))
    ensures Dispatch(hw, Dispatch(hw, a, command).0, probe).1 == HardwareReport(hw)
  {
    assert IntToString(200) == "200";
    assert ServoPrefix + IntToString(200) == command;
    ServoCommandEffect(hw, a, 200);
    HardwareTestReport(hw, a, probe);
  }

  /** A stripped command starting with `stepper:` is handled by that branch. */
  lemma StepperDispatched(hw: Hardware, a: Actuators, c: string)
    requires StartsWith(c, StepperPrefix)
    ensures Execute(hw, a, Classify(c)) == StepperCommand(hw, a, c[|StepperPrefix|..])
  {
    StepperPrefixed(c);
  }

  /** Any command that strips to `stepper:` followed by an argument `int()`
      reads as N: DIR becomes N > 0, exactly |N| pulses are added at that
      level after the earlier ones, STEP is low after any pulse and
      untouched when N is 0, servo and throttle stay, and the reply reports
      N; without the stepper nothing changes. */
  lemma StepperArgumentEffect(hw: Hardware, a: Actuators, command: string, n: int)
    requires StartsWith(Strip(command), StepperPrefix)
    requires ParseArg(Strip(command)[|StepperPrefix|..]) == Value(n)
    ensures var (a', reply) := Dispatch(hw, a, command);
      && (hw.stepper ==>
            && a'.dir == (n > 0)
            && |a'.pulses| == |a.pulses| + Abs(n)
            && a'.pulses[..|a.pulses|] == a.pulses
            && (forall k :: |a.pulses| <= k < |a'.pulses| ==> a'.pulses[k] == (n > 0))
            && (n != 0 ==> !a'.step)
            && (n == 0 ==> a'.step == a.step && a'.pulses == a.pulses)
            && a'.angle == a.angle && a'.throttle == a.throttle
            && reply == "A4988 moved " + IntToString(n) + " steps")
      && (!hw.stepper ==> a' == a && reply == "A4988 stepper not available")
  {
    StepperDispatched(hw, a, Strip(command));
    assert Dispatch(hw, a, command) == StepperCommand(hw, a, Strip(command)[|StepperPrefix|..]);
    Extends(a.pulses, Repeat(n > 0, Abs(n)));
  }

  /** `stepper:N`, written as `str` prints N, is read as N. */
  lemma StepperCommandEffect(hw: Hardware, a: Actuators, n: int)
    ensures var (a', reply) := Dispatch(hw, a, StepperPrefix + IntToString(n));
      && (hw.stepper ==>
            && a'.dir == (n > 0)
            && |a'.pulses| == |a.pulses| + Abs(n)
            && a'.pulses[..|a.pulses|] == a.pulses
            && (forall k :: |a.pulses| <= k < |a'.pulses| ==> a'.pulses[k] == (n > 0))
            && (n != 0 ==> !a'.step)
            && (n == 0 ==> a'.step == a.step && a'.pulses == a.pulses)
            && a'.angle == a.angle && a'.throttle == a.throttle
            && reply == "A4988 moved " + IntToString(n) + " steps")
      && (!hw.stepper ==> a' == a && reply == "A4988 stepper not available")
  {
    PrefixedNumber(StepperPrefix, n);
    StepperArgumentEffect(hw, a, StepperPrefix + IntToString(n), n);
  }

  /** `stepperTest`: 50 pulses with DIR high, then 50 with DIR low, ending
      with both pins low; servo and throttle stay. */
  lemma StepperTestEffect(hw: Hardware, a: Actuators)
    ensures var (a', reply) := StepperTest(hw, a);
      && (hw.stepper ==>
            && |a'.pulses| == |a.pulses| + 100
            && a'.pulses[..|a.pulses|] == a.pulses
            && (forall k :: |a.pulses| <= k < |a.pulses| + 50 ==> a'.pulses[k])
            && (forall k :: |a.pulses| + 50 <= k < |a'.pulses| ==> !a'.pulses[k])
            && !a'.dir && !a'.step
            && a'.angle == a.angle && a'.throttle == a.throttle
            && reply == "A4988 test completed: 50 forward, 50 backward")
      && (!hw.stepper ==> a' == a && reply == "A4988 stepper not available")
  {
    var a' := StepperTest(hw, a).0;
    if hw.stepper {
      assert a'.pulses == a.pulses + Repeat(true, 50) + Repeat(false, 50);
      assert a'.pulses[..|a.pulses|] == a.pulses;
    }
  }

  /** `servoThenMotor`: with both servo and ESC, and every write accepted,
      the servo ends at 0 and the throttle at 0.0; a rejected write stops
      the sequence keeping the writes before it; without both, nothing
      moves. The stepper pins are never touched. */
  lemma ServoThenMotorEffect(hw: Hardware, a: Actuators)
    ensures var (a', reply) := ServoThenMotor(hw, a);
      && (hw.servo && hw.esc && hw.angleAccepted(90) && hw.angleAccepted(0)
          && hw.throttleAccepted(0.2) && hw.throttleAccepted(0.0) ==>
            a' == a.(angle := Some(0), throttle := 0.0) && reply == "Servo-then-motor sequence completed")
      && (hw.servo && hw.esc && hw.angleAccepted(90) && !hw.throttleAccepted(0.2) ==>
            a' == a.(angle := Some(90)) && reply == "Servo-then-motor error: " + FaultText(Rejected))
      && (!(hw.servo && hw.esc) ==> a' == a && reply == "Servo or motor not available")
      && a'.dir == a.dir && a'.step == a.step && a'.pulses == a.pulses
  {
  }

  /** `stepper_debug`: DIR ends low and 10 pulses are emitted at that
      level, ending with STEP low. */
  lemma StepperDebugEffect(hw: Hardware, a: Actuators)
    ensures var (a', reply) := StepperDebug(hw, a);
      && (hw.stepper ==>
            && |a'.pulses| == |a.pulses| + 10
            && a'.pulses[..|a.pulses|] == a.pulses
            && (forall k :: |a.pulses| <= k < |a'.pulses| ==> !a'.pulses[k])
            && !a'.dir && !a'.step
            && a'.angle == a.angle && a'.throttle == a.throttle
            && reply == "A4988 debug test completed")
      && (!hw.stepper ==> a' == a && reply == "A4988 not available for debug")
  {
    if hw.stepper {
      Extends(a.pulses, Repeat(false, 10));
    }
  }

  /** Once low, STEP is low after every command, and the pulse record only
      grows: no command takes back an emitted pulse. */
  lemma StepLowAndPulsesGrow(hw: Hardware, a: Actuators, cmd: Command)
    requires !a.step
    ensures !Execute(hw, a, cmd).0.step
    ensures |a.pulses| <= |Execute(hw, a, cmd).0.pulses|
    ensures Execute(hw, a, cmd).0.pulses[..|a.pulses|] == a.pulses
  {
    var a' := Execute(hw, a, cmd).0;
    match cmd
    case StepperCmd(rest) =>
      if hw.stepper && ParseArg(rest).Value? {
        var n := ParseArg(rest).n;
        Extends(a.pulses, Repeat(n > 0, Abs(n)));
      }
    case StepperTestCmd =>
      if hw.stepper {
        Extends(a.pulses, Repeat(true, 50) + Repeat(false, 50));
        assert a'.pulses == a.pulses + (Repeat(true, 50) + Repeat(false, 50));
      }
    case StepperDebugCmd =>
      if hw.stepper {
        Extends(a.pulses, Repeat(false, 10));
      }
    case _ =>
  }

  lemma Extends(p: seq<bool>, q: seq<bool>)
    ensures (p + q)[..|p|] == p
  {
  }
}
