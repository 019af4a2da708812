/** The microcontroller's command handler: one text command in, one reply
    line out, with the servo, the ESC and the A4988 stepper pins updated on
    the way. Which peripherals exist is decided once at start-up. */
module Firmware {
  import opened Text

  /** What start-up found, fixed for the rest of the run. `angleAccepted` and
      `throttleAccepted` stand for the range checks of the servo driver
      library (a rejected value raises before anything is written);
      `freePins` and `busyPins` are the outcome of probing GP0..GP28. */
  datatype Hardware = Hardware(
    servo: bool,
    esc: bool,
    stepper: bool,
    angleAccepted: int -> bool,
    throttleAccepted: real -> bool,
    freePins: seq<string>,
    busyPins: seq<string>)

  /** Actuator outputs. `angle` is None until the servo is first commanded;
      `pulses` holds, for every STEP pulse emitted so far, the DIR level it
      was emitted with, so `|pulses|` is the pulse count. */
  datatype Actuators = Actuators(
    angle: Option<int>,
    throttle: real,
    dir: bool,
    step: bool,
    pulses: seq<bool>)

  /** The exception a branch catches, in place of its message text. */
  datatype Fault = Unpack | NotInteger | Rejected

  function FaultText(f: Fault): string {
    match f
    case Unpack => "too many values to unpack (expected 2)"
    case NotInteger => "invalid syntax for integer with base 10"
    case Rejected => "value out of range"
  }

  datatype Arg = Value(n: int) | Malformed(fault: Fault)

  /** `_, x = command.split(":")` followed by `int(x)`, where `rest` is what
      follows the command's first ':'. */
  function ParseArg(rest: string): Arg {
    if ':' in rest then Malformed(Unpack)
    else match ParseInt(rest)
      case Some(n) => Value(n)
      case None => Malformed(NotInteger)
  }

  function Repeat(b: bool, n: nat): (r: seq<bool>)
    ensures |r| == n && forall k :: 0 <= k < n ==> r[k] == b
  {
    if n == 0 then [] else Repeat(b, n - 1) + [b]
  }

  function Abs(n: int): nat {
    if n < 0 then -n else n
  }

  function Join(parts: seq<string>): string {
    if parts == [] then ""
    else if |parts| == 1 then parts[0]
    else Join(parts[..|parts| - 1]) + ", " + parts[|parts| - 1]
  }

  function HardwareReport(hw: Hardware): string {
    "Servo: " + (if hw.servo then "OK" else "None")
    + ", Brush: " + (if hw.esc then "OK" else "None")
    + ", Stepper: " + (if hw.stepper then "A4988_OK" else "None")
  }

  function PinReport(hw: Hardware): string {
    "Available: " + Join(hw.freePins) + " | In use: " + Join(hw.busyPins)
  }

  // Replies of the form "prefix + number + suffix".
  function ServoMoved(n: int): string { "Servo moved to " + IntToString(n) + " degrees" }
  function StepperMoved(n: int): string { "A4988 moved " + IntToString(n) + " steps" }
  function MotorReply(n: int): string {
    if n == 0 then "Motor stopped"
    else if n > 0 then "Motor forward at " + IntToString(n) + "%"
    else "Motor reverse at " + IntToString(Abs(n)) + "%"
  }

  const ServoPrefix := "servo:"
  const StepperPrefix := "stepper:"
  const BrushPrefix := "brushMotor:"

  const ServoThenMotorDone := "Servo-then-motor sequence completed"
  const StepperTestDone := "A4988 test completed: 50 forward, 50 backward"
  const StepperDebugDone := "A4988 debug test completed"

  /** The commands `process_command` recognises, tested in its order: exact
      names and `prefix:argument` forms, with the text after the prefix kept
      for the branch to split and parse. */
  datatype Command =
    | LibraryTest | HardwareTest | PinTest
    | ServoCmd(rest: string) | StepperCmd(rest: string) | StepperTestCmd
    | BrushMotorCmd(rest: string) | ServoThenMotorCmd | StepperDebugCmd
    | UnknownCmd

  function Classify(c: string): Command {
    if c == "library_test" then LibraryTest
    else if c == "hardware_test" then HardwareTest
    else if c == "pin_test" then PinTest
    else if StartsWith(c, ServoPrefix) then ServoCmd(c[|ServoPrefix|..])
    else if StartsWith(c, StepperPrefix) then StepperCmd(c[|StepperPrefix|..])
    else if c == "stepperTest" then StepperTestCmd
    else if StartsWith(c, BrushPrefix) then BrushMotorCmd(c[|BrushPrefix|..])
    else if c == "servoThenMotor" then ServoThenMotorCmd
    else if c == "stepper_debug" then StepperDebugCmd
    else UnknownCmd
  }

  /** What `process_command` replies and how it leaves the actuators: the
      input is stripped, classified, then executed. */
  function Dispatch(hw: Hardware, a: Actuators, command: string): (Actuators, string) {
    Execute(hw, a, Classify(Strip(command)))
  }

  function Execute(hw: Hardware, a: Actuators, cmd: Command): (Actuators, string) {
    match cmd
    case LibraryTest => (a, "Motor: True, Audio: True")
    case HardwareTest => (a, HardwareReport(hw))
    case PinTest => (a, PinReport(hw))
    case ServoCmd(rest) => ServoCommand(hw, a, rest)
    case StepperCmd(rest) => StepperCommand(hw, a, rest)
    case StepperTestCmd => StepperTest(hw, a)
    case BrushMotorCmd(rest) => BrushCommand(hw, a, rest)
    case ServoThenMotorCmd => ServoThenMotor(hw, a)
    case StepperDebugCmd => StepperDebug(hw, a)
    case UnknownCmd => (a, "Unknown command")
  }

  function ServoCommand(hw: Hardware, a: Actuators, rest: string): (Actuators, string) {
    if !hw.servo then (a, "Servo not available")
    else match ParseArg(rest)
      case Malformed(f) => (a, "Servo error: " + FaultText(f))
      case Value(n) =>
        if !hw.angleAccepted(n) then (a, "Servo error: " + FaultText(Rejected))
        else (a.(angle := Some(n)), ServoMoved(n))
  }

  function StepperCommand(hw: Hardware, a: Actuators, rest: string): (Actuators, string) {
    if !hw.stepper then (a, "A4988 stepper not available")
    else match ParseArg(rest)
      case Malformed(f) => (a, "A4988 error: " + FaultText(f))
      case Value(n) =>
        (a.(dir := n > 0,
            step := if n == 0 then a.step else false,
            pulses := a.pulses + Repeat(n > 0, Abs(n))),
         StepperMoved(n))
  }

  function StepperTest(hw: Hardware, a: Actuators): (Actuators, string) {
    if !hw.stepper then (a, "A4988 stepper not available")
    else (a.(dir := false, step := false,
             pulses := a.pulses + Repeat(true, 50) + Repeat(false, 50)),
          StepperTestDone)
  }

  /** The ESC throttle for a speed in percent. */
  function Throttle(speed: int): real {
    speed as real / 100.0
  }

  function MotorError(f: Fault): string { "Motor error: " + FaultText(f) }

  function BrushCommand(hw: Hardware, a: Actuators, rest: string): (Actuators, string) {
    if !hw.esc then (a, "ESC not available")
    else match ParseArg(rest)
      case Malformed(f) => (a, MotorError(f))
      case Value(n) =>
        if !hw.throttleAccepted(Throttle(n)) then (a, MotorError(Rejected))
        else (a.(throttle := Throttle(n)), MotorReply(n))
  }

  /** Servo to 90, throttle 0.2, throttle 0.0, servo to 0; a write the driver
      rejects stops the sequence with the writes before it kept. */
  function ServoThenMotor(hw: Hardware, a: Actuators): (Actuators, string) {
    var failed := "Servo-then-motor error: " + FaultText(Rejected);
    if !(hw.esc && hw.servo) then (a, "Servo or motor not available")
    else if !hw.angleAccepted(90) then (a, failed)
    else if !hw.throttleAccepted(0.2) then (a.(angle := Some(90)), failed)
    else if !hw.throttleAccepted(0.0) then (a.(angle := Some(90), throttle := 0.2), failed)
    else if !hw.angleAccepted(0) then (a.(angle := Some(90), throttle := 0.0), failed)
    else (a.(angle := Some(0), throttle := 0.0), ServoThenMotorDone)
  }

  function StepperDebug(hw: Hardware, a: Actuators): (Actuators, string) {
    if !hw.stepper then (a, "A4988 not available for debug")
    else (a.(dir := false, step := false, pulses := a.pulses + Repeat(false, 10)),
          StepperDebugDone)
  }

  /** The device: its peripherals (fixed) and its actuator outputs (updated
      in place by each command). */
  class Controller {
    const hw: Hardware
    var angle: Option<int>
    var throttle: real
    var dirPin: bool
    var stepPin: bool
    var pulses: seq<bool>

    function State(): Actuators
      reads this
    {
      Actuators(angle, throttle, dirPin, stepPin, pulses)
    }

    /** Start-up: both stepper pins driven low, ESC throttle 0.0. */
    constructor (hw: Hardware)
      ensures this.hw == hw
      ensures State() == Actuators(None, 0.0, false, false, [])
    {
      this.hw := hw;
      angle := None;
      throttle := 0.0;
      dirPin := false;
      stepPin := false;
      pulses := [];
    }

    /** Drives STEP high then low `count` times at the current DIR level. */
    method EmitPulses(count: nat)
      modifies this
      ensures pulses == old(pulses) + Repeat(old(dirPin), count)
      ensures stepPin == if count == 0 then old(stepPin) else false
      ensures angle == old(angle) && throttle == old(throttle) && dirPin == old(dirPin)
    {
      var i := 0;
      while i < count
        invariant 0 <= i <= count
        invariant pulses == old(pulses) + Repeat(dirPin, i)
        invariant stepPin == if i == 0 then old(stepPin) else false
        invariant angle == old(angle) && throttle == old(throttle) && dirPin == old(dirPin)
      {
        stepPin := true;
        pulses := pulses + [dirPin];
        stepPin := false;
        i := i + 1;
      }
    }

    /** `process_command`: returns the reply and updates the actuators. */
    method ProcessCommand(command: string) returns (reply: string)
      modifies this
      ensures (State(), reply) == Dispatch(hw, old(State()), command)
    {
      reply := Run(Classify(Strip(command)));
    }

    /** One recognised command, carried out on the actuators. */
    method Run(cmd: Command) returns (reply: string)
      modifies this
      ensures (State(), reply) == Execute(hw, old(State()), cmd)
    {
      match cmd
      case LibraryTest =>
        reply := "Motor: True, Audio: True";
      case HardwareTest =>
        reply := HardwareReport(hw);
      case PinTest =>
        reply := PinReport(hw);
      case ServoCmd(rest) =>
        reply := RunServo(rest);
      case StepperCmd(rest) =>
        reply := RunStepper(rest);
      case StepperTestCmd =>
        reply := RunStepperTest();
      case BrushMotorCmd(rest) =>
        reply := RunBrushMotor(rest);
      case ServoThenMotorCmd =>
        reply := RunServoThenMotor();
      case StepperDebugCmd =>
        reply := RunStepperDebug();
      case UnknownCmd =>
        reply := "Unknown command";
    }

    method RunServo(rest: string) returns (reply: string)
      modifies this
      ensures (State(), reply) == ServoCommand(hw, old(State()), rest)
    {
      if !hw.servo {
        return "Servo not available";
      }
      var arg := ParseArg(rest);
      if arg.Malformed? {
        reply := "Servo error: " + FaultText(arg.fault);
      } else if !hw.angleAccepted(arg.n) {
        reply := "Servo error: " + FaultText(Rejected);
      } else {
        angle := Some(arg.n);
        reply := ServoMoved(arg.n);
      }
    }

    method RunStepper(rest: string) returns (reply: string)
      modifies this
      ensures (State(), reply) == StepperCommand(hw, old(State()), rest)
    {
      if !hw.stepper {
        return "A4988 stepper not available";
      }
      var arg := ParseArg(rest);
      if arg.Malformed? {
        reply := "A4988 error: " + FaultText(arg.fault);
      } else {
        dirPin := arg.n > 0;
        EmitPulses(Abs(arg.n));
        reply := StepperMoved(arg.n);
      }
    }

    method RunStepperTest() returns (reply: string)
      modifies this
      ensures (State(), reply) == StepperTest(hw, old(State()))
    {
      if !hw.stepper {
        return "A4988 stepper not available";
      }
      dirPin := true;
      EmitPulses(50);
      dirPin := false;
      EmitPulses(50);
      reply := StepperTestDone;
    }

    method RunBrushMotor(rest: string) returns (reply: string)
      modifies this
      ensures (State(), reply) == BrushCommand(hw, old(State()), rest)
    {
      if !hw.esc {
        return "ESC not available";
      }
      match ParseArg(rest)
      case Malformed(f) =>
        reply := MotorError(f);
      case Value(speed) =>
        var t := Throttle(speed);
        if !hw.throttleAccepted(t) {
          reply := MotorError(Rejected);
        } else {
          throttle := t;
          reply := MotorReply(speed);
        }
    }

    method RunStepperDebug() returns (reply: string)
      modifies this
      ensures (State(), reply) == StepperDebug(hw, old(State()))
    {
      if !hw.stepper {
        return "A4988 not available for debug";
      }
      dirPin := true;
      dirPin := false;
      EmitPulses(10);
      reply := StepperDebugDone;
    }

    method RunServoThenMotor() returns (reply: string)
      modifies this
      ensures (State(), reply) == ServoThenMotor(hw, old(State()))
    {
      if !(hw.esc && hw.servo) {
        return "Servo or motor not available";
      }
      var failed := "Servo-then-motor error: " + FaultText(Rejected);
      if !hw.angleAccepted(90) { return failed; }
      angle := Some(90);
      if !hw.throttleAccepted(0.2) { return failed; }
      throttle := 0.2;
      if !hw.throttleAccepted(0.0) { return failed; }
      throttle := 0.0;
      if !hw.angleAccepted(0) { return failed; }
      angle := Some(0);
      reply := ServoThenMotorDone;
    }
  }
}
