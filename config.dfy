// Machine configuration (src/config.rs) and the pin numbers of src/pins.rs it uses.
module Config {
  import opened Common

  const Int32Min: int := -0x8000_0000
  const Int32Max: int := 0x7FFF_FFFF

  /** Rust's `i32`. */
  type Int32 = x: int | -0x8000_0000 <= x <= 0x7FFF_FFFF

  // Pin numbers of the default wiring (src/pins.rs).
  const XEnablePinNumber: nat := 17
  const XStepPinNumber: nat := 18
  const XDirectionPinNumber: nat := 19
  const XMinEndstopPinNumber: nat := 20
  const XMaxEndstopPinNumber: nat := 21
  const YEnablePinNumber: nat := 24
  const YStepPinNumber: nat := 25
  const YDirectionPinNumber: nat := 22
  const YMinEndstopPinNumber: nat := 13
  const YMaxEndstopPinNumber: nat := 27
  const ZEnablePinNumber: nat := 23
  const ZStepPinNumber: nat := 12
  const ZDirectionPinNumber: nat := 16
  const ZMaxEndstopPinNumber: nat := 26
  const SpindlePinNumber: nat := 6

  /** How one stepper motor is driven and how its steps relate to inches. */
  datatype MotorConfig = MotorConfig(
    stepsPerRev: Int32,
    revsPerInch: real,
    reversed: bool,
    defaultSpeedIps: real,
    enablePinNumber: nat,
    stepPinNumber: nat,
    directionPinNumber: nat)

  /** Motor steps per inch of travel. */
  function StepsPerInch(c: MotorConfig): real {
    c.revsPerInch * c.stepsPerRev as real
  }

  /**
   * Rust's float-to-`i32` cast: the fraction is dropped (rounding toward zero)
   * and values outside the `i32` range saturate at its ends.
   */
  function TruncateToInt32(x: real): (r: Int32)
    ensures 0.0 <= x < Int32Max as real ==> r as real <= x < r as real + 1.0
    ensures Int32Min as real < x < 0.0 ==> r as real - 1.0 < x <= r as real
    ensures Int32Max as real <= x ==> r == Int32Max
    ensures x <= Int32Min as real ==> r == Int32Min
  {
    var t := if x >= 0.0 then x.Floor else -((-x).Floor);
    if t < Int32Min then Int32Min else if t > Int32Max then Int32Max else t
  }

  /** The exact (untruncated) step count for a distance in inches. */
  function ScaledSteps(c: MotorConfig, inches: real): real {
    inches * c.revsPerInch * c.stepsPerRev as real
  }

  /** `MotorConfig::inches_to_steps`. */
  function InchesToSteps(c: MotorConfig, inches: real): Int32 {
    TruncateToInt32(ScaledSteps(c, inches))
  }

  /** `MotorConfig::steps_to_inches`: defined for a configuration whose scale is not zero. */
  function StepsToInches(c: MotorConfig, steps: Int32): (r: real)
    requires StepsPerInch(c) != 0.0
    ensures r * StepsPerInch(c) == steps as real
  {
    steps as real / (c.revsPerInch * c.stepsPerRev as real)
  }

  lemma ConversionsMapZeroToZero(c: MotorConfig)
    ensures InchesToSteps(c, 0.0) == 0
    ensures StepsPerInch(c) != 0.0 ==> StepsToInches(c, 0) == 0.0
  {
  }

  lemma {:induction false} TruncateToInt32Monotone(x: real, y: real)
    requires x <= y
    ensures TruncateToInt32(x) <= TruncateToInt32(y)
  {
    if 0.0 <= x {
      assert x.Floor <= y.Floor;
    } else if y <= 0.0 {
      assert (-y).Floor <= (-x).Floor;
    }
  }

  /** Multiplying by a non-negative factor keeps the order. */
  lemma MulMonotone(x: real, y: real, k: real)
    requires x <= y && 0.0 <= k
    ensures x * k <= y * k
  {
    assert y * k - x * k == (y - x) * k;
  }

  /** With a positive scale, more inches never give fewer steps. */
  lemma InchesToStepsMonotone(c: MotorConfig, a: real, b: real)
    requires c.revsPerInch > 0.0 && c.stepsPerRev > 0
    requires a <= b
    ensures InchesToSteps(c, a) <= InchesToSteps(c, b)
  {
    MulMonotone(a, b, c.revsPerInch);
    MulMonotone(a * c.revsPerInch, b * c.revsPerInch, c.stepsPerRev as real);
    TruncateToInt32Monotone(ScaledSteps(c, a), ScaledSteps(c, b));
  }

  /** Converting a step count to inches and back gives the same step count (exact arithmetic). */
  lemma StepsToInchesRoundTrip(c: MotorConfig, steps: Int32)
    requires StepsPerInch(c) != 0.0
    ensures InchesToSteps(c, StepsToInches(c, steps)) == steps
  {
    var inches := StepsToInches(c, steps);
    assert inches * c.revsPerInch * c.stepsPerRev as real == inches * StepsPerInch(c);
  }

  /** The whole configuration (`RustGrindConfig`). */
  datatype RustGrindConfig = RustGrindConfig(
    motorConfigs: map<Axis, MotorConfig>,
    endstopConfig: map<EndstopIdentifier, nat>,
    gpioChipName: string,
    spindleEnablePin: nat)

  /** A read-only handle on the configuration, as the controllers hold it. */
  datatype ConfigClient = ConfigClient(config: RustGrindConfig)

  /** The source unwraps the motor configuration of every axis it looks up. */
  predicate HasAllMotorConfigs(c: RustGrindConfig) {
    X in c.motorConfigs && Y in c.motorConfigs && Z in c.motorConfigs
  }

  /** No two endstops share a GPIO line. */
  predicate DistinctEndstopLines(m: map<EndstopIdentifier, nat>) {
    forall i, j :: i in m && j in m && i != j ==> m[i] != m[j]
  }

  function DefaultMotorConfig(enable: nat, step: nat, direction: nat): MotorConfig {
    MotorConfig(200, 1.0, false, 1.0, enable, step, direction)
  }

  /** The configuration `ConfigManager::new` builds. */
  function DefaultConfig(): (c: RustGrindConfig)
    ensures c.motorConfigs.Keys == {X, Y, Z}
    ensures forall a :: a in c.motorConfigs ==>
      var m := c.motorConfigs[a];
      m.stepsPerRev == 200 && m.revsPerInch == 1.0 && !m.reversed && m.defaultSpeedIps == 1.0
    ensures c.motorConfigs[X].enablePinNumber == XEnablePinNumber &&
      c.motorConfigs[X].stepPinNumber == XStepPinNumber && c.motorConfigs[X].directionPinNumber == XDirectionPinNumber
    ensures c.motorConfigs[Y].enablePinNumber == YEnablePinNumber &&
      c.motorConfigs[Y].stepPinNumber == YStepPinNumber && c.motorConfigs[Y].directionPinNumber == YDirectionPinNumber
    ensures c.motorConfigs[Z].enablePinNumber == ZEnablePinNumber &&
      c.motorConfigs[Z].stepPinNumber == ZStepPinNumber && c.motorConfigs[Z].directionPinNumber == ZDirectionPinNumber
    ensures c.endstopConfig.Keys == {
      EndstopIdentifier(X, Min), EndstopIdentifier(X, Max),
      EndstopIdentifier(Y, Min), EndstopIdentifier(Y, Max),
      EndstopIdentifier(Z, Max)}
    ensures EndstopIdentifier(Z, Min) !in c.endstopConfig
    ensures c.endstopConfig[EndstopIdentifier(X, Min)] == XMinEndstopPinNumber &&
      c.endstopConfig[EndstopIdentifier(X, Max)] == XMaxEndstopPinNumber &&
      c.endstopConfig[EndstopIdentifier(Y, Min)] == YMinEndstopPinNumber &&
      c.endstopConfig[EndstopIdentifier(Y, Max)] == YMaxEndstopPinNumber &&
      c.endstopConfig[EndstopIdentifier(Z, Max)] == ZMaxEndstopPinNumber
    ensures DistinctEndstopLines(c.endstopConfig)
    ensures c.gpioChipName == "/dev/gpiochip0" && c.spindleEnablePin == SpindlePinNumber
  {
    RustGrindConfig(
      map[X := DefaultMotorConfig(XEnablePinNumber, XStepPinNumber, XDirectionPinNumber),
          Y := DefaultMotorConfig(YEnablePinNumber, YStepPinNumber, YDirectionPinNumber),
          Z := DefaultMotorConfig(ZEnablePinNumber, ZStepPinNumber, ZDirectionPinNumber)],
      map[EndstopIdentifier(X, Min) := XMinEndstopPinNumber,
          EndstopIdentifier(X, Max) := XMaxEndstopPinNumber,
          EndstopIdentifier(Y, Min) := YMinEndstopPinNumber,
          EndstopIdentifier(Y, Max) := YMaxEndstopPinNumber,
          EndstopIdentifier(Z, Max) := ZMaxEndstopPinNumber],
      "/dev/gpiochip0",
      SpindlePinNumber)
  }

  /** Owns the configuration; `new` fills in the defaults one entry at a time. */
  class ConfigManager {
    var config: RustGrindConfig

    constructor ()
      ensures config == DefaultConfig()
    {
      config := RustGrindConfig(map[], map[], "/dev/gpiochip0", SpindlePinNumber);
      new;
      config := config.(motorConfigs := config.motorConfigs[X :=
        MotorConfig(200, 1.0, false, 1.0, XEnablePinNumber, XStepPinNumber, XDirectionPinNumber)]);
      config := config.(motorConfigs := config.motorConfigs[Y :=
        MotorConfig(200, 1.0, false, 1.0, YEnablePinNumber, YStepPinNumber, YDirectionPinNumber)]);
      config := config.(motorConfigs := config.motorConfigs[Z :=
        MotorConfig(200, 1.0, false, 1.0, ZEnablePinNumber, ZStepPinNumber, ZDirectionPinNumber)]);
      config := config.(endstopConfig := config.endstopConfig[EndstopIdentifier(X, Min) := XMinEndstopPinNumber]);
      config := config.(endstopConfig := config.endstopConfig[EndstopIdentifier(X, Max) := XMaxEndstopPinNumber]);
      config := config.(endstopConfig := config.endstopConfig[EndstopIdentifier(Y, Min) := YMinEndstopPinNumber]);
      config := config.(endstopConfig := config.endstopConfig[EndstopIdentifier(Y, Max) := YMaxEndstopPinNumber]);
      config := config.(endstopConfig := config.endstopConfig[EndstopIdentifier(Z, Max) := ZMaxEndstopPinNumber]);
    }

    /** `get_config`: the stored configuration, unchanged. */
    method GetConfig() returns (c: RustGrindConfig)
      ensures c == config
    {
      c := config;
    }
  }
}
