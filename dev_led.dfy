/**
 * The two LightBulb services of DEV_LED.h: a single-channel dimmable LED and a
 * three-channel RGB LED. Each owns its characteristics and its PWM pins; a pin
 * is modelled by the last duty (a percentage) set on it.
 */
module DevLed {
  import opened HomeSpan

  /** setRange(5, 100, 1) on both Brightness characteristics. */
  const MinBrightness := 5
  const MaxBrightness := 100

  /** Initial values given to the characteristics when storage holds none. */
  const DefaultPower := false
  const DefaultLevel := 50
  const DefaultHue := 0.0
  const DefaultSaturation := 0.0
  const DefaultValue := 100.0

  /** The C++ conversion of a floating-point value to int: truncation toward zero. */
  function TruncToInt(x: real): (n: int)
    ensures 0.0 <= x ==> 0 <= n && n as real <= x < n as real + 1.0
    ensures x < 0.0 ==> n <= 0 && n as real - 1.0 < x <= n as real
  {
    if x >= 0.0 then x.Floor else -((-x).Floor)
  }

  /** The C++ promotion of a bool to an arithmetic operand. */
  function BoolToReal(p: bool): real {
    if p then 1.0 else 0.0
  }

  /**
   * `p * l` of the dimmable LED: the brightness when the power is on, 0 when
   * it is off; a brightness within its range gives 0 or a duty in [5, 100].
   */
  function DimmableDuty(p: bool, l: int): (d: int)
    ensures p ==> d == l
    ensures !p ==> d == 0
    ensures MinBrightness <= l <= MaxBrightness ==> (d != 0 <==> p)
    ensures MinBrightness <= l <= MaxBrightness ==> d == 0 || MinBrightness <= d <= MaxBrightness
  {
    (if p then 1 else 0) * l
  }

  /**
   * `int R = p * r * 100`: a converter component scaled to a percentage,
   * gated by the power and truncated. With the component in [0, 1] the duty
   * is in [0, 100], and it is the whole part of 100 times the component when
   * the power is on.
   */
  function ChannelDuty(p: bool, c: real): (d: int)
    ensures !p ==> d == 0
    ensures InUnit(c) ==> 0 <= d <= 100
    ensures p && InUnit(c) ==> d as real <= c * 100.0 < d as real + 1.0
  {
    TruncToInt(BoolToReal(p) * c * 100.0)
  }

  /** The duties written to the red, green and blue pins. */
  datatype Duty3 = Duty3(red: int, green: int, blue: int)

  predicate DutiesInRange(d: Duty3) {
    0 <= d.red <= 100 && 0 <= d.green <= 100 && 0 <= d.blue <= 100
  }

  /**
   * The outputs of the RGB LED for power `p`, hue `h` in degrees and
   * saturation `s` and brightness `v` in percent: S and V are divided by 100
   * before conversion, every channel is 0 when the power is off, and every
   * channel is in [0, 100] when the inputs are in the characteristics' ranges.
   */
  function RgbDuties(hsvToRgb: HsvToRgb, p: bool, h: real, s: real, v: real): (d: Duty3)
    ensures !p ==> d == Duty3(0, 0, 0)
    ensures 0.0 <= h <= 360.0 && 0.0 <= s <= 100.0 && 0.0 <= v <= 100.0 ==> DutiesInRange(d)
    ensures p && 0.0 <= h <= 360.0 && 0.0 <= s <= 100.0 && 0.0 <= v <= 100.0 ==>
      var c := hsvToRgb(h, s / 100.0, v / 100.0);
      d.red as real <= c.r * 100.0 < d.red as real + 1.0 &&
      d.green as real <= c.g * 100.0 < d.green as real + 1.0 &&
      d.blue as real <= c.b * 100.0 < d.blue as real + 1.0
  {
    var c := hsvToRgb(h, s / 100.0, v / 100.0);
    Duty3(ChannelDuty(p, c.r), ChannelDuty(p, c.g), ChannelDuty(p, c.b))
  }

  /** The characteristics of the RGB LED are within the ranges the framework enforces. */
  predicate RgbRanges(power: Characteristic<bool>, hue: Characteristic<real>,
                      saturation: Characteristic<real>, brightness: Characteristic<real>)
  {
    RealInRange(hue, 0.0, 360.0) && RealInRange(saturation, 0.0, 100.0) &&
    RealInRange(brightness, MinBrightness as real, MaxBrightness as real)
  }

  class DimmableLed {
    const pin: int
    var power: Characteristic<bool>
    var level: Characteristic<int>
    /** The duty last set on the LED pin. */
    var duty: int

    ghost predicate Valid()
      reads this
    {
      IntInRange(level, MinBrightness, MaxBrightness)
    }

    /**
     * Creates On (default off) and Brightness (default 50), restored from
     * storage when it holds a value, and sets the pin from the committed
     * values.
     */
    constructor (pin: int, storedPower: Option<bool>, storedLevel: Option<int>)
      requires storedLevel.Some? ==> MinBrightness <= storedLevel.value <= MaxBrightness
      ensures Valid()
      ensures this.pin == pin
      ensures power == NewCharacteristic(DefaultPower, storedPower)
      ensures level == NewCharacteristic(DefaultLevel, storedLevel)
      ensures duty == DimmableDuty(power.GetVal(), level.GetVal())
      ensures duty == 0 || MinBrightness <= duty <= MaxBrightness
    {
      this.pin := pin;
      power := NewCharacteristic(DefaultPower, storedPower);
      level := NewCharacteristic(DefaultLevel, storedLevel);
      duty := 0;
      new;
      var p := power.GetVal();
      var l := level.GetVal();
      duty := DimmableDuty(p, l);
    }

    /**
     * Sets the pin from the new values of both characteristics and reports
     * success; no characteristic changes.
     */
    method Update() returns (ok: bool)
      requires Valid()
      modifies this`duty
      ensures ok
      ensures duty == DimmableDuty(power.GetNewVal(), level.GetNewVal())
      ensures !power.GetNewVal() ==> duty == 0
      ensures duty == 0 || MinBrightness <= duty <= MaxBrightness
      ensures !power.Updated() && !level.Updated() ==> duty == DimmableDuty(power.GetVal(), level.GetVal())
      ensures power == old(power) && level == old(level)
    {
      duty := DimmableDuty(power.GetNewVal(), level.GetNewVal());
      ok := true;
    }
  }

  class RgbLed {
    const redPin: int
    const greenPin: int
    const bluePin: int
    const hsvToRgb: HsvToRgb
    var power: Characteristic<bool>
    var hue: Characteristic<real>
    var saturation: Characteristic<real>
    var brightness: Characteristic<real>
    /** The duties last set on the red, green and blue pins. */
    var red: int
    var green: int
    var blue: int

    ghost predicate Valid()
      reads this
    {
      RgbRanges(power, hue, saturation, brightness)
    }

    ghost function Outputs(): Duty3
      reads this
    {
      Duty3(red, green, blue)
    }

    /**
     * Creates On (default off), Hue (default 0), Saturation (default 0) and
     * Brightness (default 100), restored from storage when it holds a value,
     * and sets the pins from the committed values.
     */
    constructor (redPin: int, greenPin: int, bluePin: int, hsvToRgb: HsvToRgb,
                 storedPower: Option<bool>, storedHue: Option<real>,
                 storedSaturation: Option<real>, storedValue: Option<real>)
      requires storedHue.Some? ==> 0.0 <= storedHue.value <= 360.0
      requires storedSaturation.Some? ==> 0.0 <= storedSaturation.value <= 100.0
      requires storedValue.Some? ==> MinBrightness as real <= storedValue.value <= MaxBrightness as real
      ensures Valid()
      ensures this.redPin == redPin && this.greenPin == greenPin && this.bluePin == bluePin
      ensures this.hsvToRgb == hsvToRgb
      ensures power == NewCharacteristic(DefaultPower, storedPower)
      ensures hue == NewCharacteristic(DefaultHue, storedHue)
      ensures saturation == NewCharacteristic(DefaultSaturation, storedSaturation)
      ensures brightness == NewCharacteristic(DefaultValue, storedValue)
      ensures Outputs() == RgbDuties(hsvToRgb, power.GetVal(), hue.GetVal(), saturation.GetVal(), brightness.GetVal())
      ensures DutiesInRange(Outputs())
    {
      this.redPin := redPin;
      this.greenPin := greenPin;
      this.bluePin := bluePin;
      this.hsvToRgb := hsvToRgb;
      power := NewCharacteristic(DefaultPower, storedPower);
      hue := NewCharacteristic(DefaultHue, storedHue);
      saturation := NewCharacteristic(DefaultSaturation, storedSaturation);
      brightness := NewCharacteristic(DefaultValue, storedValue);
      new;
      RestoreState();
    }

    /** Sets the three pins from the committed values of the characteristics. */
    method RestoreState()
      requires Valid()
      modifies this`red, this`green, this`blue
      ensures Outputs() == RgbDuties(hsvToRgb, power.GetVal(), hue.GetVal(), saturation.GetVal(), brightness.GetVal())
      ensures DutiesInRange(Outputs())
      ensures !power.GetVal() ==> Outputs() == Duty3(0, 0, 0)
    {
      var h := hue.GetVal();
      var s := saturation.GetVal();
      var v := brightness.GetVal();
      var p := power.GetVal();
      var c := hsvToRgb(h, s / 100.0, v / 100.0);
      red := ChannelDuty(p, c.r);
      green := ChannelDuty(p, c.g);
      blue := ChannelDuty(p, c.b);
    }

    /**
     * Resolves each characteristic on its own (its pending value if it is
     * updated, its committed value otherwise), sets the three pins from the
     * resolved values and reports success; no characteristic changes.
     */
    method Update() returns (ok: bool)
      requires Valid()
      modifies this`red, this`green, this`blue
      ensures ok
      ensures Outputs() == RgbDuties(hsvToRgb, power.GetNewVal(), hue.GetNewVal(), saturation.GetNewVal(), brightness.GetNewVal())
      ensures DutiesInRange(Outputs())
      ensures !power.GetNewVal() ==> Outputs() == Duty3(0, 0, 0)
      ensures !power.Updated() && !hue.Updated() && !saturation.Updated() && !brightness.Updated() ==>
        Outputs() == RgbDuties(hsvToRgb, power.GetVal(), hue.GetVal(), saturation.GetVal(), brightness.GetVal())
      ensures power == old(power) && hue == old(hue)
      ensures saturation == old(saturation) && brightness == old(brightness)
    {
      var h := hue.GetVal();
      var s := saturation.GetVal();
      var v := brightness.GetVal();
      var p := power.GetVal();
      if power.Updated() {
        p := power.GetNewVal();
      }
      if hue.Updated() {
        h := hue.GetNewVal();
      }
      if saturation.Updated() {
        s := saturation.GetNewVal();
      }
      if brightness.Updated() {
        v := brightness.GetNewVal();
      }
      var c := hsvToRgb(h, s / 100.0, v / 100.0);
      red := ChannelDuty(p, c.r);
      green := ChannelDuty(p, c.g);
      blue := ChannelDuty(p, c.b);
      ok := true;
    }
  }

  /**
   * The framework commits after update(): restoring the state from the
   * committed characteristics then sets the same duties as update() did.
   */
  lemma RgbRestoreAfterCommitMatchesUpdate(hsvToRgb: HsvToRgb, power: Characteristic<bool>,
                                           hue: Characteristic<real>, saturation: Characteristic<real>,
                                           brightness: Characteristic<real>)
    ensures RgbDuties(hsvToRgb, power.Commit().GetVal(), hue.Commit().GetVal(),
                      saturation.Commit().GetVal(), brightness.Commit().GetVal())
         == RgbDuties(hsvToRgb, power.GetNewVal(), hue.GetNewVal(), saturation.GetNewVal(), brightness.GetNewVal())
  {
  }

  lemma DimmableRestoreAfterCommitMatchesUpdate(power: Characteristic<bool>, level: Characteristic<int>)
    ensures DimmableDuty(power.Commit().GetVal(), level.Commit().GetVal())
         == DimmableDuty(power.GetNewVal(), level.GetNewVal())
  {
  }

  /**
   * Traits are resolved one by one, not as a group: a pending hue alone is
   * combined with the committed power, saturation and brightness.
   */
  lemma PendingHueAloneUsesCommittedRest(hsvToRgb: HsvToRgb, power: Characteristic<bool>,
                                         hue: Characteristic<real>, saturation: Characteristic<real>,
                                         brightness: Characteristic<real>)
    requires hue.Updated() && !power.Updated() && !saturation.Updated() && !brightness.Updated()
    ensures RgbDuties(hsvToRgb, power.GetNewVal(), hue.GetNewVal(), saturation.GetNewVal(), brightness.GetNewVal())
         == RgbDuties(hsvToRgb, power.GetVal(), hue.pending.value, saturation.GetVal(), brightness.GetVal())
  {
  }

  /**
   * With a converter that maps full-saturation, full-value hue `h` to a pure
   * primary colour, the LED shows that primary at 100 when on: red at hue 0,
   * green at 120, blue at 240.
   */
  lemma PrimaryAtFullSaturation(hsvToRgb: HsvToRgb, h: real, primary: Rgb)
    requires 0.0 <= h <= 360.0
    requires hsvToRgb(h, 1.0, 1.0) == primary
    requires primary in {Rgb(1.0, 0.0, 0.0), Rgb(0.0, 1.0, 0.0), Rgb(0.0, 0.0, 1.0)}
    ensures RgbDuties(hsvToRgb, true, h, 100.0, 100.0)
         == Duty3(TruncToInt(primary.r * 100.0), TruncToInt(primary.g * 100.0), TruncToInt(primary.b * 100.0))
    ensures primary == Rgb(1.0, 0.0, 0.0) ==> RgbDuties(hsvToRgb, true, h, 100.0, 100.0) == Duty3(100, 0, 0)
    ensures primary == Rgb(0.0, 1.0, 0.0) ==> RgbDuties(hsvToRgb, true, h, 100.0, 100.0) == Duty3(0, 100, 0)
    ensures primary == Rgb(0.0, 0.0, 1.0) ==> RgbDuties(hsvToRgb, true, h, 100.0, 100.0) == Duty3(0, 0, 100)
  {
  }
}
