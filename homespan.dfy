/**
 * The parts of the HomeSpan library that the LED and identify services rely on:
 * characteristics with a committed and a pending value, and the HSV to RGB
 * converter of LedPin, of which only its output range is known here.
 */
module HomeSpan {

  datatype Option<T> = None | Some(value: T) {
    function GetOr(default: T): T {
      match this
      case Some(v) => v
      case None => default
    }
  }

  /**
   * A characteristic as the accessory framework hands it to a service:
   * `value` is the committed value (what getVal() returns) and `pending` the
   * value of a write request not yet committed, if any (updated() holds exactly
   * when there is one).
   */
  datatype Characteristic<T> = Characteristic(value: T, pending: Option<T>) {

    predicate Updated() {
      pending.Some?
    }

    /** getVal(): the committed value. */
    function GetVal(): T {
      value
    }

    /**
     * getNewVal(): the value the characteristic is about to take, which is the
     * pending value of a write request and, when nothing is pending, the
     * committed value.
     */
    function GetNewVal(): (v: T)
      ensures Updated() ==> v == pending.value
      ensures !Updated() ==> v == value
    {
      pending.GetOr(value)
    }

    /**
     * What the framework does once a service's update() has returned: the
     * pending value becomes the committed one and nothing is pending.
     */
    function Commit(): (c: Characteristic<T>)
      ensures !c.Updated()
      ensures c.GetVal() == GetNewVal()
    {
      Characteristic(GetNewVal(), None)
    }
  }

  /**
   * A characteristic created with `initial` and storage enabled: it starts from
   * the value saved in non-volatile storage when there is one, from `initial`
   * otherwise, and with nothing pending.
   */
  function NewCharacteristic<T>(initial: T, stored: Option<T>): (c: Characteristic<T>)
    ensures !c.Updated()
    ensures stored.Some? ==> c.GetVal() == stored.value
    ensures stored.None? ==> c.GetVal() == initial
  {
    Characteristic(stored.GetOr(initial), None)
  }

  /** Both the committed and any pending value lie in [lo, hi] (setRange). */
  predicate IntInRange(c: Characteristic<int>, lo: int, hi: int) {
    lo <= c.value <= hi && (c.pending.Some? ==> lo <= c.pending.value <= hi)
  }

  predicate RealInRange(c: Characteristic<real>, lo: real, hi: real) {
    lo <= c.value <= hi && (c.pending.Some? ==> lo <= c.pending.value <= hi)
  }

  /** A colour as LedPin::HSVtoRGB returns it: three components. */
  datatype Rgb = Rgb(r: real, g: real, b: real)

  predicate InUnit(x: real) {
    0.0 <= x <= 1.0
  }

  predicate UnitRgb(c: Rgb) {
    InUnit(c.r) && InUnit(c.g) && InUnit(c.b)
  }

  /** Hue in degrees, saturation and value as fractions. */
  predicate HsvDomain(h: real, s: real, v: real) {
    0.0 <= h <= 360.0 && InUnit(s) && InUnit(v)
  }

  /**
   * LedPin::HSVtoRGB, known only by its contract: on hues in [0, 360] and
   * saturations and values in [0, 1] every component it returns lies in [0, 1].
   */
  type HsvToRgb = f: (real, real, real) -> Rgb
    | forall h, s, v :: HsvDomain(h, s, v) ==> UnitRgb(f(h, s, v))
    witness (h: real, s: real, v: real) => Rgb(0.0, 0.0, 0.0)
}
