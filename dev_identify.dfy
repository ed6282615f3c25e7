/**
 * The AccessoryInformation service of DEV_Identify.h: on an identify request
 * it blinks the status LED nBlinks times, writing LOW (LED on) and then HIGH
 * (LED off) with a 250 ms delay after each write.
 */
module DevIdentify {

  datatype Level = Low | High

  /** A digitalWrite as the board saw it: the pin, the level and the clock at the time. */
  datatype PinWrite = PinWrite(pin: int, level: Level, atMs: int)

  /** The delay after each write of a blink. */
  const HalfBlinkMs := 250

  /**
   * The board as the identify routine drives it: the writes issued to its
   * digital pins, oldest first, and a millisecond clock that only delay()
   * advances.
   */
  class Board {
    var writes: seq<PinWrite>
    var clockMs: int

    constructor ()
      ensures writes == [] && clockMs == 0
    {
      writes := [];
      clockMs := 0;
    }

    /** digitalWrite(pin, level). */
    method DigitalWrite(pin: int, level: Level)
      modifies this
      ensures writes == old(writes) + [PinWrite(pin, level, old(clockMs))]
      ensures clockMs == old(clockMs)
    {
      writes := writes + [PinWrite(pin, level, clockMs)];
    }

    /** delay(ms): blocks for `ms` milliseconds. */
    method Delay(ms: nat)
      modifies this
      ensures writes == old(writes)
      ensures clockMs == old(clockMs) + ms
    {
      clockMs := clockMs + ms;
    }
  }

  /** How often the loop body runs for a given nBlinks: never when it is not positive. */
  function BlinkCount(nBlinks: int): nat {
    if nBlinks <= 0 then 0 else nBlinks
  }

  /**
   * The writes of `n` blinks on `pin` begun at `startMs`: each blink is a LOW
   * then a HIGH write, each followed by HalfBlinkMs of delay; two writes per
   * blink.
   */
  function BlinkTrace(pin: int, startMs: int, n: nat): (t: seq<PinWrite>)
    ensures |t| == 2 * n
  {
    if n == 0 then []
    else
      var blinkMs := startMs + 2 * HalfBlinkMs * (n - 1);
      BlinkTrace(pin, startMs, n - 1) +
      [PinWrite(pin, Low, blinkMs), PinWrite(pin, High, blinkMs + HalfBlinkMs)]
  }

  /**
   * The k-th write of a blink sequence goes to the status pin, is LOW when k
   * is even and HIGH when k is odd (so the sequence starts LOW and alternates),
   * and happens k * 250 ms after the start.
   */
  lemma {:induction false} BlinkTraceAt(pin: int, startMs: int, n: nat, k: nat)
    requires k < 2 * n
    ensures BlinkTrace(pin, startMs, n)[k]
         == PinWrite(pin, if k % 2 == 0 then Low else High, startMs + HalfBlinkMs * k)
  {
    if k < 2 * (n - 1) {
      BlinkTraceAt(pin, startMs, n - 1, k);
    }
  }

  /** A positive number of blinks ends with a HIGH write (LED off) 250 ms before the end. */
  lemma BlinkTraceEndsHigh(pin: int, startMs: int, n: nat)
    requires 0 < n
    ensures BlinkTrace(pin, startMs, n)[2 * n - 1]
         == PinWrite(pin, High, startMs + 2 * HalfBlinkMs * n - HalfBlinkMs)
  {
  }

  /**
   * Each blink has exactly one LOW and one HIGH write: a sequence of n blinks
   * holds n of each.
   */
  lemma {:induction false} BlinkTraceCounts(pin: int, startMs: int, n: nat)
    ensures |set k | 0 <= k < 2 * n && BlinkTrace(pin, startMs, n)[k].level == Low| == n
    ensures |set k | 0 <= k < 2 * n && BlinkTrace(pin, startMs, n)[k].level == High| == n
  {
    var t := BlinkTrace(pin, startMs, n);
    var lows := set k | 0 <= k < 2 * n && t[k].level == Low;
    var highs := set k | 0 <= k < 2 * n && t[k].level == High;
    var evens := set j | 0 <= j < n :: 2 * j + 0;
    var odds := set j | 0 <= j < n :: 2 * j + 1;
    forall k | 0 <= k < 2 * n
      ensures t[k].level == (if k % 2 == 0 then Low else High)
    {
      BlinkTraceAt(pin, startMs, n, k);
    }
    assert lows == evens by {
      forall k | k in lows ensures k in evens {
        assert 2 * (k / 2) == k;
      }
    }
    assert highs == odds by {
      forall k | k in highs ensures k in odds {
        assert 2 * (k / 2) + 1 == k;
      }
    }
    MultiplesCount(n, 0);
    MultiplesCount(n, 1);
  }

  /** The set {2j + r | 0 <= j < n} has n elements. */
  lemma {:induction false} MultiplesCount(n: nat, r: int)
    ensures |set j | 0 <= j < n :: 2 * j + r| == n
  {
    if n > 0 {
      MultiplesCount(n - 1, r);
      var smaller := set j | 0 <= j < n - 1 :: 2 * j + r;
      assert (set j | 0 <= j < n :: 2 * j + r) == smaller + {2 * (n - 1) + r};
      assert 2 * (n - 1) + r !in smaller;
    } else {
      assert (set j | 0 <= j < n :: 2 * j + r) == {};
    }
  }

  class Identify {
    /** The number of blinks of the identify routine, fixed at construction. */
    const nBlinks: int

    constructor (nBlinks: int)
      ensures this.nBlinks == nBlinks
    {
      this.nBlinks := nBlinks;
    }

    /**
     * Blinks the status LED nBlinks times and reports success: the board gets
     * the writes of BlinkTrace (none when nBlinks is not positive) and its
     * clock advances by 500 ms per blink.
     */
    method Update(board: Board, statusPin: int) returns (ok: bool)
      modifies board
      ensures ok
      ensures board.writes == old(board.writes) + BlinkTrace(statusPin, old(board.clockMs), BlinkCount(nBlinks))
      ensures board.clockMs == old(board.clockMs) + 2 * HalfBlinkMs * BlinkCount(nBlinks)
    {
      var i := 0;
      while i < nBlinks
        invariant 0 <= i <= BlinkCount(nBlinks)
        invariant board.writes == old(board.writes) + BlinkTrace(statusPin, old(board.clockMs), i)
        invariant board.clockMs == old(board.clockMs) + 2 * HalfBlinkMs * i
      {
        board.DigitalWrite(statusPin, Low);
        board.Delay(HalfBlinkMs);
        board.DigitalWrite(statusPin, High);
        board.Delay(HalfBlinkMs);
        i := i + 1;
      }
      ok := true;
    }
  }

  /**
   * An identify request on a fresh board with nBlinks = 3 issues three
   * LOW-then-HIGH pairs on the status pin and takes 1500 ms.
   */
  method IdentifyThreeBlinks(statusPin: int) returns (board: Board)
    ensures |board.writes| == 6 && board.clockMs == 1500
    ensures forall k :: 0 <= k < 6 ==> board.writes[k].pin == statusPin
    ensures board.writes[0].level == Low && board.writes[5].level == High
  {
    board := new Board();
    var identify := new Identify(3);
    var ok := identify.Update(board, statusPin);
    assert board.writes == BlinkTrace(statusPin, 0, 3);
    forall k | 0 <= k < 6 ensures board.writes[k].pin == statusPin {
      BlinkTraceAt(statusPin, 0, 3, k);
    }
    BlinkTraceAt(statusPin, 0, 3, 0);
    BlinkTraceAt(statusPin, 0, 3, 5);
  }
}
