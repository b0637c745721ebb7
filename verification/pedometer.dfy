/** The wheel-encoder driver of the pedometer: wide timers 0 and 1 of the
    TM4C123 count encoder edges, and the count register of each timer is the
    position of one wheel (0 the left wheel, 1 the right wheel). Each timer
    register is a `bv32` field; each driver routine is a method doing the
    same assignments and read-modify-write updates. */
module Pedometer {
  import opened Registers

  // Bit definitions of the TM4C123GH6PM device header.
  const TimerCtlTaen: bv32 := 0x1         // CTL: timer A enable
  const TimerCtlTaeventPos: bv32 := 0x0   // CTL: edge-select value for positive edges (all zero)
  const TimerCtlTaeventM: bv32 := 0xC     // CTL: the edge-select field, bits 3:2
  const TimerTamrTamrCap: bv32 := 0x3     // TAMR: capture mode
  const TimerTamrTacdir: bv32 := 0x10     // TAMR: count direction, set = up
  const TimerImrCaeim: bv32 := 0x4        // IMR: capture event interrupt

  /** CFG value selecting one 32-bit counter (timer A only). */
  const CounterConfig: bv32 := 4

  /** The count wide timer 1 starts from when configured to count down. */
  const DownCountStart: bv32 := 400

  /** The position reported for an encoder id other than 0 and 1. */
  const UnknownId: int32 := -1

  /** The control and count registers of one wide timer. */
  class WideTimer {
    var ctl: bv32   // WTIMERn_CTL_R: control
    var cfg: bv32   // WTIMERn_CFG_R: configuration
    var tamr: bv32  // WTIMERn_TAMR_R: timer A mode
    var imr: bv32   // WTIMERn_IMR_R: interrupt mask
    var tav: bv32   // WTIMERn_TAV_R: timer A value, the encoder position

    /** A timer whose register contents are not yet known. */
    constructor ()
    {
    }

    /** Timer A is counting. */
    ghost predicate Enabled()
      reads this
    {
      HasBits(ctl, TimerCtlTaen)
    }

    /** Timer A counts up, so each edge increases the position. */
    ghost predicate CountsUp()
      reads this
    {
      HasBits(tamr, TimerTamrTacdir)
    }

    /** The configuration sequence shared by `setTimerModeUp` and
        `setTimerModeDown`: stop the counter, select a single 32-bit edge
        counter in capture mode `mode`, OR the positive-edge value into the
        control register, mask the capture interrupt, load the start count
        and restart the counter. The positive-edge value is all zero, so
        the OR leaves the edge-select field as it was: the timer counts
        positive edges only if that field still holds its reset value. */
    method ConfigureCounter(mode: bv32, start: bv32)
      modifies this
      ensures ctl == SetBits(old(ctl), TimerCtlTaeventPos | TimerCtlTaen)
      ensures ctl & TimerCtlTaeventM == old(ctl) & TimerCtlTaeventM
      ensures cfg == CounterConfig
      ensures tamr == mode
      ensures imr == ClearBits(old(imr), TimerImrCaeim)
      ensures tav == start
      ensures Enabled()
    {
      ctl := ClearBits(ctl, TimerCtlTaen);
      cfg := CounterConfig;
      tamr := mode;
      ctl := SetBits(ctl, TimerCtlTaeventPos);
      imr := ClearBits(imr, TimerImrCaeim);
      tav := start;
      ctl := SetBits(ctl, TimerCtlTaen);
      ClearThenSetWith(old(ctl), TimerCtlTaen, TimerCtlTaeventPos);
      EdgeSelectKept(old(ctl));
    }

    /** Stop the counter, set the direction bit, restart the counter: the
        timer counts up and is enabled; the position and every other bit of
        the two registers are kept. */
    method CountUp()
      modifies this`ctl, this`tamr
      ensures ctl == SetBits(old(ctl), TimerCtlTaen)
      ensures tamr == SetBits(old(tamr), TimerTamrTacdir)
      ensures Enabled() && CountsUp()
    {
      ctl := ClearBits(ctl, TimerCtlTaen);
      tamr := SetBits(tamr, TimerTamrTacdir);
      ctl := SetBits(ctl, TimerCtlTaen);
      ClearThenSet(old(ctl), TimerCtlTaen);
    }

    /** Stop the counter, clear the direction bit, restart the counter: the
        timer counts down and is enabled; the position and every other bit
        of the two registers are kept. */
    method CountDown()
      modifies this`ctl, this`tamr
      ensures ctl == SetBits(old(ctl), TimerCtlTaen)
      ensures tamr == ClearBits(old(tamr), TimerTamrTacdir)
      ensures Enabled() && !CountsUp()
    {
      ctl := ClearBits(ctl, TimerCtlTaen);
      tamr := ClearBits(tamr, TimerTamrTacdir);
      ctl := SetBits(ctl, TimerCtlTaen);
      ClearThenSet(old(ctl), TimerCtlTaen);
    }
  }

  /** Setting the positive-edge value and the enable bit together leaves the
      edge-select field unchanged, so the field selects positive edges
      afterwards exactly when it did before. */
  lemma EdgeSelectKept(ctl: bv32)
    ensures SetBits(ctl, TimerCtlTaeventPos | TimerCtlTaen) & TimerCtlTaeventM == ctl & TimerCtlTaeventM
    ensures SetBits(ctl, TimerCtlTaeventPos | TimerCtlTaen) & TimerCtlTaeventM == TimerCtlTaeventPos
            <==> ctl & TimerCtlTaeventM == TimerCtlTaeventPos
  {
    assert SetBits(ctl, TimerCtlTaeventPos | TimerCtlTaen) == ctl | TimerCtlTaen;
    assert (ctl | TimerCtlTaen) & TimerCtlTaeventM == ctl & TimerCtlTaeventM;
  }

  /** A control register that selects both edges (field value 0xC) still
      selects both edges after the configuration sequence: the sequence does
      not by itself select positive edges. */
  lemma BothEdgesSurviveConfiguration()
    ensures SetBits(TimerCtlTaeventM, TimerCtlTaeventPos | TimerCtlTaen) & TimerCtlTaeventM != TimerCtlTaeventPos
  {
    EdgeSelectKept(TimerCtlTaeventM);
  }

  /** Capture mode with the direction bit set: the mode `setTimerModeUp` selects. */
  lemma UpModeCountsUp()
    ensures HasBits(TimerTamrTamrCap | TimerTamrTacdir, TimerTamrTacdir)
    ensures !HasBits(TimerTamrTamrCap, TimerTamrTacdir)
    ensures SetBits(TimerTamrTamrCap, TimerTamrTacdir) == TimerTamrTamrCap | TimerTamrTacdir
  {
  }

  /** Turning the direction up and then down again leaves the direction bit
      clear, keeps every other mode bit, and leaves the counter enabled with
      every other control bit as it was. */
  lemma {:induction false} UpThenDown(ctl: bv32, tamr: bv32)
    ensures SetBits(SetBits(ctl, TimerCtlTaen), TimerCtlTaen) == SetBits(ctl, TimerCtlTaen)
    ensures ClearBits(SetBits(tamr, TimerTamrTacdir), TimerTamrTacdir) == ClearBits(tamr, TimerTamrTacdir)
  {
    SetTwice(ctl, TimerCtlTaen);
    SetThenClear(tamr, TimerTamrTacdir);
  }

  /** The two wide timers that count the encoder edges. */
  class Encoders {
    const wt0: WideTimer  // wide timer 0: left wheel, counts up after configuration
    const wt1: WideTimer  // wide timer 1: right wheel, counts down after configuration

    /** The two timers are different sets of registers. */
    ghost predicate Valid()
      reads this
    {
      wt0 != wt1
    }

    constructor ()
      ensures Valid() && fresh(wt0) && fresh(wt1)
    {
      wt0 := new WideTimer();
      wt1 := new WideTimer();
    }

    /** `setTimerModeUp`: wide timer 0 becomes an enabled up-counting
        capture counter starting from 0; wide timer 1 is untouched. */
    method SetTimerModeUp()
      requires Valid()
      modifies wt0
      ensures wt0.cfg == CounterConfig
      ensures wt0.tamr == TimerTamrTamrCap | TimerTamrTacdir
      ensures wt0.imr == ClearBits(old(wt0.imr), TimerImrCaeim)
      ensures wt0.tav == 0
      ensures wt0.ctl == SetBits(old(wt0.ctl), TimerCtlTaeventPos | TimerCtlTaen)
      ensures wt0.Enabled() && wt0.CountsUp()
      ensures unchanged(wt1)
    {
      wt0.ConfigureCounter(TimerTamrTamrCap | TimerTamrTacdir, 0);
      UpModeCountsUp();
    }

    /** `setTimerModeDown`: wide timer 1 becomes an enabled down-counting
        capture counter starting from 400; wide timer 0 is untouched. */
    method SetTimerModeDown()
      requires Valid()
      modifies wt1
      ensures wt1.cfg == CounterConfig
      ensures wt1.tamr == TimerTamrTamrCap
      ensures wt1.imr == ClearBits(old(wt1.imr), TimerImrCaeim)
      ensures wt1.tav == DownCountStart
      ensures wt1.ctl == SetBits(old(wt1.ctl), TimerCtlTaeventPos | TimerCtlTaen)
      ensures wt1.Enabled() && !wt1.CountsUp()
      ensures unchanged(wt0)
    {
      wt1.ConfigureCounter(TimerTamrTamrCap, DownCountStart);
      UpModeCountsUp();
    }

    /** `setEncoderPosition`: id 1 stores `position` in wide timer 1's count,
        id 0 in wide timer 0's count, as the 32 bits of the `int32_t`; any
        other id changes nothing. */
    method SetEncoderPosition(id: uint8, position: int32)
      requires Valid()
      modifies wt0`tav, wt1`tav
      ensures id == 0 ==> wt0.tav == AsRegister(position) && unchanged(wt1)
      ensures id == 1 ==> wt1.tav == AsRegister(position) && unchanged(wt0)
      ensures id != 0 && id != 1 ==> unchanged(wt0) && unchanged(wt1)
    {
      if id == 1 {
        wt1.tav := AsRegister(position);
      } else if id == 0 {
        wt0.tav := AsRegister(position);
      }
    }

    /** `getEncoderPosition`: the count of wide timer 0 or 1, read as an
        `int32_t`, or -1 for any other id. The value read is the one whose
        32 bits the count register holds. */
    method GetEncoderPosition(id: uint8) returns (position: int32)
      requires Valid()
      ensures id == 0 ==> AsRegister(position) == wt0.tav
      ensures id == 1 ==> AsRegister(position) == wt1.tav
      ensures id != 0 && id != 1 ==> position == UnknownId
    {
      if id == 0 {
        position := AsInt32(wt0.tav);
        RegisterReadBack(wt0.tav);
      } else if id == 1 {
        position := AsInt32(wt1.tav);
        RegisterReadBack(wt1.tav);
      } else {
        position := UnknownId;
      }
    }

    /** Setting a position and reading it back gives the position set, for
        both encoders; an unknown id reads -1 and nothing is stored. */
    method SetThenGetPosition(id: uint8, position: int32) returns (read: int32)
      requires Valid()
      modifies wt0`tav, wt1`tav
      ensures id == 0 || id == 1 ==> read == position
      ensures id != 0 && id != 1 ==> read == UnknownId && unchanged(wt0) && unchanged(wt1)
    {
      SetEncoderPosition(id, position);
      read := GetEncoderPosition(id);
      if id == 0 || id == 1 {
        AsRegisterInjective(read, position);
      }
    }

    /** `selectEncoderIncMode`: the selected timer counts up and is enabled,
        keeping its position and its other bits; the other timer and any
        unknown id change nothing. */
    method SelectEncoderIncMode(id: uint8)
      requires Valid()
      modifies wt0`ctl, wt0`tamr, wt1`ctl, wt1`tamr
      ensures id == 0 ==> (wt0.ctl == SetBits(old(wt0.ctl), TimerCtlTaen)
                        && wt0.tamr == SetBits(old(wt0.tamr), TimerTamrTacdir)
                        && wt0.Enabled() && wt0.CountsUp() && unchanged(wt1))
      ensures id == 1 ==> (wt1.ctl == SetBits(old(wt1.ctl), TimerCtlTaen)
                        && wt1.tamr == SetBits(old(wt1.tamr), TimerTamrTacdir)
                        && wt1.Enabled() && wt1.CountsUp() && unchanged(wt0))
      ensures id != 0 && id != 1 ==> unchanged(wt0) && unchanged(wt1)
    {
      if id == 0 {
        wt0.CountUp();
      } else if id == 1 {
        wt1.CountUp();
      }
    }

    /** `selectEncoderDecMode`: the selected timer counts down and is
        enabled, keeping its position and its other bits; the other timer
        and any unknown id change nothing. */
    method SelectEncoderDecMode(id: uint8)
      requires Valid()
      modifies wt0`ctl, wt0`tamr, wt1`ctl, wt1`tamr
      ensures id == 0 ==> (wt0.ctl == SetBits(old(wt0.ctl), TimerCtlTaen)
                        && wt0.tamr == ClearBits(old(wt0.tamr), TimerTamrTacdir)
                        && wt0.Enabled() && !wt0.CountsUp() && unchanged(wt1))
      ensures id == 1 ==> (wt1.ctl == SetBits(old(wt1.ctl), TimerCtlTaen)
                        && wt1.tamr == ClearBits(old(wt1.tamr), TimerTamrTacdir)
                        && wt1.Enabled() && !wt1.CountsUp() && unchanged(wt0))
      ensures id != 0 && id != 1 ==> unchanged(wt0) && unchanged(wt1)
    {
      if id == 0 {
        wt0.CountDown();
      } else if id == 1 {
        wt1.CountDown();
      }
    }

    /** Selecting up and then down counting on one encoder changes only the
        direction bit of its mode register (ending clear) and enables the
        counter; its position is never touched. */
    method IncThenDecMode(id: uint8)
      requires Valid()
      requires id == 0 || id == 1
      modifies wt0`ctl, wt0`tamr, wt1`ctl, wt1`tamr
      ensures id == 0 ==> (wt0.tamr & !TimerTamrTacdir == old(wt0.tamr) & !TimerTamrTacdir
                        && wt0.ctl == SetBits(old(wt0.ctl), TimerCtlTaen)
                        && !wt0.CountsUp() && unchanged(wt1))
      ensures id == 1 ==> (wt1.tamr & !TimerTamrTacdir == old(wt1.tamr) & !TimerTamrTacdir
                        && wt1.ctl == SetBits(old(wt1.ctl), TimerCtlTaen)
                        && !wt1.CountsUp() && unchanged(wt0))
      ensures wt0.tav == old(wt0.tav) && wt1.tav == old(wt1.tav)
    {
      SelectEncoderIncMode(id);
      SelectEncoderDecMode(id);
      UpThenDown(old(wt0.ctl), old(wt0.tamr));
      UpThenDown(old(wt1.ctl), old(wt1.tamr));
    }

    /** The timer part of `initPedometer`: configure wide timer 0 up and wide
        timer 1 down, zero both positions and select up counting on both.
        The start count of 400 and the down direction of wide timer 1 are
        both overridden, so both encoders end at position 0, counting up,
        enabled, in capture mode with the capture interrupt masked; every
        other control and interrupt-mask bit keeps its value. */
    method InitPedometer()
      requires Valid()
      modifies wt0, wt1
      ensures wt0.tav == 0 && wt1.tav == 0
      ensures wt0.Enabled() && wt0.CountsUp() && wt1.Enabled() && wt1.CountsUp()
      ensures wt0.cfg == CounterConfig && wt1.cfg == CounterConfig
      ensures wt0.tamr == TimerTamrTamrCap | TimerTamrTacdir
      ensures wt1.tamr == TimerTamrTamrCap | TimerTamrTacdir
      ensures wt0.imr == ClearBits(old(wt0.imr), TimerImrCaeim)
      ensures wt1.imr == ClearBits(old(wt1.imr), TimerImrCaeim)
      ensures wt0.ctl == SetBits(old(wt0.ctl), TimerCtlTaen)
      ensures wt1.ctl == SetBits(old(wt1.ctl), TimerCtlTaen)
    {
      SetTimerModeUp();
      SetTimerModeDown();
      SetEncoderPosition(1, 0);
      SetEncoderPosition(0, 0);
      SelectEncoderIncMode(1);
      SelectEncoderIncMode(0);
      UpModeCountsUp();
      assert wt0.tamr == (TimerTamrTamrCap | TimerTamrTacdir) | TimerTamrTacdir;
      assert TimerCtlTaeventPos | TimerCtlTaen == TimerCtlTaen;
      SetTwice(old(wt0.ctl), TimerCtlTaen);
      SetTwice(old(wt1.ctl), TimerCtlTaen);
    }
  }
}
