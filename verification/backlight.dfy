/** The RGB backlight driver: PWM module 0 of the TM4C123 drives four
    backlight outputs from two generator blocks. Generator 1 drives outputs
    2 and 3 (orange on PB4, red on PB5), generator 2 drives outputs 4 and 5
    (blue on PE4, green on PE5). Each register of the module is a `bv32`
    field; each driver routine is a method doing the same assignments. */
module Backlight {
  import opened Registers

  /** The period loaded into both generators, in PWM clock counts. */
  const PeriodLoad: bv32 := 1024

  /** The same period as the C `int` the duty-cycle conversion computes in:
      a duty cycle of 100% converts to it. `PeriodLoad` is its register
      form; `FullScaleIsPeriod` ties the two. */
  const FullScale: int32 := 1024

  /** The compare value both generators start from: half of the period. */
  const InitialCompare: bv32 := 512

  // Bit definitions of the TM4C123GH6PM device header.
  const SysctlSrpwmR0: bv32 := 0x1
  const Pwm0CtlEnable: bv32 := 0x1
  const Pwm0GenaActcmpadZero: bv32 := 0x80
  const Pwm0GenaActloadOne: bv32 := 0xC
  const Pwm0GenbActcmpbdZero: bv32 := 0x800
  const Pwm0GenbActloadOne: bv32 := 0xC
  const PwmInvertPwm2Inv: bv32 := 0x4
  const PwmInvertPwm3Inv: bv32 := 0x8
  const PwmInvertPwm4Inv: bv32 := 0x10
  const PwmInvertPwm5Inv: bv32 := 0x20
  const PwmEnablePwm2En: bv32 := 0x4
  const PwmEnablePwm3En: bv32 := 0x8
  const PwmEnablePwm4En: bv32 := 0x10
  const PwmEnablePwm5En: bv32 := 0x20

  /** Generator action for output A: drive low on compare A while counting
      down, drive high on load. */
  const GenAAction: bv32 := Pwm0GenaActcmpadZero | Pwm0GenaActloadOne
  /** Generator action for output B: drive low on compare B while counting
      down, drive high on load. */
  const GenBAction: bv32 := Pwm0GenbActcmpbdZero | Pwm0GenbActloadOne
  /** The four backlight outputs, in the INVERT register. */
  const BacklightInverted: bv32 := PwmInvertPwm3Inv | PwmInvertPwm4Inv | PwmInvertPwm5Inv | PwmInvertPwm2Inv
  /** The four backlight outputs, in the ENABLE register. */
  const BacklightEnabled: bv32 := PwmEnablePwm3En | PwmEnablePwm4En | PwmEnablePwm5En | PwmEnablePwm2En

  /** `(pwm * 1024) / 100` as the C code evaluates it: the `uint16_t` is
      promoted to a 32-bit `int`, so the product is computed in `int32`
      (Dafny checks that it cannot overflow), and the division truncates,
      which for these non-negative operands is floor division. The result
      is the floor of `percent * 1024 / 100`, and it stays within the
      period exactly when the percentage is at most 100. */
  function DutyCycleToCompare(percent: uint16): (compare: int32)
    ensures 0 <= compare
    ensures compare as int * 100 <= percent as int * FullScale as int < (compare as int + 1) * 100
    ensures compare <= FullScale <==> percent <= 100
  {
    (percent as int32 * FullScale) / 100
  }

  /** The bits a compare register holds after `PWM0_n_CMPx_R = (pwm * 1024) / 100`:
      the non-negative `int` converts to the same unsigned number. */
  function CompareRegister(percent: uint16): (r: bv32)
    ensures r as int == DutyCycleToCompare(percent) as int
  {
    AsRegister(DutyCycleToCompare(percent))
  }

  /** The conversion's full scale and the loaded period are the same count. */
  lemma FullScaleIsPeriod()
    ensures FullScale as int == PeriodLoad as int
  {
  }

  /** A larger percentage never gives a smaller compare value. */
  lemma CompareMonotone(p: uint16, q: uint16)
    requires p <= q
    ensures DutyCycleToCompare(p) <= DutyCycleToCompare(q)
  {
  }

  /** The compare register stays at or below the loaded period exactly when
      the percentage is at most 100. */
  lemma {:induction false} CompareRegisterWithinPeriod(percent: uint16)
    ensures CompareRegister(percent) <= PeriodLoad <==> percent <= 100
  {
    var r := CompareRegister(percent);
    WithinLoad(r);
  }

  /** A register is at most the loaded period, compared as bits, exactly when
      its unsigned value is at most 1024. */
  lemma WithinLoad(r: bv32)
    ensures (r <= PeriodLoad) == (r as int <= FullScale as int)
  {
  }

  /** The register values of the first step of the demo loop. */
  lemma DemoCompares()
    ensures CompareRegister(80) == 819 && CompareRegister(0) == 0
  {
    WorkedValues();
    assert CompareRegister(80) as int == 819;
    assert CompareRegister(0) as int == 0;
  }

  /** The duty cycles the demo loop uses, and the initial value. */
  lemma WorkedValues()
    ensures DutyCycleToCompare(0) == 0
    ensures DutyCycleToCompare(50) == 512
    ensures DutyCycleToCompare(80) == 819
    ensures DutyCycleToCompare(100) == 1024
  {
  }

  /** A generator whose compares were set from percentages `a` and `b` stays
      within its 1024-count period exactly when both are at most 100. */
  lemma GeneratorWithinPeriod(g: PwmGenerator, a: uint16, b: uint16)
    requires g.cmpA == CompareRegister(a) && g.cmpB == CompareRegister(b)
    ensures g.load == PeriodLoad ==> (g.ComparesWithinPeriod() <==> a <= 100 && b <= 100)
  {
    CompareRegisterWithinPeriod(a);
    CompareRegisterWithinPeriod(b);
  }

  /** The registers of one PWM0 generator block. */
  class PwmGenerator {
    var ctl: bv32   // PWM0_n_CTL_R: generator control
    var genA: bv32  // PWM0_n_GENA_R: actions for output A
    var genB: bv32  // PWM0_n_GENB_R: actions for output B
    var load: bv32  // PWM0_n_LOAD_R: counter period
    var cmpA: bv32  // PWM0_n_CMPA_R: compare value for output A
    var cmpB: bv32  // PWM0_n_CMPB_R: compare value for output B

    /** A generator whose register contents are not yet known. */
    constructor ()
    {
    }

    /** Both compare values lie within the period loaded in this generator. */
    ghost predicate ComparesWithinPeriod()
      reads this
    {
      cmpA <= load && cmpB <= load
    }
  }

  /** PWM module 0 as the backlight uses it, with the system-control
      register that holds the module in reset. */
  class Pwm0 {
    const gen1: PwmGenerator  // generator 1: orange (output 2) and red (output 3)
    const gen2: PwmGenerator  // generator 2: blue (output 4) and green (output 5)
    var invert: bv32          // PWM0_INVERT_R
    var enable: bv32          // PWM0_ENABLE_R
    var softwareReset: bv32   // SYSCTL_SRPWM_R

    /** The two generator blocks are different sets of registers. */
    ghost predicate Valid()
      reads this
    {
      gen1 != gen2
    }

    /** Both generators count over the 1024-count period. */
    ghost predicate PeriodLoaded()
      reads this, gen1, gen2
    {
      gen1.load == PeriodLoad && gen2.load == PeriodLoad
    }

    /** Every compare value lies within its generator's period. */
    ghost predicate ComparesWithinPeriod()
      reads this, gen1, gen2
    {
      gen1.ComparesWithinPeriod() && gen2.ComparesWithinPeriod()
    }

    constructor ()
      ensures Valid() && fresh(gen1) && fresh(gen2)
    {
      gen1 := new PwmGenerator();
      gen2 := new PwmGenerator();
    }

    /** The PWM part of `initializePwm`: pulse the module reset, stop both
        generators, program the output actions, a 1024-count period, inverted
        outputs and a 50% compare on all four outputs, then start both
        generators and enable the four outputs. */
    method InitializePwm()
      requires Valid()
      modifies this, gen1, gen2
      ensures Valid()
      ensures softwareReset == 0
      ensures gen1.ctl == Pwm0CtlEnable && gen2.ctl == Pwm0CtlEnable
      ensures gen1.genA == GenAAction && gen1.genB == GenBAction
      ensures gen2.genA == GenAAction && gen2.genB == GenBAction
      ensures PeriodLoaded()
      ensures gen1.cmpA == InitialCompare && gen1.cmpB == InitialCompare
      ensures gen2.cmpA == InitialCompare && gen2.cmpB == InitialCompare
      ensures invert == BacklightInverted && enable == BacklightEnabled
      ensures ComparesWithinPeriod()
    {
      softwareReset := SysctlSrpwmR0;
      softwareReset := 0;
      gen1.ctl := 0;
      gen2.ctl := 0;
      gen1.genB := Pwm0GenbActcmpbdZero | Pwm0GenbActloadOne;
      gen2.genA := Pwm0GenaActcmpadZero | Pwm0GenaActloadOne;
      gen2.genB := Pwm0GenbActcmpbdZero | Pwm0GenbActloadOne;
      gen1.genA := Pwm0GenaActcmpadZero | Pwm0GenaActloadOne;
      gen1.load := PeriodLoad;
      gen2.load := PeriodLoad;
      invert := PwmInvertPwm3Inv | PwmInvertPwm4Inv | PwmInvertPwm5Inv | PwmInvertPwm2Inv;
      gen1.cmpB := InitialCompare;
      gen1.cmpA := InitialCompare;
      gen2.cmpB := InitialCompare;
      gen2.cmpA := InitialCompare;
      gen1.ctl := Pwm0CtlEnable;
      gen2.ctl := Pwm0CtlEnable;
      enable := PwmEnablePwm3En | PwmEnablePwm4En | PwmEnablePwm5En | PwmEnablePwm2En;
    }

    /** `setPwmDutyCycle`: id 0 sets both compares of generator 1, id 1 both
        compares of generator 2, any other id changes nothing. Only compare
        registers can change. With the period loaded, the compares stay
        within it when both percentages are at most 100, and a selected
        generator leaves it when either percentage is above 100. */
    method SetPwmDutyCycle(id: uint8, pwmA: uint16, pwmB: uint16)
      requires Valid()
      modifies gen1`cmpA, gen1`cmpB, gen2`cmpA, gen2`cmpB
      ensures id == 0 ==> gen1.cmpA == CompareRegister(pwmA) && gen1.cmpB == CompareRegister(pwmB) && unchanged(gen2)
      ensures id == 1 ==> gen2.cmpA == CompareRegister(pwmA) && gen2.cmpB == CompareRegister(pwmB) && unchanged(gen1)
      ensures id != 0 && id != 1 ==> unchanged(gen1) && unchanged(gen2)
      ensures old(PeriodLoaded() && ComparesWithinPeriod()) && pwmA <= 100 && pwmB <= 100 ==> ComparesWithinPeriod()
      ensures PeriodLoaded() && (id == 0 || id == 1) && (pwmA > 100 || pwmB > 100) ==> !ComparesWithinPeriod()
    {
      if id == 0 {
        gen1.cmpA := CompareRegister(pwmA);
        gen1.cmpB := CompareRegister(pwmB);
        GeneratorWithinPeriod(gen1, pwmA, pwmB);
      } else if id == 1 {
        gen2.cmpA := CompareRegister(pwmA);
        gen2.cmpB := CompareRegister(pwmB);
        GeneratorWithinPeriod(gen2, pwmA, pwmB);
      }
    }

    /** Repeating `setPwmDutyCycle` with the same arguments is idempotent:
        when the selected generator already holds the compares for `pwmA`
        and `pwmB`, the call changes no register. */
    method RepeatPwmDutyCycle(id: uint8, pwmA: uint16, pwmB: uint16)
      requires Valid()
      requires id == 0 ==> gen1.cmpA == CompareRegister(pwmA) && gen1.cmpB == CompareRegister(pwmB)
      requires id == 1 ==> gen2.cmpA == CompareRegister(pwmA) && gen2.cmpB == CompareRegister(pwmB)
      modifies gen1`cmpA, gen1`cmpB, gen2`cmpA, gen2`cmpB
      ensures unchanged(gen1) && unchanged(gen2)
    {
      SetPwmDutyCycle(id, pwmA, pwmB);
    }

    /** The start of the demo in `main`: initialise, then set generator 2 to
        80% on output A and 0% on output B. */
    method StartDemo()
      requires Valid()
      modifies this, gen1, gen2
      ensures Valid()
      ensures gen2.cmpA == 819 && gen2.cmpB == 0
      ensures gen1.cmpA == InitialCompare && gen1.cmpB == InitialCompare
      ensures PeriodLoaded() && ComparesWithinPeriod()
    {
      InitializePwm();
      SetPwmDutyCycle(1, 80, 0);
      DemoCompares();
    }
  }
}
