# TM4C123 backlight PWM and wheel-encoder drivers, modelled in Dafny

Two small bare-metal drivers for the TM4C123GH6PM microcontroller, modelled as
simulated register files. Every PWM and wide-timer register the drivers write
is a `bv32` field of a class. Every driver routine is a method that performs the
same assignments and the same read-modify-write updates (`reg |= mask`,
`reg &= ~mask`) in the same order.

- `registers.dfy` (module `Registers`) holds the C idioms both drivers use:
  - the fixed-width types `uint8_t`, `uint16_t` and `int32_t`;
  - `|=` and `&= ~` on a 32-bit register;
  - the conversion of an `int32_t` into a 32-bit register value, and back.
- `backlight.dfy` (module `Backlight`) models the RGB backlight driver of
  `Lab7/lab7_Happy_Ndikumana.c`. PWM module 0 has two generator blocks:
  - generator 1 drives outputs 2 and 3;
  - generator 2 drives outputs 4 and 5.

  `initializePwm` leaves a fixed end state in these registers. `setPwmDutyCycle`
  turns percentages into compare values with `(p * 1024) / 100` and selects a
  generator by id.
- `pedometer.dfy` (module `Pedometer`) models the wheel-encoder driver of
  `Lab8/Lab8/pedometer.c`. Wide timers 0 and 1 count encoder edges, and each
  timer's count register (TAV) is the position of one wheel. The routines:
  - configure a timer as an up- or down-counter;
  - set and read a position, with `-1` for an unknown id;
  - switch the count direction by stopping the timer, setting or clearing
    the direction bit, and restarting the timer;
  - `initPedometer` runs the whole sequence.

The bit masks come from the device header `tm4c123gh6pm.h`, which is not part
of this model. The constants carry the values the TM4C123GH6PM data sheet
gives them:

- `TIMER_CTL_TAEN` = 0x1
- `TIMER_CTL_TAEVENT_POS` = 0x0
- `TIMER_TAMR_TAMR_CAP` = 0x3
- `TIMER_TAMR_TACDIR` = 0x10
- `TIMER_IMR_CAEIM` = 0x4
- `PWM_0_CTL_ENABLE` = 0x1
- `PWM_0_GENA_ACTCMPAD_ZERO` = 0x80
- `PWM_0_GENA_ACTLOAD_ONE` = 0xC
- `PWM_0_GENB_ACTCMPBD_ZERO` = 0x800
- `PWM_0_GENB_ACTLOAD_ONE` = 0xC
- `PWM_INVERT_PWMnINV` and `PWM_ENABLE_PWMnEN` = bit n
- `SYSCTL_SRPWM_R0` = 0x1

The masks are fixed to these data-sheet values; they are not left as
unknown constants. The lemmas of `Registers` (`ClearThenSet`,
`ClearThenSetWith`, `SetThenClear`, `SetTwice`) hold for any mask. So do the
frames and the per-register end states of `CountUp`, `CountDown`,
`SetTimerModeUp`, `SetTimerModeDown` and the encoder-position methods. Some
facts depend on the concrete values:

- `TIMER_CTL_TAEVENT_POS` = 0 and `TIMER_CTL_TAEN` = 1:
  - the edge-select clause of `Pedometer.WideTimer.ConfigureCounter`;
  - `Pedometer.EdgeSelectKept`;
  - `Pedometer.BothEdgesSurviveConfiguration`;
  - the control-register clauses of `Pedometer.Encoders.InitPedometer`,
    which merge the positive-edge and enable steps into one enable.
- `TIMER_TAMR_TAMR_CAP` and `TIMER_TAMR_TACDIR` sharing no bit: that
  capture mode alone counts down. This is the second clause of
  `Pedometer.UpModeCountsUp`, and the `!CountsUp()` clause of
  `SetTimerModeDown`. That capture mode with the direction bit counts up
  holds for any values.

C details made explicit:

- `pwm * 1024` promotes the `uint16_t` to a 32-bit `int`. The model computes
  the product in the `int32` newtype, so the proof that the product never
  overflows is part of the model.
- C division truncates and Dafny's `/` is Euclidean. The two agree on
  non-negative operands, which are the only ones here.
- Storing an `int32_t` in a 32-bit register takes the value modulo 2^32, as
  C requires for conversion to an unsigned type.
- Reading the register back as `int32_t` (`return WTIMER0_TAV_R;`) converts
  a `uint32_t` that may exceed `INT32_MAX`. C leaves that case
  implementation-defined (section 6.3.1.3 of C11). `AsInt32` follows the
  ARM compilers, which reduce the value modulo 2^32 into the `int32_t`
  range (two's complement).
- The model writes both conversions out.

The conversion yields 1024 for 100%, which equals the loaded period. A
comment in `initializePwm` speaks of 1023 as "always high", but the model
follows the arithmetic.

`TIMER_CTL_TAEVENT_POS` is the all-zero value of the edge-select field
(CTL bits 3:2). So `WTIMERn_CTL_R |= TIMER_CTL_TAEVENT_POS` changes no bit.
The field keeps whatever it held before. The timers count positive edges
only while the field still holds its reset value of zero. The model keeps
this behaviour of the code: `ConfigureCounter` states that the field is
kept, and `BothEdgesSurviveConfiguration` shows a register for which the
sequence does not select positive edges.

## Model

| member | source | states |
|---|---|---|
| Registers.SetBits | Lab8/Lab8/pedometer.c:40 | `reg \|= mask` sets every bit of the mask and keeps every other bit |
| Registers.ClearBits | Lab8/Lab8/pedometer.c:37 | `reg &= ~mask` clears every bit of the mask and keeps every other bit |
| Registers.ClearThenSet | Lab8/Lab8/pedometer.c:116-118 | disabling a field and enabling it again ends as enabling it alone |
| Registers.ClearThenSetWith | Lab8/Lab8/pedometer.c:37-43 | disabling a field, setting other bits and re-enabling the field ends as setting both in one step |
| Registers.SetThenClear | Lab8/Lab8/pedometer.c:117-132 | setting a field and then clearing it ends as clearing it alone |
| Registers.SetTwice | Lab8/Lab8/pedometer.c:174-181 | setting a bit that a previous step already set changes nothing more, as when `initPedometer` re-enables a running timer |
| Registers.AsRegister | Lab8/Lab8/pedometer.c:97 | storing an `int32_t` in a 32-bit register keeps its value modulo 2^32 |
| Registers.AsInt32 | Lab8/Lab8/pedometer.c:105 | reading a register as `int32_t` gives the value congruent to its bits modulo 2^32, as the ARM compilers convert; it is negative exactly when the top bit is set |
| Registers.SignedReadBack | Lab8/Lab8/pedometer.c:92-111 | writing an `int32_t` to a register and reading it back as `int32_t` gives the value written |
| Registers.RegisterReadBack | Lab8/Lab8/pedometer.c:101-108 | reading a register as `int32_t` and writing that value back restores every bit |
| Registers.AsRegisterInjective | Lab8/Lab8/pedometer.c:97-99 | two different positions never leave the same register contents |
| Registers.CastKeepsValue | Lab7/lab7_Happy_Ndikumana.c:109 | a number in [0, 2^32) stored in a 32-bit register reads back as the same unsigned number |
| Backlight.DutyCycleToCompare | Lab7/lab7_Happy_Ndikumana.c:109-110 | the product `percent * 1024` never overflows a 32-bit `int`; the result is the floor of `percent * 1024 / 100`, never negative, and at most 1024 exactly when the percentage is at most 100 |
| Backlight.CompareRegister | Lab7/lab7_Happy_Ndikumana.c:109 | the compare register holds the unsigned value of the computed compare |
| Backlight.CompareMonotone | Lab7/lab7_Happy_Ndikumana.c:109-115 | a larger percentage never gives a smaller compare value |
| Backlight.CompareRegisterWithinPeriod | Lab7/lab7_Happy_Ndikumana.c:90-91 | the compare register is at most the loaded period of 1024 exactly when the percentage is at most 100 |
| Backlight.WorkedValues | Lab7/lab7_Happy_Ndikumana.c:147-159 | 0% gives 0, 50% gives 512 (the initial compare), 80% gives 819 and 100% gives 1024 |
| Backlight.DemoCompares | Lab7/lab7_Happy_Ndikumana.c:147 | the first step of the demo stores 819 and 0 in the compare registers |
| Backlight.GeneratorWithinPeriod | Lab7/lab7_Happy_Ndikumana.c:109-115 | a generator whose period is loaded and whose compares come from percentages a and b stays within its period exactly when both are at most 100 |
| Backlight.Pwm0.InitializePwm | Lab7/lab7_Happy_Ndikumana.c:78-101 | the end state: reset released, both generators enabled with their output actions, both periods 1024, all four compares 512, the four backlight outputs inverted and enabled, and every compare within its period |
| Backlight.Pwm0.SetPwmDutyCycle | Lab7/lab7_Happy_Ndikumana.c:105-117 | id 0 writes only generator 1's two compares, and id 1 only generator 2's. CMPA depends on pwmA alone and CMPB on pwmB alone. Any other id changes nothing, and only compare registers are in the frame. Percentages of at most 100 keep every compare within the period; a percentage above 100 on a selected generator leaves it |
| Backlight.Pwm0.RepeatPwmDutyCycle | Lab7/lab7_Happy_Ndikumana.c:105-117 | repeating a call with the same arguments changes no register |
| Backlight.Pwm0.StartDemo | Lab7/lab7_Happy_Ndikumana.c:141-147 | after initialisation and the first demo step, generator 2 compares are 819 and 0, generator 1 keeps 512, and every compare is within its period |
| Pedometer.WideTimer.ConfigureCounter | Lab8/Lab8/pedometer.c:35-54 | the shared configuration sequence. CFG ends at 4 and TAMR at the given mode. The capture interrupt is masked with the other IMR bits kept. The count holds the start value. CTL gains the enable bit and keeps every other bit. Its edge-select field in particular is unchanged, because the positive-edge value ORed in is zero |
| Pedometer.WideTimer.CountUp | Lab8/Lab8/pedometer.c:116-118 | the timer ends enabled and counting up; only the enable and direction bits of CTL and TAMR change, and the count is not touched |
| Pedometer.WideTimer.CountDown | Lab8/Lab8/pedometer.c:131-133 | the timer ends enabled and counting down; only the enable and direction bits of CTL and TAMR change, and the count is not touched |
| Pedometer.EdgeSelectKept | Lab8/Lab8/pedometer.c:40 | ORing in the positive-edge value together with the enable bit keeps the edge-select field; it selects positive edges afterwards exactly when it did before |
| Pedometer.BothEdgesSurviveConfiguration | Lab8/Lab8/pedometer.c:37-43 | a control register selecting both edges still selects both edges after the configuration sequence |
| Pedometer.UpModeCountsUp | Lab8/Lab8/pedometer.c:39-49 | capture mode with the direction bit counts up; capture mode alone counts down |
| Pedometer.UpThenDown | Lab8/Lab8/pedometer.c:112-141 | selecting up and then down counting changes only the direction bit of TAMR, which ends clear, and leaves CTL as enabling alone would |
| Pedometer.Encoders.SetTimerModeUp | Lab8/Lab8/pedometer.c:35-44 | wide timer 0 ends with CFG 4, TAMR capture mode plus up direction, the capture interrupt masked, count 0, and enabled; wide timer 1 is untouched |
| Pedometer.Encoders.SetTimerModeDown | Lab8/Lab8/pedometer.c:45-54 | wide timer 1 ends with CFG 4, TAMR capture mode alone (counting down), the capture interrupt masked, count 400, and enabled; wide timer 0 is untouched |
| Pedometer.Encoders.SetEncoderPosition | Lab8/Lab8/pedometer.c:92-100 | id 0 stores the position in wide timer 0's count only, and id 1 in wide timer 1's count only; any other id changes nothing |
| Pedometer.Encoders.GetEncoderPosition | Lab8/Lab8/pedometer.c:101-111 | id 0 or 1 returns the `int32_t` whose 32 bits that timer's count holds; any other id returns -1 |
| Pedometer.Encoders.SetThenGetPosition | Lab8/Lab8/pedometer.c:92-111 | for id 0 and 1, setting a position and reading it back returns exactly the position set; any other id reads -1 and stores nothing |
| Pedometer.Encoders.SelectEncoderIncMode | Lab8/Lab8/pedometer.c:112-126 | the selected timer ends enabled and counting up, keeping its count and its other CTL and TAMR bits; the other timer and an unknown id change nothing |
| Pedometer.Encoders.SelectEncoderDecMode | Lab8/Lab8/pedometer.c:127-141 | the selected timer ends enabled and counting down, keeping its count and its other CTL and TAMR bits; the other timer and an unknown id change nothing |
| Pedometer.Encoders.IncThenDecMode | Lab8/Lab8/pedometer.c:112-141 | selecting up then down counting on one encoder changes only its direction bit (ending clear) and never either position |
| Pedometer.Encoders.InitPedometer | Lab8/Lab8/pedometer.c:174-181 | both positions end at 0, and both timers end enabled and counting up in capture mode with the capture interrupt masked. Every other CTL and IMR bit of both timers keeps its old value. The 400 start count and the down direction of wide timer 1 are overridden |

## Left out

- `countBalance` (`Lab8/Lab8/pedometer.c:56-77`): it is `double` arithmetic with truncating casts. Floating point is not modelled.
- `waitMicrosecond`: it is an inline-assembly busy wait. Timing is not modelled.
- `main` of the backlight driver: only its first step is modelled, in `StartDemo`. The rest of the endless loop alternates calls with one-second waits, and its duty-cycle values appear as worked values.
- `initSystemClockTo40Mhz` and `_delay_cycles`: they come from a clock header that is not part of this model.
- Clock gating and GPIO pin multiplexing, in `initializePwm` and `initPedometer`: they write only port and clock registers, with masks (including `FREQ_IN_MASK0/1` of `pedometer.h`) that are not part of this model. No property of the drivers depends on them.
- The hardware itself is not modelled: encoder edges changing a count, PWM waveform generation, and side effects of register reads. The model holds register contents only.
- Commented-out code is not modelled: `setBacklightRgbColor`, the wide timer 1 interrupt handler and the LED and error-message lines.
