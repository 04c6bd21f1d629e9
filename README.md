# esw-timer: buzzer timer initialisation and top-value sweep

This project models the part of the esw-timer firmware that drives a buzzer:
- TIMER0 is set up to toggle pin PA0 through compare channel 0.
- A task sweeps the timer's top value downwards to change the tone.

Two modules:

- `TimerHandler` (timer_handler.c, timer_handler.h). `buzzer_gpio_init` and
  `timer0_init` are methods of the class `Peripheral`. Its fields are the
  GPIO and TIMER0 state the code writes:
  - GPIO clock and pin table (mode and initial level per pin);
  - TIMER0 clock;
  - compare-channel table (mode and output action per channel);
  - top value;
  - `ROUTEPEN` and `ROUTELOC0`;
  - prescaler;
  - running flag.
  
  The vendor calls (`CMU_ClockEnable`, `GPIO_PinModeSet`, `TIMER_InitCC`,
  `TIMER_TopSet`, `TIMER_Init`) become small methods that perform only
  their visible effect on those fields. `timer0_init` writes its
  configuration records field by field from the library defaults, as the
  source does. It returns `TickFrequency(clockHz, Div1024)`, which is
  floor(clockHz / 1024). The timer clock `clockHz` is a parameter, because
  `CMU_ClockFreqGet` is a hardware query. `uint32_t` is the newtype
  `uint32`. `Sub32`/`Add32` give C's wrap-around subtraction and addition.
  The model adds a ghost field `topWrites` to `Peripheral`. It records every
  top value written, oldest first, so the contracts can speak of the whole
  sequence of tones the buzzer plays and not only the last one.
- `BuzzerControl` (main.c, `buz_control_loop`). One iteration of the loop is
  the pure function `Step`: subtract 2 from the counter with wrap-around,
  write that value as the top value, reset the counter to 100 once it is
  2 or less. `CounterAt(k)` is the counter at the top of iteration k.
  `Trace(n)` is the list of top values written in n iterations. The
  infinite loop becomes the method `BuzControlLoop`. It runs n iterations
  through `Peripheral.SetTopVal`, the model of `timer0_set_top_val`. It
  returns the values written and the tone frequencies
  `timer_freq / (counter + 1)`. The lemmas prove:
  - the counter never wraps;
  - every written value is even and in [2, 98];
  - the k-th value is 98 - 2·(k mod 49), so the sweep is 98, 96, …, 2
    and repeats with period exactly 49;
  - the divisor `counter + 1` is always at least 3.

Facts about the code that shape the model:
- `timer0_init` has no error path and returns a plain `uint32_t`, clock / 2^10.
- The top value enters only the tone frequency computed for the log line.
- The code has no compare-value setter, note table or duty ramp.

## Model

| member | source | states |
|---|---|---|
| TimerHandler.Sub32 | main.c:81 | `a - b` on uint32_t: exact when b ≤ a, otherwise a - b + 2^32 (wrap-around) |
| TimerHandler.Add32 | main.c:83 | `a + b` on uint32_t: exact up to 2^32 - 1, otherwise reduced by 2^32 |
| TimerHandler.Exponent | timer_handler.c:48 | a prescaler's exponent is at most 10 (timerPrescale1024), and is 0 exactly for the undivided clock |
| TimerHandler.Pow2 | timer_handler.c:53 | `0x01 << e` is at least 1, so the division is defined |
| TimerHandler.TickFrequency | timer_handler.c:53 | the returned frequency r is the floor quotient: r·2^e ≤ clockHz < (r+1)·2^e |
| TimerHandler.BuzzerDivisor | timer_handler.h:19 | BUZ_TIMER0_CLOCK_DIV is prescaler exponent 10, divider 1024 |
| TimerHandler.BuzzerTickFrequency | timer_handler.c:53 | timer0_init's frequency is clockHz / 1024 (floor), never above clockHz, and 0 exactly when clockHz < 1024 |
| TimerHandler.TickFrequencyExample | timer_handler.c:53 | a 38.4 MHz timer clock gives a 37500 Hz tick |
| TimerHandler.Peripheral.constructor | timer_handler.c:29-30 | the record starts Uninitialized: clocks off, no pin or channel configured, counter stopped, no top value written yet |
| TimerHandler.Peripheral.EnableGpioClock | timer_handler.c:20 | turns the GPIO clock on and changes nothing else |
| TimerHandler.Peripheral.EnableTimerClock | timer_handler.c:32 | turns the TIMER0 clock on and changes nothing else |
| TimerHandler.Peripheral.PinModeSet | timer_handler.c:23 | records mode and level for the given pin, other pins unchanged |
| TimerHandler.Peripheral.InitCc | timer_handler.c:39 | records the configuration of the given compare channel, other channels unchanged |
| TimerHandler.Peripheral.TopSet | timer_handler.c:41 | sets the top value only, and appends that write to the write history |
| TimerHandler.Peripheral.Init | timer_handler.c:51 | sets the prescaler and starts the counter exactly when `enable` is set |
| TimerHandler.Peripheral.BuzzerGpioInit | timer_handler.c:17-24 | GPIO clock on; pin PA0 (ESWGPIO_BUZZER_PORT/PIN) push-pull at level 0; no other pin touched |
| TimerHandler.Peripheral.Timer0Init | timer_handler.c:29-54 | TIMER0 clock on; CC channel 0 (BUZZER_CC_CHANNEL) in compare mode with Toggle, other channels unchanged; top value 100 (BUZ_TIMER0_TOP_VAL), written once; ROUTEPEN = CC0PEN and ROUTELOC0 = LOC0 (BUZZER_LOCATION); prescaler 1024 (BUZ_TIMER0_CLOCK_DIV); running; returns clockHz / 1024; GPIO state untouched |
| TimerHandler.Peripheral.SetTopVal | timer_handler.h:26 | timer0_set_top_val is one write of the top value, appended to the write history, and changes nothing else |
| BuzzerControl.Step | main.c:81-85 | from a counter that is even and in [4, 100] the written value is exactly 2 less (no wrap), even and in [2, 98], and the next counter is again even and in [4, 100]; a written value ≤ 2 resets the counter to 100, otherwise the counter is the value written |
| BuzzerControl.ToneHz | main.c:83 | the tone frequency `bfreq` as an exact quotient timer_freq / (a + 1), its divisor taken as a real: it agrees with the uint32_t divisor for every a below the largest uint32_t (at the largest, C's divisor wraps to 0 while this gives timer_freq / 2^32; the sweep never writes that value); never negative and never above timer_freq |
| BuzzerControl.ToneDivisor | main.c:83 | the divisor `buz_counter + 1` is the counter plus one, and is 0 only for the largest uint32_t |
| BuzzerControl.DivisorOfApplied | main.c:83 | for every value the sweep writes, the divisor is at least 3 |
| BuzzerControl.Trace | main.c:78-86 | n iterations write exactly n top values |
| BuzzerControl.CounterAt | main.c:74-85 | the counter starts at BUZ_TIMER0_TOP_VAL and is even and in [4, 100] at the top of every iteration, so `buz_counter -= 2` never wraps |
| BuzzerControl.CounterInFirstSweep | main.c:74-85 | during the first sweep the counter at iteration r is 100 - 2·r |
| BuzzerControl.CounterPeriodic | main.c:78-86 | 49 iterations bring the counter back to the same value |
| BuzzerControl.CounterShift | main.c:78-86 | q whole sweeps later the counter is the same as at iteration r |
| BuzzerControl.CounterAtClosedForm | main.c:74-85 | the counter at iteration k is 100 - 2·(k mod 49) |
| BuzzerControl.TraceAt | main.c:81-82 | the k-th written value is one step from the counter of iteration k |
| BuzzerControl.TraceStep | main.c:81-85 | each written value is the iteration's counter minus exactly 2; after a value ≤ 2 the next counter is 100, otherwise it is the value written |
| BuzzerControl.TraceClosedForm | main.c:78-86 | the k-th written value is 98 - 2·(k mod 49) |
| BuzzerControl.TraceInRange | main.c:81-85 | every written value is even, in [2, 98], and below the top value 100 that timer0_init sets |
| BuzzerControl.TracePeriodic | main.c:78-86 | the value written at iteration k + 49 equals the one at iteration k |
| BuzzerControl.TraceDistinctInSweep | main.c:78-86 | two iterations fewer than 49 apart write different values, so 49 is the least period |
| BuzzerControl.FirstSweep | main.c:78-86 | the first 49 values written are 98, 96, …, 2 |
| BuzzerControl.BuzControlLoop | main.c:72-87 | n iterations write exactly Trace(n), in order, through timer0_set_top_val (the timer's write history grows by Trace(n)), leaving the last written value as top value; the k-th tone frequency is timer_freq / (value + 1); nothing but the top value changes |
| BuzzerControl.StartBuzzer | main.c:55-57 | pin binding, then timer init, then n iterations of the sweep: the pin and timer configuration hold afterwards, the tick frequency is clockHz / 1024, the timer receives exactly the top values 100 (from init) followed by Trace(n), and the top value is 100 or the last value written |

## Left out

- Boot sequence (`main`), kernel start, thread creation and the heartbeat loop of `hp_loop` (main.c:51-70, 96-128): they are RTOS glue. `StartBuzzer` keeps only the order pin binding → timer init → sweep.
- `osDelay` and all timing. The infinite loops become n iterations.
- Logging, serial retargeting and the embedded header blob. These are I/O.
- BuzzerControl.BuzControlLoop: the tone frequency is an exact real quotient. The single-precision float rounding of `bfreq` and its integer/fraction formatting for the log line are not modelled.
- The vendor library internals behind `CMU_ClockEnable`, `GPIO_PinModeSet`, `TIMER_InitCC`, `TIMER_TopSet`, `TIMER_Init` and `CMU_ClockFreqGet`. Only their visible effect on the modelled fields is modelled, and the timer clock is a parameter. Only the fields that the source sets are modelled from `TIMER_INITCC_DEFAULT` and `TIMER_INIT_DEFAULT`.
- TimerHandler.Peripheral.SetTopVal: `timer0_set_top_val` is declared at timer_handler.h:26, and timer_handler.c has no definition of it. The model treats it as a plain write of the top value. When the hardware applies the new value (at once, or at the next period) is not modelled.
- Hardware reset values. The constructor's initial field values belong to the model; the code never reads them.
- The write-once global `timer_freq` and its cross-thread happens-before ordering. The value is passed to the sweep as a parameter.
