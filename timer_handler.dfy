/**
 * TIMER0 and buzzer-pin initialisation (timer_handler.c, timer_handler.h).
 *
 * The peripheral is an abstract record: one field per piece of hardware
 * configuration the initialisation code writes. The vendor library calls
 * (clock enable, pin mode, compare-channel init, top-value set, timer init)
 * are methods of that record that perform only their visible effect on it.
 */
module TimerHandler {

  /** C's uint32_t. Arithmetic that may wrap is written out with Sub32/Add32. */
  newtype uint32 = x: int | 0 <= x < 0x1_0000_0000

  const Modulus32: int := 0x1_0000_0000
  const MaxUint32: uint32 := 0xFFFF_FFFF

  /** `a - b` on uint32_t: wraps modulo 2^32 when b > a. */
  function Sub32(a: uint32, b: uint32): (r: uint32)
    ensures b <= a ==> r as int == a as int - b as int
    ensures a < b ==> r as int == Modulus32 + a as int - b as int
  {
    ((a as int - b as int) % Modulus32) as uint32
  }

  /** `a + b` on uint32_t: wraps modulo 2^32 when the sum exceeds MaxUint32. */
  function Add32(a: uint32, b: uint32): (r: uint32)
    ensures a as int + b as int <= MaxUint32 as int ==> r as int == a as int + b as int
    ensures a as int + b as int > MaxUint32 as int ==> r as int == a as int + b as int - Modulus32
  {
    ((a as int + b as int) % Modulus32) as uint32
  }

  // ---------------------------------------------------------------------
  // Hardware vocabulary
  // ---------------------------------------------------------------------

  datatype Port = PortA | PortB | PortC | PortD | PortE | PortF

  datatype Pin = Pin(port: Port, index: nat)

  datatype GpioMode = GpioDisabled | GpioPushPull

  /** What GPIO_PinModeSet records for one pin: its mode and its output level. */
  datatype PinConfig = PinConfig(mode: GpioMode, level: nat)

  datatype CcMode = CcModeOff | CcModeCapture | CcModeCompare | CcModePwm

  datatype OutputAction = ActionNone | ActionToggle | ActionClear | ActionSet

  /** The two fields of TIMER_InitCC_TypeDef the source sets (mode and cofoa). */
  datatype CcInit = CcInit(mode: CcMode, cofoa: OutputAction)

  /** The power-of-two clock dividers of the timer, timerPrescale1 .. timerPrescale1024. */
  datatype Prescale =
    Div1 | Div2 | Div4 | Div8 | Div16 | Div32 | Div64 | Div128 | Div256 | Div512 | Div1024

  /** The two fields of TIMER_Init_TypeDef the source sets (enable and prescale). */
  datatype TimerInit = TimerInit(enable: bool, prescale: Prescale)

  datatype TimerState = Uninitialized | Running

  /** TIMER_INITCC_DEFAULT, restricted to the fields modelled: channel off, no output action. */
  const CcInitDefault: CcInit := CcInit(CcModeOff, ActionNone)

  /** TIMER_INIT_DEFAULT, restricted to the fields modelled: enabled, undivided clock. */
  const TimerInitDefault: TimerInit := TimerInit(true, Div1)

  // ---------------------------------------------------------------------
  // Constants of timer_handler.h
  // ---------------------------------------------------------------------

  const BuzzerPort: Port := PortA
  const BuzzerPinIndex: nat := 0
  const BuzzerPin: Pin := Pin(BuzzerPort, BuzzerPinIndex)
  const BuzzerCcChannel: nat := 0
  /** TIMER_ROUTELOC0_CC0LOC_LOC0: location 0 of CC channel 0 (pin PA0). */
  const RouteLoc0Cc0Loc0: uint32 := 0
  const BuzzerLocation: uint32 := RouteLoc0Cc0Loc0
  /** TIMER_ROUTEPEN_CC0PEN: bit 0 of ROUTEPEN, the pin enable of CC channel 0. */
  const RoutePenCc0Pen: uint32 := 1
  const BuzTimer0ClockDiv: Prescale := Div1024
  const BuzTimer0TopVal: uint32 := 100

  /** The enumerator value of a prescaler: the exponent of its divider. */
  function Exponent(p: Prescale): (e: nat)
    ensures e <= 10
    ensures p == Div1 <==> e == 0
  {
    match p
    case Div1 => 0
    case Div2 => 1
    case Div4 => 2
    case Div8 => 3
    case Div16 => 4
    case Div32 => 5
    case Div64 => 6
    case Div128 => 7
    case Div256 => 8
    case Div512 => 9
    case Div1024 => 10
  }

  /** `0x01 << e`, for the shifts the prescaler exponents need. */
  function Pow2(e: nat): (r: nat)
    ensures 1 <= r
  {
    if e == 0 then 1 else 2 * Pow2(e - 1)
  }

  /**
   * The tick frequency `clockHz / (uint32_t)(0x01 << exponent)` that
   * timer0_init returns: the largest count of whole divider periods in
   * one second of the input clock.
   */
  function TickFrequency(clockHz: uint32, p: Prescale): (r: uint32)
    ensures r as int * Pow2(Exponent(p)) <= clockHz as int
    ensures clockHz as int < (r as int + 1) * Pow2(Exponent(p))
  {
    var d := Pow2(Exponent(p));
    var q := clockHz as int / d;
    DivBounds(clockHz as int, d);
    q as uint32
  }

  lemma DivBounds(x: nat, d: nat)
    requires 1 <= d
    ensures 0 <= x / d <= x
    ensures (x / d) * d <= x < (x / d + 1) * d
  {
  }

  /** The divider the buzzer configuration selects is 2^10. */
  lemma BuzzerDivisor()
    ensures Exponent(BuzTimer0ClockDiv) == 10
    ensures Pow2(Exponent(BuzTimer0ClockDiv)) == 1024
  {
  }

  /**
   * What timer0_init returns is floor(clockHz / 1024): never more than the
   * input clock, and 0 for a clock below 1024 Hz.
   */
  lemma {:induction false} BuzzerTickFrequency(clockHz: uint32)
    ensures TickFrequency(clockHz, BuzTimer0ClockDiv) as int == clockHz as int / 1024
    ensures TickFrequency(clockHz, BuzTimer0ClockDiv) <= clockHz
    ensures clockHz < 1024 <==> TickFrequency(clockHz, BuzTimer0ClockDiv) == 0
  {
    BuzzerDivisor();
    var r := TickFrequency(clockHz, BuzTimer0ClockDiv);
    assert r as int * 1024 <= clockHz as int < (r as int + 1) * 1024;
  }

  /** A 38.4 MHz timer clock divided by 1024 gives a 37500 Hz tick. */
  lemma TickFrequencyExample()
    ensures TickFrequency(38_400_000, BuzTimer0ClockDiv) == 37_500
  {
    BuzzerTickFrequency(38_400_000);
  }

  // ---------------------------------------------------------------------
  // The peripheral record
  // ---------------------------------------------------------------------

  /**
   * The part of the GPIO block and of TIMER0 that the initialisation code
   * writes. The reset values of the constructor are the model's, not the
   * chip's: nothing reads them before the initialisation overwrites them.
   */
  class Peripheral {
    var gpioClock: bool
    var timerClock: bool
    var pins: map<Pin, PinConfig>
    var cc: map<nat, CcInit>
    var top: uint32
    var routePen: uint32
    var routeLoc0: uint32
    var prescale: Prescale
    var running: bool
    /** Every top value written since the record was created, oldest first. */
    ghost var topWrites: seq<uint32>

    /**
     * Whether the counter runs. Uninitialized means "counter not running":
     * before TIMER_Init, and also after a TIMER_Init with enable unset, which
     * the source never issues.
     */
    function State(): TimerState
      reads this
    {
      if running then Running else Uninitialized
    }

    /** The buzzer pin is a push-pull output at level 0, its GPIO clock on. */
    predicate PinBound()
      reads this
    {
      gpioClock && BuzzerPin in pins && pins[BuzzerPin] == PinConfig(GpioPushPull, 0)
    }

    /**
     * TIMER0 is configured as the buzzer needs: clock on, CC channel 0 in
     * compare mode toggling its output, top value 100, channel 0 routed to
     * location 0, clock divided by 1024, counter running.
     */
    predicate BuzzerConfigured()
      reads this
    {
      && timerClock
      && BuzzerCcChannel in cc
      && cc[BuzzerCcChannel] == CcInit(CcModeCompare, ActionToggle)
      && routePen == RoutePenCc0Pen
      && routeLoc0 == BuzzerLocation
      && prescale == BuzTimer0ClockDiv
      && running
    }

    constructor ()
      ensures !gpioClock && !timerClock && pins == map[] && cc == map[]
      ensures top == 0 && routePen == 0 && routeLoc0 == 0 && prescale == Div1 && !running
      ensures State() == Uninitialized && topWrites == []
    {
      gpioClock, timerClock := false, false;
      pins, cc := map[], map[];
      top, routePen, routeLoc0 := 0, 0, 0;
      prescale, running := Div1, false;
      topWrites := [];
    }

    /** CMU_ClockEnable(cmuClock_GPIO, true). */
    method EnableGpioClock()
      modifies this`gpioClock
      ensures gpioClock
    {
      gpioClock := true;
    }

    /** CMU_ClockEnable(cmuClock_TIMER0, true). */
    method EnableTimerClock()
      modifies this`timerClock
      ensures timerClock
    {
      timerClock := true;
    }

    /** GPIO_PinModeSet(port, pin, mode, out): records mode and level of that pin only. */
    method PinModeSet(pin: Pin, mode: GpioMode, level: nat)
      modifies this`pins
      ensures pins == old(pins)[pin := PinConfig(mode, level)]
    {
      pins := pins[pin := PinConfig(mode, level)];
    }

    /** TIMER_InitCC(TIMER0, channel, &init): configures that channel only. */
    method InitCc(channel: nat, init: CcInit)
      modifies this`cc
      ensures cc == old(cc)[channel := init]
    {
      cc := cc[channel := init];
    }

    /** TIMER_TopSet(TIMER0, value): the write is recorded in topWrites. */
    method TopSet(value: uint32)
      modifies this`top, this`topWrites
      ensures top == value
      ensures topWrites == old(topWrites) + [value]
    {
      top := value;
      topWrites := topWrites + [value];
    }

    /** TIMER_Init(TIMER0, &init): sets the divider and starts the counter when asked. */
    method Init(init: TimerInit)
      modifies this`prescale, this`running
      ensures prescale == init.prescale
      ensures running == init.enable
    {
      prescale := init.prescale;
      running := init.enable;
    }

    /** buzzer_gpio_init: GPIO clock on, buzzer pin push-pull with level 0. */
    method BuzzerGpioInit()
      modifies this`gpioClock, this`pins
      ensures gpioClock
      ensures pins == old(pins)[BuzzerPin := PinConfig(GpioPushPull, 0)]
      ensures PinBound()
    {
      EnableGpioClock();
      PinModeSet(Pin(PortA, 0), GpioPushPull, 0);
    }

    /**
     * timer0_init: configures TIMER0 for the buzzer and returns its tick
     * frequency for the given timer clock (what CMU_ClockFreqGet reports).
     * The GPIO fields are left as they were.
     */
    method Timer0Init(clockHz: uint32) returns (freq: uint32)
      modifies this`timerClock, this`cc, this`top, this`topWrites, this`routePen,
               this`routeLoc0, this`prescale, this`running
      ensures timerClock
      ensures cc == old(cc)[BuzzerCcChannel := CcInit(CcModeCompare, ActionToggle)]
      ensures top == BuzTimer0TopVal && topWrites == old(topWrites) + [BuzTimer0TopVal]
      ensures routePen == RoutePenCc0Pen && routeLoc0 == BuzzerLocation
      ensures prescale == BuzTimer0ClockDiv && running
      ensures BuzzerConfigured() && State() == Running
      ensures freq == TickFrequency(clockHz, BuzTimer0ClockDiv)
      ensures freq as int == clockHz as int / 1024
    {
      EnableTimerClock();

      var ccInit := CcInitDefault;
      ccInit := ccInit.(cofoa := ActionToggle);
      ccInit := ccInit.(mode := CcModeCompare);
      InitCc(0, ccInit);

      TopSet(100);

      routePen := 1;
      routeLoc0 := RouteLoc0Cc0Loc0;

      var timerInit := TimerInitDefault;
      timerInit := timerInit.(prescale := Div1024);
      timerInit := timerInit.(enable := true);
      Init(timerInit);

      freq := TickFrequency(clockHz, Div1024);
      BuzzerTickFrequency(clockHz);
    }

    /** timer0_set_top_val: one write of the top value, and nothing else. */
    method SetTopVal(tv: uint32)
      modifies this`top, this`topWrites
      ensures top == tv
      ensures topWrites == old(topWrites) + [tv]
    {
      TopSet(tv);
    }
  }
}
