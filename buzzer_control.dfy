/**
 * The buzzer top-value sweep of buz_control_loop (main.c).
 *
 * The task keeps a uint32_t counter that starts at BUZ_TIMER0_TOP_VAL.
 * Each iteration subtracts 2, writes the result as TIMER0's top value,
 * derives the tone frequency timer_freq / (counter + 1) for the log line,
 * and resets the counter to BUZ_TIMER0_TOP_VAL once it has reached 2 or
 * less. The infinite loop becomes n iterations; the delay and the logging
 * are not part of the model.
 */
module BuzzerControl {
  import opened TimerHandler

  /** The value written as top value, and the counter the next iteration starts from. */
  datatype StepResult = StepResult(applied: uint32, next: uint32)

  /** Counters seen at the top of an iteration: even and within [4, 100]. */
  predicate CounterInv(c: uint32)
  {
    c % 2 == 0 && 4 <= c <= BuzTimer0TopVal
  }

  /** Top values the sweep writes: even and within [2, 98]. */
  predicate AppliedInv(a: uint32)
  {
    a % 2 == 0 && 2 <= a <= BuzTimer0TopVal - 2
  }

  /**
   * One iteration of the loop body: `buz_counter -= 2` on uint32_t, the
   * value written to the timer, then the conditional reset. From a counter
   * in the invariant the subtraction does not wrap, the written value is
   * exactly 2 less, and the next counter is again in the invariant.
   */
  function Step(c: uint32): (r: StepResult)
    ensures CounterInv(c) ==> r.applied as int == c as int - 2
    ensures CounterInv(c) ==> AppliedInv(r.applied) && CounterInv(r.next)
    ensures r.applied <= 2 ==> r.next == BuzTimer0TopVal
    ensures r.applied > 2 ==> r.next == r.applied
  {
    var a := Sub32(c, 2);
    StepResult(a, if a <= 2 then BuzTimer0TopVal else a)
  }

  /** The divisor `buz_counter + 1` on uint32_t, taken after the write. */
  function ToneDivisor(applied: uint32): (d: uint32)
    ensures applied < MaxUint32 ==> d as int == applied as int + 1
    ensures d == 0 <==> applied == MaxUint32
  {
    Add32(applied, 1)
  }

  /**
   * The tone frequency `bfreq` the log line reports for top value a, as an
   * exact quotient. Its divisor is a + 1 taken as a real number, not the
   * uint32_t sum: the two agree except at a == MaxUint32, where the C
   * divisor wraps to 0 (ToneDivisor) and this quotient is timerFreq / 2^32.
   * The sweep never writes that value (TraceInRange).
   */
  function ToneHz(timerFreq: uint32, a: uint32): (hz: real)
    ensures a < MaxUint32 ==> hz * ToneDivisor(a) as real == timerFreq as real
    ensures 0.0 <= hz <= timerFreq as real
  {
    timerFreq as real / (a as real + 1.0)
  }

  /** For every value the sweep writes the divisor is at least 3, so never zero. */
  lemma DivisorOfApplied(a: uint32)
    requires AppliedInv(a)
    ensures ToneDivisor(a) >= 3
  {
  }

  /**
   * The counter at the top of iteration k (k = 0 is the first iteration).
   * It starts at BUZ_TIMER0_TOP_VAL and stays even and within [4, 100], so
   * `buz_counter -= 2` never wraps.
   */
  function CounterAt(k: nat): (c: uint32)
    ensures CounterInv(c)
    ensures k == 0 ==> c == BuzTimer0TopVal
  {
    if k == 0 then BuzTimer0TopVal else Step(CounterAt(k - 1)).next
  }

  /** The top values written by the first n iterations, in order. */
  function Trace(n: nat): (t: seq<uint32>)
    ensures |t| == n
  {
    if n == 0 then [] else Trace(n - 1) + [Step(CounterAt(n - 1)).applied]
  }

  /** Within the first sweep the counter at iteration r is 100 - 2 * r. */
  lemma {:induction false} CounterInFirstSweep(r: nat)
    requires r < 49
    ensures CounterAt(r) as int == 100 - 2 * r
  {
    if r > 0 {
      CounterInFirstSweep(r - 1);
    }
  }

  /** 49 iterations bring the counter back to where it was. */
  lemma {:induction false} CounterPeriodic(k: nat)
    ensures CounterAt(k + 49) == CounterAt(k)
  {
    if k == 0 {
      CounterInFirstSweep(48);
      assert CounterAt(49) == Step(CounterAt(48)).next;
    } else {
      CounterPeriodic(k - 1);
      assert CounterAt(k + 49) == Step(CounterAt(k - 1 + 49)).next;
    }
  }

  lemma {:induction false} CounterShift(q: nat, r: nat)
    ensures CounterAt(49 * q + r) == CounterAt(r)
  {
    if q > 0 {
      CounterShift(q - 1, r);
      CounterPeriodic(49 * (q - 1) + r);
      assert 49 * (q - 1) + r + 49 == 49 * q + r;
    }
  }

  /** The counter at iteration k is 100 - 2 * (k mod 49). */
  lemma CounterAtClosedForm(k: nat)
    ensures CounterAt(k) as int == 100 - 2 * (k % 49)
  {
    var q, r := k / 49, k % 49;
    assert k == 49 * q + r;
    CounterShift(q, r);
    CounterInFirstSweep(r);
  }

  /** The k-th written value is the counter of iteration k after one step. */
  lemma {:induction false} TraceAt(n: nat, k: nat)
    requires k < n
    ensures |Trace(n)| == n
    ensures Trace(n)[k] == Step(CounterAt(k)).applied
  {
    if k < n - 1 {
      TraceAt(n - 1, k);
    }
  }

  /**
   * Each iteration writes the counter minus exactly 2; after writing a value
   * of 2 or less the next counter is 100, otherwise it is the value written.
   */
  lemma TraceStep(n: nat, k: nat)
    requires k < n
    ensures |Trace(n)| == n
    ensures Trace(n)[k] as int == CounterAt(k) as int - 2
    ensures Trace(n)[k] <= 2 ==> CounterAt(k + 1) == BuzTimer0TopVal
    ensures Trace(n)[k] > 2 ==> CounterAt(k + 1) == Trace(n)[k]
  {
    TraceAt(n, k);
  }

  /** The k-th written value is 98 - 2 * (k mod 49). */
  lemma TraceClosedForm(n: nat, k: nat)
    requires k < n
    ensures |Trace(n)| == n
    ensures Trace(n)[k] as int == 98 - 2 * (k % 49)
  {
    TraceStep(n, k);
    CounterAtClosedForm(k);
  }

  /**
   * Every written value is even, within [2, 98], and below the top value
   * 100 that timer0_init sets.
   */
  lemma TraceInRange(n: nat, k: nat)
    requires k < n
    ensures |Trace(n)| == n
    ensures AppliedInv(Trace(n)[k])
    ensures Trace(n)[k] < BuzTimer0TopVal
  {
    TraceClosedForm(n, k);
  }

  /** The sweep repeats with period 49. */
  lemma TracePeriodic(n: nat, k: nat)
    requires k + 49 < n
    ensures |Trace(n)| == n
    ensures Trace(n)[k + 49] == Trace(n)[k]
  {
    TraceClosedForm(n, k);
    TraceClosedForm(n, k + 49);
  }

  /** 49 is the least period: within one sweep no value is written twice. */
  lemma TraceDistinctInSweep(n: nat, i: nat, j: nat)
    requires i < j < n && j - i < 49
    ensures |Trace(n)| == n
    ensures Trace(n)[i] != Trace(n)[j]
  {
    TraceClosedForm(n, i);
    TraceClosedForm(n, j);
  }

  /** The first sweep writes 98, 96, ..., 2. */
  lemma FirstSweep(n: nat)
    requires 49 <= n
    ensures Trace(n)[..49] == seq(49, i requires 0 <= i < 49 => (98 - 2 * i) as uint32)
  {
    var s := seq(49, i requires 0 <= i < 49 => (98 - 2 * i) as uint32);
    var t := Trace(n)[..49];
    forall k | 0 <= k < 49
      ensures t[k] == s[k]
    {
      assert k % 49 == k;
      TraceClosedForm(n, k);
    }
    assert t == s;
  }

  /**
   * n iterations of buz_control_loop. Each iteration writes the new top value
   * through timer0_set_top_val and computes the tone frequency from the tick
   * frequency timerFreq (exactly, as a real number). Returns the written top
   * values and the tone frequencies, in order.
   */
  method BuzControlLoop(p: Peripheral, timerFreq: uint32, n: nat)
    returns (applied: seq<uint32>, tones: seq<real>)
    modifies p`top, p`topWrites
    ensures applied == Trace(n)
    ensures p.topWrites == old(p.topWrites) + applied
    ensures |tones| == n
    ensures forall k :: 0 <= k < n ==> tones[k] == ToneHz(timerFreq, applied[k])
    ensures n > 0 ==> p.top == applied[n - 1] && p.top < BuzTimer0TopVal
    ensures n == 0 ==> p.top == old(p.top)
  {
    var counter := BuzTimer0TopVal;
    applied, tones := [], [];
    var i := 0;
    while i < n
      invariant 0 <= i <= n
      invariant counter == CounterAt(i)
      invariant applied == Trace(i)
      invariant p.topWrites == old(p.topWrites) + applied
      invariant |tones| == i
      invariant forall k :: 0 <= k < i ==> tones[k] == ToneHz(timerFreq, applied[k])
      invariant i > 0 ==> p.top == applied[i - 1] && p.top < BuzTimer0TopVal
      invariant i == 0 ==> p.top == old(p.top)
    {
      ghost var step := Step(counter);
      counter := Sub32(counter, 2);
      assert counter == step.applied;
      p.SetTopVal(counter);
      var divisor := ToneDivisor(counter);
      DivisorOfApplied(counter);
      assert divisor as real == counter as real + 1.0;
      tones := tones + [timerFreq as real / divisor as real];
      applied := applied + [counter];
      assert applied == Trace(i + 1);
      if counter <= 2 {
        counter := BuzTimer0TopVal;
      }
      i := i + 1;
    }
  }

  /**
   * The start-up order of hp_loop followed by n iterations of the buzzer
   * task: pin binding, timer initialisation (its tick frequency handed to the
   * task as a parameter), then the sweep. The sweep leaves every part of the
   * configuration except the top value as timer0_init set it.
   */
  method StartBuzzer(clockHz: uint32, n: nat)
    returns (p: Peripheral, timerFreq: uint32, applied: seq<uint32>)
    ensures fresh(p)
    ensures p.PinBound() && p.BuzzerConfigured() && p.State() == Running
    ensures timerFreq as int == clockHz as int / 1024
    ensures applied == Trace(n)
    ensures p.topWrites == [BuzTimer0TopVal] + Trace(n)
    ensures p.top == if n == 0 then BuzTimer0TopVal else applied[n - 1]
  {
    p := new Peripheral();
    p.BuzzerGpioInit();
    timerFreq := p.Timer0Init(clockHz);
    var tones;
    applied, tones := BuzControlLoop(p, timerFreq, n);
  }
}
