/**
 * Currency conversion: a quote, review and confirmation flow. Entering an
 * amount derives the converted amount, `max(0, amount * rate - fee)`; on the
 * review step a 300-second quote timer counts down once a second unless the
 * rate is locked, and when it runs out the flow falls back to the quote step.
 * The component's state cells (`currentStep`, `timer`, `rateLocked`,
 * `conversionData`) are the fields of `CurrencyConverter`; the interval
 * callback is the `Tick` method and the converted-amount effect runs at the
 * end of the handlers that change its inputs.
 */
module CurrencyConversion {
  import opened Wrappers
  import opened Text
  import Reference

  datatype ConversionStep = Quote | Review | Complete

  /** How long a quote lasts, in seconds, and the timer's value after every reset. */
  const QuoteSeconds: int := 300

  datatype ConversionData = ConversionData(
    fromCurrency: string,
    toCurrency: string,
    amount: string,
    rate: real,
    markup: real,
    fee: real,
    convertedAmount: real,
    referenceId: Option<string>)

  function InitialData(): (d: ConversionData)
    ensures d.amount == "" && d.rate > 0.0 && d.convertedAmount == 0.0 && d.referenceId == None
  {
    ConversionData("USD", "EUR", "", 0.85, 0.5, 5.0, 0.0, None)
  }

  /** `Math.max(0, amount * rate - fee)`. */
  function Converted(amount: real, rate: real, fee: real): (r: real)
    ensures r >= 0.0 && r >= amount * rate - fee
    ensures r == 0.0 || r == amount * rate - fee
  {
    if amount * rate - fee > 0.0 then amount * rate - fee else 0.0
  }

  /** The converted amount is up to date with a non-empty amount. */
  predicate Derived(d: ConversionData)
    requires IsNumberInput(d.amount)
  {
    d.amount != "" ==> d.convertedAmount == Converted(ParseNumber(d.amount).value, d.rate, d.fee)
  }

  /** The converted-amount effect: recompute from a non-empty amount, otherwise leave it. */
  function Derive(d: ConversionData): (r: ConversionData)
    requires IsNumberInput(d.amount)
    ensures IsNumberInput(r.amount) && Derived(r)
    ensures r.(convertedAmount := d.convertedAmount) == d
    ensures d.amount == "" ==> r == d
  {
    if d.amount == "" then d
    else d.(convertedAmount := Converted(ParseNumber(d.amount).value, d.rate, d.fee))
  }

  /** `swapCurrencies`: exchange the two currencies and invert the rate. */
  function Swap(d: ConversionData): (r: ConversionData)
    requires d.rate != 0.0
    ensures r.fromCurrency == d.toCurrency && r.toCurrency == d.fromCurrency
    ensures r.rate * d.rate == 1.0
    ensures r.(fromCurrency := d.fromCurrency, toCurrency := d.toCurrency, rate := d.rate) == d
  {
    d.(fromCurrency := d.toCurrency, toCurrency := d.fromCurrency, rate := 1.0 / d.rate)
  }

  /** The part of the state the quote timer drives. */
  datatype QuoteClock = QuoteClock(step: ConversionStep, timer: int, locked: bool)

  /** One firing of the one-second interval, which runs only on an unlocked review. */
  function TickClock(c: QuoteClock): (r: QuoteClock)
    ensures r.locked == c.locked
    ensures r != c ==> c.step == Review && !c.locked
    ensures 1 <= c.timer <= QuoteSeconds ==> 1 <= r.timer <= QuoteSeconds
  {
    if c.step == Review && !c.locked then
      if c.timer <= 1 then QuoteClock(Quote, QuoteSeconds, c.locked)
      else c.(timer := c.timer - 1)
    else c
  }

  /** `n` consecutive ticks. */
  function Ticks(c: QuoteClock, n: nat): QuoteClock
    decreases n
  {
    if n == 0 then c else Ticks(TickClock(c), n - 1)
  }

  /** `secs.toString().padStart(2, '0')` for a number of seconds below 60. */
  function Pad2(n: nat): (r: string)
    requires n < 60
    ensures |r| == 2 && AllDigits(r) && DigitsValue(r) == n
  {
    var s := NatToString(n);
    if n < 10 then
      assert ("0" + s)[..1] == "0";
      "0" + s
    else
      assert s == NatToString(n / 10) + [DigitChar(n % 10)];
      s
  }

  /** `formatTime`: minutes, a colon, and the seconds as two digits. */
  function FormatTime(seconds: nat): (r: string)
    ensures |r| >= 4 && r[|r| - 3] == ':'
    ensures AllDigits(r[..|r| - 3]) && AllDigits(r[|r| - 2..])
    ensures r[..|r| - 3] == NatToString(seconds / 60)
    ensures DigitsValue(r[|r| - 2..]) == seconds % 60
  {
    var m, s := NatToString(seconds / 60), Pad2(seconds % 60);
    assert (m + ":" + s)[..|m|] == m;
    assert (m + ":" + s)[|m| + 1..] == s;
    m + ":" + s
  }

  /** Reads an `m:ss` text back as a number of seconds. */
  function ParseTime(t: string): Option<nat> {
    var k := IndexOf(t, ':');
    if 0 < k < |t| && AllDigits(t[..k]) && |t[k + 1..]| == 2 && AllDigits(t[k + 1..])
       && DigitsValue(t[k + 1..]) < 60
    then Some(DigitsValue(t[..k]) * 60 + DigitsValue(t[k + 1..]))
    else None
  }

  // ---------------------------------------------------------------------------
  // Properties of the derived amount

  /** 1000 at 0.85 less a fee of 5 converts to 845. */
  lemma ConvertedExample()
    ensures Converted(1000.0, 0.85, 5.0) == 845.0
  {
  }

  /** A fee larger than the converted value yields zero, never a negative amount. */
  lemma ConvertedFloorsAtZero(amount: real, rate: real, fee: real)
    requires amount * rate <= fee
    ensures Converted(amount, rate, fee) == 0.0
  {
  }

  /** Swapping twice restores the currencies and, over exact reals, the rate. */
  lemma SwapTwice(d: ConversionData)
    requires d.rate != 0.0
    ensures Swap(d).rate != 0.0 && Swap(Swap(d)) == d
  {
  }

  /** With the effect after each swap, two swaps restore the whole record. */
  lemma DerivedSwapTwice(d: ConversionData)
    requires d.rate != 0.0 && IsNumberInput(d.amount) && Derived(d)
    ensures Derive(Swap(d)).rate != 0.0
    ensures Derive(Swap(Derive(Swap(d)))) == d
  {
    SwapTwice(d);
  }

  // ---------------------------------------------------------------------------
  // Properties of the quote timer

  /** While the rate is locked, or off the review step, the clock stands still. */
  lemma {:induction false} TicksIdle(c: QuoteClock, n: nat)
    requires c.locked || c.step != Review
    ensures Ticks(c, n) == c
    decreases n
  {
    if n > 0 {
      TicksIdle(TickClock(c), n - 1);
    }
  }

  /** Fewer ticks than the remaining time only count the timer down. */
  lemma {:induction false} TicksCountDown(c: QuoteClock, n: nat)
    requires c.step == Review && !c.locked && n < c.timer
    ensures Ticks(c, n) == c.(timer := c.timer - n)
    decreases n
  {
    if n > 0 {
      TicksCountDown(TickClock(c), n - 1);
    }
  }

  /** The tick that finds one second left sends the flow back to the quote step with a fresh timer. */
  lemma TicksExpire(c: QuoteClock)
    requires c.step == Review && !c.locked && c.timer >= 1
    ensures Ticks(c, c.timer) == QuoteClock(Quote, QuoteSeconds, false)
  {
    var n: nat := c.timer - 1;
    TicksCountDown(c, n);
    TicksAppend(c, n);
    assert Ticks(c, n + 1) == TickClock(c.(timer := 1));
  }

  /** n+1 ticks are n ticks and one more. */
  lemma {:induction false} TicksAppend(c: QuoteClock, n: nat)
    ensures Ticks(c, n + 1) == TickClock(Ticks(c, n))
    decreases n
  {
    if n > 0 {
      TicksAppend(TickClock(c), n - 1);
    }
  }

  /** A fresh quote expires on its 300th tick, and a 301st tick changes nothing more. */
  lemma QuoteExpiresAfter300(c: QuoteClock)
    requires c == QuoteClock(Review, QuoteSeconds, false)
    ensures Ticks(c, QuoteSeconds - 1).step == Review
    ensures Ticks(c, QuoteSeconds) == QuoteClock(Quote, QuoteSeconds, false)
    ensures Ticks(c, QuoteSeconds + 1) == QuoteClock(Quote, QuoteSeconds, false)
  {
    TicksCountDown(c, QuoteSeconds - 1);
    TicksExpire(c);
    TicksAppend(c, QuoteSeconds);
  }

  // ---------------------------------------------------------------------------
  // Properties of the timer text

  /** The timer text reads back as the number of seconds it shows. */
  lemma FormatTimeRoundTrip(seconds: nat)
    ensures ParseTime(FormatTime(seconds)) == Some(seconds)
  {
    var m, s := NatToString(seconds / 60), Pad2(seconds % 60);
    var t := FormatTime(seconds);
    assert t == m + ":" + s;
    IndexOfAbsent(m, ':');
    assert IndexOf(t, ':') == |m| by {
      assert forall i :: 0 <= i < |m| ==> t[i] == m[i];
      assert t[|m|] == ':';
    }
    assert t[..|m|] == m;
    assert t[|m| + 1..] == s;
  }

  /** 300 seconds show as "5:00" and 65 as "1:05". */
  lemma FormatTimeExamples()
    ensures FormatTime(300) == "5:00"
    ensures FormatTime(65) == "1:05"
  {
    assert 300 / 60 == 5 && 300 % 60 == 0;
    assert NatToString(5) == "5" && Pad2(0) == "00";
    assert FormatTime(300) == "5" + ":" + "00";
    assert 65 / 60 == 1 && 65 % 60 == 5;
    assert NatToString(1) == "1" && Pad2(5) == "05";
    assert FormatTime(65) == "1" + ":" + "05";
  }

  /** The component's state. */
  class CurrencyConverter {
    var currentStep: ConversionStep
    var timer: int
    var rateLocked: bool
    var data: ConversionData

    function Clock(): QuoteClock
      reads this
    {
      QuoteClock(currentStep, timer, rateLocked)
    }

    /**
     * The invariant every handler keeps: the timer is within 1..300, the rate is positive,
     * the amount is an exponent-free number-input string and the converted amount follows from it
     * and is never negative, and a reference id exists exactly on the confirmation step.
     */
    ghost predicate Valid()
      reads this
    {
      && 1 <= timer <= QuoteSeconds
      && data.rate > 0.0
      && IsNumberInput(data.amount)
      && Derived(data)
      && data.convertedAmount >= 0.0
      && (data.referenceId.Some? <==> currentStep == Complete)
      && (data.referenceId.Some? ==> "CNV" <= data.referenceId.value)
    }

    constructor ()
      ensures Valid()
      ensures currentStep == Quote && timer == QuoteSeconds && !rateLocked && data == InitialData()
    {
      currentStep := Quote;
      timer := QuoteSeconds;
      rateLocked := false;
      data := InitialData();
    }

    /** The "From" currency select. */
    method SetFromCurrency(code: string)
      requires Valid() && currentStep == Quote
      modifies this
      ensures Valid()
      ensures Clock() == old(Clock()) && data == old(data).(fromCurrency := code)
    {
      data := data.(fromCurrency := code);
    }

    /** The "To" currency select. */
    method SetToCurrency(code: string)
      requires Valid() && currentStep == Quote
      modifies this
      ensures Valid()
      ensures Clock() == old(Clock()) && data == old(data).(toCurrency := code)
    {
      data := data.(toCurrency := code);
    }

    /** The amount input, then the converted-amount effect. */
    method SetAmount(amount: string)
      requires Valid() && currentStep == Quote && IsNumberInput(amount)
      modifies this
      ensures Valid()
      ensures Clock() == old(Clock()) && data == Derive(old(data).(amount := amount))
      ensures amount != "" ==> data.convertedAmount == Converted(ParseNumber(amount).value, data.rate, data.fee)
      ensures amount == "" ==> data.convertedAmount == old(data).convertedAmount
    {
      data := Derive(data.(amount := amount));
    }

    /** The swap button, then the converted-amount effect (the rate changed). */
    method SwapCurrencies()
      requires Valid() && currentStep == Quote
      modifies this
      ensures Valid()
      ensures Clock() == old(Clock()) && data == Derive(Swap(old(data)))
    {
      data := Derive(Swap(data));
    }

    /** `handleGetQuote`: to review with a fresh timer, for a positive amount only. */
    method GetQuote()
      requires Valid() && currentStep == Quote
      modifies this
      ensures Valid()
      ensures data == old(data) && rateLocked == old(rateLocked)
      ensures var ok := data.amount != "" && ParseNumber(data.amount).value > 0.0;
              if ok then currentStep == Review && timer == QuoteSeconds
              else currentStep == old(currentStep) && timer == old(timer)
    {
      if data.amount != "" && ParseNumber(data.amount).value > 0.0 {
        currentStep := Review;
        timer := QuoteSeconds;
      }
    }

    /** The interval callback: count down, and fall back to the quote step when time is up. */
    method Tick()
      requires Valid()
      modifies this
      ensures Valid()
      ensures Clock() == TickClock(old(Clock())) && data == old(data)
    {
      if currentStep == Review && !rateLocked {
        if timer <= 1 {
          currentStep := Quote;
          timer := QuoteSeconds;
        } else {
          timer := timer - 1;
        }
      }
    }

    /** `handleLockRate`: stop the countdown and give the quote a full 300 seconds. */
    method LockRate()
      requires Valid() && currentStep == Review && !rateLocked
      modifies this
      ensures Valid()
      ensures rateLocked && timer == QuoteSeconds
      ensures currentStep == old(currentStep) && data == old(data)
    {
      rateLocked := true;
      timer := QuoteSeconds;
    }

    /** "Back to Quote": only the step changes. */
    method BackToQuote()
      requires Valid() && currentStep == Review
      modifies this
      ensures Valid()
      ensures currentStep == Quote
      ensures timer == old(timer) && rateLocked == old(rateLocked) && data == old(data)
    {
      currentStep := Quote;
    }

    /** `handleConfirmConversion` at clock reading `now`: stamp a CNV id and complete. */
    method Confirm(now: nat)
      requires Valid() && currentStep == Review
      modifies this
      ensures Valid()
      ensures currentStep == Complete
      ensures data == old(data).(referenceId := Some(Reference.ReferenceId("CNV", now)))
      ensures timer == old(timer) && rateLocked == old(rateLocked)
    {
      data := data.(referenceId := Some(Reference.ReferenceId("CNV", now)));
      currentStep := Complete;
    }

    /**
     * "New Conversion": back to the quote step with no amount, no id and an unlocked rate;
     * currencies, rate, fee and the timer are kept.
     */
    method NewConversion()
      requires Valid() && currentStep == Complete
      modifies this
      ensures Valid()
      ensures currentStep == Quote && !rateLocked
      ensures data == old(data).(amount := "", referenceId := None)
      ensures timer == old(timer)
    {
      currentStep := Quote;
      data := data.(amount := "", referenceId := None);
      rateLocked := false;
    }
  }
}
