/** The resend-code countdown shared by the login and registration pages: the
    `m:ss` rendering of the seconds left and the once-a-second updater. */
module Timer {
  import opened Decimal

  /** Seconds a freshly sent code keeps the resend button disabled. */
  const ResendWaitSeconds: nat := 120

  /** `seconds < 10 ? '0' : ''` followed by the seconds: always two digits. */
  function TwoDigits(s: nat): (r: string)
    requires s < 60
    ensures |r| == 2 && AllDigits(r) && ValueOf(r) == s
  {
    ValueOfToDecimal(s);
    if s < 10 then
      assert ToDecimal(s) == [DigitChar(s)];
      "0" + ToDecimal(s)
    else
      assert Pow10(1) == 10 && Pow10(2) == 100;
      ToDecimalLength(s, 2);
      ToDecimal(s)
  }

  /** `formatTimer`: whole minutes, a colon, and the remaining seconds padded to
      two digits; the two numerals read back as the minutes and seconds of `t`. */
  function FormatTimer(t: nat): (r: string)
    ensures |r| >= 4 && r[|r| - 3] == ':'
    ensures AllDigits(r[..|r| - 3]) && ValueOf(r[..|r| - 3]) == t / 60
    ensures AllDigits(r[|r| - 2..]) && ValueOf(r[|r| - 2..]) == t % 60
    ensures r[..|r| - 3] == ToDecimal(t / 60)
    ensures r[0] == '0' <==> t < 60
  {
    var minutes := ToDecimal(t / 60);
    var seconds := TwoDigits(t % 60);
    ValueOfToDecimal(t / 60);
    ToDecimalLeadingDigit(t / 60);
    var r := minutes + ":" + seconds;
    assert r[..|r| - 3] == minutes;
    assert r[|r| - 2..] == seconds;
    r
  }

  /** Distinct times render differently: the display never confuses two counts. */
  lemma {:induction false} FormatTimerInjective(a: nat, b: nat)
    requires FormatTimer(a) == FormatTimer(b)
    ensures a == b
  {
    assert a == 60 * (a / 60) + a % 60;
    assert b == 60 * (b / 60) + b % 60;
  }

  /** The registration page's updater `prev <= 1 ? 0 : prev - 1`. */
  function CountdownTick(prev: int): (r: nat)
    ensures prev >= 1 ==> r == prev - 1
    ensures prev <= 1 ==> r == 0
  {
    if prev <= 1 then 0 else prev - 1
  }

  /** The count after `k` ticks of the interval. */
  function AfterTicks(t: nat, k: nat): nat
  {
    if k == 0 then t else AfterTicks(CountdownTick(t), k - 1)
  }

  /** Each tick takes one second off until the count rests at zero, so `t`
      ticks always bring the count to zero and it never goes negative. */
  lemma {:induction false} AfterTicksCountsDown(t: nat, k: nat)
    ensures AfterTicks(t, k) == if k >= t then 0 else t - k
  {
    if k > 0 {
      AfterTicksCountsDown(CountdownTick(t), k - 1);
    }
  }
}
