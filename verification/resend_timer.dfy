/**
 * The resend countdown of the sign-in page (src/app/auth/page.tsx,
 * `startResendTimer`). Starting it sets the timer to 60 and starts an
 * interval timer that fires once a second; each firing applies the
 * update "at 1 or below: clear this interval and set 0, else subtract 1".
 * Real time is modelled as whole seconds in which every live interval
 * fires once.
 */
module ResendTimer {

  /** Seconds left on the resend timer, and how many interval timers are live. */
  datatype Countdown = Countdown(timer: int, running: nat)

  const ResendSeconds: int := 60

  /** The state before any OTP has been sent. */
  const Idle: Countdown := Countdown(0, 0)

  /**
   * `startResendTimer` as written: it sets the timer and starts another
   * interval without clearing one that may still be running.
   */
  function StartAsWritten(c: Countdown): Countdown
  {
    Countdown(ResendSeconds, c.running + 1)
  }

  /** `startResendTimer` with the previous interval cleared first. */
  function Start(c: Countdown): Countdown
  {
    Countdown(ResendSeconds, 1)
  }

  /** One firing of one live interval. */
  function Fire(c: Countdown): (r: Countdown)
    requires c.running > 0
    ensures r.running >= c.running - 1
  {
    if c.timer <= 1 then Countdown(0, c.running - 1) else Countdown(c.timer - 1, c.running)
  }

  /** `k` of the live intervals fire, one after another. */
  function FireAll(c: Countdown, k: nat): Countdown
    requires k <= c.running
    decreases k
  {
    if k == 0 then c else FireAll(Fire(c), k - 1)
  }

  /** One second: every interval live at its start fires once. */
  function Second(c: Countdown): Countdown
  {
    FireAll(c, c.running)
  }

  function AfterSeconds(c: Countdown, n: nat): Countdown
    decreases n
  {
    if n == 0 then c else AfterSeconds(Second(c), n - 1)
  }

  /** The "Resend OTP" button is shown instead of the countdown text. */
  predicate ResendOffered(c: Countdown)
  {
    !(c.timer > 0)
  }

  /**
   * The invariant the corrected countdown keeps: the timer lies in 0..60,
   * and one interval is live exactly while the timer is positive.
   */
  predicate Healthy(c: Countdown)
  {
    0 <= c.timer <= ResendSeconds && c.running <= 1 && (c.timer > 0 <==> c.running == 1)
  }

  lemma StartIsHealthy(c: Countdown)
    ensures Healthy(Start(c)) && Start(c).timer == 60 && !ResendOffered(Start(c))
  {
  }

  /**
   * One second of a healthy countdown lowers a positive timer by one and
   * leaves a zero timer alone; the result is healthy again.
   */
  lemma SecondKeepsHealthy(c: Countdown)
    requires Healthy(c)
    ensures Healthy(Second(c))
    ensures Second(c).timer == if c.timer > 0 then c.timer - 1 else 0
  {
    if c.running == 1 {
      assert Second(c) == FireAll(Fire(c), 0);
    }
  }

  /** After `n` seconds a healthy countdown shows `timer - n`, floored at 0. */
  lemma {:induction false} HealthyAfterSeconds(c: Countdown, n: nat)
    requires Healthy(c)
    ensures Healthy(AfterSeconds(c, n))
    ensures AfterSeconds(c, n).timer == if c.timer >= n then c.timer - n else 0
    decreases n
  {
    if n > 0 {
      SecondKeepsHealthy(c);
      HealthyAfterSeconds(Second(c), n - 1);
    }
  }

  /**
   * With the previous interval cleared, a (re)started countdown never
   * goes negative and offers a resend exactly from the 60th second on.
   */
  lemma StartWaitsSixtySeconds(c: Countdown, n: nat)
    ensures AfterSeconds(Start(c), n).timer == if n <= 60 then 60 - n else 0
    ensures AfterSeconds(Start(c), n).timer >= 0
    ensures ResendOffered(AfterSeconds(Start(c), n)) <==> n >= 60
  {
    StartIsHealthy(c);
    HealthyAfterSeconds(Start(c), n);
  }

  /**
   * The invariant the countdown keeps as written, however many intervals
   * are live: the timer lies in 0..60, and while it is positive at least
   * one interval is live to bring it down.
   */
  predicate Bounded(c: Countdown)
  {
    0 <= c.timer <= ResendSeconds && (c.timer > 0 ==> c.running >= 1)
  }

  /** Firing intervals keeps the countdown bounded and never raises the timer. */
  lemma {:induction false} FireAllKeepsBounded(c: Countdown, k: nat)
    requires Bounded(c) && k <= c.running
    ensures Bounded(FireAll(c, k))
    ensures FireAll(c, k).timer <= c.timer
    decreases k
  {
    if k > 0 {
      FireAllKeepsBounded(Fire(c), k - 1);
    }
  }

  /**
   * One second keeps a bounded countdown bounded, and lowers a positive
   * timer by at least one.
   */
  lemma SecondKeepsBounded(c: Countdown)
    requires Bounded(c)
    ensures Bounded(Second(c))
    ensures c.timer > 0 ==> Second(c).timer < c.timer
    ensures c.timer == 0 ==> Second(c).timer == 0
  {
    if c.running > 0 {
      FireAllKeepsBounded(Fire(c), c.running - 1);
    }
  }

  /** A start as written shows 60 and adds one live interval, from any bounded state. */
  lemma StartAsWrittenIsBounded(c: Countdown)
    ensures Bounded(StartAsWritten(c)) && StartAsWritten(c).timer == 60
    ensures StartAsWritten(c).running == c.running + 1 && !ResendOffered(StartAsWritten(c))
  {
  }

  /** Two live intervals on an even timer take one second per two units. */
  lemma {:induction false} TwoIntervalsRunTwiceAsFast(m: nat)
    requires m >= 1
    ensures AfterSeconds(Countdown(2 * m, 2), m) == Countdown(0, 1)
    decreases m
  {
    if m == 1 {
      assert Second(Countdown(2, 2)) == Countdown(0, 1);
    } else {
      assert Second(Countdown(2 * m, 2)) == Countdown(2 * (m - 1), 2);
      TwoIntervalsRunTwiceAsFast(m - 1);
    }
  }

  /** Before they meet 0, two intervals lower the timer by two every second. */
  lemma {:induction false} TwoIntervalsBeforeZero(m: nat, j: nat)
    requires j < m
    ensures AfterSeconds(Countdown(2 * m, 2), j) == Countdown(2 * (m - j), 2)
    decreases j
  {
    if j > 0 {
      assert Second(Countdown(2 * m, 2)) == Countdown(2 * (m - 1), 2);
      TwoIntervalsBeforeZero(m - 1, j - 1);
    }
  }

  /**
   * As written, restarting while a countdown is still live (the mobile
   * form resubmitted after going back from the OTP step) leaves two
   * intervals running: the resend button is offered after 30 seconds.
   * The corrected start still waits 60.
   */
  lemma RestartAsWrittenHalvesWait(c: Countdown)
    requires c.running == 1
    ensures StartAsWritten(c) == Countdown(60, 2)
    ensures ResendOffered(AfterSeconds(StartAsWritten(c), 30))
    ensures !ResendOffered(AfterSeconds(StartAsWritten(c), 29))
    ensures !ResendOffered(AfterSeconds(Start(c), 30))
  {
    TwoIntervalsRunTwiceAsFast(30);
    TwoIntervalsBeforeZero(30, 29);
    StartWaitsSixtySeconds(c, 30);
  }

  /** The situation above arises from the idle state after ten seconds. */
  lemma RestartAfterTenSeconds()
    ensures AfterSeconds(Start(Idle), 10) == Countdown(50, 1)
    ensures ResendOffered(AfterSeconds(StartAsWritten(AfterSeconds(Start(Idle), 10)), 30))
  {
    StartIsHealthy(Idle);
    HealthyAfterSeconds(Start(Idle), 10);
    RestartAsWrittenHalvesWait(AfterSeconds(Start(Idle), 10));
  }
}
