/** How long a host can take: the backoff between attempts, the advertised budget, and the
    kill deadline of each attempt. */
module Backoff {
  import PingProtocol

  datatype Knobs = Knobs(timeout: int, retries: int, backoff: real, backoffMax: real, jitter: real) {
    function Attempts(): nat {
      PingProtocol.AttemptCount(retries)
    }

    /** Delay after the `i`th attempt, without jitter. */
    function Base(i: nat): real {
      var grown := backoff * Pow2(i);
      if backoffMax <= grown then backoffMax else grown
    }

    /** The budget counts what is slept: the jitter knob is not negative and no worst-case delay
        is, or there is nothing to sleep between. */
    predicate Sound() {
      Attempts() == 1 || (jitter >= 0.0 && forall i :: 0 <= i < Attempts() - 1 ==> Base(i) + jitter >= 0.0)
    }
  }

  function Pow2(i: nat): real {
    if i == 0 then 1.0 else 2.0 * Pow2(i - 1)
  }

  function Total(f: nat -> real, n: nat): real {
    if n == 0 then 0.0 else Total(f, n - 1) + f(n - 1)
  }

  lemma {:induction false} TotalLe(f: nat -> real, g: nat -> real, n: nat)
    requires forall i :: 0 <= i < n ==> f(i) <= g(i)
    ensures Total(f, n) <= Total(g, n)
  {
    if n > 0 {
      TotalLe(f, g, n - 1);
    }
  }

  lemma {:induction false} TotalGrows(f: nat -> real, m: nat, n: nat)
    requires m <= n && forall i :: 0 <= i < n ==> f(i) >= 0.0
    ensures Total(f, m) <= Total(f, n)
  {
    if m < n {
      TotalGrows(f, m, n - 1);
    }
  }

  /** Worst-case delay after the `i`th attempt, as the budget counts it. */
  function Worst(k: Knobs): nat -> real {
    (i: nat) => k.Base(i) + k.jitter
  }

  function BudgetOf(k: Knobs): real {
    k.Attempts() as real * k.timeout as real + Total(Worst(k), k.Attempts() - 1)
  }

  /** Delays that double add up to the next one minus the first. */
  lemma {:induction false} DoublingTotal(f: nat -> real, n: nat)
    requires forall i: nat :: i < n ==> f(i + 1) == 2.0 * f(i)
    ensures Total(f, n) == f(n) - f(0)
  {
    if n > 0 {
      DoublingTotal(f, n - 1);
      assert f(n - 1 + 1) == 2.0 * f(n - 1);
    }
  }

  lemma {:induction false} TotalPlus(f: nat -> real, g: nat -> real, h: nat -> real, n: nat)
    requires forall i :: 0 <= i < n ==> h(i) == f(i) + g(i)
    ensures Total(h, n) == Total(f, n) + Total(g, n)
  {
    if n > 0 {
      TotalPlus(f, g, h, n - 1);
    }
  }

  /** The delays before the ceiling cuts them. */
  function Uncut(k: Knobs): nat -> real {
    (i: nat) => k.backoff * Pow2(i)
  }

  lemma UncutDoubles(k: Knobs, i: nat)
    ensures Uncut(k)(i + 1) == 2.0 * Uncut(k)(i)
  {
    var p := Pow2(i);
    assert Pow2(i + 1) == 2.0 * p;
    assert k.backoff * (2.0 * p) == 2.0 * (k.backoff * p);
  }

  lemma UncutStarts(k: Knobs)
    ensures Uncut(k)(0) == k.backoff
  {
  }

  lemma UncutDelays(k: Knobs, n: nat)
    ensures Total(Uncut(k), n) == Uncut(k)(n) - k.backoff
  {
    forall i: nat | i < n ensures Uncut(k)(i + 1) == 2.0 * Uncut(k)(i) { UncutDoubles(k, i); }
    DoublingTotal(Uncut(k), n);
    UncutStarts(k);
  }

  function Jitter(k: Knobs): nat -> real {
    (i: nat) => k.jitter
  }

  lemma UncutTotal(k: Knobs, n: nat)
    requires forall i :: 0 <= i < n ==> k.Base(i) == Uncut(k)(i)
    ensures Total(Worst(k), n) == Total(Uncut(k), n) + Total(Jitter(k), n)
  {
    TotalPlus(Uncut(k), Jitter(k), Worst(k), n);
  }

  lemma CutDelay(k: Knobs, i: nat)
    requires k.backoffMax <= k.backoff && 0.0 <= k.backoff
    ensures k.Base(i) == k.backoffMax
  {
    PowAtLeastOne(i);
    AtLeastOnce(k.backoff, Pow2(i));
  }

  lemma AtLeastOnce(b: real, p: real)
    requires b >= 0.0 && p >= 1.0
    ensures b * p >= b
  {
  }

  /** While the ceiling cuts no delay, the budget's delays add up to the next one minus the
      first, plus the jitter of each. */
  lemma UncutBudget(k: Knobs, n: nat)
    requires forall i :: 0 <= i < n ==> Uncut(k)(i) < k.backoffMax
    ensures Total(Worst(k), n) == Uncut(k)(n) - k.backoff + Total(Jitter(k), n)
  {
    forall i | 0 <= i < n ensures k.Base(i) == Uncut(k)(i) { UncutBase(k, i); }
    UncutTotal(k, n);
    UncutDelays(k, n);
  }

  lemma UncutBase(k: Knobs, i: nat)
    requires Uncut(k)(i) < k.backoffMax
    ensures k.Base(i) == Uncut(k)(i)
  {
  }

  lemma JitterTotal(k: Knobs, n: nat)
    ensures Total(Jitter(k), n) == n as real * k.jitter
  {
    TotalConstant(Jitter(k), k.jitter, n);
  }

  /** When it cuts every one, they are all alike. */
  lemma CutBudget(k: Knobs, n: nat)
    requires k.backoffMax <= k.backoff && 0.0 <= k.backoff
    ensures Total(Worst(k), n) == n as real * (k.backoffMax + k.jitter)
  {
    forall i | 0 <= i < n ensures Worst(k)(i) == k.backoffMax + k.jitter { CutDelay(k, i); }
    TotalConstant(Worst(k), k.backoffMax + k.jitter, n);
  }

  lemma {:induction false} PowAtLeastOne(i: nat)
    ensures Pow2(i) >= 1.0
  {
    if i > 0 {
      PowAtLeastOne(i - 1);
    }
  }

  method MaxBudget(k: Knobs) returns (total: real)
    ensures total == BudgetOf(k)
    ensures total == (if k.retries >= 0 then k.retries + 1 else 1) as real * k.timeout as real
                     + Total(Worst(k), if k.retries >= 0 then k.retries else 0)
  {
    var attempts := k.Attempts();
    total := attempts as real * k.timeout as real;
    for i := 0 to attempts - 1
      invariant total == attempts as real * k.timeout as real + Total(Worst(k), i)
    {
      total := total + (k.Base(i) + k.jitter);
    }
  }

  /** A draw of the jitter: anything between zero and the knob, or zero when the knob is negative. */
  ghost predicate Draws(k: Knobs, u: nat -> real) {
    forall i :: 0.0 <= u(i) <= if k.jitter > 0.0 then k.jitter else 0.0
  }

  /** The time slept after the `i`th failed attempt; sleeping a negative delay takes no time. */
  function Delay(k: Knobs, u: nat -> real): nat -> real {
    (i: nat) => if k.Base(i) + u(i) > 0.0 then k.Base(i) + u(i) else 0.0
  }

  /** Time slept by a host that used `used` attempts: once between any two of them. */
  function Slept(k: Knobs, u: nat -> real, used: nat): real
    requires used > 0
  {
    Total(Delay(k, u), used - 1)
  }

  /** The budget's allowance for sleeping. */
  function Allowance(k: Knobs): real {
    BudgetOf(k) - k.Attempts() as real * k.timeout as real
  }

  lemma DelaysAreAtMostWorst(k: Knobs, u: nat -> real)
    requires Draws(k, u) && k.Sound()
    ensures forall i :: 0 <= i < k.Attempts() - 1 ==> Delay(k, u)(i) <= Worst(k)(i)
  {
    forall i | 0 <= i < k.Attempts() - 1 ensures Delay(k, u)(i) <= Worst(k)(i) { assert u(i) <= k.jitter; }
  }

  /** Sleeping stays within the budget. */
  lemma SleepWithinBudget(k: Knobs, u: nat -> real, used: nat)
    requires k.Sound() && Draws(k, u) && 0 < used <= k.Attempts()
    ensures 0.0 <= Slept(k, u, used) <= Allowance(k)
  {
    var delay, n := Delay(k, u), k.Attempts() - 1;
    DelaysAreAtMostWorst(k, u);
    TotalGrows(delay, 0, used - 1);
    TotalGrows(delay, used - 1, n);
    TotalLe(delay, Worst(k), n);
  }

  lemma {:induction false} TotalLt(f: nat -> real, g: nat -> real, n: nat, at: nat)
    requires at < n && f(at) < g(at) && forall i :: 0 <= i < n ==> f(i) <= g(i)
    ensures Total(f, n) < Total(g, n)
  {
    if at < n - 1 {
      TotalLt(f, g, n - 1, at);
    } else {
      TotalLe(f, g, n - 1);
    }
  }

  /** The largest draw: the whole knob, or nothing when it is negative. */
  function Most(k: Knobs): nat -> real {
    (i: nat) => if k.jitter > 0.0 then k.jitter else 0.0
  }

  /** Unsound knobs oversleep when every attempt fails and draws the most. */
  lemma Oversleeps(k: Knobs)
    requires !k.Sound()
    ensures Draws(k, Most(k)) && Slept(k, Most(k), k.Attempts()) > Allowance(k)
  {
    var worst, delay, n := Worst(k), Delay(k, Most(k)), k.Attempts() - 1;
    var at := if k.jitter < 0.0 then 0 else var i :| 0 <= i < n && k.Base(i) + k.jitter < 0.0; i;
    assert forall i :: 0 <= i < n ==> worst(i) <= delay(i);
    assert worst(at) < delay(at);
    TotalLt(worst, delay, n, at);
  }

  /** Whatever the knobs, the budget bounds the sleep of every run exactly when they are sound. */
  lemma BudgetHoldsIff(k: Knobs)
    ensures (forall u, used: nat :: Draws(k, u) && 0 < used <= k.Attempts() ==> Slept(k, u, used) <= Allowance(k)) <==>
            k.Sound()
  {
    if k.Sound() {
      forall u, used: nat | Draws(k, u) && 0 < used <= k.Attempts() ensures Slept(k, u, used) <= Allowance(k) {
        SleepWithinBudget(k, u, used);
      }
    } else {
      Oversleeps(k);
    }
  }

  lemma {:induction false} Pow2Positive(i: nat)
    ensures Pow2(i) > 0.0
  {
    if i > 0 {
      Pow2Positive(i - 1);
    }
  }

  /** Knobs that are all non-negative are sound, however many retries there are. */
  lemma NonNegativeIsSound(k: Knobs)
    requires k.backoff >= 0.0 && k.backoffMax >= 0.0 && k.jitter >= 0.0
    ensures k.Sound()
  {
    forall i: nat ensures k.Base(i) >= 0.0 { Pow2Positive(i); }
  }

  // ---- The kill deadline ---------------------------------------------------------------------

  const KILL_GRACE_S := 2.0

  /** Each attempt's process runs at most until its kill deadline. */
  ghost predicate Killed(k: Knobs, spent: nat -> real) {
    forall i :: 0.0 <= spent(i) <= k.timeout as real + KILL_GRACE_S
  }

  function Elapsed(k: Knobs, spent: nat -> real, u: nat -> real, used: nat): real
    requires used > 0
  {
    Total(spent, used) + Slept(k, u, used)
  }

  lemma {:induction false} TotalConstant(f: nat -> real, c: real, n: nat)
    requires forall i :: 0 <= i < n ==> f(i) == c
    ensures Total(f, n) == n as real * c
  {
    if n > 0 {
      TotalConstant(f, c, n - 1);
    }
  }

  /** A host takes at most two seconds per attempt beyond the budget. */
  lemma ElapsedBound(k: Knobs, spent: nat -> real, u: nat -> real, used: nat)
    requires k.Sound() && Draws(k, u) && Killed(k, spent) && 0 < used <= k.Attempts()
    ensures Elapsed(k, spent, u, used) <= BudgetOf(k) + 2.0 * k.Attempts() as real
  {
    var n := k.Attempts();
    var most := k.timeout as real + KILL_GRACE_S;
    var ceiling := (i: nat) => most;
    SleepWithinBudget(k, u, used);
    TotalGrows(spent, used, n);
    TotalLe(spent, ceiling, n);
    TotalConstant(ceiling, most, n);
    assert n as real * most == n as real * k.timeout as real + KILL_GRACE_S * n as real;
  }

  /** The bound is tight: a host whose every attempt is killed and draws the most jitter
      takes exactly that long. */
  lemma ElapsedBoundIsTight(k: Knobs)
    requires k.Sound() && k.timeout >= 0
    ensures exists spent, u :: Draws(k, u) && Killed(k, spent)
              && Elapsed(k, spent, u, k.Attempts()) == BudgetOf(k) + 2.0 * k.Attempts() as real
  {
    var n := k.Attempts();
    var most := k.timeout as real + KILL_GRACE_S;
    var spent, u := (i: nat) => most, Most(k);
    TotalConstant(spent, most, n);
    assert n as real * most == n as real * k.timeout as real + KILL_GRACE_S * n as real;
    DelaysAreAtMostWorst(k, u);
    TotalLe(Delay(k, u), Worst(k), n - 1);
    TotalLe(Worst(k), Delay(k, u), n - 1);
    assert Draws(k, u) && Killed(k, spent);
  }
}
