/** One worker's pings: every host pings with retries, the worker's semaphore caps the attempts
    in flight, and no permit is held while a host sleeps between attempts. The stage runs one
    such worker, with a semaphore of its own, per chunk of targets. */
module PingProtocol {
  import opened Common

  /** How one attempt ends. */
  datatype Attempt = Reply(rtt: Option<real>) | Failure(reason: Option<string>, hint: Option<string>)

  datatype Outcome = Outcome(ok: bool, rtt: Option<real>, reason: Option<string>, hint: Option<string>, used: nat)

  function AttemptCount(retries: int): nat {
    if retries + 1 > 1 then retries + 1 else 1
  }

  // ---- One host on its own ---------------------------------------------------------------

  /** The first successful attempt decides; if there is none, the last attempt does. */
  ghost predicate Decided(out: Outcome, attempts: nat, answer: nat -> Attempt) {
    && 0 < out.used <= attempts
    && (forall k :: 0 <= k < out.used - 1 ==> answer(k).Failure?)
    && match answer(out.used - 1)
       case Reply(rtt) => out == Outcome(true, rtt, None, None, out.used)
       case Failure(reason, hint) => out.used == attempts && out == Outcome(false, None, reason, hint, attempts)
  }

  lemma DecidedOnce(a: Outcome, b: Outcome, attempts: nat, answer: nat -> Attempt)
    requires Decided(a, attempts, answer) && Decided(b, attempts, answer)
    ensures a == b
  {
  }

  /** Attempt `i` is the first to get a reply. */
  ghost predicate FirstReplyAt(answer: nat -> Attempt, i: nat) {
    answer(i).Reply? && forall k :: 0 <= k < i ==> answer(k).Failure?
  }

  ghost predicate AllFail(answer: nat -> Attempt, last: nat) {
    forall k :: 0 <= k <= last ==> answer(k).Failure?
  }

  /** The outcome by the retries knob alone: the first reply among the first attempt and the
      retries decides, with its attempt's number; without one every one of them was used, and
      the last failure is reported. A negative knob leaves the first attempt. */
  ghost predicate Retried(out: Outcome, retries: int, answer: nat -> Attempt) {
    && (forall i: nat :: FirstReplyAt(answer, i) && (i == 0 || i <= retries) ==>
          out == Outcome(true, answer(i).rtt, None, None, i + 1))
    && (retries >= 0 && AllFail(answer, retries) ==>
          out == Outcome(false, None, answer(retries).reason, answer(retries).hint, retries + 1))
    && (retries < 0 && AllFail(answer, 0) ==> out == Outcome(false, None, answer(0).reason, answer(0).hint, 1))
  }

  lemma FirstReplyDecides(out: Outcome, attempts: nat, answer: nat -> Attempt, i: nat)
    requires Decided(out, attempts, answer) && i < attempts && FirstReplyAt(answer, i)
    ensures out == Outcome(true, answer(i).rtt, None, None, i + 1)
  {
  }

  lemma LastFailureDecides(out: Outcome, attempts: nat, answer: nat -> Attempt)
    requires attempts >= 1 && Decided(out, attempts, answer) && AllFail(answer, attempts - 1)
    ensures out == Outcome(false, None, answer(attempts - 1).reason, answer(attempts - 1).hint, attempts)
  {
    assert answer(out.used - 1).Failure?;
  }

  lemma DecidedIsRetried(out: Outcome, retries: int, answer: nat -> Attempt)
    requires Decided(out, AttemptCount(retries), answer)
    ensures Retried(out, retries, answer)
  {
    var attempts := AttemptCount(retries);
    forall i: nat | FirstReplyAt(answer, i) && (i == 0 || i <= retries)
      ensures out == Outcome(true, answer(i).rtt, None, None, i + 1)
    {
      FirstReplyDecides(out, attempts, answer, i);
    }
    if AllFail(answer, attempts - 1) { LastFailureDecides(out, attempts, answer); }
  }

  /** The knob and the answers determine the outcome. */
  lemma RetriedOnce(a: Outcome, b: Outcome, retries: int, answer: nat -> Attempt)
    requires Retried(a, retries, answer) && Retried(b, retries, answer)
    ensures a == b
  {
    var n := if retries > 0 then retries else 0;
    if !AllFail(answer, n) {
      var i := FirstReply(answer, n);
    }
  }

  lemma {:induction false} FirstReply(answer: nat -> Attempt, n: nat) returns (i: nat)
    requires !AllFail(answer, n)
    ensures i <= n && FirstReplyAt(answer, i)
  {
    if n > 0 && !AllFail(answer, n - 1) {
      i := FirstReply(answer, n - 1);
    } else {
      i := n;
    }
  }

  method PingHost(retries: int, answer: nat -> Attempt) returns (out: Outcome)
    ensures Decided(out, AttemptCount(retries), answer)
    ensures Retried(out, retries, answer)
  {
    var attempts := AttemptCount(retries);
    var reason: Option<string>, hint: Option<string> := None, None;
    for i := 0 to attempts
      invariant forall k :: 0 <= k < i ==> answer(k).Failure?
      invariant i > 0 ==> answer(i - 1) == Failure(reason, hint)
    {
      match answer(i)
      case Reply(rtt) =>
        out := Outcome(true, rtt, None, None, i + 1);
        DecidedIsRetried(out, retries, answer);
        return;
      case Failure(r, h) => reason, hint := r, h;
    }
    out := Outcome(false, None, reason, hint, attempts);
    DecidedIsRetried(out, retries, answer);
  }

  // ---- All hosts, interleaved ---------------------------------------------------------------

  /** Where a host is; `i` is its current or last attempt. */
  datatype Phase = Waiting(i: nat) | InFlight(i: nat) | Sleeping(i: nat) | Done(outcome: Outcome)

  datatype State = State(hosts: seq<Phase>, free: nat)

  /** Hosts, retry and concurrency knobs, and how each host's attempts end. */
  datatype Job = Job(count: nat, retries: int, concurrency: int, answer: (nat, nat) -> Attempt) {
    function Permits(): nat {
      if concurrency > 1 then concurrency else 1
    }

    function Attempts(): nat {
      AttemptCount(retries)
    }

    function Of(h: nat): nat -> Attempt {
      (i: nat) => answer(h, i)
    }

    function Init(): State {
      State(seq(count, h => Waiting(0)), Permits())
    }
  }

  /** The phase a host moves to, if the scheduler may move it. */
  function Move(job: Job, h: nat, p: Phase, free: nat): Option<Phase> {
    match p
    case Waiting(i) => if free > 0 then Some(InFlight(i)) else None
    case InFlight(i) =>
      (match job.answer(h, i)
       case Reply(rtt) => Some(Done(Outcome(true, rtt, None, None, i + 1)))
       case Failure(reason, hint) =>
         if i + 1 < job.Attempts() then Some(Sleeping(i))
         else Some(Done(Outcome(false, None, reason, hint, job.Attempts()))))
    case Sleeping(i) => Some(Waiting(i + 1))
    case Done(_) => None
  }

  /** Permits a host holds: one exactly while its attempt is in flight. */
  function Held(): Phase -> nat {
    (p: Phase) => if p.InFlight? then 1 else 0
  }

  predicate Enabled(job: Job, s: State, h: nat) {
    h < |s.hosts| && Move(job, h, s.hosts[h], s.free).Some?
  }

  function Step(job: Job, s: State, h: nat): (t: State)
    requires Enabled(job, s, h)
    ensures |t.hosts| == |s.hosts|
  {
    var p := s.hosts[h];
    State(s.hosts[h := Move(job, h, p, s.free).value],
          if p.Waiting? then s.free - 1 else if p.InFlight? then s.free + 1 else s.free)
  }

  /** `hosts` is a run: the hosts in the order the scheduler moved them. */
  ghost predicate Runs(job: Job, moves: seq<nat>, s: State) {
    if moves == [] then s == job.Init()
    else
      var n := |moves| - 1;
      exists before ::
        Runs(job, moves[..n], before) && Enabled(job, before, moves[n]) && s == Step(job, before, moves[n])
  }

  function Sum(f: Phase -> nat, xs: seq<Phase>): nat {
    if xs == [] then 0 else Sum(f, xs[..|xs| - 1]) + f(xs[|xs| - 1])
  }

  lemma {:induction false} SumUpdate(f: Phase -> nat, xs: seq<Phase>, i: nat, y: Phase)
    requires i < |xs|
    ensures Sum(f, xs[i := y]) + f(xs[i]) == Sum(f, xs) + f(y)
  {
    var n := |xs| - 1;
    if i < n {
      SumUpdate(f, xs[..n], i, y);
      assert xs[i := y][..n] == xs[..n][i := y];
    } else {
      assert xs[i := y][..n] == xs[..n];
    }
  }

  lemma {:induction false} SumZero(f: Phase -> nat, xs: seq<Phase>)
    requires forall p :: p in xs ==> f(p) == 0
    ensures Sum(f, xs) == 0
  {
    if xs != [] {
      SumZero(f, xs[..|xs| - 1]);
    }
  }

  // ---- What every step keeps --------------------------------------------------------------------

  /** A host's earlier attempts have all failed, and a finished host has the outcome it would
      have had on its own. */
  ghost predicate HostOk(job: Job, h: nat, p: Phase) {
    match p
    case Waiting(i) => i < job.Attempts() && forall k :: 0 <= k < i ==> job.Of(h)(k).Failure?
    case InFlight(i) => i < job.Attempts() && forall k :: 0 <= k < i ==> job.Of(h)(k).Failure?
    case Sleeping(i) => i + 1 < job.Attempts() && forall k :: 0 <= k <= i ==> job.Of(h)(k).Failure?
    case Done(out) => Decided(out, job.Attempts(), job.Of(h))
  }

  /** Permits held plus permits free are the permits there are. */
  ghost predicate Inv(job: Job, s: State) {
    && |s.hosts| == job.count
    && Sum(Held(), s.hosts) + s.free == job.Permits()
    && forall h :: 0 <= h < |s.hosts| ==> HostOk(job, h, s.hosts[h])
  }

  lemma InitInv(job: Job)
    ensures Inv(job, job.Init())
  {
    SumZero(Held(), job.Init().hosts);
  }

  lemma MoveKeepsHost(job: Job, h: nat, p: Phase, free: nat)
    requires HostOk(job, h, p) && Move(job, h, p, free).Some?
    ensures HostOk(job, h, Move(job, h, p, free).value)
  {
    if p.InFlight? {
      assert job.Of(h)(p.i) == job.answer(h, p.i);
    }
  }

  lemma StepKeepsInv(job: Job, s: State, h: nat)
    requires Inv(job, s) && Enabled(job, s, h)
    ensures Inv(job, Step(job, s, h))
  {
    var p := s.hosts[h];
    MoveKeepsHost(job, h, p, s.free);
    SumUpdate(Held(), s.hosts, h, Move(job, h, p, s.free).value);
  }

  /** Every reachable state: permits are conserved, so at most `concurrency` attempts are in
      flight, or one when the knob is not positive, and every finished host has its sequential
      outcome. */
  lemma {:induction false} EveryRunKeepsInv(job: Job, moves: seq<nat>, s: State)
    requires Runs(job, moves, s)
    ensures Inv(job, s)
    ensures Sum(Held(), s.hosts) <= if job.concurrency >= 1 then job.concurrency else 1
    ensures forall h :: 0 <= h < |s.hosts| && s.hosts[h].Done? ==> Retried(s.hosts[h].outcome, job.retries, job.Of(h))
  {
    forall h | 0 <= h < |s.hosts| && s.hosts[h].Done? && Inv(job, s)
      ensures Retried(s.hosts[h].outcome, job.retries, job.Of(h))
    {
      DecidedIsRetried(s.hosts[h].outcome, job.retries, job.Of(h));
    }
    if moves == [] {
      InitInv(job);
    } else {
      var n := |moves| - 1;
      var before :| Runs(job, moves[..n], before) && Enabled(job, before, moves[n]) && s == Step(job, before, moves[n]);
      EveryRunKeepsInv(job, moves[..n], before);
      StepKeepsInv(job, before, moves[n]);
    }
  }

  // ---- Progress and termination -------------------------------------------------------------------

  lemma {:induction false} SumPositive(f: Phase -> nat, xs: seq<Phase>)
    requires Sum(f, xs) > 0
    ensures exists i :: 0 <= i < |xs| && f(xs[i]) > 0
  {
    var n := |xs| - 1;
    if f(xs[n]) == 0 {
      SumPositive(f, xs[..n]);
      var i :| 0 <= i < n && f(xs[..n][i]) > 0;
      assert f(xs[i]) > 0;
    }
  }

  /** A state with work left can always step: the scheduler never deadlocks. */
  lemma Progress(job: Job, s: State)
    requires Inv(job, s) && exists h :: 0 <= h < |s.hosts| && !s.hosts[h].Done?
    ensures exists h :: Enabled(job, s, h)
  {
    var h: nat :| h < |s.hosts| && !s.hosts[h].Done?;
    if s.hosts[h].Waiting? && s.free == 0 {
      SumPositive(Held(), s.hosts);
      var g: nat :| g < |s.hosts| && Held()(s.hosts[g]) > 0;
      assert Enabled(job, s, g);
    } else {
      assert Enabled(job, s, h);
    }
  }

  /** Moves a host has left at most. */
  function Left(job: Job): Phase -> nat {
    (p: Phase) =>
      var a := job.Attempts();
      match p
      case Waiting(i) => if i < a then 3 * (a - i) else 0
      case InFlight(i) => if i < a then 3 * (a - i) - 1 else 0
      case Sleeping(i) => if i < a then 3 * (a - i) - 2 else 0
      case Done(_) => 0
  }

  lemma StepDecreases(job: Job, s: State, h: nat)
    requires Inv(job, s) && Enabled(job, s, h)
    ensures Sum(Left(job), Step(job, s, h).hosts) < Sum(Left(job), s.hosts)
  {
    SumUpdate(Left(job), s.hosts, h, Move(job, h, s.hosts[h], s.free).value);
  }

  lemma {:induction false} SumConstant(f: Phase -> nat, xs: seq<Phase>, c: nat)
    requires forall p :: p in xs ==> f(p) == c
    ensures Sum(f, xs) == c * |xs|
  {
    if xs != [] {
      SumConstant(f, xs[..|xs| - 1], c);
    }
  }

  /** No run is longer than three moves per attempt and host. */
  lemma {:induction false} RunLength(job: Job, moves: seq<nat>, s: State)
    requires Runs(job, moves, s)
    ensures |moves| + Sum(Left(job), s.hosts) <= 3 * job.Attempts() * job.count
    ensures |moves| <= 3 * (if job.retries >= 0 then job.retries + 1 else 1) * job.count
  {
    if moves == [] {
      SumConstant(Left(job), s.hosts, 3 * job.Attempts());
    } else {
      var n := |moves| - 1;
      var before :| Runs(job, moves[..n], before) && Enabled(job, before, moves[n]) && s == Step(job, before, moves[n]);
      EveryRunKeepsInv(job, moves[..n], before);
      RunLength(job, moves[..n], before);
      StepDecreases(job, before, moves[n]);
    }
  }

  /** A run that cannot be extended has finished every host with the outcome of its own
      sequential retry loop, whatever the interleaving. */
  lemma MaximalRunsAgreeWithSequential(job: Job, moves: seq<nat>, s: State, h: nat, alone: Outcome)
    requires Runs(job, moves, s) && (forall g: nat :: !Enabled(job, s, g)) && h < job.count
    requires Decided(alone, job.Attempts(), job.Of(h))
    ensures |s.hosts| == job.count && s.hosts[h] == Done(alone) && s.free == job.Permits()
    ensures Retried(alone, job.retries, job.Of(h))
  {
    DecidedIsRetried(alone, job.retries, job.Of(h));
    EveryRunKeepsInv(job, moves, s);
    if exists g :: 0 <= g < |s.hosts| && !s.hosts[g].Done? {
      Progress(job, s);
    }
    DecidedOnce(s.hosts[h].outcome, alone, job.Attempts(), job.Of(h));
    SumZero(Held(), s.hosts);
  }

  // ---- The whole stage ----------------------------------------------------------------------------

  /** Attempts in flight over all workers. */
  function InFlightTotal(states: seq<State>): nat {
    if states == [] then 0 else InFlightTotal(states[..|states| - 1]) + Sum(Held(), states[|states| - 1].hosts)
  }

  /** Each worker caps its own pings, so the stage has at most as many attempts in flight as
      there are workers times the cap. */
  lemma StageBound(jobs: seq<Job>, runs: seq<seq<nat>>, states: seq<State>, concurrency: int)
    requires |jobs| == |runs| == |states|
    requires forall i :: 0 <= i < |jobs| ==> jobs[i].concurrency == concurrency && Runs(jobs[i], runs[i], states[i])
    ensures InFlightTotal(states) <= |jobs| * if concurrency >= 1 then concurrency else 1
  {
    var cap: nat := if concurrency >= 1 then concurrency else 1;
    forall i | 0 <= i < |states| ensures Sum(Held(), states[i].hosts) <= cap {
      EveryRunKeepsInv(jobs[i], runs[i], states[i]);
    }
    TotalBound(states, cap);
  }

  lemma {:induction false} TotalBound(states: seq<State>, permits: nat)
    requires forall i :: 0 <= i < |states| ==> Sum(Held(), states[i].hosts) <= permits
    ensures InFlightTotal(states) <= |states| * permits
  {
    if states != [] {
      var n := |states| - 1;
      TotalBound(states[..n], permits);
      assert |states| * permits == n * permits + permits;
    }
  }

  /** All hosts of a worker in their first attempt. */
  function AllInFlight(job: Job, k: nat): State {
    State(seq(job.count, h => if h < k then InFlight(0) else Waiting(0)),
          if k <= job.Permits() then job.Permits() - k else 0)
  }

  /** The cap is met: a worker with at least as many hosts as permits can have them all in
      flight at once. */
  lemma {:induction false} CapIsReached(job: Job, k: nat)
    requires (k <= job.concurrency || k <= 1) && k <= job.count
    ensures Runs(job, seq(k, i => i), AllInFlight(job, k))
    ensures Sum(Held(), AllInFlight(job, k).hosts) == k
  {
    var moves := seq(k, i => i);
    if k == 0 {
      assert AllInFlight(job, 0).hosts == job.Init().hosts;
    } else {
      CapIsReached(job, k - 1);
      var before := AllInFlight(job, k - 1);
      assert moves[..k - 1] == seq(k - 1, i => i);
      assert Step(job, before, k - 1).hosts == AllInFlight(job, k).hosts;
      assert Runs(job, moves[..k - 1], before) && Enabled(job, before, moves[k - 1]);
    }
    EveryRunKeepsInv(job, moves, AllInFlight(job, k));
  }
}
