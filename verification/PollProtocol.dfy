/** The poll loop against concurrent triggers. A trigger checks the clock under the lock and
    sends into the one-slot channel afterwards, so the check and the send are two steps; so
    are reading the clock after a successful poll and publishing it. */
module PollProtocol {
  import opened Clock

  datatype Runner =
    | Polling
    | Sampled(t: Time)          // a poll has succeeded at t but is not published yet
    | Waiting(deadline: Time)

  // inflight: triggers that have passed their check and not yet sent.
  datatype System = System(now: Time, lastSuccess: Time, token: bool, inflight: nat, runner: Runner)

  datatype Move =
    | Pass(elapsed: Duration)
    | TriggerCheck
    | TriggerSend
    | Fail(delay: Duration)
    | Sample
    | Publish(delay: Duration)
    | TimerFires
    | TakeToken

  // The loop polls at once.
  function Init(now: Time): System {
    System(now, ZERO, false, 0, Polling)
  }

  predicate TooSoon(min: Duration, s: System) {
    !IsZero(s.lastSuccess) && Sub(s.now, s.lastSuccess) < min
  }

  predicate Enabled(min: Duration, s: System, m: Move) {
    match m
    case Pass(elapsed) => 0 <= elapsed
    case TriggerCheck => true
    case TriggerSend => s.inflight > 0
    case Fail(_) => s.runner.Polling?
    case Sample => s.runner.Polling?
    case Publish(delay) => s.runner.Sampled? && min <= delay
    case TimerFires => s.runner.Waiting? && s.runner.deadline <= s.now
    case TakeToken => s.runner.Waiting? && s.token
  }

  function Next(min: Duration, s: System, m: Move): System
    requires Enabled(min, s, m)
  {
    match m
    case Pass(elapsed) => s.(now := s.now + elapsed)
    case TriggerCheck => if TooSoon(min, s) then s else s.(inflight := s.inflight + 1)
    case TriggerSend => s.(inflight := s.inflight - 1, token := true)
    case Fail(delay) => s.(runner := Waiting(s.now + delay))
    case Sample => s.(runner := Sampled(s.now))
    case Publish(delay) => s.(lastSuccess := s.runner.t, runner := Waiting(s.now + delay))
    case TimerFires => s.(runner := Polling)
    case TakeToken => s.(token := false, runner := Polling)
  }

  predicate Valid(min: Duration, s: System, ms: seq<Move>)
    decreases |ms|
  {
    ms == [] || (Enabled(min, s, ms[0]) && Valid(min, Next(min, s, ms[0]), ms[1..]))
  }

  function Reached(min: Duration, s: System, ms: seq<Move>): System
    requires Valid(min, s, ms)
    decreases |ms|
  {
    if ms == [] then s else Reached(min, Next(min, s, ms[0]), ms[1..])
  }

  // How many polls of a run succeed before instant end.
  function SuccessesBefore(min: Duration, s: System, ms: seq<Move>, end: Time): nat
    requires Valid(min, s, ms)
    decreases |ms|
  {
    if ms == [] then 0
    else
      (if ms[0].Publish? && s.runner.t < end then 1 else 0)
      + SuccessesBefore(min, Next(min, s, ms[0]), ms[1..], end)
  }

  // ---------- The bound ----------

  // A success at t has just been published.
  predicate JustPublished(min: Duration, s: System, t: Time) {
    && ZERO < t <= s.now
    && s.lastSuccess == t
    && s.runner.Waiting? && t + min <= s.runner.deadline
  }

  function Credits(s: System): nat {
    s.inflight + if s.token then 1 else 0
  }

  // Successes before end that the state can still pay for.
  function Potential(s: System, end: Time): nat {
    match s.runner
    case Sampled(u) => (if s.now < end then Credits(s) else 0) + (if u < end then 1 else 0)
    case Polling => if s.now < end then Credits(s) + 1 else 0
    case Waiting(d) => if s.now < end then Credits(s) + (if d < end then 1 else 0) else 0
  }

  // No success older than t is the last one.
  predicate Since(s: System, t: Time) {
    ZERO < t <= s.lastSuccess && t <= s.now && (s.runner.Sampled? ==> t <= s.runner.t <= s.now)
  }

  lemma MovePays(min: Duration, s: System, m: Move, t: Time)
    requires 0 < min <= MAX_DURATION && Enabled(min, s, m) && Since(s, t)
    ensures Since(Next(min, s, m), t)
    ensures Potential(Next(min, s, m), t + min) + (if m.Publish? && s.runner.t < t + min then 1 else 0)
         <= Potential(s, t + min)
  {
  }

  lemma {:induction false} RunPays(min: Duration, s: System, ms: seq<Move>, t: Time)
    requires 0 < min <= MAX_DURATION && Valid(min, s, ms) && Since(s, t)
    ensures SuccessesBefore(min, s, ms, t + min) <= Potential(s, t + min)
    decreases |ms|
  {
    if ms != [] {
      MovePays(min, s, ms[0], t);
      RunPays(min, Next(min, s, ms[0]), ms[1..], t);
    }
  }

  // After a success at t, however triggers, failures and timers interleave, the successes
  // earlier than t plus the minimum interval are at most the triggers already past their
  // check when it was published, plus the one queued.
  lemma RateBound(min: Duration, s: System, ms: seq<Move>, t: Time)
    requires 0 < min <= MAX_DURATION && JustPublished(min, s, t) && Valid(min, s, ms)
    ensures SuccessesBefore(min, s, ms, t + min) <= Credits(s)
  {
    RunPays(min, s, ms, t);
  }

  // ---------- The bound is exact ----------

  lemma Prepend(min: Duration, s: System, m: Move, rest: seq<Move>, end: Time)
    requires Enabled(min, s, m) && Valid(min, Next(min, s, m), rest)
    ensures Valid(min, s, [m] + rest)
    ensures Reached(min, s, [m] + rest) == Reached(min, Next(min, s, m), rest)
    ensures SuccessesBefore(min, s, [m] + rest, end)
         == (if m.Publish? && s.runner.t < end then 1 else 0) + SuccessesBefore(min, Next(min, s, m), rest, end)
  {
    assert ([m] + rest)[1..] == rest;
  }

  // Every credit can be spent at once.
  lemma {:induction false} SpendAll(min: Duration, s: System, end: Time) returns (ms: seq<Move>)
    requires 0 < min && s.runner.Waiting? && s.now < end
    ensures Valid(min, s, ms) && SuccessesBefore(min, s, ms, end) == Credits(s)
    decreases s.inflight, s.token
  {
    if s.token {
      var s1 := Next(min, s, TakeToken);
      var s2 := Next(min, s1, Sample);
      var s3 := Next(min, s2, Publish(min));
      var rest := SpendAll(min, s3, end);
      Prepend(min, s2, Publish(min), rest, end);
      Prepend(min, s1, Sample, [Publish(min)] + rest, end);
      Prepend(min, s, TakeToken, [Sample] + ([Publish(min)] + rest), end);
      ms := [TakeToken] + ([Sample] + ([Publish(min)] + rest));
    } else if s.inflight > 0 {
      var rest := SpendAll(min, Next(min, s, TriggerSend), end);
      Prepend(min, s, TriggerSend, rest, end);
      ms := [TriggerSend] + rest;
    } else {
      ms := [];
    }
  }

  ghost predicate AtMostOneMore(min: Duration, s: System, t: Time) {
    forall ms :: Valid(min, s, ms) ==> SuccessesBefore(min, s, ms, t + min) <= 1
  }

  // So success k+2 is always at least the minimum interval after success k exactly when, at
  // the moment k is published, no more than one trigger is past its check or queued (or the
  // interval is already over).
  lemma TwoApartExactly(min: Duration, s: System, t: Time)
    requires 0 < min <= MAX_DURATION && JustPublished(min, s, t)
    ensures AtMostOneMore(min, s, t) <==> (Credits(s) <= 1 || t + min <= s.now)
  {
    if Credits(s) <= 1 || t + min <= s.now {
      forall ms | Valid(min, s, ms)
        ensures SuccessesBefore(min, s, ms, t + min) <= 1
      {
        RateBound(min, s, ms, t);
        RunPays(min, s, ms, t);
      }
    } else {
      var ms := SpendAll(min, s, t + min);
      assert SuccessesBefore(min, s, ms, t + min) > 1;
    }
  }

  // ---------- Triggers that are not interrupted ----------

  // Each check that passes is followed at once by its send.
  predicate Uninterrupted(min: Duration, s: System, ms: seq<Move>)
    requires Valid(min, s, ms)
    decreases |ms|
  {
    if ms == [] then s.inflight == 0
    else
      && (s.inflight > 0 ==> ms[0] == TriggerSend)
      && Uninterrupted(min, Next(min, s, ms[0]), ms[1..])
  }

  lemma {:induction false} SplitRun(min: Duration, s: System, a: seq<Move>, b: seq<Move>)
    requires Valid(min, s, a + b)
    ensures Valid(min, s, a) && Valid(min, Reached(min, s, a), b)
    ensures Uninterrupted(min, s, a + b) ==> Uninterrupted(min, Reached(min, s, a), b)
    decreases |a|
  {
    if a == [] {
      assert a + b == b;
    } else {
      assert (a + b)[1..] == a[1..] + b;
      SplitRun(min, Next(min, s, a[0]), a[1..], b);
    }
  }

  lemma {:induction false} ClockOnlyAdvances(min: Duration, s: System, ms: seq<Move>)
    requires 0 < min && Valid(min, s, ms) && ZERO < s.now
    requires s.runner.Sampled? ==> ZERO < s.runner.t <= s.now
    ensures var s' := Reached(min, s, ms);
            ZERO < s'.now && (s'.runner.Sampled? ==> ZERO < s'.runner.t <= s'.now)
    decreases |ms|
  {
    if ms != [] {
      ClockOnlyAdvances(min, Next(min, s, ms[0]), ms[1..]);
    }
  }

  // With uninterrupted triggers, on any run from the start: at most one success follows
  // another within the minimum interval, so the one after that is at least that far away.
  lemma SuccessTwoLaterIsApart(min: Duration, start: Time, before: seq<Move>, delay: Duration, after: seq<Move>)
    requires 0 < min <= MAX_DURATION && ZERO < start
    requires Valid(min, Init(start), before + ([Publish(delay)] + after))
    requires Uninterrupted(min, Init(start), before + ([Publish(delay)] + after))
    ensures Valid(min, Init(start), before)
    ensures var s := Reached(min, Init(start), before);
            && Enabled(min, s, Publish(delay))
            && Valid(min, Next(min, s, Publish(delay)), after)
            && SuccessesBefore(min, Next(min, s, Publish(delay)), after, s.runner.t + min) <= 1
  {
    var tail := [Publish(delay)] + after;
    SplitRun(min, Init(start), before, tail);
    ClockOnlyAdvances(min, Init(start), before);
    var s := Reached(min, Init(start), before);
    assert tail[0] == Publish(delay) && tail[1..] == after;
    assert s.inflight == 0;
    RateBound(min, Next(min, s, Publish(delay)), after, s.runner.t);
  }

  // Two triggers that pass their check during the very first poll and send after it: three
  // successes at one and the same instant.
  lemma ThreeSuccessesAtOnce(min: Duration, start: Time) returns (ms: seq<Move>)
    requires 0 < min <= MAX_DURATION && ZERO < start
    ensures Valid(min, Init(start), ms) && SuccessesBefore(min, Init(start), ms, start + min) == 3
  {
    var s0 := Init(start);
    var s1 := Next(min, s0, TriggerCheck);
    var s2 := Next(min, s1, TriggerCheck);
    var s3 := Next(min, s2, Sample);
    var s4 := Next(min, s3, Publish(min));
    ms := SpendAll(min, s4, start + min);
    Prepend(min, s3, Publish(min), ms, start + min);
    ms := [Publish(min)] + ms;
    Prepend(min, s2, Sample, ms, start + min);
    ms := [Sample] + ms;
    Prepend(min, s1, TriggerCheck, ms, start + min);
    ms := [TriggerCheck] + ms;
    Prepend(min, s0, TriggerCheck, ms, start + min);
    ms := [TriggerCheck] + ms;
  }
}
