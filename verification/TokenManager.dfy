/** One credentials file's token: single-flight refresh under two locks. Every lock-held
    region, and the reply of the token endpoint, is its own step, so any number of callers
    may be anywhere between them. */
module TokenManager {
  import opened Clock
  import opened Vehicle
  import opened Words

  const DEFAULT_LIFETIME_SECONDS := 28_800

  datatype Creds = Creds(access: string, refresh: string, expiresAt: int, clientId: string)

  datatype Memory = Memory(creds: Creds, ttl: Duration, disk: Creds)

  datatype Reply = Answer(access: string, refresh: string, expiresIn: int) | Refused(terminal: bool)

  datatype Result = Token(token: string) | Disabled | ExchangeFailed

  // One call of refresh with everything the outside decides for it. A call that makes no
  // exchange ignores all but stale.
  datatype Call = Call(stale: string, reply: Reply, now: Time, saved: bool)

  predicate CanRefresh(c: Creds) {
    c.clientId != "" && c.refresh != ""
  }

  // The caller's token is still the current one, or it asked unconditionally.
  predicate Exchanges(c: Creds, stale: string) {
    CanRefresh(c) && (stale == "" || c.access == stale)
  }

  // A reply without an access token is an error.
  predicate Usable(r: Reply) {
    r.Answer? && r.access != ""
  }

  function Lifetime(expiresIn: int): Duration {
    Wrap64((if expiresIn <= 0 then DEFAULT_LIFETIME_SECONDS else expiresIn) * SECOND)
  }

  function Installed(m: Memory, r: Reply, now: Time): Memory
    requires r.Answer?
  {
    var ttl := Lifetime(r.expiresIn);
    m.(creds := m.creds.(access := r.access, refresh := if r.refresh != "" then r.refresh else m.creds.refresh,
                         expiresAt := (now + ttl) / SECOND),
       ttl := ttl)
  }

  function Stored(m: Memory, saved: bool): Memory {
    if saved then m.(disk := m.creds) else m
  }

  // A whole call with nobody else around.
  function RefreshOnce(m: Memory, c: Call): (Memory, Result) {
    if !CanRefresh(m.creds) then (m, Disabled)
    else if c.stale != "" && m.creds.access != c.stale then (m, Token(m.creds.access))
    else if !Usable(c.reply) then (m, ExchangeFailed)
    else (Stored(Installed(m, c.reply, c.now), c.saved), Token(c.reply.access))
  }

  // A call is turned away exactly when there is nothing to refresh with, is handed the current
  // token exactly when that is not the stale one it names, and otherwise gets what the endpoint
  // issues, an error or a reply without a token being a failure. Only an issued token changes
  // memory, and only a completed save the file.
  lemma CallInWords(m: Memory, c: Call)
    ensures var (after, r) := RefreshOnce(m, c);
            var able := m.creds.clientId != "" && m.creds.refresh != "";
            var current := c.stale == "" || c.stale == m.creds.access;
            var issued := c.reply.Answer? && c.reply.access != "";
            && (r.Disabled? <==> !able)
            && (able && !current ==> r == Token(m.creds.access))
            && (r.ExchangeFailed? <==> able && current && !issued)
            && (able && current && issued ==>
                  && r == Token(c.reply.access) == Token(after.creds.access)
                  && after.creds.refresh == (if c.reply.refresh == "" then m.creds.refresh else c.reply.refresh)
                  && after.creds.clientId == m.creds.clientId
                  && after.disk == if c.saved then after.creds else m.disk)
            && (!able || !current || !issued ==> after == m)
  {
  }

  function AfterAll(m: Memory, calls: seq<Call>): Memory {
    if calls == [] then m else RefreshOnce(AfterAll(m, calls[..|calls| - 1]), calls[|calls| - 1]).0
  }

  // ---------- The concurrent machine ----------

  // Where a caller stands. Done remembers which completed call it was.
  datatype Phase =
    | Outside
    | Waiting(stale: string)
    | Holding(stale: string)
    | Exchanging(stale: string, sent: Creds)
    | Answered(stale: string, reply: Reply)
    | Saving(stale: string, reply: Reply, now: Time, toSave: Creds)
    | Done(stale: string, result: Result, which: nat)

  datatype System = System(mem: Memory, mutex: Option<nat>, phases: map<nat, Phase>, calls: seq<Call>)

  datatype Move =
    | Ask(t: nat, stale: string)
    | Acquire(t: nat)
    | Look(t: nat)
    | Receive(t: nat, reply: Reply)
    | Install(t: nat, now: Time)
    | Save(t: nat, ok: bool)

  function PhaseOf(s: System, t: nat): Phase {
    if t in s.phases then s.phases[t] else Outside
  }

  predicate Enabled(s: System, m: Move) {
    match m
    case Ask(t, _) => PhaseOf(s, t).Outside? || PhaseOf(s, t).Done?
    case Acquire(t) => PhaseOf(s, t).Waiting? && s.mutex.None?
    case Look(t) => PhaseOf(s, t).Holding?
    case Receive(t, _) => PhaseOf(s, t).Exchanging?
    case Install(t, _) => PhaseOf(s, t).Answered? && PhaseOf(s, t).reply.Answer?
    case Save(t, _) => PhaseOf(s, t).Saving? && PhaseOf(s, t).reply.Answer?
  }

  function At(s: System, t: nat, p: Phase): System {
    s.(phases := s.phases[t := p])
  }

  // Returning releases the mutex and completes one call.
  function Return(s: System, t: nat, c: Call, r: Result): System {
    s.(phases := s.phases[t := Done(c.stale, r, |s.calls|)], mutex := None, calls := s.calls + [c])
  }

  const UNUSED := Refused(false)

  function Next(s: System, m: Move): System
    requires Enabled(s, m)
  {
    match m
    case Ask(t, stale) => At(s, t, Waiting(stale))
    case Acquire(t) => At(s, t, Holding(PhaseOf(s, t).stale)).(mutex := Some(t))
    case Look(t) =>
      var stale, cur := PhaseOf(s, t).stale, s.mem.creds;
      if !CanRefresh(cur) then Return(s, t, Call(stale, UNUSED, 0, false), Disabled)
      else if stale != "" && cur.access != stale then Return(s, t, Call(stale, UNUSED, 0, false), Token(cur.access))
      else At(s, t, Exchanging(stale, cur))
    case Receive(t, reply) =>
      var stale := PhaseOf(s, t).stale;
      if Usable(reply) then At(s, t, Answered(stale, reply))
      else Return(s, t, Call(stale, reply, 0, false), ExchangeFailed)
    case Install(t, now) =>
      var p := PhaseOf(s, t);
      var mem := Installed(s.mem, p.reply, now);
      At(s, t, Saving(p.stale, p.reply, now, mem.creds)).(mem := mem)
    case Save(t, ok) =>
      var p := PhaseOf(s, t);
      var saved := if ok then s.(mem := s.mem.(disk := p.toSave)) else s;
      Return(saved, t, Call(p.stale, p.reply, p.now, ok), Token(p.reply.access))
  }

  predicate Valid(m: Memory, ms: seq<Move>)
    decreases |ms|, 0
  {
    ms == [] || (Valid(m, ms[..|ms| - 1]) && Enabled(Reached(m, ms[..|ms| - 1]), ms[|ms| - 1]))
  }

  function Reached(m: Memory, ms: seq<Move>): System
    requires Valid(m, ms)
    decreases |ms|, 1
  {
    if ms == [] then System(m, None, map[], []) else Next(Reached(m, ms[..|ms| - 1]), ms[|ms| - 1])
  }

  // ---------- Every interleaving is a sequence of whole calls ----------

  predicate Inside(p: Phase) {
    p.Holding? || p.Exchanging? || p.Answered? || p.Saving?
  }

  // What the caller inside has done so far, on top of the calls completed before it.
  predicate Midway(p: Phase, mem: Memory, before: Memory) {
    match p
    case Holding(_) => mem == before
    case Exchanging(stale, sent) => mem == before && sent == before.creds && Exchanges(sent, stale)
    case Answered(stale, reply) => mem == before && Exchanges(before.creds, stale) && Usable(reply)
    case Saving(stale, reply, now, toSave) =>
      && Exchanges(before.creds, stale) && Usable(reply)
      && mem == Installed(before, reply, now) && toSave == mem.creds
    case _ => false
  }

  predicate Answers(m: Memory, calls: seq<Call>, p: Phase) {
    p.Done? ==>
      && p.which < |calls| && calls[p.which].stale == p.stale
      && p.result == RefreshOnce(AfterAll(m, calls[..p.which]), calls[p.which]).1
  }

  ghost predicate Linear(m: Memory, s: System) {
    && (forall t: nat :: Inside(PhaseOf(s, t)) ==> s.mutex == Some(t))
    && (if s.mutex.None? then s.mem == AfterAll(m, s.calls)
        else Midway(PhaseOf(s, s.mutex.value), s.mem, AfterAll(m, s.calls)))
    && forall t: nat :: Answers(m, s.calls, PhaseOf(s, t))
  }

  // Whatever the interleaving, the memory is what the completed calls leave when run one
  // after another, each caller got what its own call returns in that order, and only one
  // caller is inside.
  lemma {:induction false} RunsAreSequential(m: Memory, ms: seq<Move>)
    requires Valid(m, ms)
    ensures Linear(m, Reached(m, ms))
  {
    if ms != [] {
      RunsAreSequential(m, ms[..|ms| - 1]);
      StepIsLinear(m, Reached(m, ms[..|ms| - 1]), ms[|ms| - 1]);
    }
  }

  lemma StepIsLinear(m: Memory, s: System, v: Move)
    requires Linear(m, s) && Enabled(s, v)
    ensures Linear(m, Next(s, v))
  {
    var s' := Next(s, v);
    assert Inside(PhaseOf(s, v.t)) ==> s.mutex == Some(v.t);
    forall t: nat
      ensures Inside(PhaseOf(s', t)) ==> s'.mutex == Some(t)
    {
      assert Inside(PhaseOf(s, t)) ==> s.mutex == Some(t);
      OneInside(s, v, t);
    }
    if s'.calls == s.calls {
      StaysMidway(s, v, AfterAll(m, s.calls));
      forall t: nat
        ensures Answers(m, s'.calls, PhaseOf(s', t))
      {
        assert Answers(m, s.calls, PhaseOf(s, t));
        NoNewAnswer(s, v, t);
      }
    } else {
      ReturnIsLinear(m, s, v);
    }
  }

  // The mutex lets one caller in at a time.
  lemma OneInside(s: System, v: Move, t: nat)
    requires Enabled(s, v)
    requires Inside(PhaseOf(s, t)) ==> s.mutex == Some(t)
    requires Inside(PhaseOf(s, v.t)) ==> s.mutex == Some(v.t)
    ensures Inside(PhaseOf(Next(s, v), t)) ==> Next(s, v).mutex == Some(t)
  {
  }

  lemma StaysMidway(s: System, v: Move, before: Memory)
    requires Enabled(s, v) && Next(s, v).calls == s.calls
    requires Inside(PhaseOf(s, v.t)) ==> s.mutex == Some(v.t)
    requires if s.mutex.None? then s.mem == before else Midway(PhaseOf(s, s.mutex.value), s.mem, before)
    ensures var s' := Next(s, v);
            if s'.mutex.None? then s'.mem == before else Midway(PhaseOf(s', s'.mutex.value), s'.mem, before)
  {
  }

  lemma NoNewAnswer(s: System, v: Move, t: nat)
    requires Enabled(s, v) && Next(s, v).calls == s.calls
    ensures PhaseOf(Next(s, v), t).Done? ==> PhaseOf(Next(s, v), t) == PhaseOf(s, t)
  {
  }

  lemma ReturnIsLinear(m: Memory, s: System, v: Move)
    requires Linear(m, s) && Enabled(s, v) && Next(s, v).calls != s.calls
    ensures Next(s, v).mutex.None? && Next(s, v).mem == AfterAll(m, Next(s, v).calls)
    ensures forall t: nat :: Answers(m, Next(s, v).calls, PhaseOf(Next(s, v), t))
  {
    var s' := Next(s, v);
    CallReturns(m, s, v);
    forall t: nat
      ensures Answers(m, s'.calls, PhaseOf(s', t))
    {
      if t != v.t {
        assert PhaseOf(s', t) == PhaseOf(s, t) && Answers(m, s.calls, PhaseOf(s, t));
        AnswersStand(m, s.calls, s'.calls[|s.calls|], PhaseOf(s, t));
      }
    }
  }

  lemma CallReturns(m: Memory, s: System, v: Move)
    requires Linear(m, s) && Enabled(s, v) && Next(s, v).calls != s.calls
    ensures var s' := Next(s, v);
            && |s'.calls| == |s.calls| + 1 && s'.calls == s.calls + [s'.calls[|s.calls|]]
            && s'.mutex.None? && s'.mem == AfterAll(m, s'.calls)
            && Answers(m, s'.calls, PhaseOf(s', v.t))
  {
    var s' := Next(s, v);
    assert Inside(PhaseOf(s, v.t)) && s.mutex == Some(v.t);
    ReturnMatches(s, v, AfterAll(m, s.calls));
    assert s'.calls[..|s.calls|] == s.calls;
  }

  // The step that returns leaves, and answers, what the whole call would on its own.
  lemma ReturnMatches(s: System, v: Move, before: Memory)
    requires Enabled(s, v) && Next(s, v).calls != s.calls && Midway(PhaseOf(s, v.t), s.mem, before)
    ensures var s' := Next(s, v);
            && |s'.calls| == |s.calls| + 1 && s'.calls == s.calls + [s'.calls[|s.calls|]]
            && s'.mutex.None?
            && PhaseOf(s', v.t)
               == Done(s'.calls[|s.calls|].stale, RefreshOnce(before, s'.calls[|s.calls|]).1, |s.calls|)
            && s'.mem == RefreshOnce(before, s'.calls[|s.calls|]).0
  {
    var c := Next(s, v).calls[|s.calls|];
    assert Next(s, v).calls == s.calls + [c];
  }

  lemma AnswersStand(m: Memory, calls: seq<Call>, c: Call, p: Phase)
    requires Answers(m, calls, p)
    ensures Answers(m, calls + [c], p)
  {
    if p.Done? {
      assert (calls + [c])[..p.which] == calls[..p.which];
    }
  }

  lemma Extend(m: Memory, ms: seq<Move>, v: Move)
    requires Valid(m, ms) && Enabled(Reached(m, ms), v)
    ensures Valid(m, ms + [v]) && Reached(m, ms + [v]) == Next(Reached(m, ms), v)
  {
    assert (ms + [v])[..|ms|] == ms;
  }

  lemma FinishExchange(m: Memory, ms: seq<Move>, t: nat, c: Call) returns (all: seq<Move>)
    requires Valid(m, ms) && PhaseOf(Reached(m, ms), t) == Exchanging(c.stale, Reached(m, ms).mem.creds)
    requires Exchanges(Reached(m, ms).mem.creds, c.stale)
    ensures Valid(m, all) && Reached(m, all).mutex.None?
    ensures PhaseOf(Reached(m, all), t).Done? && PhaseOf(Reached(m, all), t).stale == c.stale
    ensures (Reached(m, all).mem, PhaseOf(Reached(m, all), t).result) == RefreshOnce(Reached(m, ms).mem, c)
  {
    Extend(m, ms, Receive(t, c.reply));
    all := ms + [Receive(t, c.reply)];
    if Usable(c.reply) {
      Extend(m, all, Install(t, c.now));
      all := all + [Install(t, c.now)];
      Extend(m, all, Save(t, c.saved));
      all := all + [Save(t, c.saved)];
    }
  }

  // Whoever asks while nobody is inside can go straight through, and gets what the whole call
  // returns.
  lemma CallCanComplete(m: Memory, ms: seq<Move>, t: nat, c: Call) returns (all: seq<Move>)
    requires Valid(m, ms) && Reached(m, ms).mutex.None?
    requires PhaseOf(Reached(m, ms), t).Outside? || PhaseOf(Reached(m, ms), t).Done?
    ensures Valid(m, all) && Reached(m, all).mutex.None?
    ensures PhaseOf(Reached(m, all), t).Done? && PhaseOf(Reached(m, all), t).stale == c.stale
    ensures (Reached(m, all).mem, PhaseOf(Reached(m, all), t).result) == RefreshOnce(Reached(m, ms).mem, c)
  {
    Extend(m, ms, Ask(t, c.stale));
    all := ms + [Ask(t, c.stale)];
    Extend(m, all, Acquire(t));
    all := all + [Acquire(t)];
    Extend(m, all, Look(t));
    all := all + [Look(t)];
    if Exchanges(Reached(m, ms).mem.creds, c.stale) {
      all := FinishExchange(m, all, t, c);
    }
  }

  // ---------- Single flight ----------

  predicate InFlight(s: System, t: nat) {
    PhaseOf(s, t).Exchanging?
  }

  // Two exchanges never overlap, and the one under way carries the newest refresh token.
  lemma OneExchangeAtATime(m: Memory, ms: seq<Move>, t: nat, u: nat)
    requires Valid(m, ms) && InFlight(Reached(m, ms), t)
    ensures InFlight(Reached(m, ms), u) ==> t == u
    ensures PhaseOf(Reached(m, ms), t).sent.refresh == Newest(m, Reached(m, ms).calls)
  {
    var s := Reached(m, ms);
    RunsAreSequential(m, ms);
    assert Inside(PhaseOf(s, t));
    assert Inside(PhaseOf(s, u)) ==> s.mutex == Some(u);
    HoldsTheNewest(m, s.calls);
  }

  // ---------- Rotation ----------

  // The call's exchange succeeded.
  predicate Wins(m: Memory, calls: seq<Call>, i: nat)
    requires i < |calls|
  {
    Exchanges(AfterAll(m, calls[..i]).creds, calls[i].stale) && Usable(calls[i].reply)
  }

  // The last refresh token any successful exchange brought, else the one on file.
  function Newest(m: Memory, calls: seq<Call>): string {
    if calls == [] then m.creds.refresh
    else
      var i := |calls| - 1;
      if Wins(m, calls, i) && calls[i].reply.refresh != "" then calls[i].reply.refresh
      else Newest(m, calls[..i])
  }

  // The last access token any successful exchange brought, else the one on file.
  function Current(m: Memory, calls: seq<Call>): string {
    if calls == [] then m.creds.access
    else
      var i := |calls| - 1;
      if Wins(m, calls, i) then calls[i].reply.access else Current(m, calls[..i])
  }

  lemma {:induction false} HoldsTheNewest(m: Memory, calls: seq<Call>)
    ensures AfterAll(m, calls).creds.refresh == Newest(m, calls)
    ensures AfterAll(m, calls).creds.access == Current(m, calls)
    ensures AfterAll(m, calls).creds.clientId == m.creds.clientId
  {
    if calls != [] {
      HoldsTheNewest(m, calls[..|calls| - 1]);
    }
  }

  // With every save completed the file is what memory holds.
  lemma {:induction false} FileFollowsMemory(m: Memory, calls: seq<Call>)
    requires m.disk == m.creds
    requires forall i :: 0 <= i < |calls| ==> calls[i].saved
    ensures AfterAll(m, calls).disk == AfterAll(m, calls).creds
  {
    if calls != [] {
      FileFollowsMemory(m, calls[..|calls| - 1]);
    }
  }

  // ---------- One exchange per stale token ----------

  // The endpoint never issues an access token it issued before, nor the one on file.
  predicate FreshTokens(m: Memory, calls: seq<Call>) {
    && (forall i :: 0 <= i < |calls| && Wins(m, calls, i) ==> calls[i].reply.access != m.creds.access)
    && forall i, j :: 0 <= i < j < |calls| && Wins(m, calls, i) && Wins(m, calls, j)
                  ==> calls[i].reply.access != calls[j].reply.access
  }

  // The current token is either untouched since call i won, or brought by a later winner.
  lemma {:induction false} CurrentComesFrom(m: Memory, calls: seq<Call>, i: nat) returns (j: nat)
    requires i < |calls| && Wins(m, calls, i)
    ensures i <= j < |calls| && Wins(m, calls, j) && Current(m, calls) == calls[j].reply.access
  {
    var last := |calls| - 1;
    if Wins(m, calls, last) {
      j := last;
    } else {
      var before := calls[..last];
      assert before[..i] == calls[..i];
      j := CurrentComesFrom(m, before, i);
      assert before[..j] == calls[..j];
    }
  }

  lemma {:induction false} CurrentIsOnFileOrWon(m: Memory, calls: seq<Call>) returns (k: int)
    ensures k == -1 ==> Current(m, calls) == m.creds.access
    ensures k != -1 ==> 0 <= k < |calls| && Wins(m, calls, k) && Current(m, calls) == calls[k].reply.access
  {
    k := -1;
    if calls != [] {
      var last := |calls| - 1;
      if Wins(m, calls, last) {
        k := last;
      } else {
        var before := calls[..last];
        k := CurrentIsOnFileOrWon(m, before);
        if k != -1 {
          assert before[..k] == calls[..k];
        }
      }
    }
  }

  // A winner's token was not current at any point before it.
  lemma WinnerIsNew(m: Memory, calls: seq<Call>, i: nat, k: nat)
    requires i <= k < |calls| && FreshTokens(m, calls) && Wins(m, calls, k)
    ensures Current(m, calls[..i]) != calls[k].reply.access
  {
    var b := CurrentIsOnFileOrWon(m, calls[..i]);
    if b != -1 {
      assert calls[..i][..b] == calls[..b] && Wins(m, calls, b);
    }
  }

  // Given fresh tokens, at most one exchange per stale token succeeds.
  lemma OneSuccessPerStaleToken(m: Memory, calls: seq<Call>, i: nat, j: nat)
    requires i < j < |calls| && FreshTokens(m, calls)
    requires Wins(m, calls, i) && Wins(m, calls, j)
    ensures calls[i].stale == "" || calls[i].stale != calls[j].stale
  {
    var upTo := calls[..j];
    assert upTo[..i] == calls[..i];
    HoldsTheNewest(m, calls[..i]);
    HoldsTheNewest(m, upTo);
    var k := CurrentComesFrom(m, upTo, i);
    assert upTo[..k] == calls[..k] && Wins(m, calls, k);
    WinnerIsNew(m, calls, i, k);
  }

  // So once a caller with that stale token has succeeded, no exchange for it is started.
  lemma NoExchangeAfterSuccess(m: Memory, ms: seq<Move>, i: nat, t: nat)
    requires Valid(m, ms)
    requires var s := Reached(m, ms); i < |s.calls| && Wins(m, s.calls, i) && FreshTokens(m, s.calls)
    requires Reached(m, ms).calls[i].stale != ""
    requires InFlight(Reached(m, ms), t)
    ensures PhaseOf(Reached(m, ms), t).stale != Reached(m, ms).calls[i].stale
  {
    var s := Reached(m, ms);
    RunsAreSequential(m, ms);
    assert Inside(PhaseOf(s, t));
    HoldsTheNewest(m, s.calls);
    HoldsTheNewest(m, s.calls[..i]);
    var k := CurrentComesFrom(m, s.calls, i);
    WinnerIsNew(m, s.calls, i, k);
  }

  // A caller with a stale token gets that same token back exactly when the endpoint itself
  // issued it again; any token handed out without an exchange differs from it.
  lemma StaleComesBackExactly(m: Memory, ms: seq<Move>, t: nat)
    requires Valid(m, ms) && PhaseOf(Reached(m, ms), t).Done? && PhaseOf(Reached(m, ms), t).stale != ""
    ensures var s, p := Reached(m, ms), PhaseOf(Reached(m, ms), t);
            p.which < |s.calls|
            && (p.result == Token(p.stale)
                <==> Wins(m, s.calls, p.which) && s.calls[p.which].reply.access == p.stale)
  {
    RunsAreSequential(m, ms);
    assert Answers(m, Reached(m, ms).calls, PhaseOf(Reached(m, ms), t));
  }

  // ---------- The refresh schedule ----------

  function RefreshDelay(c: Creds, ttl: Duration, now: Time): Duration {
    if c.expiresAt == 0 then 0
    else
      var remaining := Sub(c.expiresAt * SECOND, now);
      var span := if ttl <= 0 then remaining else ttl;
      var delay := remaining - Quarter(span);
      if delay < 0 then 0 else delay
  }

  // Integer division truncates toward zero.
  function Quarter(d: Duration): Duration {
    if d < 0 then -(-d / 4) else d / 4
  }

  const LONGEST_SECONDS := 9_223_372_036

  // With only the expiry known, as on a start from the file, three quarters of what remains; not
  // at all without an expiry or past it.
  lemma FirstDelayInNumbers(c: Creds, ttl: Duration, now: Time)
    requires ttl <= 0 && c.expiresAt * 1_000_000_000 - now <= 9_223_372_036_854_775_807
    ensures var left, delay := c.expiresAt * 1_000_000_000 - now, RefreshDelay(c, ttl, now);
            if c.expiresAt == 0 || left <= 0 then delay == 0 else 3 * left <= 4 * delay < 3 * left + 4
  {
  }

  function DelayAfter(m: Memory, r: Reply, now: Time): Duration
    requires r.Answer?
  {
    var after := Installed(m, r, now);
    RefreshDelay(after.creds, after.ttl, now)
  }

  // The wait after an install, for every lifetime the endpoint may name: three quarters of the
  // lifetime the word is left with, less what rounding the expiry down to a second takes away.
  lemma DelayIsExactly(m: Memory, r: Reply, now: Time)
    requires r.Answer? && 0 <= now
    ensures var w := Lifetime(r.expiresIn);
            var left := w - w / 4 - (now + w) % SECOND;
            DelayAfter(m, r, now) == if w <= 0 || left < 0 then 0 else left
  {
  }

  // So the loop does not wait at all exactly when the lifetime wraps to nothing, or to so
  // little that rounding eats it.
  lemma CollapsesExactly(m: Memory, r: Reply, now: Time)
    requires r.Answer? && 0 <= now
    ensures var w := Lifetime(r.expiresIn);
            DelayAfter(m, r, now) == 0 <==> w <= 0 || w - w / 4 <= (now + w) % SECOND
  {
    DelayIsExactly(m, r, now);
  }

  // From two seconds up, the loop waits three quarters of the lifetime named (less at most the
  // rounded second) exactly when that lifetime fits the word.
  lemma WaitsThreeQuartersExactly(m: Memory, r: Reply, now: Time)
    requires r.Answer? && 0 <= now && 2 <= r.expiresIn
    ensures var ttl := r.expiresIn * SECOND;
            (ttl - ttl / 4 - SECOND < DelayAfter(m, r, now) <= ttl - ttl / 4) <==> r.expiresIn <= LONGEST_SECONDS
  {
    DelayIsExactly(m, r, now);
    WrapIsIdentity(r.expiresIn * SECOND);
    if r.expiresIn > LONGEST_SECONDS {
      assert Lifetime(r.expiresIn) <= r.expiresIn * SECOND - TWO_64;
    }
  }

  // A lifetime of one second survives only as far as the clock is into the current one.
  lemma OneSecondExactly(m: Memory, r: Reply, now: Time)
    requires r.Answer? && 0 <= now && r.expiresIn == 1
    ensures var left := SECOND / 4 * 3 - now % SECOND; DelayAfter(m, r, now) == if left < 0 then 0 else left
  {
    DelayIsExactly(m, r, now);
    WrapIsIdentity(SECOND);
  }

  // A missing or negative lifetime counts as eight hours and never collapses the wait.
  lemma MissingLifetimeIsEightHours(m: Memory, r: Reply, now: Time)
    requires r.Answer? && 0 <= now && r.expiresIn <= 0
    ensures 21_599_000_000_000 < DelayAfter(m, r, now) <= 21_600_000_000_000
  {
    DelayIsExactly(m, r, now);
    WrapIsIdentity(DEFAULT_LIFETIME_SECONDS * SECOND);
  }

  // Lifetimes past the word that collapse the wait: one wraps below zero, one to a third of a
  // second.
  lemma LifetimesThatCollapse(m: Memory, past: Reply, farPast: Reply, now: Time)
    requires past.Answer? && past.expiresIn == LONGEST_SECONDS + 1
    requires farPast.Answer? && farPast.expiresIn == 18_446_744_074
    requires 0 <= now && now % SECOND == 0
    ensures DelayAfter(m, past, now) == 0 && DelayAfter(m, farPast, now) == 0
  {
    CollapsesExactly(m, past, now);
    CollapsesExactly(m, farPast, now);
    assert Lifetime(farPast.expiresIn) == 290_448_384;
  }

  // ---------- The proactive loop ----------

  const RETRY_FLOOR := 300 * SECOND

  datatype Plan = Stop | Pause(d: Duration)

  // What the loop does after one unconditional refresh: later is the clock when it is done.
  // A rejected refresh token ends it; any other failure waits the floor and then reschedules.
  function LoopPlan(m: Memory, c: Call, later: Time): Plan {
    var (after, r) := RefreshOnce(m, c);
    if r.Token? then Pause(RefreshDelay(after.creds, after.ttl, later))
    else if r.ExchangeFailed? && c.reply.Refused? && c.reply.terminal then Stop
    else Pause(RETRY_FLOOR + RefreshDelay(after.creds, after.ttl, later + RETRY_FLOOR))
  }

  // What can be refreshed stays so: no reply can empty the refresh token.
  lemma {:induction false} StaysRefreshable(m: Memory, calls: seq<Call>)
    requires CanRefresh(m.creds)
    ensures CanRefresh(AfterAll(m, calls).creds)
  {
    if calls != [] {
      StaysRefreshable(m, calls[..|calls| - 1]);
    }
  }

  // Time spent before the loop looks again only shortens the wait by that time.
  lemma WaitShrinks(c: Creds, ttl: Duration, now: Time, later: Time)
    requires 0 < ttl && now <= later
    ensures RefreshDelay(c, ttl, later) >= RefreshDelay(c, ttl, now) - (later - now)
  {
  }

  // The loop stops exactly on a rejected refresh token, and otherwise leaves at least the
  // retry floor, or nearly three quarters of the new lifetime less the time already spent,
  // before its next attempt.
  lemma LoopNeverSpins(m: Memory, calls: seq<Call>, c: Call, later: Time, shortest: int)
    requires CanRefresh(m.creds) && c.stale == "" && 0 <= c.now <= later
    requires 2 <= shortest <= 28_800
    requires c.reply.Answer? ==> c.reply.expiresIn <= 0 || shortest <= c.reply.expiresIn <= LONGEST_SECONDS
    ensures var plan := LoopPlan(AfterAll(m, calls), c, later);
            && (plan.Stop? <==> c.reply.Refused? && c.reply.terminal)
            && (plan.Pause? && Usable(c.reply) ==> plan.d > shortest * SECOND / 4 * 3 - SECOND - (later - c.now))
            && (plan.Pause? && !Usable(c.reply) ==>
                  var m' := AfterAll(m, calls);
                  var rest := RefreshDelay(m'.creds, m'.ttl, later + 300_000_000_000);
                  plan.d == 300_000_000_000 + rest && rest >= 0)
  {
    StaysRefreshable(m, calls);
    if c.reply.Answer? {
      var before := AfterAll(m, calls);
      var after := Installed(before, c.reply, c.now);
      if c.reply.expiresIn <= 0 {
        MissingLifetimeIsEightHours(before, c.reply, c.now);
        WrapIsIdentity(DEFAULT_LIFETIME_SECONDS * SECOND);
      } else {
        WaitsThreeQuartersExactly(before, c.reply, c.now);
        WrapIsIdentity(c.reply.expiresIn * SECOND);
      }
      WaitShrinks(after.creds, after.ttl, c.now, later);
    }
  }

  // ---------- The manager as an object ----------

  class Manager {
    var creds: Creds
    var ttl: Duration
    var disk: Creds

    ghost function Value(): Memory
      reads this
    {
      Memory(creds, ttl, disk)
    }

    constructor (loaded: Creds)
      ensures Value() == Memory(loaded, 0, loaded)
    {
      creds, ttl, disk := loaded, 0, loaded;
    }

    // One call from taking the refresh mutex to releasing it.
    method Refresh(c: Call) returns (r: Result)
      modifies this
      ensures (Value(), r) == RefreshOnce(old(Value()), c)
    {
      var cur := creds;
      if !CanRefresh(cur) {
        return Disabled;
      }
      if c.stale != "" && cur.access != c.stale {
        return Token(cur.access);
      }
      match c.reply {
        case Refused(_) => return ExchangeFailed;
        case Answer(access, refresh, expiresIn) =>
          if access == "" {
            return ExchangeFailed;
          }
          var seconds := expiresIn;
          if seconds <= 0 {
            seconds := DEFAULT_LIFETIME_SECONDS;
          }
          var lifetime := Wrap64(seconds * SECOND);
          creds := creds.(access := access);
          if refresh != "" {
            creds := creds.(refresh := refresh);
          }
          creds := creds.(expiresAt := (c.now + lifetime) / SECOND);
          ttl := lifetime;
          var toSave := creds;
          if c.saved {
            disk := toSave;
          }
          return Token(access);
      }
    }

    // One turn of the proactive loop after its wait.
    method LoopTurn(c: Call, later: Time) returns (plan: Plan)
      requires c.stale == ""
      modifies this
      ensures plan == LoopPlan(old(Value()), c, later) && Value() == RefreshOnce(old(Value()), c).0
    {
      var r := Refresh(c);
      if r.Token? {
        return Pause(RefreshDelay(creds, ttl, later));
      }
      if r.ExchangeFailed? && c.reply.Refused? && c.reply.terminal {
        return Stop;
      }
      return Pause(RETRY_FLOOR + RefreshDelay(creds, ttl, later + RETRY_FLOOR));
    }
  }
}
