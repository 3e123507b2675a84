/** What every run of the gateway keeps: ownership, deduplication and their exact limits. */
module GatewaySafety {
  import opened Prelude
  import opened EventCodec
  import opened Gateway

  // ---------------------------------------------------------------- the Feishu instance

  function FeishuHandler(cfg: Config): Handler {
    Handler(
      e => Routable(cfg, e),
      e => if SessionKey(cfg, e).Some? then SessionKey(cfg, e).value else "",
      e => if MessageId(e).Some? then MessageId(e).value else "",
      e => ToJsonable(e),
      j => ToNamespace(j))
  }

  /** The codec of the gateway meets what the protocol asks of it, for every event. */
  lemma FeishuIsFaithful(cfg: Config)
    ensures Faithful(FeishuHandler(cfg))
  {
    var h := FeishuHandler(cfg);
    forall e | h.admits(e)
      ensures var e' := h.decode(h.encode(e));
              h.admits(e') && h.key(e') == h.key(e) && h.id(e') == h.id(e)
    {
      RebuildKeepsRouting(cfg, e);
    }
  }

  // ---------------------------------------------------------------- deduplication

  /** Which memory let a copy through: Redis, or one worker's fallback. */
  function Gate(a: Acceptance): Option<Worker> {
    if a.viaRedis then None else Some(a.worker)
  }

  ghost predicate Accepted(s: State, c: nat, m: string) {
    c in s.at.accepted && s.at.accepted[c].id == m
  }

  ghost predicate DedupInv(s: State, m: string) {
    && (forall c | Accepted(s, c, m) ::
          if s.at.accepted[c].viaRedis then m in s.redis.dedup else (s.at.accepted[c].worker, m) in s.seen)
    && (forall c, d | Accepted(s, c, m) && Accepted(s, d, m) && c != d ::
          Gate(s.at.accepted[c]) != Gate(s.at.accepted[d]))
  }

  /** Routing never touches the verdicts of the dedup check. */
  lemma RouterFrame(h: Handler, s: State, step: Step)
    requires IsRouterStep(step)
    ensures var s' := Apply(h, s, step);
            && s'.at.accepted == s.at.accepted && s'.at.discarded == s.at.discarded
            && s'.seen == s.seen && s'.redis.dedup == s.redis.dedup && s'.log.orphaned == s.log.orphaned
  {
    match step
    case DoArrive(w, e) =>
    case DoResolve(c) =>
    case DoRenew(c) =>
    case DoClaim(c) =>
    case DoReresolve(c) =>
    case DoPublish(c) =>
    case DoForceClaim(c) =>
  }

  /** Steps other than the dedup check leave its verdicts alone. */
  lemma DedupFrame(h: Handler, s: State, step: Step)
    requires !step.DoDedup? && !step.DedupError?
    ensures var s' := Apply(h, s, step);
            s'.at.accepted == s.at.accepted && s'.seen == s.seen && s'.at.discarded == s.at.discarded
    ensures !step.DedupExpire? ==> s.redis.dedup <= Apply(h, s, step).redis.dedup
    ensures !step.Crash? ==> Apply(h, s, step).redis.dedup <= s.redis.dedup && Apply(h, s, step).log.orphaned == s.log.orphaned
  {
    if IsRouterStep(step) {
      RouterFrame(h, s, step);
    } else {
      match step
      case DoDeliver(c) =>
      case RouteError(c, applied) =>
      case Crash(c, applied) =>
      case Lose(c) =>
      case _ =>
    }
  }

  /** The key and id a copy entered with are never rewritten. */
  predicate KeepsOrigins(s: State, s': State) {
    forall c | c in s.log.origin :: c in s'.log.origin && s'.log.origin[c] == s.log.origin[c]
  }

  lemma ArrivalsKeepOrigins(h: Handler, s: State, step: Step)
    requires Good(h, s) && step.DoArrive?
    ensures KeepsOrigins(s, Apply(h, s, step))
  {
    assert s.at.next !in s.log.origin;
  }

  lemma FailuresKeepOrigins(h: Handler, s: State, step: Step)
    requires Good(h, s) && (step.RouteError? || step.Crash?)
    ensures KeepsOrigins(s, Apply(h, s, step))
  {
    assert s.at.next !in s.log.origin;
  }

  lemma HistoryFrame(h: Handler, s: State, step: Step)
    requires Good(h, s)
    ensures KeepsOrigins(s, Apply(h, s, step))
  {
    if step.DoArrive? {
      ArrivalsKeepOrigins(h, s, step);
    } else if step.RouteError? || step.Crash? {
      FailuresKeepOrigins(h, s, step);
    } else {
      assert Apply(h, s, step).log.origin == s.log.origin;
    }
  }

  lemma DedupStepKeepsInv(s: State, c: nat, m: string)
    requires DedupInv(s, m)
    ensures At(s, c, Dedup) ==> DedupInv(DedupStep(s, c), m)
  {
  }

  lemma DedupErrorKeepsInv(s: State, c: nat, applied: bool, m: string)
    requires DedupInv(s, m)
    ensures At(s, c, Dedup) ==> DedupInv(DedupErrorStep(s, c, applied), m)
  {
  }

  lemma {:induction false} StepKeepsDedupInv(h: Handler, s: State, step: Step, m: string)
    requires DedupInv(s, m) && step != DedupExpire(m)
    ensures DedupInv(Apply(h, s, step), m)
  {
    match step
    case DoDedup(c) => DedupStepKeepsInv(s, c, m);
    case DedupError(c, applied) => DedupErrorKeepsInv(s, c, applied, m);
    case DedupExpire(x) =>
    case _ => DedupFrame(h, s, step);
  }

  /**
   At most once, under every interleaving, ownership change, forwarding, crash and Redis
   error: while the dedup key of `m` does not expire, no two copies of `m` pass the same
   gate, so Redis lets at most one through and each worker's fallback at most one more.
   */
  lemma {:induction false} AtMostOncePerGate(h: Handler, run: seq<Step>, m: string)
    requires DedupExpire(m) !in run
    ensures DedupInv(Execute(h, run), m)
    ensures var s := Execute(h, run);
            forall c, d | Accepted(s, c, m) && Accepted(s, d, m) && c != d ::
              Gate(s.at.accepted[c]) != Gate(s.at.accepted[d])
  {
    if run != [] {
      AtMostOncePerGate(h, run[..|run|-1], m);
      StepKeepsDedupInv(h, Execute(h, run[..|run|-1]), run[|run|-1], m);
    }
  }

  ghost predicate NoDedupError(run: seq<Step>) {
    forall step | step in run :: !step.DedupError?
  }

  ghost predicate AllViaRedis(s: State) {
    forall c | c in s.at.accepted :: s.at.accepted[c].viaRedis
  }

  lemma StepKeepsViaRedis(h: Handler, s: State, step: Step)
    requires AllViaRedis(s) && !step.DedupError?
    ensures AllViaRedis(Apply(h, s, step))
  {
    if !step.DoDedup? {
      DedupFrame(h, s, step);
    }
  }

  lemma {:induction false} WithoutErrorsAllViaRedis(h: Handler, run: seq<Step>)
    requires NoDedupError(run)
    ensures AllViaRedis(Execute(h, run))
  {
    if run != [] {
      assert run[|run|-1] in run && forall x | x in run[..|run|-1] :: x in run;
      WithoutErrorsAllViaRedis(h, run[..|run|-1]);
      StepKeepsViaRedis(h, Execute(h, run[..|run|-1]), run[|run|-1]);
    }
  }

  /** With Redis reachable for the dedup check, a message id is accepted at most once. */
  lemma AtMostOnce(h: Handler, run: seq<Step>, c: nat, d: nat)
    requires NoDedupError(run)
    requires c in Execute(h, run).at.accepted && d in Execute(h, run).at.accepted
    requires Execute(h, run).at.accepted[c].id == Execute(h, run).at.accepted[d].id
    requires DedupExpire(Execute(h, run).at.accepted[c].id) !in run
    ensures c == d
  {
    WithoutErrorsAllViaRedis(h, run);
    AtMostOncePerGate(h, run, Execute(h, run).at.accepted[c].id);
  }

  // ---------------------------------------------------------------- nothing is swallowed

  ghost predicate AcceptedId(s: State, m: string) {
    exists c :: Accepted(s, c, m)
  }

  ghost predicate Spoken(s: State, m: string) {
    AcceptedId(s, m) || m in s.log.orphaned
  }

  ghost predicate NoSwallowInv(s: State) {
    && (forall m | m in s.redis.dedup :: Spoken(s, m))
    && (forall p | p in s.seen :: AcceptedId(s, p.1))
    && (forall c | c in s.at.discarded :: c in s.log.origin && Spoken(s, s.log.origin[c].id))
  }

  lemma GrowingKeepsSpoken(s: State, s': State)
    requires forall c | c in s.at.accepted :: c in s'.at.accepted && s'.at.accepted[c] == s.at.accepted[c]
    requires s.log.orphaned <= s'.log.orphaned
    ensures forall m | AcceptedId(s, m) :: AcceptedId(s', m)
    ensures forall m | Spoken(s, m) :: Spoken(s', m)
  {
    forall m | AcceptedId(s, m)
      ensures AcceptedId(s', m)
    {
      var c :| Accepted(s, c, m);
      assert Accepted(s', c, m);
    }
  }

  /** Only the two dedup steps and a crash touch what `NoSwallowInv` talks about. */
  lemma OtherStepsKeepNoSwallow(h: Handler, s: State, step: Step)
    requires NoSwallowInv(s) && Good(h, s)
    requires !step.DoDedup? && !step.DedupError? && !step.Crash?
    ensures NoSwallowInv(Apply(h, s, step))
  {
    var s' := Apply(h, s, step);
    DedupFrame(h, s, step);
    HistoryFrame(h, s, step);
    GrowingKeepsSpoken(s, s');
  }

  lemma DedupStepKeepsNoSwallow(h: Handler, s: State, c: nat)
    requires NoSwallowInv(s) && Good(h, s) && At(s, c, Dedup)
    ensures NoSwallowInv(DedupStep(s, c))
  {
    assert Places(s, c) == 1;
    var s' := DedupStep(s, c);
    GrowingKeepsSpoken(s, s');
    if s.at.routing[c].id !in s.redis.dedup {
      assert Accepted(s', c, s.at.routing[c].id);
    }
  }

  lemma DedupErrorKeepsNoSwallow(h: Handler, s: State, c: nat, applied: bool)
    requires NoSwallowInv(s) && Good(h, s) && At(s, c, Dedup)
    ensures NoSwallowInv(DedupErrorStep(s, c, applied))
  {
    assert Places(s, c) == 1;
    var s', m, w := DedupErrorStep(s, c, applied), s.at.routing[c].id, s.at.routing[c].worker;
    GrowingKeepsSpoken(s, s');
    assert AcceptedId(s', m) by {
      if (w, m) in s.seen {
        assert AcceptedId(s, (w, m).1);
      } else {
        assert Accepted(s', c, m);
      }
    }
  }

  lemma CrashKeepsNoSwallow(h: Handler, s: State, c: nat, applied: bool)
    requires NoSwallowInv(s) && Good(h, s) && c in s.at.routing
    ensures NoSwallowInv(CrashStep(h, s, c, applied))
  {
    var s' := CrashStep(h, s, c, applied);
    assert s'.at.accepted == s.at.accepted && s'.seen == s.seen && s'.at.discarded == s.at.discarded;
    GrowingKeepsSpoken(s, s');
    assert forall m | m in s'.redis.dedup :: m in s.redis.dedup || m in s'.log.orphaned;
    forall d | d in s'.at.discarded
      ensures d in s'.log.origin && s'.log.origin[d] == s.log.origin[d]
    {
      assert d in s.log.origin;
    }
  }

  lemma StepKeepsNoSwallow(h: Handler, s: State, step: Step)
    requires Faithful(h) && Good(h, s) && NoSwallowInv(s)
    ensures NoSwallowInv(Apply(h, s, step))
  {
    match step
    case DoDedup(c) => if At(s, c, Dedup) { DedupStepKeepsNoSwallow(h, s, c); }
    case DedupError(c, applied) => if At(s, c, Dedup) { DedupErrorKeepsNoSwallow(h, s, c, applied); }
    case Crash(c, applied) => if c in s.at.routing { CrashKeepsNoSwallow(h, s, c, applied); }
    case _ => OtherStepsKeepNoSwallow(h, s, step);
  }

  lemma {:induction false} ReachableNoSwallow(h: Handler, run: seq<Step>)
    requires Faithful(h)
    ensures NoSwallowInv(Execute(h, run))
  {
    if run != [] {
      var s, step := Execute(h, run[..|run|-1]), run[|run|-1];
      ReachableNoSwallow(h, run[..|run|-1]);
      Reachable(h, run[..|run|-1]);
      StepKeepsNoSwallow(h, s, step);
    }
  }

  /**
   A copy is discarded as a duplicate only if some copy with the same id was accepted, or a
   worker died between setting the dedup key and reading the reply (`orphaned`).
   */
  lemma DiscardedOnlyAfterAcceptance(h: Handler, run: seq<Step>, c: nat)
    requires Faithful(h)
    requires c in Execute(h, run).at.discarded
    ensures var s := Execute(h, run);
            c in s.log.origin && (AcceptedId(s, s.log.origin[c].id) || s.log.origin[c].id in s.log.orphaned)
  {
    ReachableNoSwallow(h, run);
  }

  /** That last clause is needed: one such crash swallows every later copy of the message. */
  lemma OrphanSwallows(h: Handler, w: Worker, e: Value) returns (run: seq<Step>)
    requires h.admits(e)
    ensures var s := Execute(h, run);
            1 in s.at.discarded && s.at.accepted == map[] && s.log.orphaned == {h.id(e)}
  {
    run := [];
    run := Extend(h, run, DoArrive(w, e));
    run := Extend(h, run, DoResolve(0));
    run := Extend(h, run, DoClaim(0));
    run := Extend(h, run, Crash(0, true));
    run := Extend(h, run, DoArrive(w, e));
    run := Extend(h, run, DoResolve(1));
    run := Extend(h, run, DoRenew(1));
    run := Extend(h, run, DoDedup(1));
  }

  lemma Extend(h: Handler, run: seq<Step>, step: Step) returns (longer: seq<Step>)
    ensures longer == run + [step]
    ensures Execute(h, longer) == Apply(h, Execute(h, run), step)
  {
    longer := run + [step];
    assert longer[..|longer|-1] == run;
  }

  // ---------------------------------------------------------------- one owner per session key

  /** Step `step` of state `s` does nothing unusual to session key `k`. */
  predicate QuietFor(s: State, step: Step, k: string) {
    match step
    case Expire(x) => x != k
    case WebConnect(w, user) => "web:" + user != k
    case RouteError(c, applied) => c in s.at.routing ==> s.at.routing[c].key != k
    case DoPublish(c) =>
      (c in s.at.routing && s.at.routing[c].key == k && s.at.routing[c].pc.Publish?) ==>
        s.at.routing[c].pc.target in s.redis.subscribed
    case _ => true
  }

  /** No expiry of `k`, no Redis error while routing it, no publish for it that reaches nobody. */
  ghost predicate QuietRun(h: Handler, run: seq<Step>, k: string) {
    run == [] ||
    var front := run[..|run|-1];
    QuietRun(h, front, k) && QuietFor(Execute(h, front), run[|run|-1], k)
  }

  ghost predicate OwnedBy(s: State, k: string, w: Worker) {
    k in s.redis.owner && s.redis.owner[k] == w
  }

  ghost predicate QuietCall(s: State, c: nat, k: string)
    requires c in s.at.routing
  {
    var call := s.at.routing[c];
    && !call.pc.ForceClaim?
    && (Hops(s, c) > 0 ==> OwnedBy(s, k, call.worker))
    && (call.pc.Renew? ==> OwnedBy(s, k, call.worker))
    && (call.pc.Reresolve? ==> k in s.redis.owner)
    && (call.pc.Publish? ==> OwnedBy(s, k, call.pc.target) && call.pc.target != call.worker)
    && Hops(s, c) <= 1
  }

  ghost predicate QuietInv(s: State, k: string) {
    && (forall c | c in s.at.routing && s.at.routing[c].key == k :: QuietCall(s, c, k))
    && (forall c | c in s.at.channel && c in s.log.origin && s.log.origin[c].key == k ::
          OwnedBy(s, k, s.at.channel[c].target) && Hops(s, c) == 1)
    && (forall c | c in s.log.answers && s.log.answers[c].key == k :: OwnedBy(s, k, s.log.answers[c].worker))
    && (forall c | c in s.log.origin && s.log.origin[c].key == k :: Hops(s, c) <= 1)
  }

  lemma GotoQuiet(h: Handler, s: State, c: nat, pc: Pc, k: string)
    requires Good(h, s) && QuietInv(s, k) && c in s.at.routing
    requires s.at.routing[c].key == k ==> QuietCall(Goto(s, c, pc), c, k)
    ensures QuietInv(Goto(s, c, pc), k)
  {
    var s' := Goto(s, c, pc);
    forall d | d in s'.at.routing && s'.at.routing[d].key == k
      ensures QuietCall(s', d, k)
    {
      assert d != c ==> QuietCall(s, d, k);
    }
  }

  lemma AnswerQuiet(h: Handler, s: State, c: nat, k: string)
    requires Good(h, s) && QuietInv(s, k) && c in s.at.routing
    requires s.at.routing[c].key == k ==> OwnedBy(s, k, s.at.routing[c].worker)
    ensures QuietInv(AnswerLocal(s, c), k)
  {
    var s' := AnswerLocal(s, c);
    forall d | d in s'.at.routing && s'.at.routing[d].key == k
      ensures QuietCall(s', d, k)
    {
      assert QuietCall(s, d, k);
    }
  }

  lemma OwnQuiet(h: Handler, s: State, x: string, w: Worker, k: string)
    requires Good(h, s) && QuietInv(s, k)
    requires x == k ==> k !in s.redis.owner
    ensures QuietInv(Own(s, x, w), k)
  {
    var s' := Own(s, x, w);
    forall d | d in s'.at.routing && s'.at.routing[d].key == k
      ensures QuietCall(s', d, k)
    {
      assert QuietCall(s, d, k);
    }
  }

  /** Removing calls, or changing Redis without touching `k`, is harmless. */
  lemma ShrinkQuiet(s: State, s': State, k: string)
    requires QuietInv(s, k)
    requires s'.log.answers == s.log.answers && s'.log.origin == s.log.origin && s'.log.hops == s.log.hops
    requires s'.at.channel.Keys <= s.at.channel.Keys && s'.at.routing.Keys <= s.at.routing.Keys
    requires forall d | d in s'.at.channel :: s'.at.channel[d] == s.at.channel[d]
    requires forall d | d in s'.at.routing :: s'.at.routing[d] == s.at.routing[d]
    requires k in s'.redis.owner <==> k in s.redis.owner
    requires k in s.redis.owner ==> s'.redis.owner[k] == s.redis.owner[k]
    ensures QuietInv(s', k)
  {
    forall d | d in s'.at.routing && s'.at.routing[d].key == k
      ensures QuietCall(s', d, k)
    {
      assert QuietCall(s, d, k);
    }
  }

  lemma ForwardedQuiet(h: Handler, s: State, c: nat, k: string)
    requires Faithful(h) && Good(h, s) && QuietInv(s, k)
    requires c in s.at.routing && s.at.routing[c].pc.Publish?
    ensures QuietInv(Forwarded(h, s, c, s.at.routing[c].pc.target), k)
  {
    var s' := Forwarded(h, s, c, s.at.routing[c].pc.target);
    if s.at.routing[c].key == k {
      assert QuietCall(s, c, k);
    }
    forall d | d in s'.at.routing && s'.at.routing[d].key == k
      ensures QuietCall(s', d, k)
    {
      assert QuietCall(s, d, k);
    }
  }

  lemma DuplicatedQuiet(h: Handler, s: State, c: nat, t: Worker, k: string)
    requires Faithful(h) && Good(h, s) && QuietInv(s, k)
    requires c in s.at.routing && s.at.routing[c].key != k
    ensures QuietInv(Duplicated(h, s, c, t), k)
  {
    var s' := Duplicated(h, s, c, t);
    assert Places(s, s.at.next) == 0;
    forall d | d in s'.at.routing && s'.at.routing[d].key == k
      ensures QuietCall(s', d, k)
    {
      assert QuietCall(s, d, k);
    }
  }

  lemma ArriveQuiet(h: Handler, s: State, w: Worker, e: Value, k: string)
    requires Good(h, s) && QuietInv(s, k)
    ensures QuietInv(ArriveStep(h, s, w, e), k)
  {
    var s' := ArriveStep(h, s, w, e);
    assert Places(s, s.at.next) == 0;
    forall d | d in s'.at.routing && s'.at.routing[d].key == k
      ensures QuietCall(s', d, k)
    {
      assert d != s.at.next ==> QuietCall(s, d, k);
    }
  }

  lemma DeliverQuiet(h: Handler, s: State, c: nat, k: string)
    requires Good(h, s) && QuietInv(s, k) && c in s.at.channel
    ensures QuietInv(DeliverStep(h, s, c), k)
  {
    var s' := DeliverStep(h, s, c);
    assert Carries(h, h.decode(s.at.channel[c].payload), s.log.origin[c]);
    forall d | d in s'.at.routing && s'.at.routing[d].key == k
      ensures QuietCall(s', d, k)
    {
      assert d != c ==> QuietCall(s, d, k);
    }
  }

  /** The claim of an absent key makes this worker the owner before it answers. */
  lemma ClaimQuiet(h: Handler, s: State, c: nat, k: string)
    requires Faithful(h) && Good(h, s) && QuietInv(s, k) && At(s, c, Claim)
    ensures QuietInv(ClaimStep(s, c), k)
  {
    var call := s.at.routing[c];
    assert call.key == k ==> QuietCall(s, c, k);
    if call.key in s.redis.owner {
      GotoQuiet(h, s, c, Reresolve, k);
    } else {
      OwnQuiet(h, s, call.key, call.worker, k);
      RedisKeeps(h, s, Own(s, call.key, call.worker));
      AnswerQuiet(h, Own(s, call.key, call.worker), c, k);
    }
  }

  lemma {:induction false} ResolvesQuiet(h: Handler, s: State, c: nat, k: string)
    requires Faithful(h) && Good(h, s) && QuietInv(s, k) && c in s.at.routing
    ensures At(s, c, Resolve) ==> QuietInv(ResolveStep(s, c), k)
    ensures At(s, c, Reresolve) ==> QuietInv(ReresolveStep(s, c), k)
  {
    var call := s.at.routing[c];
    assert call.key == k ==> QuietCall(s, c, k);
    if call.key !in s.redis.owner {
      if call.pc == Resolve { GotoQuiet(h, s, c, Claim, k); }
      if call.pc == Reresolve { AnswerQuiet(h, s, c, k); }
    } else if s.redis.owner[call.key] == call.worker {
      GotoQuiet(h, s, c, Renew, k);
      AnswerQuiet(h, s, c, k);
    } else {
      GotoQuiet(h, s, c, Publish(s.redis.owner[call.key]), k);
    }
  }

  lemma {:induction false} RouterStepKeepsQuiet(h: Handler, s: State, step: Step, k: string)
    requires Faithful(h) && Good(h, s) && QuietInv(s, k) && QuietFor(s, step, k)
    requires IsRouterStep(step)
    ensures QuietInv(Apply(h, s, step), k)
  {
    match step
    case DoArrive(w, e) => ArriveQuiet(h, s, w, e, k);
    case DoResolve(c) => if At(s, c, Resolve) { ResolvesQuiet(h, s, c, k); }
    case DoRenew(c) =>
      if At(s, c, Renew) {
        assert s.at.routing[c].key == k ==> QuietCall(s, c, k);
        AnswerQuiet(h, s, c, k);
      }
    case DoClaim(c) => if At(s, c, Claim) { ClaimQuiet(h, s, c, k); }
    case DoReresolve(c) => if At(s, c, Reresolve) { ResolvesQuiet(h, s, c, k); }
    case DoPublish(c) =>
      if c in s.at.routing && s.at.routing[c].pc.Publish? {
        if s.at.routing[c].pc.target in s.redis.subscribed {
          ForwardedQuiet(h, s, c, k);
        } else {
          GotoQuiet(h, s, c, ForceClaim, k);
        }
      }
    case DoForceClaim(c) =>
      if At(s, c, ForceClaim) {
        var call := s.at.routing[c];
        assert call.key == k ==> QuietCall(s, c, k);
        OwnQuiet(h, s, call.key, call.worker, k);
        RedisKeeps(h, s, Own(s, call.key, call.worker));
        AnswerQuiet(h, Own(s, call.key, call.worker), c, k);
      }
  }

  /** A command that Redis executed without the caller noticing, for another key or a claim. */
  lemma LandQuiet(h: Handler, s: State, c: nat, k: string)
    requires Faithful(h) && Good(h, s) && QuietInv(s, k) && c in s.at.routing
    requires s.at.routing[c].key == k ==> !s.at.routing[c].pc.Publish?
    ensures QuietInv(Land(h, s, c), k)
  {
    var call := s.at.routing[c];
    assert call.key == k ==> QuietCall(s, c, k);
    match call.pc
    case Claim => if call.key !in s.redis.owner { OwnQuiet(h, s, call.key, call.worker, k); }
    case ForceClaim => OwnQuiet(h, s, call.key, call.worker, k);
    case Publish(t) => DuplicatedQuiet(h, s, c, t, k);
    case _ =>
  }

  lemma {:induction false} CrashQuiet(h: Handler, s: State, c: nat, applied: bool, k: string)
    requires Faithful(h) && Good(h, s) && QuietInv(s, k) && c in s.at.routing
    ensures QuietInv(CrashStep(h, s, c, applied), k)
  {
    var call := s.at.routing[c];
    if applied && call.pc.Publish? && call.pc.target in s.redis.subscribed {
      ForwardedQuiet(h, s, c, k);
    } else if applied && !call.pc.Publish? && call.pc != Dedup {
      LandQuiet(h, s, c, k);
      ShrinkQuiet(Land(h, s, c), CrashStep(h, s, c, applied), k);
    } else {
      ShrinkQuiet(s, CrashStep(h, s, c, applied), k);
    }
  }

  lemma {:induction false} OtherStepKeepsQuiet(h: Handler, s: State, step: Step, k: string)
    requires Faithful(h) && Good(h, s) && QuietInv(s, k) && QuietFor(s, step, k)
    requires !IsRouterStep(step)
    ensures QuietInv(Apply(h, s, step), k)
  {
    match step
    case DoDeliver(c) => if c in s.at.channel { DeliverQuiet(h, s, c, k); }
    case RouteError(c, applied) =>
      if c in s.at.routing && s.at.routing[c].pc != Dedup {
        LandQuiet(h, s, c, k);
        LandKeeps(h, s, c);
        AnswerQuiet(h, if applied then Land(h, s, c) else s, c, k);
      }
    case Crash(c, applied) => if c in s.at.routing { CrashQuiet(h, s, c, applied, k); }
    case Lose(c) => DroppedQuiet(h, s, step, k);
    case DoDedup(c) => DroppedQuiet(h, s, step, k);
    case DedupError(c, applied) => DroppedQuiet(h, s, step, k);
    case _ => EnvironmentQuiet(h, s, step, k);
  }

  lemma DroppedQuiet(h: Handler, s: State, step: Step, k: string)
    requires QuietInv(s, k) && (step.Lose? || step.DoDedup? || step.DedupError?)
    ensures QuietInv(Apply(h, s, step), k)
  {
    ShrinkQuiet(s, Apply(h, s, step), k);
  }

  lemma EnvironmentQuiet(h: Handler, s: State, step: Step, k: string)
    requires QuietInv(s, k) && QuietFor(s, step, k)
    requires IsEnvironmentStep(step)
    ensures QuietInv(Apply(h, s, step), k)
  {
    ShrinkQuiet(s, Apply(h, s, step), k);
  }

  /**
   Over all interleavings: in a run that is quiet for session key `k`, every call that
   answers "local" for `k` does so on one and the same worker, and no copy of an event for
   `k` is forwarded twice.
   */
  lemma {:induction false} SingleOwner(h: Handler, run: seq<Step>, k: string)
    requires Faithful(h) && QuietRun(h, run, k)
    ensures QuietInv(Execute(h, run), k)
    ensures var log := Execute(h, run).log;
            && (forall c, d | c in log.answers && d in log.answers && log.answers[c].key == log.answers[d].key == k ::
                  log.answers[c].worker == log.answers[d].worker)
            && (forall c | c in log.origin && log.origin[c].key == k :: Hops(Execute(h, run), c) <= 1)
  {
    if run != [] {
      var s, step := Execute(h, run[..|run|-1]), run[|run|-1];
      SingleOwner(h, run[..|run|-1], k);
      Reachable(h, run[..|run|-1]);
      if IsRouterStep(step) {
        RouterStepKeepsQuiet(h, s, step, k);
      } else {
        OtherStepKeepsQuiet(h, s, step, k);
      }
    }
  }

  // Each kind of fault that `QuietFor` rules out is enough to break single ownership, after any run.

  /** Some call for `k` answered "local" at `w`. */
  ghost predicate Served(s: State, k: string, w: Worker) {
    exists c :: c in s.log.answers && s.log.answers[c] == Answer(k, w)
  }

  ghost predicate TwoOwners(s: State, k: string, a: Worker, b: Worker) {
    a != b && Served(s, k, a) && Served(s, k, b)
  }

  /** An answer for the newest copy leaves the earlier answers alone. */
  lemma AnsweredToo(h: Handler, s: State, s': State, e: Value, a: Worker, b: Worker)
    requires Good(h, s) && h.admits(e) && a != b && Served(s, h.key(e), a)
    requires s'.log.answers == s.log.answers[s.at.next := Answer(h.key(e), b)]
    ensures TwoOwners(s', h.key(e), a, b)
  {
    var c :| c in s.log.answers && s.log.answers[c] == Answer(h.key(e), a);
    assert c in s.log.origin;
    assert s'.log.answers[c] == Answer(h.key(e), a);
    assert s'.log.answers[s.at.next] == Answer(h.key(e), b);
  }

  lemma ExpiryBreaksIt(h: Handler, run: seq<Step>, a: Worker, b: Worker, e: Value) returns (longer: seq<Step>)
    requires Faithful(h) && h.admits(e) && a != b && Served(Execute(h, run), h.key(e), a)
    ensures var n := Execute(h, run).at.next;
            longer == run + [Expire(h.key(e)), DoArrive(b, e), DoResolve(n), DoClaim(n)]
    ensures TwoOwners(Execute(h, longer), h.key(e), a, b)
  {
    Reachable(h, run);
    var n := Execute(h, run).at.next;
    longer := Extend(h, run, Expire(h.key(e)));
    longer := Extend(h, longer, DoArrive(b, e));
    longer := Extend(h, longer, DoResolve(n));
    longer := Extend(h, longer, DoClaim(n));
    AnsweredToo(h, Execute(h, run), Execute(h, longer), e, a, b);
  }

  lemma RedisErrorBreaksIt(h: Handler, run: seq<Step>, a: Worker, b: Worker, e: Value) returns (longer: seq<Step>)
    requires Faithful(h) && h.admits(e) && a != b && Served(Execute(h, run), h.key(e), a)
    ensures longer == run + [DoArrive(b, e), RouteError(Execute(h, run).at.next, false)]
    ensures TwoOwners(Execute(h, longer), h.key(e), a, b)
  {
    Reachable(h, run);
    longer := Extend(h, run, DoArrive(b, e));
    longer := Extend(h, longer, RouteError(Execute(h, run).at.next, false));
    AnsweredToo(h, Execute(h, run), Execute(h, longer), e, a, b);
  }

  lemma UndeliveredPublishBreaksIt(h: Handler, run: seq<Step>, a: Worker, b: Worker, e: Value) returns (longer: seq<Step>)
    requires Faithful(h) && h.admits(e) && a != b && Served(Execute(h, run), h.key(e), a)
    requires OwnedBy(Execute(h, run), h.key(e), a)
    ensures var n := Execute(h, run).at.next;
            longer == run + [Leave(a), DoArrive(b, e), DoResolve(n), DoPublish(n), DoForceClaim(n)]
    ensures TwoOwners(Execute(h, longer), h.key(e), a, b)
  {
    Reachable(h, run);
    var n := Execute(h, run).at.next;
    longer := Extend(h, run, Leave(a));
    longer := Extend(h, longer, DoArrive(b, e));
    longer := Extend(h, longer, DoResolve(n));
    longer := Extend(h, longer, DoPublish(n));
    longer := Extend(h, longer, DoForceClaim(n));
    AnsweredToo(h, Execute(h, run), Execute(h, longer), e, a, b);
  }

  /** There are such runs: in every quiet run the worker that answered is the owner, and one can answer at once. */
  lemma QuietOwner(h: Handler, run: seq<Step>, k: string, a: Worker)
    requires Faithful(h) && QuietRun(h, run, k) && Served(Execute(h, run), k, a)
    ensures OwnedBy(Execute(h, run), k, a)
  {
    SingleOwner(h, run, k);
  }

  lemma ServedAtOnce(h: Handler, a: Worker, e: Value) returns (run: seq<Step>)
    requires h.admits(e)
    ensures run == [DoArrive(a, e), DoResolve(0), DoClaim(0)]
    ensures QuietRun(h, run, h.key(e)) && Served(Execute(h, run), h.key(e), a)
  {
    run := [];
    var longer := Extend(h, run, DoArrive(a, e));
    QuietExtend(h, run, DoArrive(a, e), h.key(e));
    run := longer;
    longer := Extend(h, run, DoResolve(0));
    QuietExtend(h, run, DoResolve(0), h.key(e));
    run := longer;
    longer := Extend(h, run, DoClaim(0));
    QuietExtend(h, run, DoClaim(0), h.key(e));
    run := longer;
    assert Execute(h, run).log.answers[0] == Answer(h.key(e), a);
  }

  lemma QuietExtend(h: Handler, run: seq<Step>, step: Step, k: string)
    requires QuietRun(h, run, k) && QuietFor(Execute(h, run), step, k)
    ensures QuietRun(h, run + [step], k)
  {
    assert (run + [step])[..|run + [step]|-1] == run;
  }

  // Each kind of fault that `AtMostOnce` rules out lets an id be accepted twice, after any run.

  /** The worker a new event for `k` is handled on without being forwarded: the owner, or `w` when there is none. */
  function Home(s: State, k: string, w: Worker): Worker {
    if k in s.redis.owner then s.redis.owner[k] else w
  }

  /** A new copy of `e` reaches the dedup check on its home worker; acceptances and dedup keys stay. */
  lemma ReachesDedup(h: Handler, run: seq<Step>, w: Worker, e: Value) returns (longer: seq<Step>)
    requires h.admits(e)
    ensures var s, t := Execute(h, run), Execute(h, longer);
            && At(t, s.at.next, Dedup) && t.at.routing[s.at.next].id == h.id(e)
            && t.at.routing[s.at.next].worker == Home(s, h.key(e), w)
            && t.at.accepted == s.at.accepted && t.redis.dedup == s.redis.dedup && t.seen == s.seen
    ensures run <= longer && forall step | step in longer[|run|..] :: !step.DedupError? && !step.DedupExpire? && !step.RouteError?
  {
    var s := Execute(h, run);
    var n, home := s.at.next, Home(s, h.key(e), w);
    longer := Extend(h, run, DoArrive(home, e));
    longer := Extend(h, longer, DoResolve(n));
    var last := if h.key(e) in s.redis.owner then DoRenew(n) else DoClaim(n);
    longer := Extend(h, longer, last);
    assert longer[|run|..] == [DoArrive(home, e), DoResolve(n), last];
  }

  ghost predicate AcceptedTwice(s: State, m: string) {
    exists c, d :: c != d && Accepted(s, c, m) && Accepted(s, d, m)
  }

  lemma AcceptedToo(h: Handler, s: State, s': State, c: nat, m: string)
    requires Good(h, s) && Accepted(s, c, m)
    requires s.at.next in s'.at.accepted && s'.at.accepted[s.at.next].id == m
    requires forall d | d in s.at.accepted :: d in s'.at.accepted && s'.at.accepted[d] == s.at.accepted[d]
    ensures AcceptedTwice(s', m)
  {
    assert c in s.log.answers && c in s.log.origin;
    assert Accepted(s', c, m) && Accepted(s', s.at.next, m);
  }

  /** The dedup key of an accepted id expires: the next copy is accepted again. */
  lemma DedupExpiryAcceptsTwice(h: Handler, run: seq<Step>, c: nat, w: Worker, e: Value) returns (longer: seq<Step>)
    requires Faithful(h) && h.admits(e) && Accepted(Execute(h, run), c, h.id(e))
    ensures run + [DedupExpire(h.id(e))] <= longer
    ensures forall step | step in longer[|run|+1..] :: !step.DedupError? && !step.DedupExpire? && !step.RouteError?
    ensures AcceptedTwice(Execute(h, longer), h.id(e))
  {
    Reachable(h, run);
    var s := Execute(h, run);
    var expired := Extend(h, run, DedupExpire(h.id(e)));
    var routed := ReachesDedup(h, expired, w, e);
    longer := Extend(h, routed, DoDedup(s.at.next));
    assert longer[|run|+1..] == routed[|expired|..] + [DoDedup(s.at.next)];
    AcceptedToo(h, s, Execute(h, longer), c, h.id(e));
  }

  /** Redis fails at the dedup check of a worker that has not seen the id: the copy is accepted again. */
  lemma DedupErrorAcceptsTwice(h: Handler, run: seq<Step>, c: nat, w: Worker, e: Value) returns (longer: seq<Step>)
    requires Faithful(h) && h.admits(e) && Accepted(Execute(h, run), c, h.id(e))
    requires (Home(Execute(h, run), h.key(e), w), h.id(e)) !in Execute(h, run).seen
    ensures run < longer && longer[|longer|-1] == DedupError(Execute(h, run).at.next, false)
    ensures forall step | step in longer[|run|..|longer|-1] :: !step.DedupError? && !step.DedupExpire? && !step.RouteError?
    ensures AcceptedTwice(Execute(h, longer), h.id(e))
  {
    Reachable(h, run);
    var s := Execute(h, run);
    var routed := ReachesDedup(h, run, w, e);
    longer := Extend(h, routed, DedupError(s.at.next, false));
    assert longer[|run|..|longer|-1] == routed[|run|..];
    AcceptedToo(h, s, Execute(h, longer), c, h.id(e));
  }

  // ---------------------------------------------------------------- why an owner changes

  ghost predicate ForceClaimPending(s: State, c: nat, w: Worker, k: string) {
    c in s.at.routing && s.at.routing[c].pc == ForceClaim
    && s.at.routing[c].worker == w && s.at.routing[c].key == k
  }

  /** At position `n` of the run, call `c` of worker `w` published for `k` and nobody was subscribed. */
  ghost predicate ReachedNobody(h: Handler, run: seq<Step>, n: nat, c: nat, w: Worker, k: string) {
    n < |run| && run[n] == DoPublish(c) &&
    var s := Execute(h, run[..n]);
    && c in s.at.routing && s.at.routing[c].worker == w && s.at.routing[c].key == k
    && s.at.routing[c].pc.Publish? && s.at.routing[c].pc.target !in s.redis.subscribed
  }

  /** Outside the router no call reaches the force-claim. */
  lemma NotIntoForceClaim(h: Handler, s: State, step: Step, c: nat)
    requires !IsRouterStep(step) && At(Apply(h, s, step), c, ForceClaim)
    ensures At(s, c, ForceClaim) && Apply(h, s, step).at.routing[c] == s.at.routing[c]
  {
    match step
    case DoDeliver(d) =>
    case RouteError(d, applied) =>
    case Crash(d, applied) =>
    case _ =>
  }

  lemma ArrivalDoesntLead(h: Handler, s: State, step: Step, c: nat, w: Worker, k: string)
    requires step.DoArrive?
    requires ForceClaimPending(Apply(h, s, step), c, w, k)
    ensures ForceClaimPending(s, c, w, k)
  {
  }

  lemma EarlyStepsDontLead(h: Handler, s: State, step: Step, c: nat, w: Worker, k: string)
    requires step.DoResolve? || step.DoRenew? || step.DoClaim?
    requires ForceClaimPending(Apply(h, s, step), c, w, k)
    ensures ForceClaimPending(s, c, w, k)
  {
  }

  lemma LateStepsDontLead(h: Handler, s: State, step: Step, c: nat, w: Worker, k: string)
    requires step.DoReresolve? || step.DoForceClaim?
    requires ForceClaimPending(Apply(h, s, step), c, w, k)
    ensures ForceClaimPending(s, c, w, k)
  {
  }

  lemma PublishLeads(h: Handler, s: State, d: nat, c: nat, w: Worker, k: string)
    requires ForceClaimPending(Apply(h, s, DoPublish(d)), c, w, k) && !ForceClaimPending(s, c, w, k)
    ensures d == c && c in s.at.routing && s.at.routing[c].pc.Publish?
    ensures s.at.routing[c].worker == w && s.at.routing[c].key == k
    ensures s.at.routing[c].pc.target !in s.redis.subscribed
  {
  }

  lemma IntoForceClaim(h: Handler, s: State, step: Step, c: nat, w: Worker, k: string)
    requires ForceClaimPending(Apply(h, s, step), c, w, k) && !ForceClaimPending(s, c, w, k)
    ensures step == DoPublish(c) && c in s.at.routing && s.at.routing[c].pc.Publish?
    ensures s.at.routing[c].worker == w && s.at.routing[c].key == k
    ensures s.at.routing[c].pc.target !in s.redis.subscribed
  {
    if step.DoPublish? {
      PublishLeads(h, s, step.c, c, w, k);
    } else if step.DoArrive? {
      ArrivalDoesntLead(h, s, step, c, w, k);
    } else if step.DoResolve? || step.DoRenew? || step.DoClaim? {
      EarlyStepsDontLead(h, s, step, c, w, k);
    } else if IsRouterStep(step) {
      LateStepsDontLead(h, s, step, c, w, k);
    } else {
      NotIntoForceClaim(h, s, step, c);
    }
  }

  /** A call only force-claims because its own publish reached nobody. */
  lemma {:induction false} ForceClaimReason(h: Handler, run: seq<Step>, c: nat, w: Worker, k: string)
    requires Faithful(h) && ForceClaimPending(Execute(h, run), c, w, k)
    ensures exists n :: ReachedNobody(h, run, n, c, w, k)
  {
    if run != [] {
      var front, s := run[..|run|-1], Execute(h, run[..|run|-1]);
      Reachable(h, front);
      if ForceClaimPending(s, c, w, k) {
        ForceClaimReason(h, front, c, w, k);
        var n: nat :| ReachedNobody(h, front, n, c, w, k);
        assert run[..n] == front[..n];
        assert ReachedNobody(h, run, n, c, w, k);
      } else {
        IntoForceClaim(h, s, run[|run|-1], c, w, k);
        assert ReachedNobody(h, run, |run| - 1, c, w, k);
      }
    }
  }

  /** The only steps that overwrite a present owner. */
  lemma OverwriteCause(h: Handler, s: State, step: Step, k: string)
    requires Good(h, s)
    requires k in s.redis.owner && k in Apply(h, s, step).redis.owner
    requires Apply(h, s, step).redis.owner[k] != s.redis.owner[k]
    ensures (exists c :: ForceClaimPending(s, c, Apply(h, s, step).redis.owner[k], k))
            || (step.WebConnect? && "web:" + step.user == k)
  {
    var w := Apply(h, s, step).redis.owner[k];
    match step
    case DoForceClaim(c) => assert ForceClaimPending(s, c, w, k);
    case RouteError(c, applied) => assert ForceClaimPending(s, c, w, k);
    case Crash(c, applied) => assert ForceClaimPending(s, c, w, k);
    case DoClaim(c) =>
    case DoPublish(c) =>
    case DoResolve(c) =>
    case DoReresolve(c) =>
    case DedupError(c, applied) =>
    case _ =>
  }

  /**
   In any run at all, a session key passes directly from one owner to another only to a
   worker that published for this key before and reached nobody (or to a new web connection,
   whose keys are its own); renewing, resolving and claiming never take a key away.
   */
  lemma TakeoverReason(h: Handler, run: seq<Step>, step: Step, k: string)
    requires Faithful(h)
    requires k in Execute(h, run).redis.owner && k in Execute(h, run + [step]).redis.owner
    requires Execute(h, run + [step]).redis.owner[k] != Execute(h, run).redis.owner[k]
    ensures (exists c, n :: ReachedNobody(h, run, n, c, Execute(h, run + [step]).redis.owner[k], k))
            || (step.WebConnect? && "web:" + step.user == k)
  {
    var s := Execute(h, run);
    var longer := Extend(h, run, step);
    Reachable(h, run);
    OverwriteCause(h, s, step, k);
    var w := Apply(h, s, step).redis.owner[k];
    if c :| ForceClaimPending(s, c, w, k) {
      ForceClaimReason(h, run, c, w, k);
      var n: nat :| ReachedNobody(h, run, n, c, w, k);
    }
  }

  // ---------------------------------------------------------------- what a fault leaves behind

  /** A call that lost the claim and finds no owner on its second look answers without owning the key. */
  lemma LateLookAnswersUnowned(h: Handler, s: State, c: nat)
    requires At(s, c, Reresolve)
    ensures var call, s' := s.at.routing[c], Apply(h, s, DoReresolve(c));
            && s'.redis == s.redis
            && (call.key !in s.redis.owner ==> c in s'.log.answers && s'.log.answers[c] == Answer(call.key, call.worker))
            && (call.key in s.redis.owner && s.redis.owner[call.key] != call.worker ==>
                  c in s'.at.routing && s'.at.routing[c].pc == Publish(s.redis.owner[call.key]))
  {
  }

  /** A published copy survives the death of the worker that published it. */
  lemma PublishedSurvivesCrash(h: Handler, s: State, c: nat, t: Worker)
    requires At(s, c, Publish(t)) && t in s.redis.subscribed && c !in s.at.lost
    ensures var s' := Apply(h, s, Crash(c, true));
            c in s'.at.channel && s'.at.channel[c].target == t && c !in s'.at.lost && c !in s'.at.routing
  {
  }

  /** An error behind an executed dedup command still protects the id; one in front of it does not. */
  lemma ExecutedCommandProtects(h: Handler, s: State, c: nat, d: nat, applied: bool)
    requires Good(h, s) && At(s, c, Dedup) && At(s, d, Dedup) && c != d && s.at.routing[c].id == s.at.routing[d].id
    requires (s.at.routing[c].worker, s.at.routing[c].id) !in s.seen && s.at.routing[c].id !in s.redis.dedup
    ensures var s' := Apply(h, Apply(h, s, DedupError(c, applied)), DoDedup(d));
            c in s'.at.accepted && (d in s'.at.discarded <==> applied) && (d in s'.at.accepted <==> !applied)
  {
    assert Places(s, c) == 1 && Places(s, d) == 1;
  }

  /** A claim that was executed before its reply was lost leaves the key with the caller, who answers local. */
  lemma ExecutedClaimStays(h: Handler, s: State, c: nat)
    requires At(s, c, Claim) && s.at.routing[c].key !in s.redis.owner
    ensures var call, s' := s.at.routing[c], Apply(h, s, RouteError(c, true));
            && s'.redis.owner == s.redis.owner[call.key := call.worker]
            && c in s'.log.answers && s'.log.answers[c] == Answer(call.key, call.worker)
  {
  }

  /** A publish that was executed before its reply was lost leaves two copies: one with the target, one handled here. */
  lemma ExecutedPublishDuplicates(h: Handler, s: State, c: nat, t: Worker)
    requires Good(h, s) && At(s, c, Publish(t)) && t in s.redis.subscribed
    ensures var n, s' := s.at.next, Apply(h, s, RouteError(c, true));
            && n in s'.at.channel && s'.at.channel[n].target == t && s'.log.origin[n] == s.log.origin[c]
            && At(s', c, Dedup) && n !in s.at.routing
  {
    assert Places(s, s.at.next) == 0 && Places(s, c) == 1;
  }
}
