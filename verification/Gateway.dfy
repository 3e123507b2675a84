/**
 The session affinity gateway as a state machine. Several workers share one Redis: a map
 from session key to owner, the dedup keys and a publish channel per worker. Every await
 of `handle_feishu_message` and `GatewayRouter.route` up to the dedup check is one atomic
 step of one in-progress call; steps of different calls interleave freely with each other
 and with expiry, Redis errors, lost messages, crashes and workers coming and going.
 */
module Gateway {
  import opened Prelude
  import opened EventCodec

  /**
   What the routing code reads of an event, and how an event crosses a channel. The
   protocol depends on the codec only through `Faithful`.
   */
  datatype Handler = Handler(
    admits: Value -> bool,
    key: Value -> string,
    id: Value -> string,
    encode: Value -> Value,
    decode: Value -> Value)

  /** Crossing a channel keeps an admitted event admitted, with its session key and id. */
  ghost predicate Faithful(h: Handler) {
    forall e | h.admits(e) ::
      var e' := h.decode(h.encode(e));
      h.admits(e') && h.key(e') == h.key(e) && h.id(e') == h.id(e)
  }

  /** The next Redis command of a call. */
  datatype Pc =
    | Resolve | Renew | Claim | Reresolve
    | Publish(target: Worker)
    | ForceClaim
    | Dedup

  /** One worker handling one copy of an event; key and id are computed once, on entry. */
  datatype Call = Call(worker: Worker, event: Value, key: string, id: string, pc: Pc)

  datatype Envelope = Envelope(target: Worker, payload: Value)

  /** Session key and message id a copy had when it entered the system. */
  datatype Origin = Origin(key: string, id: string)

  /** `route` answered "local" for this key at this worker. */
  datatype Answer = Answer(key: string, worker: Worker)

  /** A copy that passed dedup, by the Redis key or by the worker's own memory. */
  datatype Acceptance = Acceptance(id: string, worker: Worker, viaRedis: bool)

  /** What every worker sees. */
  datatype Redis = Redis(
    owner: map<string, Worker>,
    dedup: set<string>,
    subscribed: set<Worker>)

  /** Where each copy is; copies are numbered `0..next`. */
  datatype Copies = Copies(
    next: nat,
    routing: map<nat, Call>,
    channel: map<nat, Envelope>,
    accepted: map<nat, Acceptance>,
    discarded: set<nat>,
    lost: set<nat>)

  /** What happened; no step reads it. */
  datatype History = History(
    origin: map<nat, Origin>,
    answers: map<nat, Answer>,
    hops: map<nat, nat>,
    orphaned: set<string>)

  /** `seen` is `FeishuDedup._seen` of every worker. */
  datatype State = State(redis: Redis, seen: set<(Worker, string)>, at: Copies, log: History)

  const Init := State(Redis(map[], {}, {}), {}, Copies(0, map[], map[], map[], {}, {}), History(map[], map[], map[], {}))

  datatype Step =
    // the handler and the router
    | DoArrive(w: Worker, e: Value)
    | DoResolve(c: nat) | DoRenew(c: nat) | DoClaim(c: nat) | DoReresolve(c: nat)
    | DoPublish(c: nat) | DoForceClaim(c: nat) | DoDedup(c: nat)
    | DoDeliver(c: nat)
    // faults; `applied` says whether Redis executed the command before the error or crash
    | RouteError(c: nat, applied: bool)
    | DedupError(c: nat, applied: bool)
    | Crash(c: nat, applied: bool)
    | Lose(c: nat)
    | Expire(k: string)
    | DedupExpire(m: string)
    // workers
    | Join(w: Worker) | Leave(w: Worker)
    | WebConnect(w: Worker, user: string)

  // ---------------------------------------------------------------- single steps

  predicate At(s: State, c: nat, pc: Pc) {
    c in s.at.routing && s.at.routing[c].pc == pc
  }

  function Goto(s: State, c: nat, pc: Pc): State
    requires c in s.at.routing
  {
    s.(at := s.at.(routing := s.at.routing[c := s.at.routing[c].(pc := pc)]))
  }

  /** `route` returns "local": the handler goes on to the dedup check. */
  function AnswerLocal(s: State, c: nat): State
    requires c in s.at.routing
  {
    Goto(s, c, Dedup).(log := Goto(s, c, Dedup).log.(answers := s.log.answers[c := Answer(s.at.routing[c].key, s.at.routing[c].worker)]))
  }

  /** `SET key worker`, whatever was there. */
  function Own(s: State, k: string, w: Worker): State {
    s.(redis := s.redis.(owner := s.redis.owner[k := w]))
  }

  /** `SET key worker NX`. */
  function OwnIfAbsent(s: State, k: string, w: Worker): State {
    if k in s.redis.owner then s else Own(s, k, w)
  }

  function Hops(s: State, c: nat): nat {
    if c in s.log.hops then s.log.hops[c] else 0
  }

  /** The call ends "forwarded"; the copy is in the target's channel. */
  function Forwarded(h: Handler, s: State, c: nat, t: Worker): State
    requires c in s.at.routing
  {
    s.(at := s.at.(routing := s.at.routing - {c}, channel := s.at.channel[c := Envelope(t, h.encode(s.at.routing[c].event))]),
       log := s.log.(hops := s.log.hops[c := Hops(s, c) + 1]))
  }

  /** The publish was executed but its reply was lost: the channel holds a second copy. */
  function Duplicated(h: Handler, s: State, c: nat, t: Worker): State
    requires c in s.at.routing
  {
    s.(at := s.at.(next := s.at.next + 1, channel := s.at.channel[s.at.next := Envelope(t, h.encode(s.at.routing[c].event))]),
       log := s.log.(hops := s.log.hops[s.at.next := Hops(s, c) + 1], origin := s.log.origin[s.at.next := Origin(s.at.routing[c].key, s.at.routing[c].id)]))
  }

  function Accept(s: State, c: nat, viaRedis: bool): State
    requires c in s.at.routing
  {
    s.(at := s.at.(routing := s.at.routing - {c}, accepted := s.at.accepted[c := Acceptance(s.at.routing[c].id, s.at.routing[c].worker, viaRedis)]))
  }

  function Discard(s: State, c: nat): State {
    s.(at := s.at.(routing := s.at.routing - {c}, discarded := s.at.discarded + {c}))
  }

  function Drop(s: State, c: nat): State {
    s.(at := s.at.(routing := s.at.routing - {c}, lost := s.at.lost + {c}))
  }

  function NewCall(h: Handler, w: Worker, e: Value): Call
    requires h.admits(e)
  {
    Call(w, e, h.key(e), h.id(e), Resolve)
  }

  function ArriveStep(h: Handler, s: State, w: Worker, e: Value): State {
    if !h.admits(e) then s
    else
      var call := NewCall(h, w, e);
      s.(at := s.at.(next := s.at.next + 1, routing := s.at.routing[s.at.next := call]),
       log := s.log.(origin := s.log.origin[s.at.next := Origin(call.key, call.id)], hops := s.log.hops[s.at.next := 0]))
  }

  function ResolveStep(s: State, c: nat): State
    requires c in s.at.routing
  {
    var call := s.at.routing[c];
    if call.key !in s.redis.owner then Goto(s, c, Claim)
    else if s.redis.owner[call.key] == call.worker then Goto(s, c, Renew)
    else Goto(s, c, Publish(s.redis.owner[call.key]))
  }

  function ClaimStep(s: State, c: nat): State
    requires c in s.at.routing
  {
    var call := s.at.routing[c];
    if call.key in s.redis.owner then Goto(s, c, Reresolve)
    else AnswerLocal(OwnIfAbsent(s, call.key, call.worker), c)
  }

  function ReresolveStep(s: State, c: nat): State
    requires c in s.at.routing
  {
    var call := s.at.routing[c];
    if call.key !in s.redis.owner || s.redis.owner[call.key] == call.worker then AnswerLocal(s, c)
    else Goto(s, c, Publish(s.redis.owner[call.key]))
  }

  function PublishStep(h: Handler, s: State, c: nat): State
    requires c in s.at.routing && s.at.routing[c].pc.Publish?
  {
    var t := s.at.routing[c].pc.target;
    if t in s.redis.subscribed then Forwarded(h, s, c, t) else Goto(s, c, ForceClaim)
  }

  function ForceClaimStep(s: State, c: nat): State
    requires c in s.at.routing
  {
    AnswerLocal(Own(s, s.at.routing[c].key, s.at.routing[c].worker), c)
  }

  /** `is_duplicate` with Redis up: `SET NX` on the dedup key. */
  function DedupStep(s: State, c: nat): State
    requires c in s.at.routing
  {
    var call := s.at.routing[c];
    if call.id in s.redis.dedup then Discard(s, c)
    else Accept(s.(redis := s.redis.(dedup := s.redis.dedup + {call.id})), c, true)
  }

  /** The Redis command a call is waiting on, executed without the call noticing. */
  function Land(h: Handler, s: State, c: nat): State
    requires c in s.at.routing
  {
    var call := s.at.routing[c];
    match call.pc
    case Claim => OwnIfAbsent(s, call.key, call.worker)
    case ForceClaim => Own(s, call.key, call.worker)
    case Publish(t) => if t in s.redis.subscribed then Duplicated(h, s, c, t) else s
    case _ => s
  }

  /** `route` catches the connection error and answers "local". */
  function RouteErrorStep(h: Handler, s: State, c: nat, applied: bool): State
    requires c in s.at.routing
  {
    AnswerLocal(if applied then Land(h, s, c) else s, c)
  }

  /** `is_duplicate` swallows the error and falls back to the worker's own memory. */
  function DedupErrorStep(s: State, c: nat, applied: bool): State
    requires c in s.at.routing
  {
    var call := s.at.routing[c];
    var s1 := if applied then s.(redis := s.redis.(dedup := s.redis.dedup + {call.id})) else s;
    if (call.worker, call.id) in s.seen then Discard(s1, c)
    else Accept(s1.(seen := s1.seen + {(call.worker, call.id)}), c, false)
  }

  /** The worker dies while its command is in flight. A published copy survives it. */
  function CrashStep(h: Handler, s: State, c: nat, applied: bool): State
    requires c in s.at.routing
  {
    var call := s.at.routing[c];
    if applied && call.pc.Publish? && call.pc.target in s.redis.subscribed then Forwarded(h, s, c, call.pc.target)
    else
      var s1 := if !applied then s
                else if call.pc == Dedup then
                  s.(redis := s.redis.(dedup := s.redis.dedup + {call.id}),
       log := s.log.(orphaned := if call.id in s.redis.dedup then s.log.orphaned else s.log.orphaned + {call.id}))
                else Land(h, s, c);
      Drop(s1, c)
  }

  /** The target's consumer rebuilds the event and enters the handler with it. */
  function DeliverStep(h: Handler, s: State, c: nat): State
    requires c in s.at.channel
  {
    var env := s.at.channel[c];
    var e := h.decode(env.payload);
    if !h.admits(e) then LoseStep(s, c)
    else s.(at := s.at.(channel := s.at.channel - {c}, routing := s.at.routing[c := NewCall(h, env.target, e)]))
  }

  function LoseStep(s: State, c: nat): State {
    s.(at := s.at.(channel := s.at.channel - {c}, lost := s.at.lost + {c}))
  }

  /** One atomic step; a step whose guard does not hold changes nothing. */
  function Apply(h: Handler, s: State, step: Step): State {
    match step
    case DoArrive(w, e) => ArriveStep(h, s, w, e)
    case DoResolve(c) => if At(s, c, Resolve) then ResolveStep(s, c) else s
    case DoRenew(c) => if At(s, c, Renew) then AnswerLocal(s, c) else s
    case DoClaim(c) => if At(s, c, Claim) then ClaimStep(s, c) else s
    case DoReresolve(c) => if At(s, c, Reresolve) then ReresolveStep(s, c) else s
    case DoPublish(c) => if c in s.at.routing && s.at.routing[c].pc.Publish? then PublishStep(h, s, c) else s
    case DoForceClaim(c) => if At(s, c, ForceClaim) then ForceClaimStep(s, c) else s
    case DoDedup(c) => if At(s, c, Dedup) then DedupStep(s, c) else s
    case DoDeliver(c) =>
      if c in s.at.channel && s.at.channel[c].target in s.redis.subscribed then DeliverStep(h, s, c) else s
    case RouteError(c, applied) =>
      if c in s.at.routing && s.at.routing[c].pc != Dedup then RouteErrorStep(h, s, c, applied) else s
    case DedupError(c, applied) => if At(s, c, Dedup) then DedupErrorStep(s, c, applied) else s
    case Crash(c, applied) => if c in s.at.routing then CrashStep(h, s, c, applied) else s
    case Lose(c) => if c in s.at.channel then LoseStep(s, c) else s
    case Expire(k) => s.(redis := s.redis.(owner := s.redis.owner - {k}))
    case DedupExpire(m) => s.(redis := s.redis.(dedup := s.redis.dedup - {m}))
    case Join(w) => s.(redis := s.redis.(subscribed := s.redis.subscribed + {w}))
    case Leave(w) => s.(redis := s.redis.(subscribed := s.redis.subscribed - {w}))
    case WebConnect(w, user) => Own(s, "web:" + user, w)
  }

  /** The state a run ends in; `Execute(h, run[..n])` is the state before step `n`. */
  function Execute(h: Handler, run: seq<Step>): State {
    if run == [] then Init else Apply(h, Execute(h, run[..|run|-1]), run[|run|-1])
  }

  // ---------------------------------------------------------------- structure of every reachable state

  /** How many of the five places hold copy `c`. */
  function Places(s: State, c: nat): nat {
    (if c in s.at.routing then 1 else 0) + (if c in s.at.channel then 1 else 0)
    + (if c in s.at.accepted then 1 else 0) + (if c in s.at.discarded then 1 else 0)
    + (if c in s.at.lost then 1 else 0)
  }

  /** `e` is routed under the key and id the copy entered with. */
  predicate Carries(h: Handler, e: Value, o: Origin) {
    h.admits(e) && h.key(e) == o.key && h.id(e) == o.id
  }

  ghost predicate CallOk(h: Handler, s: State, c: nat)
    requires c in s.at.routing && c in s.log.origin
  {
    var call := s.at.routing[c];
    && Carries(h, call.event, s.log.origin[c])
    && call.key == s.log.origin[c].key
    && call.id == s.log.origin[c].id
    && (call.pc == Dedup <==> c in s.log.answers)
    && (call.pc == Dedup ==> s.log.answers[c].worker == call.worker)
  }

  /** Every copy ever created is in exactly one place; nothing else is anywhere. */
  ghost predicate Counted(s: State) {
    forall c: nat :: Places(s, c) == if c < s.at.next then 1 else 0
  }

  ghost predicate Linked(h: Handler, s: State) {
    && (forall c: nat :: c in s.log.origin <==> c < s.at.next)
    && (forall c | c in s.at.routing :: c in s.log.origin && CallOk(h, s, c))
    && (forall c | c in s.at.channel :: c in s.log.origin && c !in s.log.answers && Carries(h, h.decode(s.at.channel[c].payload), s.log.origin[c]))
    && (forall c | c in s.log.answers :: c in s.log.origin && s.log.answers[c].key == s.log.origin[c].key)
    && (forall c | c in s.at.accepted :: c in s.log.answers && s.log.answers[c].worker == s.at.accepted[c].worker)
    && (forall c | c in s.at.accepted :: s.at.accepted[c].id == s.log.origin[c].id)
    && (forall c | c in s.at.discarded :: c in s.log.answers)
  }

  // Both invariants, one step at a time.

  ghost predicate Good(h: Handler, s: State) {
    Counted(s) && Linked(h, s)
  }

  lemma ArriveCounted(h: Handler, s: State, w: Worker, e: Value)
    requires Good(h, s)
    ensures Counted(ArriveStep(h, s, w, e))
  {
    var s' := ArriveStep(h, s, w, e);
    assert s.at.next !in s.log.origin;
    forall x: nat ensures Places(s', x) == if x < s'.at.next then 1 else 0 {
      assert Places(s, x) == if x < s.at.next then 1 else 0;
    }
  }

  lemma ArriveLinked(h: Handler, s: State, w: Worker, e: Value)
    requires Faithful(h) && Good(h, s)
    ensures Linked(h, ArriveStep(h, s, w, e))
  {
    var n, s' := s.at.next, ArriveStep(h, s, w, e);
    assert n !in s.log.origin && n !in s.at.routing && n !in s.at.channel && n !in s.at.accepted && n !in s.at.discarded && n !in s.log.answers;
    if h.admits(e) {
      assert CallOk(h, s', n);
      assert forall c | c in s.at.routing :: CallOk(h, s, c) && CallOk(h, s', c);
    }
  }

  lemma ArriveKeeps(h: Handler, s: State, w: Worker, e: Value)
    requires Faithful(h) && Good(h, s)
    ensures Good(h, ArriveStep(h, s, w, e))
  {
    ArriveCounted(h, s, w, e);
    ArriveLinked(h, s, w, e);
  }

  lemma GotoKeeps(h: Handler, s: State, c: nat, pc: Pc)
    requires Faithful(h) && Good(h, s) && c in s.at.routing && s.at.routing[c].pc != Dedup && pc != Dedup
    ensures Good(h, Goto(s, c, pc))
  {
    var s' := Goto(s, c, pc);
    forall x: nat ensures Places(s', x) == if x < s'.at.next then 1 else 0 {
      assert Places(s, x) == if x < s.at.next then 1 else 0;
    }
  }

  lemma AnswerKeeps(h: Handler, s: State, c: nat)
    requires Faithful(h) && Good(h, s) && c in s.at.routing && s.at.routing[c].pc != Dedup
    ensures Good(h, AnswerLocal(s, c))
  {
    var s' := AnswerLocal(s, c);
    assert Places(s, c) == 1;
    forall x: nat ensures Places(s', x) == if x < s'.at.next then 1 else 0 {
      assert Places(s, x) == if x < s.at.next then 1 else 0;
    }
  }

  lemma RedisKeeps(h: Handler, s: State, s': State)
    requires Faithful(h) && Good(h, s)
    requires s' == s.(redis := s'.redis, seen := s'.seen, log := s.log.(orphaned := s'.log.orphaned))
    ensures Good(h, s')
  {
    forall x: nat ensures Places(s', x) == if x < s'.at.next then 1 else 0 {
      assert Places(s, x) == if x < s.at.next then 1 else 0;
    }
  }

  lemma ForwardedKeeps(h: Handler, s: State, c: nat, t: Worker)
    requires Faithful(h) && Good(h, s) && c in s.at.routing && s.at.routing[c].pc != Dedup
    ensures Good(h, Forwarded(h, s, c, t))
  {
    var s' := Forwarded(h, s, c, t);
    forall x: nat ensures Places(s', x) == if x < s'.at.next then 1 else 0 {
      assert Places(s, x) == if x < s.at.next then 1 else 0;
    }
  }

  lemma DuplicatedKeeps(h: Handler, s: State, c: nat, t: Worker)
    requires Faithful(h) && Good(h, s) && c in s.at.routing && s.at.routing[c].pc != Dedup
    ensures Good(h, Duplicated(h, s, c, t))
  {
    var s' := Duplicated(h, s, c, t);
    forall x: nat ensures Places(s', x) == if x < s'.at.next then 1 else 0 {
      assert Places(s, x) == if x < s.at.next then 1 else 0;
    }
  }

  lemma AcceptKeeps(h: Handler, s: State, c: nat, viaRedis: bool)
    requires Faithful(h) && Good(h, s) && At(s, c, Dedup)
    ensures Good(h, Accept(s, c, viaRedis))
  {
    var s' := Accept(s, c, viaRedis);
    forall x: nat ensures Places(s', x) == if x < s'.at.next then 1 else 0 {
      assert Places(s, x) == if x < s.at.next then 1 else 0;
    }
  }

  lemma DiscardKeeps(h: Handler, s: State, c: nat)
    requires Faithful(h) && Good(h, s) && At(s, c, Dedup)
    ensures Good(h, Discard(s, c))
  {
    var s' := Discard(s, c);
    forall x: nat ensures Places(s', x) == if x < s'.at.next then 1 else 0 {
      assert Places(s, x) == if x < s.at.next then 1 else 0;
    }
  }

  lemma DropKeeps(h: Handler, s: State, c: nat)
    requires Faithful(h) && Good(h, s) && c in s.at.routing
    ensures Good(h, Drop(s, c))
  {
    var s' := Drop(s, c);
    forall x: nat ensures Places(s', x) == if x < s'.at.next then 1 else 0 {
      assert Places(s, x) == if x < s.at.next then 1 else 0;
    }
  }

  lemma LoseKeeps(h: Handler, s: State, c: nat)
    requires Faithful(h) && Good(h, s) && c in s.at.channel
    ensures Good(h, LoseStep(s, c))
  {
    var s' := LoseStep(s, c);
    forall x: nat ensures Places(s', x) == if x < s'.at.next then 1 else 0 {
      assert Places(s, x) == if x < s.at.next then 1 else 0;
    }
  }

  lemma DeliverKeeps(h: Handler, s: State, c: nat)
    requires Faithful(h) && Good(h, s) && c in s.at.channel
    ensures Good(h, DeliverStep(h, s, c))
  {
    var s' := DeliverStep(h, s, c);
    assert c in s.log.origin && Carries(h, h.decode(s.at.channel[c].payload), s.log.origin[c]);
    forall x: nat ensures Places(s', x) == if x < s'.at.next then 1 else 0 {
      assert Places(s, x) == if x < s.at.next then 1 else 0;
    }
  }

  lemma LandKeeps(h: Handler, s: State, c: nat)
    requires Faithful(h) && Good(h, s) && c in s.at.routing
    ensures Good(h, Land(h, s, c)) && c in Land(h, s, c).at.routing
    ensures Land(h, s, c).at.routing == s.at.routing
  {
    match s.at.routing[c].pc
    case Publish(t) => DuplicatedKeeps(h, s, c, t);
    case _ => RedisKeeps(h, s, Land(h, s, c));
  }

  lemma CrashKeeps(h: Handler, s: State, c: nat, applied: bool)
    requires Faithful(h) && Good(h, s) && c in s.at.routing
    ensures Good(h, CrashStep(h, s, c, applied))
  {
    var call := s.at.routing[c];
    if applied && call.pc.Publish? && call.pc.target in s.redis.subscribed {
      ForwardedKeeps(h, s, c, call.pc.target);
    } else if !applied {
      DropKeeps(h, s, c);
    } else if call.pc == Dedup {
      var s1 := s.(redis := s.redis.(dedup := s.redis.dedup + {call.id}),
       log := s.log.(orphaned := if call.id in s.redis.dedup then s.log.orphaned else s.log.orphaned + {call.id}));
      RedisKeeps(h, s, s1);
      DropKeeps(h, s1, c);
    } else {
      LandKeeps(h, s, c);
      DropKeeps(h, Land(h, s, c), c);
    }
  }

  lemma RouteErrorKeeps(h: Handler, s: State, c: nat, applied: bool)
    requires Faithful(h) && Good(h, s) && c in s.at.routing && s.at.routing[c].pc != Dedup
    ensures Good(h, RouteErrorStep(h, s, c, applied))
  {
    LandKeeps(h, s, c);
    AnswerKeeps(h, if applied then Land(h, s, c) else s, c);
  }

  lemma ClaimKeeps(h: Handler, s: State, c: nat)
    requires Faithful(h) && Good(h, s) && At(s, c, Claim)
    ensures Good(h, ClaimStep(s, c))
  {
    if s.at.routing[c].key in s.redis.owner {
      GotoKeeps(h, s, c, Reresolve);
    } else {
      LandKeeps(h, s, c);
      AnswerKeeps(h, Land(h, s, c), c);
    }
  }

  lemma ForceClaimKeeps(h: Handler, s: State, c: nat)
    requires Faithful(h) && Good(h, s) && At(s, c, ForceClaim)
    ensures Good(h, ForceClaimStep(s, c))
  {
    LandKeeps(h, s, c);
    AnswerKeeps(h, Land(h, s, c), c);
  }

  lemma ResolveKeeps(h: Handler, s: State, c: nat)
    requires Faithful(h) && Good(h, s) && At(s, c, Resolve)
    ensures Good(h, ResolveStep(s, c))
  {
    var k := s.at.routing[c].key;
    GotoKeeps(h, s, c, if k !in s.redis.owner then Claim
                       else if s.redis.owner[k] == s.at.routing[c].worker then Renew
                       else Publish(s.redis.owner[k]));
  }

  lemma ReresolveKeeps(h: Handler, s: State, c: nat)
    requires Faithful(h) && Good(h, s) && At(s, c, Reresolve)
    ensures Good(h, ReresolveStep(s, c))
  {
    var k := s.at.routing[c].key;
    if k !in s.redis.owner || s.redis.owner[k] == s.at.routing[c].worker {
      AnswerKeeps(h, s, c);
    } else {
      GotoKeeps(h, s, c, Publish(s.redis.owner[k]));
    }
  }

  lemma DedupKeeps(h: Handler, s: State, c: nat)
    requires Faithful(h) && Good(h, s) && At(s, c, Dedup)
    ensures Good(h, DedupStep(s, c))
  {
    var s1 := s.(redis := s.redis.(dedup := s.redis.dedup + {s.at.routing[c].id}));
    if s.at.routing[c].id in s.redis.dedup {
      DiscardKeeps(h, s, c);
    } else {
      RedisKeeps(h, s, s1);
      AcceptKeeps(h, s1, c, true);
    }
  }

  lemma DedupErrorKeeps(h: Handler, s: State, c: nat, applied: bool)
    requires Faithful(h) && Good(h, s) && At(s, c, Dedup)
    ensures Good(h, DedupErrorStep(s, c, applied))
  {
    var call := s.at.routing[c];
    var s1 := if applied then s.(redis := s.redis.(dedup := s.redis.dedup + {call.id})) else s;
    RedisKeeps(h, s, s1);
    if (call.worker, call.id) in s.seen {
      DiscardKeeps(h, s1, c);
    } else {
      var s2 := s1.(seen := s1.seen + {(call.worker, call.id)});
      RedisKeeps(h, s1, s2);
      AcceptKeeps(h, s2, c, false);
    }
  }

  lemma PublishKeeps(h: Handler, s: State, c: nat)
    requires Faithful(h) && Good(h, s) && c in s.at.routing && s.at.routing[c].pc.Publish?
    ensures Good(h, PublishStep(h, s, c))
  {
    var t := s.at.routing[c].pc.target;
    if t in s.redis.subscribed {
      ForwardedKeeps(h, s, c, t);
    } else {
      GotoKeeps(h, s, c, ForceClaim);
    }
  }

  predicate IsRouterStep(step: Step) {
    || step.DoArrive? || step.DoResolve? || step.DoRenew? || step.DoClaim?
    || step.DoReresolve? || step.DoPublish? || step.DoForceClaim?
  }

  lemma RouterStepKeeps(h: Handler, s: State, step: Step)
    requires Faithful(h) && Good(h, s) && IsRouterStep(step)
    ensures Good(h, Apply(h, s, step))
  {
    match step
    case DoArrive(w, e) => ArriveKeeps(h, s, w, e);
    case DoResolve(c) => if At(s, c, Resolve) { ResolveKeeps(h, s, c); }
    case DoRenew(c) => if At(s, c, Renew) { AnswerKeeps(h, s, c); }
    case DoClaim(c) => if At(s, c, Claim) { ClaimKeeps(h, s, c); }
    case DoReresolve(c) => if At(s, c, Reresolve) { ReresolveKeeps(h, s, c); }
    case DoPublish(c) => if c in s.at.routing && s.at.routing[c].pc.Publish? { PublishKeeps(h, s, c); }
    case DoForceClaim(c) => if At(s, c, ForceClaim) { ForceClaimKeeps(h, s, c); }
  }

  predicate IsEnvironmentStep(step: Step) {
    step.Expire? || step.DedupExpire? || step.Join? || step.Leave? || step.WebConnect?
  }

  lemma EnvironmentKeeps(h: Handler, s: State, step: Step)
    requires Faithful(h) && Good(h, s) && IsEnvironmentStep(step)
    ensures Good(h, Apply(h, s, step))
  {
    RedisKeeps(h, s, Apply(h, s, step));
  }

  lemma StepKeeps(h: Handler, s: State, step: Step)
    requires Faithful(h) && Good(h, s)
    ensures Good(h, Apply(h, s, step))
  {
    if IsRouterStep(step) {
      RouterStepKeeps(h, s, step);
    } else if IsEnvironmentStep(step) {
      EnvironmentKeeps(h, s, step);
    } else {
      match step
      case DoDedup(c) => if At(s, c, Dedup) { DedupKeeps(h, s, c); }
      case DoDeliver(c) => if c in s.at.channel { DeliverKeeps(h, s, c); }
      case RouteError(c, applied) =>
        if c in s.at.routing && s.at.routing[c].pc != Dedup { RouteErrorKeeps(h, s, c, applied); }
      case DedupError(c, applied) => if At(s, c, Dedup) { DedupErrorKeeps(h, s, c, applied); }
      case Crash(c, applied) => if c in s.at.routing { CrashKeeps(h, s, c, applied); }
      case Lose(c) => if c in s.at.channel { LoseKeeps(h, s, c); }
    }
  }

  /** Conservation over every run: each copy is in exactly one place, with its key and id intact. */
  lemma {:induction false} Reachable(h: Handler, run: seq<Step>)
    requires Faithful(h)
    ensures Good(h, Execute(h, run))
  {
    if run != [] {
      Reachable(h, run[..|run|-1]);
      StepKeeps(h, Execute(h, run[..|run|-1]), run[|run|-1]);
    }
  }
}
