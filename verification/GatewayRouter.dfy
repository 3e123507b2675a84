/**
 The router and the dedup check as the program text has them: one coroutine whose awaits
 other workers may run between. Every run of it is a run of the `Gateway` state machine.
 */
module GatewayRouter {
  import opened Prelude
  import opened Gateway

  /** Steps other calls and the environment may take while call `c` waits. */
  predicate ByOthers(step: Step, c: nat) {
    match step
    case DoResolve(d) => d != c
    case DoRenew(d) => d != c
    case DoClaim(d) => d != c
    case DoReresolve(d) => d != c
    case DoPublish(d) => d != c
    case DoForceClaim(d) => d != c
    case DoDedup(d) => d != c
    case RouteError(d, _) => d != c
    case DedupError(d, _) => d != c
    case Crash(d, _) => d != c
    case _ => true
  }

  /** Call `c` stands where it stood. */
  predicate SameCall(s: State, s': State, c: nat)
    requires c in s.at.routing
  {
    c in s'.at.routing && s'.at.routing[c] == s.at.routing[c]
  }

  lemma OthersKeepCall(h: Handler, s: State, step: Step, c: nat)
    requires Faithful(h) && Good(h, s) && c in s.at.routing && ByOthers(step, c)
    ensures SameCall(s, Apply(h, s, step), c)
  {
    if step.DoArrive? {
      ArrivalKeepsCall(h, s, step, c);
    } else if step.DoResolve? || step.DoRenew? || step.DoClaim? {
      EarlyStepsKeepCall(h, s, step, c);
    } else if step.DoReresolve? || step.DoPublish? || step.DoForceClaim? {
      LateStepsKeepCall(h, s, step, c);
    } else if step.RouteError? || step.Crash? {
      FailuresKeepCall(h, s, step, c);
    } else if step.DoDeliver? {
      DeliveryKeepsCall(h, s, step, c);
    } else {
      QuietStepsKeepCall(h, s, step, c);
    }
  }

  lemma ArrivalKeepsCall(h: Handler, s: State, step: Step, c: nat)
    requires Good(h, s) && c in s.at.routing && step.DoArrive?
    ensures SameCall(s, Apply(h, s, step), c)
  {
    assert c in s.log.origin;
  }

  lemma EarlyStepsKeepCall(h: Handler, s: State, step: Step, c: nat)
    requires c in s.at.routing && ByOthers(step, c) && (step.DoResolve? || step.DoRenew? || step.DoClaim?)
    ensures SameCall(s, Apply(h, s, step), c)
  {
  }

  lemma LateStepsKeepCall(h: Handler, s: State, step: Step, c: nat)
    requires c in s.at.routing && ByOthers(step, c) && (step.DoReresolve? || step.DoPublish? || step.DoForceClaim?)
    ensures SameCall(s, Apply(h, s, step), c)
  {
  }

  lemma FailuresKeepCall(h: Handler, s: State, step: Step, c: nat)
    requires c in s.at.routing && ByOthers(step, c) && (step.RouteError? || step.Crash?)
    ensures SameCall(s, Apply(h, s, step), c)
  {
  }

  lemma DeliveryKeepsCall(h: Handler, s: State, step: Step, c: nat)
    requires Good(h, s) && c in s.at.routing && step.DoDeliver?
    ensures SameCall(s, Apply(h, s, step), c)
  {
    assert Places(s, c) == 1;
  }

  lemma QuietStepsKeepCall(h: Handler, s: State, step: Step, c: nat)
    requires c in s.at.routing && ByOthers(step, c)
    requires !IsRouterStep(step) && !step.RouteError? && !step.Crash? && !step.DoDeliver?
    ensures SameCall(s, Apply(h, s, step), c)
  {
  }

  lemma {:induction false} ContinueAppend(h: Handler, s: State, first: seq<Step>, second: seq<Step>)
    decreases first
    ensures Continue(h, s, first + second) == Continue(h, Continue(h, s, first), second)
  {
    if first == [] {
      assert first + second == second;
    } else {
      assert (first + second)[1..] == first[1..] + second;
      ContinueAppend(h, Apply(h, s, first[0]), first[1..], second);
    }
  }

  function Continue(h: Handler, s: State, run: seq<Step>): State
    decreases run
  {
    if run == [] then s else Continue(h, Apply(h, s, run[0]), run[1..])
  }

  /** What happens around one await: the others' steps first, then possibly a Redis error. */
  datatype Await = Await(others: seq<Step>, error: Option<bool>)

  /** One Redis and the workers talking to it. */
  class Cluster {
    const h: Handler
    var redis: Redis
    var seen: set<(Worker, string)>
    var at: Copies
    var log: History

    constructor (h: Handler)
      ensures View() == Init && this.h == h
    {
      this.h := h;
      redis, seen := Redis(map[], {}, {}), {};
      at, log := Copies(0, map[], map[], map[], {}, {}), History(map[], map[], map[], {});
    }

    function View(): State
      reads this
    {
      State(redis, seen, at, log)
    }

    ghost predicate Waiting(c: nat, call: Call)
      reads this
    {
      Faithful(h) && Good(h, View()) && c in at.routing && at.routing[c] == call
    }

    // -------------------------------------------------------------- AffinityRegistry

    method Resolve(key: string) returns (owner: Option<Worker>)
      ensures owner == if key in redis.owner then Some(redis.owner[key]) else None
    {
      owner := if key in redis.owner then Some(redis.owner[key]) else None;
    }

    method Claim(key: string, w: Worker) returns (claimed: bool)
      modifies this`redis
      ensures claimed == (key !in old(redis.owner))
      ensures View() == OwnIfAbsent(old(View()), key, w)
    {
      claimed := key !in redis.owner;
      if claimed {
        redis := redis.(owner := redis.owner[key := w]);
      }
    }

    /** `EXPIRE` refreshes the time to live; the owner stays who it is. */
    method Renew(key: string)
      ensures View() == old(View())
    {
    }

    /** The compare-and-delete script: only the owner itself can give a key up. */
    method Release(key: string, w: Worker) returns (released: bool)
      modifies this`redis
      ensures released == (key in old(redis.owner) && old(redis.owner)[key] == w)
      ensures redis == old(redis).(owner := if released then old(redis.owner) - {key} else old(redis.owner))
    {
      released := key in redis.owner && redis.owner[key] == w;
      if released {
        redis := redis.(owner := redis.owner - {key});
      }
    }

    method ForceClaim(key: string, w: Worker)
      modifies this`redis
      ensures View() == Own(old(View()), key, w)
    {
      redis := redis.(owner := redis.owner[key := w]);
    }

    // -------------------------------------------------------------- ForwardPublisher

    /** `PUBLISH` counts the subscribers it reached. */
    method Forward(c: nat, target: Worker) returns (delivered: bool)
      requires c in at.routing
      modifies this`at, this`log
      ensures delivered == (target in redis.subscribed)
      ensures View() == if delivered then Forwarded(h, old(View()), c, target) else old(View())
    {
      delivered := target in redis.subscribed;
      if delivered {
        log := Forwarded(h, View(), c, target).log;
        at := at.(channel := at.channel[c := Envelope(target, h.encode(at.routing[c].event))],
                  routing := at.routing - {c});
      }
    }

    // -------------------------------------------------------------- bookkeeping

    method MoveTo(c: nat, pc: Pc)
      requires c in at.routing
      modifies this`at
      ensures View() == Goto(old(View()), c, pc)
    {
      at := at.(routing := at.routing[c := at.routing[c].(pc := pc)]);
    }

    method Answer(c: nat)
      requires c in at.routing
      modifies this`at, this`log
      ensures View() == AnswerLocal(old(View()), c)
    {
      log := AnswerLocal(View(), c).log;
      MoveTo(c, Dedup);
    }

    /** The rest of the world runs while `c` is suspended. */
    method Suspend(c: nat, ghost call: Call, others: seq<Step>)
      requires Waiting(c, call)
      requires forall step | step in others :: ByOthers(step, c)
      modifies this
      ensures Waiting(c, call)
      ensures View() == Continue(h, old(View()), others)
    {
      var i := 0;
      ghost var start := View();
      assert others[..0] == [];
      while i < |others|
        invariant 0 <= i <= |others|
        invariant Waiting(c, call)
        invariant View() == Continue(h, start, others[..i])
      {
        ghost var s := View();
        StepKeeps(h, s, others[i]);
        OthersKeepCall(h, s, others[i], c);
        ContinueAppend(h, start, others[..i], [others[i]]);
        assert others[..i+1] == others[..i] + [others[i]];
        assert Continue(h, s, [others[i]]) == Apply(h, s, others[i]);
        var next := Apply(h, View(), others[i]);
        redis, seen, at, log := next.redis, next.seen, next.at, next.log;
        i := i + 1;
      }
      assert others[..i] == others;
    }

    /** Call `c` for `key` at `me` is in progress, `trace` after `start`, about to execute `pc`. */
    ghost predicate Running(c: nat, key: string, me: Worker, pc: Pc, start: State, trace: seq<Step>)
      reads this
    {
      && Faithful(h) && Good(h, View()) && View() == Continue(h, start, trace)
      && At(View(), c, pc) && at.routing[c].key == key && at.routing[c].worker == me
    }

    /** A connection error inside `route`: the caller treats the session as its own. */
    method Fail(c: nat, applied: bool)
      requires Faithful(h) && Good(h, View()) && c in at.routing && at.routing[c].pc != Dedup
      modifies this
      ensures View() == RouteErrorStep(h, old(View()), c, applied)
      ensures c in at.routing && at.routing[c] == old(at.routing[c]).(pc := Dedup)
    {
      LandKeeps(h, View(), c);
      var next := RouteErrorStep(h, View(), c, applied);
      redis, seen, at, log := next.redis, next.seen, next.at, next.log;
    }

    /** One await of `_route_inner`: others run, then the command errs or is about to execute. */
    method Pause(c: nat, ghost key: string, ghost me: Worker, ghost pc: Pc, a: Await,
                 ghost start: State, ghost before: seq<Step>)
      returns (failed: bool, ghost trace: seq<Step>)
      requires Running(c, key, me, pc, start, before) && pc != Dedup
      requires forall step | step in a.others :: ByOthers(step, c)
      modifies this
      ensures failed == a.error.Some?
      ensures Running(c, key, me, if failed then Dedup else pc, start, trace)
      ensures a == Await([], None) ==> View() == old(View())
    {
      Suspend(c, at.routing[c], a.others);
      ContinueAppend(h, start, before, a.others);
      failed, trace := a.error.Some?, before + a.others;
      if failed {
        ghost var s := View();
        Fail(c, a.error.value);
        trace := Record(start, s, trace, RouteError(c, a.error.value));
      }
    }

    /** Appends one step of `c` to the trace so far. */
    ghost method Record(start: State, s: State, trace: seq<Step>, step: Step) returns (longer: seq<Step>)
      requires s == Continue(h, start, trace) && View() == Apply(h, s, step)
      requires Faithful(h) && Good(h, s)
      ensures View() == Continue(h, start, longer) && Good(h, View())
      ensures longer == trace + [step]
    {
      longer := trace + [step];
      ContinueAppend(h, start, trace, [step]);
      assert Continue(h, s, [step]) == Apply(h, s, step);
      StepKeeps(h, s, step);
    }

    // -------------------------------------------------------------- the awaits of _route_inner

    method AwaitResolve(c: nat, ghost key: string, ghost me: Worker, a: Await, ghost start: State, ghost before: seq<Step>)
      returns (failed: bool, owner: Option<Worker>, ghost trace: seq<Step>)
      requires Running(c, key, me, Gateway.Resolve, start, before)
      requires forall step | step in a.others :: ByOthers(step, c)
      modifies this
      ensures failed ==> Running(c, key, me, Dedup, start, trace)
      ensures !failed ==> Running(c, key, me, (match owner case None => Gateway.Claim
                                               case Some(o) => if o == me then Gateway.Renew else Publish(o)), start, trace)
      ensures a == Await([], None) ==>
                !failed && redis == old(redis) && owner == if key in redis.owner then Some(redis.owner[key]) else None
    {
      failed, trace := Pause(c, key, me, Gateway.Resolve, a, start, before);
      owner := None;
      if !failed {
        ghost var s := View();
        owner := Resolve(at.routing[c].key);
        MoveTo(c, match owner case None => Gateway.Claim
                  case Some(o) => if o == at.routing[c].worker then Gateway.Renew else Publish(o));
        trace := Record(start, s, trace, DoResolve(c));
      }
    }

    method AwaitReresolve(c: nat, ghost key: string, ghost me: Worker, a: Await, ghost start: State, ghost before: seq<Step>)
      returns (local: bool, owner: Worker, ghost trace: seq<Step>)
      requires Running(c, key, me, Reresolve, start, before)
      requires forall step | step in a.others :: ByOthers(step, c)
      modifies this
      ensures Running(c, key, me, if local then Dedup else Publish(owner), start, trace)
    {
      owner := "";
      local, trace := Pause(c, key, me, Reresolve, a, start, before);
      if !local {
        ghost var s := View();
        var found := Resolve(at.routing[c].key);
        if found.None? || found.value == at.routing[c].worker {
          local := true;
          Answer(c);
        } else {
          owner := found.value;
          MoveTo(c, Publish(owner));
        }
        trace := Record(start, s, trace, DoReresolve(c));
      }
    }

    method AwaitRenew(c: nat, ghost key: string, ghost me: Worker, a: Await, ghost start: State, ghost before: seq<Step>)
      returns (ghost trace: seq<Step>)
      requires Running(c, key, me, Gateway.Renew, start, before)
      requires forall step | step in a.others :: ByOthers(step, c)
      modifies this
      ensures Running(c, key, me, Dedup, start, trace)
      ensures a == Await([], None) ==> redis == old(redis)
    {
      var failed;
      failed, trace := Pause(c, key, me, Gateway.Renew, a, start, before);
      if !failed {
        ghost var s := View();
        Renew(at.routing[c].key);
        Answer(c);
        trace := Record(start, s, trace, DoRenew(c));
      }
    }

    method AwaitClaim(c: nat, ghost key: string, ghost me: Worker, a: Await, ghost start: State, ghost before: seq<Step>)
      returns (local: bool, ghost trace: seq<Step>)
      requires Running(c, key, me, Gateway.Claim, start, before)
      requires forall step | step in a.others :: ByOthers(step, c)
      modifies this
      ensures Running(c, key, me, if local then Dedup else Reresolve, start, trace)
      ensures a == Await([], None) ==>
                local == (key !in old(redis.owner)) && (local ==> redis.owner == old(redis.owner)[key := me])
    {
      local, trace := Pause(c, key, me, Gateway.Claim, a, start, before);
      if !local {
        ghost var s := View();
        local := Claim(at.routing[c].key, at.routing[c].worker);
        if local {
          Answer(c);
        } else {
          MoveTo(c, Reresolve);
        }
        trace := Record(start, s, trace, DoClaim(c));
      }
    }

    method AwaitPublish(c: nat, ghost key: string, ghost me: Worker, target: Worker, a: Await,
                        ghost start: State, ghost before: seq<Step>)
      returns (failed: bool, delivered: bool, ghost trace: seq<Step>)
      requires Running(c, key, me, Publish(target), start, before)
      requires forall step | step in a.others :: ByOthers(step, c)
      modifies this
      ensures failed ==> Running(c, key, me, Dedup, start, trace)
      ensures !failed && !delivered ==> Running(c, key, me, Gateway.ForceClaim, start, trace)
      ensures !failed && delivered ==> Good(h, View()) && View() == Continue(h, start, trace)
      ensures !failed && delivered ==> c in at.channel && at.channel[c].target == target && c !in at.routing
      ensures a == Await([], None) ==> !failed && redis == old(redis) && delivered == (target in redis.subscribed)
    {
      failed, trace := Pause(c, key, me, Publish(target), a, start, before);
      delivered := false;
      if !failed {
        ghost var s := View();
        delivered := Forward(c, target);
        if !delivered {
          MoveTo(c, Gateway.ForceClaim);
        }
        trace := Record(start, s, trace, DoPublish(c));
      }
    }

    method AwaitForceClaim(c: nat, ghost key: string, ghost me: Worker, a: Await, ghost start: State, ghost before: seq<Step>)
      returns (ghost trace: seq<Step>)
      requires Running(c, key, me, Gateway.ForceClaim, start, before)
      requires forall step | step in a.others :: ByOthers(step, c)
      modifies this
      ensures Running(c, key, me, Dedup, start, trace)
      ensures a == Await([], None) ==> redis.owner == old(redis.owner)[key := me]
    {
      var failed;
      failed, trace := Pause(c, key, me, Gateway.ForceClaim, a, start, before);
      if !failed {
        ghost var s := View();
        ForceClaim(at.routing[c].key, at.routing[c].worker);
        Answer(c);
        trace := Record(start, s, trace, DoForceClaim(c));
      }
    }

    /**
     `_route_inner` under `route`. Whatever others do between its awaits, the call is a run
     of the state machine; left alone it goes to the present owner if that owner listens,
     and otherwise stays here and makes this worker the owner.
     */
    method Route(c: nat, awaits: seq<Await>) returns (local: bool, ghost trace: seq<Step>)
      requires Faithful(h) && Good(h, View()) && At(View(), c, Gateway.Resolve)
      requires |awaits| == 5
      requires forall i, step | 0 <= i < 5 && step in awaits[i].others :: ByOthers(step, c)
      modifies this
      ensures Good(h, View())
      ensures View() == Continue(h, old(View()), trace)
      ensures local ==> At(View(), c, Dedup)
      ensures !local ==> c in at.channel && c !in at.routing
      ensures (forall i | 0 <= i < 5 :: awaits[i] == Await([], None)) ==>
                var call, owner := old(at.routing[c]), old(redis.owner);
                var elsewhere := call.key in owner && owner[call.key] != call.worker
                                 && owner[call.key] in old(redis.subscribed);
                local == !elsewhere && redis.owner == (if elsewhere then owner else owner[call.key := call.worker])
    {
      ghost var start := View();
      ghost var key, me := at.routing[c].key, at.routing[c].worker;
      var worker := at.routing[c].worker;
      var failed, owner;
      failed, owner, trace := AwaitResolve(c, key, me, awaits[0], start, []);
      if failed {
        return true, trace;
      }
      if owner == Some(worker) {
        trace := AwaitRenew(c, key, me, awaits[1], start, trace);
        return true, trace;
      }
      if owner.None? {
        var other;
        local, trace := AwaitClaim(c, key, me, awaits[1], start, trace);
        if local {
          return true, trace;
        }
        local, other, trace := AwaitReresolve(c, key, me, awaits[2], start, trace);
        if local {
          return true, trace;
        }
        owner := Some(other);
      }
      var delivered;
      failed, delivered, trace := AwaitPublish(c, key, me, owner.value, awaits[3], start, trace);
      if failed || delivered {
        return failed, trace;
      }
      trace := AwaitForceClaim(c, key, me, awaits[4], start, trace);
      local := true;
    }

    // -------------------------------------------------------------- FeishuDedup

    /**
     `is_duplicate`. `redisUp` says whether the reply arrives, `applied` whether Redis ran
     the command when it did not.
     */
    method IsDuplicate(c: nat, redisUp: bool, applied: bool) returns (duplicate: bool)
      requires Good(h, View()) && At(View(), c, Dedup)
      modifies this
      ensures View() == Apply(h, old(View()), if redisUp then DoDedup(c) else DedupError(c, applied))
      ensures if duplicate then c in at.discarded && c !in at.accepted else c in at.accepted && c !in at.discarded
    {
      assert Places(View(), c) == 1;
      var call := at.routing[c];
      if redisUp {
        duplicate := call.id in redis.dedup;
        if !duplicate {
          redis := redis.(dedup := redis.dedup + {call.id});
        }
      } else {
        if applied {
          redis := redis.(dedup := redis.dedup + {call.id});
        }
        duplicate := (call.worker, call.id) in seen;
        if !duplicate {
          seen := seen + {(call.worker, call.id)};
        }
      }
      at := if duplicate then Discard(View(), c).at else Accept(View(), c, redisUp).at;
    }
  }
}
