/**
 Any number of `/admin user set` commands at once: reading the profile, checking for another
 administrator and writing are separate steps that interleave freely.
 */
module AdminRace {
  import opened ProfileStore
  import opened AdminGuard

  datatype Pc = Read(current: Profile) | Cleared(current: Profile) | Finished
  datatype Act = Begin(k: nat) | Check(k: nat) | Write(k: nat)

  /** The store and where each command stands. */
  datatype World = World(redis: Redis, pcs: map<nat, Pc>)

  /** What all runs share: the configuration, the channel and the commands. */
  datatype Game = Game(json: Config, channel: string, cmds: seq<Command>)

  ghost predicate Playable(g: Game) {
    Proper(g.json) && g.channel in CHANNELS
  }

  predicate Steps(current: Profile, cmd: Command) {
    cmd.target == cmd.actor && current.role == Admin && Updated(current, cmd).role != Admin
  }

  ghost function Do(g: Game, w: World, a: Act): World {
    match a
    case Begin(k) =>
      if k < |g.cmds| && k !in w.pcs then w.(pcs := w.pcs[k := Read(Get(w.redis, g.json, g.channel, g.cmds[k].target))]) else w
    case Check(k) =>
      if k < |g.cmds| && k in w.pcs && w.pcs[k].Read? then
        var current := w.pcs[k].current;
        var refused := Steps(current, g.cmds[k]) && !OtherAdmin(w.redis, g.json, g.channel, g.cmds[k].target);
        w.(pcs := w.pcs[k := if refused then Finished else Cleared(current)])
      else w
    case Write(k) =>
      if k < |g.cmds| && k in w.pcs && w.pcs[k].Cleared? then
        World(Written(w.redis, Updated(w.pcs[k].current, g.cmds[k])), w.pcs[k := Finished])
      else w
  }

  ghost function At(g: Game, redis: Redis, acts: seq<Act>, n: nat): World
    requires n <= |acts|
  {
    if n == 0 then World(redis, map[]) else Do(g, At(g, redis, acts, n - 1), acts[n-1])
  }

  ghost predicate AdminAt(g: Game, redis: Redis, acts: seq<Act>, n: nat, v: string)
    requires n <= |acts|
  {
    IsAdmin(At(g, redis, acts, n).redis, g.json, g.channel, v)
  }

  ghost predicate MannedAt(g: Game, redis: Redis, acts: seq<Act>, n: nat)
    requires n <= |acts|
  {
    SomeAdmin(At(g, redis, acts, n).redis, g.json, g.channel)
  }

  /** Step `b` starts command `k`, whose actor is an administrator at that moment. */
  ghost predicate StartsAt(g: Game, redis: Redis, acts: seq<Act>, b: nat, k: nat)
    requires b < |acts|
  {
    && acts[b] == Begin(k) && k < |g.cmds| && k !in At(g, redis, acts, b).pcs
    && AdminAt(g, redis, acts, b, g.cmds[k].actor)
  }

  /** Commands come from administrators: the first `n` steps start no other. */
  ghost predicate Authorised(g: Game, redis: Redis, acts: seq<Act>, n: nat)
    requires n <= |acts|
  {
    forall b: nat, k: nat | b < n && k < |g.cmds| && acts[b] == Begin(k) && k !in At(g, redis, acts, b).pcs ::
      AdminAt(g, redis, acts, b, g.cmds[k].actor)
  }

  /** Step `m` takes the role from `v`. */
  ghost predicate Takes(g: Game, redis: Redis, acts: seq<Act>, m: nat, v: string)
    requires m < |acts|
  {
    AdminAt(g, redis, acts, m, v) && !AdminAt(g, redis, acts, m + 1, v)
  }

  // ---- What every run keeps ----

  /** What a running command holds was read when it started. */
  ghost predicate HoldsRead(g: Game, redis: Redis, acts: seq<Act>, n: nat, k: nat, b: nat)
    requires n <= |acts|
  {
    var w := At(g, redis, acts, n);
    && b < n && k in w.pcs && !w.pcs[k].Finished?
    && StartsAt(g, redis, acts, b, k)
    && w.pcs[k].current == Get(At(g, redis, acts, b).redis, g.json, g.channel, g.cmds[k].target)
  }

  /** A command that got past its check steps nobody down, or there was another administrator at step `c`. */
  ghost predicate WasChecked(g: Game, redis: Redis, acts: seq<Act>, n: nat, k: nat, b: nat)
    requires n <= |acts| && k < |g.cmds|
  {
    var w := At(g, redis, acts, n);
    k in w.pcs && w.pcs[k].Cleared? && Steps(w.pcs[k].current, g.cmds[k]) ==>
      exists c: nat | b < c < n :: OtherAdmin(At(g, redis, acts, c).redis, g.json, g.channel, g.cmds[k].target)
  }

  lemma {:induction false} RunningWasRead(g: Game, redis: Redis, acts: seq<Act>, n: nat, k: nat) returns (b: nat)
    requires n <= |acts| && Authorised(g, redis, acts, n)
    requires k in At(g, redis, acts, n).pcs && !At(g, redis, acts, n).pcs[k].Finished?
    ensures HoldsRead(g, redis, acts, n, k, b) && WasChecked(g, redis, acts, n, k, b)
  {
    var before, a := At(g, redis, acts, n - 1), acts[n-1];
    if k !in before.pcs {
      b := n - 1;
      assert a == Begin(k) && StartsAt(g, redis, acts, b, k);
    } else {
      b := RunningWasRead(g, redis, acts, n - 1, k);
      StaysChecked(g, redis, acts, n, k, b);
    }
  }

  lemma StaysChecked(g: Game, redis: Redis, acts: seq<Act>, n: nat, k: nat, b: nat)
    requires 0 < n <= |acts| && HoldsRead(g, redis, acts, n - 1, k, b) && WasChecked(g, redis, acts, n - 1, k, b)
    requires k in At(g, redis, acts, n).pcs && !At(g, redis, acts, n).pcs[k].Finished?
    ensures HoldsRead(g, redis, acts, n, k, b) && WasChecked(g, redis, acts, n, k, b)
  {
    var before, after, a := At(g, redis, acts, n - 1), At(g, redis, acts, n), acts[n-1];
    if after.pcs[k].Cleared? && Steps(after.pcs[k].current, g.cmds[k]) {
      if before.pcs[k].Cleared? {
        var c: nat :| b < c < n - 1 && OtherAdmin(At(g, redis, acts, c).redis, g.json, g.channel, g.cmds[k].target);
      } else {
        assert a == Check(k) && OtherAdmin(before.redis, g.json, g.channel, g.cmds[k].target);
        assert b < n - 1;
      }
    }
  }

  /** A role held at `i` and not at `j` was taken by a step in between. */
  lemma {:induction false} TakenBetween(g: Game, redis: Redis, acts: seq<Act>, i: nat, j: nat, v: string) returns (m: nat)
    requires i <= j <= |acts| && AdminAt(g, redis, acts, i, v) && !AdminAt(g, redis, acts, j, v)
    ensures i <= m < j && Takes(g, redis, acts, m, v)
  {
    if AdminAt(g, redis, acts, j - 1, v) {
      m := j - 1;
    } else {
      m := TakenBetween(g, redis, acts, i, j - 1, v);
    }
  }

  lemma {:induction false} OwnKeysKept(g: Game, redis: Redis, acts: seq<Act>, n: nat)
    requires n <= |acts| && OwnKeys(redis)
    ensures OwnKeys(At(g, redis, acts, n).redis)
  {
    if n > 0 {
      OwnKeysKept(g, redis, acts, n - 1);
      var w := At(g, redis, acts, n - 1);
      match acts[n-1]
      case Write(k) =>
        if k < |g.cmds| && k in w.pcs && w.pcs[k].Cleared? {
          SetKeepsOwnKeys(w.redis, Updated(w.pcs[k].current, g.cmds[k]));
        }
      case _ =>
    }
  }

  /** The step that empties the role is a write to the only administrator left. */
  lemma EmptyingWrite(g: Game, redis: Redis, acts: seq<Act>, n: nat) returns (k: nat, b: nat)
    requires Playable(g) && OwnKeys(redis) && n < |acts| && Authorised(g, redis, acts, n)
    requires MannedAt(g, redis, acts, n) && !MannedAt(g, redis, acts, n + 1)
    ensures acts[n] == Write(k) && HoldsRead(g, redis, acts, n, k, b) && WasChecked(g, redis, acts, n, k, b)
    ensures At(g, redis, acts, n).pcs[k].Cleared? && Updated(At(g, redis, acts, n).pcs[k].current, g.cmds[k]).role != Admin
    ensures forall v | v != g.cmds[k].target :: !AdminAt(g, redis, acts, n, v)
  {
    var w := At(g, redis, acts, n);
    var v0 :| IsAdmin(w.redis, g.json, g.channel, v0);
    assert !AdminAt(g, redis, acts, n + 1, v0);
    k := acts[n].k;
    b := RunningWasRead(g, redis, acts, n, k);
    OwnKeysKept(g, redis, acts, b);
    GetIsOwn(At(g, redis, acts, b).redis, g.json, g.channel, g.cmds[k].target);
    var p := Updated(w.pcs[k].current, g.cmds[k]);
    if p.userId != "" {
      WriteChangesOne(w.redis, g.json, g.channel, p, p.userId);
      assert !AdminAt(g, redis, acts, n + 1, p.userId);
    }
    forall v | v != g.cmds[k].target
      ensures !AdminAt(g, redis, acts, n, v)
    {
      if p.userId != "" {
        WriteChangesOne(w.redis, g.json, g.channel, p, v);
      }
      assert !AdminAt(g, redis, acts, n + 1, v);
    }
  }

  /** A command that steps its actor down had seen another administrator, who is one no more. */
  lemma OtherWasTaken(g: Game, redis: Redis, acts: seq<Act>, n: nat, k: nat, b: nat) returns (m: nat, v: string)
    requires n <= |acts| && HoldsRead(g, redis, acts, n, k, b) && WasChecked(g, redis, acts, n, k, b)
    requires At(g, redis, acts, n).pcs[k].Cleared? && Steps(At(g, redis, acts, n).pcs[k].current, g.cmds[k])
    requires forall v | v != g.cmds[k].target :: !AdminAt(g, redis, acts, n, v)
    ensures b < m < n && Takes(g, redis, acts, m, v) && v != g.cmds[k].target
  {
    var c: nat :| b < c < n && OtherAdmin(At(g, redis, acts, c).redis, g.json, g.channel, g.cmds[k].target);
    v :| v != g.cmds[k].target && IsAdmin(At(g, redis, acts, c).redis, g.json, g.channel, v);
    assert AdminAt(g, redis, acts, c, v);
    m := TakenBetween(g, redis, acts, c, n, v);
  }

  /** The actor of any other command was an administrator when it started, and is one no more. */
  lemma ActorWasTaken(g: Game, redis: Redis, acts: seq<Act>, n: nat, k: nat, b: nat) returns (m: nat)
    requires n <= |acts| && HoldsRead(g, redis, acts, n, k, b) && g.cmds[k].actor != g.cmds[k].target
    requires forall v | v != g.cmds[k].target :: !AdminAt(g, redis, acts, n, v)
    ensures b < m < n && Takes(g, redis, acts, m, g.cmds[k].actor)
  {
    m := TakenBetween(g, redis, acts, b, n, g.cmds[k].actor);
    assert acts[b] == Begin(k);
  }

  /**
   Over all interleavings of commands given by administrators: the last administrator is lost only
   by a command during which, between its start and its write, somebody else than its target was
   demoted.
   */
  lemma EmptyingNeedsOverlap(g: Game, redis: Redis, acts: seq<Act>, n: nat) returns (k: nat, b: nat, m: nat, v: string)
    requires Playable(g) && OwnKeys(redis) && n < |acts| && Authorised(g, redis, acts, n)
    requires MannedAt(g, redis, acts, n) && !MannedAt(g, redis, acts, n + 1)
    ensures acts[n] == Write(k) && b < m < n && StartsAt(g, redis, acts, b, k)
    ensures Takes(g, redis, acts, m, v) && v != g.cmds[k].target
  {
    k, b := EmptyingWrite(g, redis, acts, n);
    if Steps(At(g, redis, acts, n).pcs[k].current, g.cmds[k]) {
      m, v := OtherWasTaken(g, redis, acts, n, k, b);
    } else {
      v := g.cmds[k].actor;
      assert AdminAt(g, redis, acts, b, v);
      m := ActorWasTaken(g, redis, acts, n, k, b);
    }
  }

  /** Between the start and the write of a command at most its own target is demoted. */
  ghost predicate Undisturbed(g: Game, redis: Redis, acts: seq<Act>) {
    forall k: nat, b: nat, m: nat, n: nat, v: string |
      b < m < n < |acts| && acts[n] == Write(k) && StartsAt(g, redis, acts, b, k) && Takes(g, redis, acts, m, v) ::
      v == g.cmds[k].target
  }

  /** Runs whose commands do not overlap a demotion always keep an administrator. */
  lemma {:induction false} UndisturbedKeepsAdmin(g: Game, redis: Redis, acts: seq<Act>, n: nat)
    requires Playable(g) && OwnKeys(redis) && n <= |acts| && Authorised(g, redis, acts, |acts|)
    requires SomeAdmin(redis, g.json, g.channel) && Undisturbed(g, redis, acts)
    ensures MannedAt(g, redis, acts, n)
  {
    if n > 0 {
      UndisturbedKeepsAdmin(g, redis, acts, n - 1);
      if !MannedAt(g, redis, acts, n) {
        var k, b, m, v := EmptyingNeedsOverlap(g, redis, acts, n - 1);
        assert false;
      }
    }
  }

  /** Two commands that both check before either writes. */
  function BothFirst(): seq<Act> {
    [Begin(0), Begin(1), Check(0), Check(1), Write(0), Write(1)]
  }

  lemma AtAll(g: Game, redis: Redis, acts: seq<Act>)
    requires |acts| == 6
    ensures At(g, redis, acts, 6)
         == Do(g, Do(g, Do(g, Do(g, Do(g, Do(g, World(redis, map[]), acts[0]), acts[1]), acts[2]), acts[3]), acts[4]), acts[5])
  {
    assert At(g, redis, acts, 1) == Do(g, World(redis, map[]), acts[0]);
    assert At(g, redis, acts, 2) == Do(g, At(g, redis, acts, 1), acts[1]);
    assert At(g, redis, acts, 3) == Do(g, At(g, redis, acts, 2), acts[2]);
    assert At(g, redis, acts, 4) == Do(g, At(g, redis, acts, 3), acts[3]);
    assert At(g, redis, acts, 5) == Do(g, At(g, redis, acts, 4), acts[4]);
  }

  ghost function Seen(g: Game, redis: Redis, k: nat): Profile
    requires k < |g.cmds|
  {
    Get(redis, g.json, g.channel, g.cmds[k].target)
  }

  ghost function Judged(g: Game, redis: Redis, k: nat): Pc
    requires k < |g.cmds|
  {
    if Refuses(redis, g.json, g.channel, g.cmds[k]) then Finished else Cleared(Seen(g, redis, k))
  }

  lemma BothBegin(g: Game, redis: Redis)
    requires |g.cmds| == 2
    ensures Do(g, Do(g, World(redis, map[]), Begin(0)), Begin(1))
         == World(redis, map[0 := Read(Seen(g, redis, 0)), 1 := Read(Seen(g, redis, 1))])
  {
  }

  lemma BothCheck(g: Game, redis: Redis, w: World)
    requires |g.cmds| == 2 && w == World(redis, map[0 := Read(Seen(g, redis, 0)), 1 := Read(Seen(g, redis, 1))])
    ensures Do(g, Do(g, w, Check(0)), Check(1)) == World(redis, map[0 := Judged(g, redis, 0), 1 := Judged(g, redis, 1)])
  {
    assert Do(g, w, Check(0)).pcs == map[0 := Judged(g, redis, 0), 1 := Read(Seen(g, redis, 1))];
  }

  lemma BothWrite(g: Game, redis: Redis, w: World)
    requires |g.cmds| == 2 && w == World(redis, map[0 := Judged(g, redis, 0), 1 := Judged(g, redis, 1)])
    ensures Do(g, Do(g, w, Write(0)), Write(1)).redis == Overlapped(redis, g.json, g.channel, g.cmds[0], g.cmds[1])
  {
    assert Do(g, w, Write(0)).redis == Wrote(redis, redis, g.json, g.channel, g.cmds[0]);
    assert Do(g, w, Write(0)).pcs[1] == Judged(g, redis, 1);
  }

  /** The overlapping pair is such a run, so losing the last administrator does happen. */
  lemma OverlapIsARun(g: Game, redis: Redis)
    requires |g.cmds| == 2
    ensures At(g, redis, BothFirst(), 6).redis == Overlapped(redis, g.json, g.channel, g.cmds[0], g.cmds[1])
  {
    AtAll(g, redis, BothFirst());
    BothBegin(g, redis);
    var begun := World(redis, map[0 := Read(Seen(g, redis, 0)), 1 := Read(Seen(g, redis, 1))]);
    BothCheck(g, redis, begun);
    BothWrite(g, redis, World(redis, map[0 := Judged(g, redis, 0), 1 := Judged(g, redis, 1)]));
  }
}
