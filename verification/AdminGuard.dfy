/** `/admin user set` and the rule that the last administrator cannot step down. */
module AdminGuard {
  import opened Prelude
  import opened ProfileStore

  predicate IsAdmin(redis: Redis, json: Config, channel: string, u: string) {
    Get(redis, json, channel, u).role == Admin
  }

  ghost predicate OtherAdmin(redis: Redis, json: Config, channel: string, u: string) {
    exists v :: v != u && IsAdmin(redis, json, channel, v)
  }

  ghost predicate SomeAdmin(redis: Redis, json: Config, channel: string) {
    exists v :: IsAdmin(redis, json, channel, v)
  }

  datatype Command = Command(actor: string, target: string, role: Option<Role>, tier: Option<string>)

  function Updated(current: Profile, cmd: Command): Profile {
    current.(role := if cmd.role.Some? then cmd.role.value else current.role,
             tier := if cmd.tier.Some? then cmd.tier else current.tier)
  }

  predicate SelfDemotion(redis: Redis, json: Config, channel: string, cmd: Command) {
    var current := Get(redis, json, channel, cmd.target);
    cmd.target == cmd.actor && current.role == Admin && Updated(current, cmd).role != Admin
  }

  /** What Redis holds after the command, run as one step. */
  ghost function AfterSet(redis: Redis, json: Config, channel: string, cmd: Command): Redis {
    if SelfDemotion(redis, json, channel, cmd) && !OtherAdmin(redis, json, channel, cmd.target) then redis
    else Written(redis, Updated(Get(redis, json, channel, cmd.target), cmd))
  }

  function Written(redis: Redis, p: Profile): Redis {
    if p.userId == "" then redis else redis[RedisKey(p.channel, p.userId) := Serialize(p)]
  }

  lemma GetIsOwn(redis: Redis, json: Config, channel: string, u: string)
    requires OwnKeys(redis) && Proper(json) && channel in CHANNELS
    ensures Get(redis, json, channel, u).channel == channel && Get(redis, json, channel, u).userId == u
  {
    if InRedis(redis, channel, u).Some? {
      ListedUnderOwnKey(redis, channel, u);
    } else {
      FirstIsConfigured(Configured(json, channel), u);
    }
  }

  /** A written profile changes what is known of that user and of nobody else. */
  lemma WriteChangesOne(redis: Redis, json: Config, channel: string, p: Profile, v: string)
    requires p.channel == channel && channel in CHANNELS && p.userId != ""
    ensures v != p.userId ==> Get(Written(redis, p), json, channel, v) == Get(redis, json, channel, v)
    ensures v == p.userId ==> Get(Written(redis, p), json, channel, v).role == p.role
  {
    KeysAreDistinct(channel, p.userId, channel, v);
  }

  /** Nobody is configured or stored without an id. */
  lemma NamelessIsNoAdmin(redis: Redis, json: Config, channel: string)
    requires Proper(json)
    ensures !IsAdmin(redis, json, channel, "")
  {
    FirstIsConfigured(Configured(json, channel), "");
  }

  lemma RoleAfterSet(redis: Redis, json: Config, channel: string, cmd: Command, v: string)
    requires OwnKeys(redis) && Proper(json) && channel in CHANNELS && cmd.target != ""
    ensures var refused := SelfDemotion(redis, json, channel, cmd) && !OtherAdmin(redis, json, channel, cmd.target);
            IsAdmin(AfterSet(redis, json, channel, cmd), json, channel, v)
            <==> if v != cmd.target || refused then IsAdmin(redis, json, channel, v)
                 else Updated(Get(redis, json, channel, cmd.target), cmd).role == Admin
  {
    GetIsOwn(redis, json, channel, cmd.target);
    WriteChangesOne(redis, json, channel, Updated(Get(redis, json, channel, cmd.target), cmd), v);
  }

  /** The command leaves no administrator exactly when somebody else demotes the only one. */
  lemma WhenNobodyIsLeft(redis: Redis, json: Config, channel: string, cmd: Command)
    requires OwnKeys(redis) && Proper(json) && channel in CHANNELS
    requires SomeAdmin(redis, json, channel)
    ensures !SomeAdmin(AfterSet(redis, json, channel, cmd), json, channel)
       <==> cmd.actor != cmd.target && cmd.role == Some(Member)
            && IsAdmin(redis, json, channel, cmd.target) && !OtherAdmin(redis, json, channel, cmd.target)
  {
    var after := AfterSet(redis, json, channel, cmd);
    NamelessIsNoAdmin(redis, json, channel);
    if cmd.target == "" {
      GetIsOwn(redis, json, channel, "");
    } else {
      RoleAfterSet(redis, json, channel, cmd, cmd.target);
      if v :| v != cmd.target && IsAdmin(redis, json, channel, v) {
        RoleAfterSet(redis, json, channel, cmd, v);
      }
      forall v | IsAdmin(after, json, channel, v)
        ensures v == cmd.target || OtherAdmin(redis, json, channel, cmd.target)
      {
        RoleAfterSet(redis, json, channel, cmd, v);
      }
    }
  }

  lemma SetKeepsStore(redis: Redis, json: Config, channel: string, cmd: Command)
    requires OwnKeys(redis) && Proper(json) && channel in CHANNELS
    ensures OwnKeys(AfterSet(redis, json, channel, cmd))
  {
    SetKeepsOwnKeys(redis, Updated(Get(redis, json, channel, cmd.target), cmd));
  }

  // ---- Runs of commands ----

  ghost function AfterAll(redis: Redis, json: Config, channel: string, cmds: seq<Command>, n: nat): Redis
    requires n <= |cmds|
  {
    if n == 0 then redis else AfterSet(AfterAll(redis, json, channel, cmds, n - 1), json, channel, cmds[n-1])
  }

  /** Each of the first `n` commands comes from somebody who is an administrator at that moment. */
  ghost predicate ByAdmins(redis: Redis, json: Config, channel: string, cmds: seq<Command>, n: nat)
    requires n <= |cmds|
  {
    n == 0 || (ByAdmins(redis, json, channel, cmds, n - 1)
               && IsAdmin(AfterAll(redis, json, channel, cmds, n - 1), json, channel, cmds[n-1].actor))
  }

  ghost predicate Manned(redis: Redis, json: Config, channel: string) {
    OwnKeys(redis) && SomeAdmin(redis, json, channel)
  }

  lemma StepKeepsManned(redis: Redis, json: Config, channel: string, cmd: Command)
    requires Manned(redis, json, channel) && Proper(json) && channel in CHANNELS
    requires IsAdmin(redis, json, channel, cmd.actor)
    ensures Manned(AfterSet(redis, json, channel, cmd), json, channel)
  {
    WhenNobodyIsLeft(redis, json, channel, cmd);
    SetKeepsStore(redis, json, channel, cmd);
  }

  /** Commands given, one after the other, by administrators of the store always leave one. */
  lemma {:induction false} AnAdminRemains(redis: Redis, json: Config, channel: string, cmds: seq<Command>, n: nat)
    requires Manned(redis, json, channel) && Proper(json) && channel in CHANNELS && n <= |cmds|
    requires ByAdmins(redis, json, channel, cmds, n)
    ensures Manned(AfterAll(redis, json, channel, cmds, n), json, channel)
  {
    if n > 0 {
      AnAdminRemains(redis, json, channel, cmds, n - 1);
      StepKeepsManned(AfterAll(redis, json, channel, cmds, n - 1), json, channel, cmds[n-1]);
    }
  }

  // ---- Two commands at once ----

  ghost predicate Refuses(redis: Redis, json: Config, channel: string, cmd: Command) {
    SelfDemotion(redis, json, channel, cmd) && !OtherAdmin(redis, json, channel, cmd.target)
  }

  /** The write of a command that read and checked `seen`, into a store that may have moved on. */
  ghost function Wrote(seen: Redis, redis: Redis, json: Config, channel: string, cmd: Command): Redis {
    if Refuses(seen, json, channel, cmd) then redis
    else Written(redis, Updated(Get(seen, json, channel, cmd.target), cmd))
  }

  /** Both commands read and check before either writes; `b` writes last. */
  ghost function Overlapped(redis: Redis, json: Config, channel: string, a: Command, b: Command): Redis {
    Wrote(redis, Wrote(redis, redis, json, channel, a), json, channel, b)
  }

  /** The role a command that read `seen` writes for `v`. */
  ghost function RoleGiven(seen: Redis, json: Config, channel: string, cmd: Command, v: string): Option<Role> {
    if Refuses(seen, json, channel, cmd) || cmd.target != v || v == "" then None
    else Some(Updated(Get(seen, json, channel, v), cmd).role)
  }

  ghost function LastRole(redis: Redis, json: Config, channel: string, a: Command, b: Command, v: string): Option<Role> {
    if RoleGiven(redis, json, channel, b, v).Some? then RoleGiven(redis, json, channel, b, v) else RoleGiven(redis, json, channel, a, v)
  }

  lemma RoleAfterWrite(seen: Redis, redis: Redis, json: Config, channel: string, cmd: Command, v: string)
    requires OwnKeys(seen) && Proper(json) && channel in CHANNELS
    ensures IsAdmin(Wrote(seen, redis, json, channel, cmd), json, channel, v)
       <==> match RoleGiven(seen, json, channel, cmd, v)
            case Some(role) => role == Admin
            case None => IsAdmin(redis, json, channel, v)
  {
    GetIsOwn(seen, json, channel, cmd.target);
    if cmd.target != "" {
      WriteChangesOne(redis, json, channel, Updated(Get(seen, json, channel, cmd.target), cmd), v);
    }
  }

  lemma RoleAfterOverlap(redis: Redis, json: Config, channel: string, a: Command, b: Command, v: string)
    requires OwnKeys(redis) && Proper(json) && channel in CHANNELS
    ensures IsAdmin(Overlapped(redis, json, channel, a, b), json, channel, v)
       <==> match LastRole(redis, json, channel, a, b, v)
            case Some(role) => role == Admin
            case None => IsAdmin(redis, json, channel, v)
  {
    RoleAfterWrite(redis, redis, json, channel, a, v);
    RoleAfterWrite(redis, Wrote(redis, redis, json, channel, a), json, channel, b, v);
  }

  /**
   Two overlapping commands leave no administrator exactly when everybody who was one is the target
   of a demotion that goes through, and neither command makes or keeps its target one.
   */
  lemma WhenOverlapLeavesNobody(redis: Redis, json: Config, channel: string, a: Command, b: Command)
    requires OwnKeys(redis) && Proper(json) && channel in CHANNELS
    ensures !SomeAdmin(Overlapped(redis, json, channel, a, b), json, channel)
       <==> && (forall v | IsAdmin(redis, json, channel, v) :: LastRole(redis, json, channel, a, b, v) == Some(Member))
            && LastRole(redis, json, channel, a, b, a.target) != Some(Admin)
            && LastRole(redis, json, channel, a, b, b.target) != Some(Admin)
  {
    var after := Overlapped(redis, json, channel, a, b);
    RoleAfterOverlap(redis, json, channel, a, b, a.target);
    RoleAfterOverlap(redis, json, channel, a, b, b.target);
    if v :| IsAdmin(after, json, channel, v) {
      RoleAfterOverlap(redis, json, channel, a, b, v);
    }
    forall v | IsAdmin(redis, json, channel, v) && !IsAdmin(after, json, channel, v)
      ensures LastRole(redis, json, channel, a, b, v) == Some(Member)
    {
      RoleAfterOverlap(redis, json, channel, a, b, v);
    }
  }

  function StepDown(u: string): Command {
    Command(u, u, Some(Member), None)
  }

  /** In every store with exactly two administrators, both can step down at the same time. */
  lemma SimultaneousStepDown(redis: Redis, json: Config, channel: string, a: string, b: string)
    requires OwnKeys(redis) && Proper(json) && channel in CHANNELS && a != b
    requires forall v :: IsAdmin(redis, json, channel, v) <==> v == a || v == b
    ensures !SomeAdmin(Overlapped(redis, json, channel, StepDown(a), StepDown(b)), json, channel)
    ensures SomeAdmin(AfterSet(AfterSet(redis, json, channel, StepDown(a)), json, channel, StepDown(b)), json, channel)
  {
    NamelessIsNoAdmin(redis, json, channel);
    assert IsAdmin(redis, json, channel, a) && IsAdmin(redis, json, channel, b);
    assert OtherAdmin(redis, json, channel, a) && OtherAdmin(redis, json, channel, b);
    WhenOverlapLeavesNobody(redis, json, channel, StepDown(a), StepDown(b));
    var after := AfterSet(redis, json, channel, StepDown(a));
    WhenNobodyIsLeft(redis, json, channel, StepDown(a));
    SetKeepsStore(redis, json, channel, StepDown(a));
    WhenNobodyIsLeft(after, json, channel, StepDown(b));
  }

  /** A store whose administrators are `a` and `b`. */
  function TwoAdmins(a: string, b: string): Redis {
    Written(Written(map[], Profile("web", a, Admin, None, "")), Profile("web", b, Admin, None, ""))
  }

  /** There are such stores. */
  lemma AdminsOfTwo(a: string, b: string, v: string)
    requires a != b && a != "" && b != ""
    ensures OwnKeys(TwoAdmins(a, b))
    ensures IsAdmin(TwoAdmins(a, b), map[], "web", v) <==> v == a || v == b
  {
    KeysAreDistinct("web", a, "web", b);
    KeysAreDistinct("web", v, "web", a);
    KeysAreDistinct("web", v, "web", b);
    SetKeepsOwnKeys(map[], Profile("web", a, Admin, None, ""));
    SetKeepsOwnKeys(Written(map[], Profile("web", a, Admin, None, "")), Profile("web", b, Admin, None, ""));
  }

  /** The administrators a scan lists. */
  function ListedAdmins(redis: Redis, json: Config, channel: string, keys: seq<string>): set<string> {
    var seen := Listed(redis, json, channel, keys);
    set u | u in seen && seen[u].role == Admin
  }

  /** `_handle_set`; `refused` is the last-administrator reply. In a store filed well it is the step `AfterSet`. */
  method HandleSet(store: RedisJsonStore, channel: string, cmd: Command, keys: seq<string>) returns (refused: bool, persisted: bool)
    modifies store
    ensures var source := if old(store.up) then old(store.redis) else map[];
            var updated := Updated(Get(source, store.json, channel, cmd.target), cmd);
            && refused == (SelfDemotion(source, store.json, channel, cmd) && |ListedAdmins(source, store.json, channel, keys)| <= 1)
            && persisted == (!refused && old(store.up) && updated.userId != "")
            && store.redis == if persisted then Written(old(store.redis), updated) else old(store.redis)
    ensures old(store.up) && Proper(store.json) && WellFiled(old(store.redis), store.json, channel) && Complete(old(store.redis), keys) ==>
              && refused == Refuses(old(store.redis), store.json, channel, cmd)
              && store.redis == AfterSet(old(store.redis), store.json, channel, cmd)
  {
    ghost var source := if store.up then store.redis else map[];
    if Proper(store.json) && WellFiled(source, store.json, channel) && Complete(source, keys) && SelfDemotion(source, store.json, channel, cmd) {
      OnlyAdmin(source, store.json, channel, cmd.target, keys);
    }
    var current := store.GetProfile(channel, cmd.target);
    if cmd.target == cmd.actor && current.role == Admin && Updated(current, cmd).role != Admin {
      var seen := store.ListUsers(channel, keys);
      var admins := set u | u in seen && seen[u].role == Admin;
      if |admins| <= 1 {
        return true, false;
      }
    }
    persisted := store.SetProfile(Updated(current, cmd));
    refused := false;
  }

  /** An administrator is the only one exactly when the list holds at most one. */
  lemma OnlyAdmin(redis: Redis, json: Config, channel: string, u: string, keys: seq<string>)
    requires IsAdmin(redis, json, channel, u)
    requires WellFiled(redis, json, channel) && Complete(redis, keys)
    ensures |ListedAdmins(redis, json, channel, keys)| <= 1 <==> !OtherAdmin(redis, json, channel, u)
  {
    var admins := ListedAdmins(redis, json, channel, keys);
    WellFiledAgrees(redis, json, channel, keys);
    assert forall v | IsAdmin(redis, json, channel, v) :: Known(redis, json, channel, v);
    assert forall v :: v in admins <==> IsAdmin(redis, json, channel, v);
    assert u in admins && |admins - {u}| == |admins| - 1;
    if v :| v != u && IsAdmin(redis, json, channel, v) {
      assert v in admins - {u};
    } else {
      assert admins == {u};
    }
  }

  // ---- What a command does to the profile of its target ----

  /** The command asks its own actor, the only administrator, to be a member. */
  ghost predicate LeavesNobody(redis: Redis, json: Config, channel: string, cmd: Command) {
    && cmd.actor == cmd.target && cmd.role == Some(Member)
    && IsAdmin(redis, json, channel, cmd.target) && forall v | v != cmd.target :: !IsAdmin(redis, json, channel, v)
  }

  function Allowed(tier: Option<string>): Option<string> {
    if tier.Some? && tier.value in {"read-only", "approval", "yolo"} then tier else None
  }

  /**
   A command that is not refused gives its target the role and the tier it names, keeps what it does
   not name, and changes nobody else; one that would leave nobody changes nothing.
   */
  lemma SetIsSeen(redis: Redis, json: Config, channel: string, cmd: Command, v: string)
    requires OwnKeys(redis) && Proper(json) && channel in CHANNELS && cmd.target != ""
    ensures var before, after := Get(redis, json, channel, v), Get(AfterSet(redis, json, channel, cmd), json, channel, v);
            if v != cmd.target || LeavesNobody(redis, json, channel, cmd) then after == before
            else after == Profile(channel, v, if cmd.role.Some? then cmd.role.value else before.role,
                                  Allowed(if cmd.tier.Some? then cmd.tier else before.tier), before.extras)
  {
    GetIsOwn(redis, json, channel, cmd.target);
    var current := Get(redis, json, channel, cmd.target);
    assert Refuses(redis, json, channel, cmd) <==> LeavesNobody(redis, json, channel, cmd);
    if !Refuses(redis, json, channel, cmd) {
      WriteChangesOne(redis, json, channel, Updated(current, cmd), v);
    }
  }
}
