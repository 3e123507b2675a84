/** User profiles: Redis first, configuration as fallback, one key per channel and user. */
module ProfileStore {
  import opened Prelude

  datatype Role = Admin | Member
  datatype Profile = Profile(channel: string, userId: string, role: Role, tier: Option<string>, extras: string)

  /** A stored text as `json.loads` sees it; `None` when it is not a JSON object. Absent fields are `None`. */
  datatype Payload = Payload(channel: Option<string>, userId: Option<string>, role: Option<string>, tier: Option<string>, extras: string)
  type Raw = Option<Payload>

  const KEY_PREFIX := "pyclaw:userprofile"
  const CHANNELS := {"web", "feishu"}
  const TIERS := {"read-only", "approval", "yolo"}

  function ChannelPrefix(channel: string): string {
    KEY_PREFIX + ":" + channel + ":"
  }

  function RedisKey(channel: string, userId: string): string {
    ChannelPrefix(channel) + userId
  }

  function RoleText(r: Role): string {
    if r == Admin then "admin" else "member"
  }

  function Serialize(p: Profile): Raw {
    Some(Payload(Some(p.channel), Some(p.userId), Some(RoleText(p.role)), p.tier, p.extras))
  }

  function Deserialize(raw: Raw): Option<Profile> {
    if raw.None? then None
    else
      var p := raw.value;
      if p.channel.None? || p.channel.value !in CHANNELS || p.userId.None? || p.userId.value == "" then None
      else
        Some(Profile(p.channel.value, p.userId.value,
                     if p.role == Some("admin") then Admin else Member,
                     if p.tier.Some? && p.tier.value in TIERS then p.tier else None,
                     p.extras))
  }

  /** What is stored is read back, exactly for profiles of a known channel, user and tier. */
  lemma StoredProfileRoundTrip(p: Profile)
    ensures Deserialize(Serialize(p)) == Some(p)
       <==> p.channel in CHANNELS && p.userId != "" && (p.tier.Some? ==> p.tier.value in TIERS)
  {
  }

  lemma KeysAreDistinct(c: string, u: string, d: string, v: string)
    requires c in CHANNELS && d in CHANNELS
    ensures RedisKey(c, u) == RedisKey(d, v) <==> c == d && u == v
  {
    var n := |KEY_PREFIX| + 1;
    assert RedisKey(c, u)[n] == c[0] && RedisKey(d, v)[n] == d[0];
    if c == d {
      assert RedisKey(c, u)[|ChannelPrefix(c)|..] == u && RedisKey(d, v)[|ChannelPrefix(d)|..] == v;
    }
  }

  type Redis = map<string, Raw>
  type Config = map<string, seq<Profile>>

  function FirstWithId(entries: seq<Profile>, userId: string): Option<Profile> {
    if entries == [] then None
    else if entries[0].userId == userId then Some(entries[0])
    else FirstWithId(entries[1..], userId)
  }

  function Configured(json: Config, channel: string): seq<Profile> {
    if channel in json then json[channel] else []
  }

  function InRedis(redis: Redis, channel: string, userId: string): Option<Profile> {
    var key := RedisKey(channel, userId);
    if userId != "" && key in redis then Deserialize(redis[key]) else None
  }

  /** `get`. */
  function Get(redis: Redis, json: Config, channel: string, userId: string): Profile {
    if InRedis(redis, channel, userId).Some? then InRedis(redis, channel, userId).value
    else if FirstWithId(Configured(json, channel), userId).Some? then FirstWithId(Configured(json, channel), userId).value
    else Profile(channel, userId, Member, None, "")
  }

  /** Some source knows the user. */
  predicate Known(redis: Redis, json: Config, channel: string, userId: string) {
    InRedis(redis, channel, userId).Some? || FirstWithId(Configured(json, channel), userId).Some?
  }

  /** Every readable profile lies under its own key. */
  ghost predicate OwnKeys(redis: Redis) {
    forall k | k in redis && Deserialize(redis[k]).Some? ::
      k == RedisKey(Deserialize(redis[k]).value.channel, Deserialize(redis[k]).value.userId)
  }

  /** `set` keeps every profile under its own key. */
  lemma SetKeepsOwnKeys(redis: Redis, p: Profile)
    requires OwnKeys(redis)
    ensures OwnKeys(redis[RedisKey(p.channel, p.userId) := Serialize(p)])
  {
  }

  /** What is stored under the user's own key is readable as a profile. */
  predicate Stored(redis: Redis, channel: string, userId: string, p: Payload) {
    && userId != "" && RedisKey(channel, userId) in redis && redis[RedisKey(channel, userId)] == Some(p)
    && p.channel.Some? && p.channel.value in {"web", "feishu"} && p.userId.Some? && p.userId.value != ""
  }

  /** The first configured entry of the user. */
  predicate ConfiguredAs(json: Config, channel: string, userId: string, e: Profile) {
    channel in json && exists i | 0 <= i < |json[channel]| ::
      json[channel][i] == e && e.userId == userId && forall j | 0 <= j < i :: json[channel][j].userId != userId
  }

  lemma {:induction false} FirstIsFirst(entries: seq<Profile>, userId: string, i: nat)
    requires i < |entries| && entries[i].userId == userId && forall j | 0 <= j < i :: entries[j].userId != userId
    ensures FirstWithId(entries, userId) == Some(entries[i])
  {
    if i > 0 {
      FirstIsFirst(entries[1..], userId, i - 1);
    }
  }

  lemma {:induction false} NoneIsNone(entries: seq<Profile>, userId: string)
    requires forall e | e in entries :: e.userId != userId
    ensures FirstWithId(entries, userId) == None
  {
    if entries != [] {
      NoneIsNone(entries[1..], userId);
    }
  }

  /** The stored profile wins, with an unknown role read as member; then the configured one; else a member. */
  lemma RoleComesFrom(redis: Redis, json: Config, channel: string, userId: string)
    ensures forall p | Stored(redis, channel, userId, p) ::
              Get(redis, json, channel, userId).role == if p.role == Some("admin") then Admin else Member
    ensures forall e | (forall p :: !Stored(redis, channel, userId, p)) && ConfiguredAs(json, channel, userId, e) ::
              Get(redis, json, channel, userId) == e
    ensures (forall p :: !Stored(redis, channel, userId, p)) && (forall e :: !ConfiguredAs(json, channel, userId, e)) ==>
              Get(redis, json, channel, userId) == Profile(channel, userId, Member, None, "")
  {
    var key := RedisKey(channel, userId);
    if userId != "" && key in redis && redis[key].Some? {
      assert InRedis(redis, channel, userId).Some? <==> Stored(redis, channel, userId, redis[key].value);
    }
    forall e | ConfiguredAs(json, channel, userId, e)
      ensures FirstWithId(Configured(json, channel), userId) == Some(e)
    {
      var i :| 0 <= i < |json[channel]| && json[channel][i] == e && e.userId == userId && forall j | 0 <= j < i :: json[channel][j].userId != userId;
      FirstIsFirst(json[channel], userId, i);
    }
    if forall e :: !ConfiguredAs(json, channel, userId, e) {
      NotConfigured(json, channel, userId);
    }
  }

  lemma {:induction false} NotConfigured(json: Config, channel: string, userId: string)
    requires forall e :: !ConfiguredAs(json, channel, userId, e)
    ensures FirstWithId(Configured(json, channel), userId) == None
  {
    var entries := Configured(json, channel);
    if e :| e in entries && e.userId == userId {
      var i := Earliest(entries, userId);
      assert ConfiguredAs(json, channel, userId, json[channel][i]);
      assert false;
    }
    NoneIsNone(entries, userId);
  }

  lemma {:induction false} Earliest(entries: seq<Profile>, userId: string) returns (i: nat)
    requires exists e | e in entries :: e.userId == userId
    ensures i < |entries| && entries[i].userId == userId && forall j | 0 <= j < i :: entries[j].userId != userId
  {
    if entries[0].userId == userId {
      i := 0;
    } else {
      i := Earliest(entries[1..], userId);
      i := i + 1;
    }
  }

  // ---- Listing ----

  function Readable(redis: Redis, key: string): Option<Profile> {
    if key in redis then Deserialize(redis[key]) else None
  }

  /** What the first `n` keys of a scan put into the list; the last profile of a user prevails. */
  function FromScan(redis: Redis, channel: string, keys: seq<string>, n: nat): map<string, Profile>
    requires n <= |keys|
  {
    if n == 0 then map[]
    else
      var before, p := FromScan(redis, channel, keys, n - 1), Readable(redis, keys[n-1]);
      if StartsWith(keys[n-1], ChannelPrefix(channel)) && p.Some? && p.value.channel == channel then before[p.value.userId := p.value]
      else before
  }

  /** `setdefault` with the first `n` configured entries. */
  function WithConfigured(seen: map<string, Profile>, entries: seq<Profile>, n: nat): map<string, Profile>
    requires n <= |entries|
  {
    if n == 0 then seen
    else
      var before, e := WithConfigured(seen, entries, n - 1), entries[n-1];
      if e.userId in before then before else before[e.userId := e]
  }

  /** `list_users` over a scan that visits the keys in this order, perhaps some of them twice. */
  function Listed(redis: Redis, json: Config, channel: string, keys: seq<string>): map<string, Profile> {
    WithConfigured(FromScan(redis, channel, keys, |keys|), Configured(json, channel), |Configured(json, channel)|)
  }

  ghost predicate Complete(redis: Redis, keys: seq<string>) {
    forall k | k in redis :: k in keys
  }

  /** The list holds exactly the known users, each with the profile `get` gives. */
  ghost predicate Agrees(redis: Redis, json: Config, channel: string, seen: map<string, Profile>) {
    forall u :: (u in seen <==> Known(redis, json, channel, u)) && (u in seen ==> seen[u] == Get(redis, json, channel, u))
  }

  /**
   The key holds nothing readable, or its user's own profile. The key without a user id, which
   `get` never asks for, may hold a copy of what `get` gives.
   */
  predicate FiledAt(redis: Redis, json: Config, channel: string, key: string)
    requires StartsWith(key, ChannelPrefix(channel))
  {
    var u, p := key[|ChannelPrefix(channel)|..], Readable(redis, key);
    p.Some? ==>
      if u != "" then p.value.userId == u && p.value.channel == channel
      else p.value.channel == channel ==>
             Known(redis, json, channel, p.value.userId) && Get(redis, json, channel, p.value.userId) == p.value
  }

  predicate WellFiled(redis: Redis, json: Config, channel: string) {
    forall k | k in redis && StartsWith(k, ChannelPrefix(channel)) :: FiledAt(redis, json, channel, k)
  }

  /** Configured profiles carry their channel and a user id. */
  ghost predicate Proper(json: Config) {
    forall c | c in json :: forall i | 0 <= i < |json[c]| :: json[c][i].channel == c && json[c][i].userId != ""
  }

  lemma PrefixOfKey(channel: string, key: string)
    requires StartsWith(key, ChannelPrefix(channel))
    ensures key == RedisKey(channel, key[|ChannelPrefix(channel)|..])
  {
  }

  /** What the scan lists of a user lies under some key of the channel, and is his. */
  lemma {:induction false} ScannedFrom(redis: Redis, channel: string, keys: seq<string>, n: nat, u: string) returns (k: string)
    requires n <= |keys| && u in FromScan(redis, channel, keys, n)
    ensures k in redis && StartsWith(k, ChannelPrefix(channel))
    ensures Readable(redis, k) == Some(FromScan(redis, channel, keys, n)[u])
    ensures FromScan(redis, channel, keys, n)[u].userId == u && FromScan(redis, channel, keys, n)[u].channel == channel
  {
    var p := Readable(redis, keys[n-1]);
    if StartsWith(keys[n-1], ChannelPrefix(channel)) && p.Some? && p.value.channel == channel && p.value.userId == u {
      k := keys[n-1];
    } else {
      k := ScannedFrom(redis, channel, keys, n - 1, u);
    }
  }

  lemma {:induction false} ScanFinds(redis: Redis, channel: string, keys: seq<string>, n: nat, i: nat)
    requires i < n <= |keys| && StartsWith(keys[i], ChannelPrefix(channel))
    requires Readable(redis, keys[i]).Some? && Readable(redis, keys[i]).value.channel == channel
    ensures Readable(redis, keys[i]).value.userId in FromScan(redis, channel, keys, n)
  {
    if i < n - 1 {
      ScanFinds(redis, channel, keys, n - 1, i);
    }
  }

  lemma {:induction false} ConfiguredFrom(seen: map<string, Profile>, entries: seq<Profile>, n: nat, u: string)
    requires n <= |entries|
    ensures u in seen ==> u in WithConfigured(seen, entries, n) && WithConfigured(seen, entries, n)[u] == seen[u]
    ensures u !in seen ==>
              (u in WithConfigured(seen, entries, n) <==> FirstWithId(entries[..n], u).Some?)
              && (u in WithConfigured(seen, entries, n) ==> Some(WithConfigured(seen, entries, n)[u]) == FirstWithId(entries[..n], u))
  {
    if n > 0 {
      ConfiguredFrom(seen, entries, n - 1, u);
      FirstOfMore(entries[..n-1], entries[n-1], u);
      assert entries[..n] == entries[..n-1] + [entries[n-1]];
    }
  }

  lemma {:induction false} FirstOfMore(entries: seq<Profile>, e: Profile, u: string)
    ensures FirstWithId(entries + [e], u)
         == if FirstWithId(entries, u).Some? then FirstWithId(entries, u) else if e.userId == u then Some(e) else None
  {
    if entries != [] && entries[0].userId != u {
      FirstOfMore(entries[1..], e, u);
      assert (entries + [e])[1..] == entries[1..] + [e];
    } else if entries == [] {
      assert (entries + [e])[1..] == [];
    }
  }

  lemma ListedIs(redis: Redis, json: Config, channel: string, keys: seq<string>, u: string)
    ensures var scan, seen := FromScan(redis, channel, keys, |keys|), Listed(redis, json, channel, keys);
            && (u in scan ==> u in seen && seen[u] == scan[u])
            && (u !in scan ==> (u in seen <==> FirstWithId(Configured(json, channel), u).Some?)
                               && (u in seen ==> Some(seen[u]) == FirstWithId(Configured(json, channel), u)))
  {
    var entries := Configured(json, channel);
    ConfiguredFrom(FromScan(redis, channel, keys, |keys|), entries, |entries|, u);
    assert entries[..|entries|] == entries;
  }

  lemma WellFiledAgrees(redis: Redis, json: Config, channel: string, keys: seq<string>)
    requires WellFiled(redis, json, channel) && Complete(redis, keys)
    ensures Agrees(redis, json, channel, Listed(redis, json, channel, keys))
  {
    var scan := FromScan(redis, channel, keys, |keys|);
    forall u
      ensures (u in Listed(redis, json, channel, keys) <==> Known(redis, json, channel, u))
              && (u in Listed(redis, json, channel, keys) ==> Listed(redis, json, channel, keys)[u] == Get(redis, json, channel, u))
    {
      ListedIs(redis, json, channel, keys, u);
      if u in scan {
        var k := ScannedFrom(redis, channel, keys, |keys|, u);
        PrefixOfKey(channel, k);
        assert FiledAt(redis, json, channel, k);
      } else {
        NotScanned(redis, json, channel, keys, u);
      }
    }
  }

  lemma NotScanned(redis: Redis, json: Config, channel: string, keys: seq<string>, u: string)
    requires WellFiled(redis, json, channel) && Complete(redis, keys)
    requires u !in FromScan(redis, channel, keys, |keys|)
    ensures InRedis(redis, channel, u).None?
  {
    if InRedis(redis, channel, u).Some? {
      var k := RedisKey(channel, u);
      assert StartsWith(k, ChannelPrefix(channel)) && k[|ChannelPrefix(channel)|..] == u;
      assert FiledAt(redis, json, channel, k);
      var i :| 0 <= i < |keys| && keys[i] == k;
      ScanFinds(redis, channel, keys, |keys|, i);
    }
  }

  lemma {:induction false} FirstIsConfigured(entries: seq<Profile>, u: string)
    ensures FirstWithId(entries, u).Some? ==>
              exists i :: 0 <= i < |entries| && entries[i] == FirstWithId(entries, u).value && entries[i].userId == u
  {
    if entries != [] && entries[0].userId != u {
      FirstIsConfigured(entries[1..], u);
      if FirstWithId(entries, u).Some? {
        var i :| 0 <= i < |entries[1..]| && entries[1..][i] == FirstWithId(entries, u).value && entries[1..][i].userId == u;
        assert entries[i+1] == FirstWithId(entries, u).value;
      }
    }
  }

  /** A listed profile names its user and the channel. */
  lemma ListedIsNamed(redis: Redis, json: Config, channel: string, keys: seq<string>, u: string)
    requires Proper(json) && u in Listed(redis, json, channel, keys)
    ensures Listed(redis, json, channel, keys)[u].userId == u && Listed(redis, json, channel, keys)[u].channel == channel
  {
    ListedIs(redis, json, channel, keys, u);
    if u in FromScan(redis, channel, keys, |keys|) {
      var k := ScannedFrom(redis, channel, keys, |keys|, u);
    } else {
      FirstIsConfigured(Configured(json, channel), u);
    }
  }

  lemma {:induction false} Enumerate(s: set<string>) returns (q: seq<string>)
    ensures forall x | x in s :: x in q
    decreases s
  {
    q := [];
    if x :| x in s {
      q := Enumerate(s - {x});
      q := q + [x];
    }
  }

  /** A key that is not filed well makes some complete scan disagree: one that visits it last. */
  lemma AgreementFilesWell(redis: Redis, json: Config, channel: string, key: string)
    requires Proper(json) && key in redis && StartsWith(key, ChannelPrefix(channel))
    requires forall keys | Complete(redis, keys) :: Agrees(redis, json, channel, Listed(redis, json, channel, keys))
    ensures FiledAt(redis, json, channel, key)
  {
    var all := Enumerate(redis.Keys);
    var keys := all + [key];
    var seen := Listed(redis, json, channel, keys);
    assert Complete(redis, keys) && Agrees(redis, json, channel, seen);
    var u, p := key[|ChannelPrefix(channel)|..], Readable(redis, key);
    PrefixOfKey(channel, key);
    if p.Some? && u != "" {
      assert Known(redis, json, channel, u) && seen[u] == p.value;
      ListedIsNamed(redis, json, channel, keys, u);
    } else if p.Some? && p.value.channel == channel {
      assert keys[|keys|-1] == key;
      assert FromScan(redis, channel, keys, |keys|)[p.value.userId] == p.value;
      ListedIs(redis, json, channel, keys, p.value.userId);
    }
  }

  /**
   Whatever the order and repetitions of the scan, the list agrees with asking for each user,
   exactly when every readable profile of the channel is filed under its own key.
   */
  lemma WhenListAgreesWithGet(redis: Redis, json: Config, channel: string)
    requires Proper(json)
    ensures (forall keys | Complete(redis, keys) :: Agrees(redis, json, channel, Listed(redis, json, channel, keys)))
       <==> WellFiled(redis, json, channel)
  {
    if WellFiled(redis, json, channel) {
      forall keys | Complete(redis, keys)
        ensures Agrees(redis, json, channel, Listed(redis, json, channel, keys))
      {
        WellFiledAgrees(redis, json, channel, keys);
      }
    } else if forall keys | Complete(redis, keys) :: Agrees(redis, json, channel, Listed(redis, json, channel, keys)) {
      forall k | k in redis && StartsWith(k, ChannelPrefix(channel))
        ensures FiledAt(redis, json, channel, k)
      {
        AgreementFilesWell(redis, json, channel, k);
      }
      assert false;
    }
  }

  /** Stores written only by `set` are filed well. */
  lemma OwnKeysAreWellFiled(redis: Redis, json: Config, channel: string)
    requires OwnKeys(redis) && channel in CHANNELS
    ensures WellFiled(redis, json, channel)
  {
    forall k | k in redis && StartsWith(k, ChannelPrefix(channel))
      ensures FiledAt(redis, json, channel, k)
    {
      PrefixOfKey(channel, k);
      if Readable(redis, k).Some? {
        var p := Readable(redis, k).value;
        KeysAreDistinct(p.channel, p.userId, channel, k[|ChannelPrefix(channel)|..]);
      }
    }
  }

  class RedisJsonStore {
    var redis: Redis
    const json: Config
    /** Whether Redis answers. */
    var up: bool

    constructor (json: Config)
      ensures redis == map[] && this.json == json && up
    {
      redis, this.json, up := map[], json, true;
    }

    method GetProfile(channel: string, userId: string) returns (p: Profile)
      ensures p == Get(if up then redis else map[], json, channel, userId)
    {
      if up && userId != "" && RedisKey(channel, userId) in redis {
        var stored := Deserialize(redis[RedisKey(channel, userId)]);
        if stored.Some? {
          return stored.value;
        }
      }
      var entries := Configured(json, channel);
      for i := 0 to |entries|
        invariant FirstWithId(entries, userId) == FirstWithId(entries[i..], userId)
      {
        assert entries[i..][1..] == entries[i+1..];
        if entries[i].userId == userId {
          return entries[i];
        }
      }
      p := Profile(channel, userId, Member, None, "");
    }

    method SetProfile(p: Profile) returns (ok: bool)
      modifies this
      ensures ok == (old(up) && p.userId != "") && up == old(up)
      ensures redis == if ok then old(redis)[RedisKey(p.channel, p.userId) := Serialize(p)] else old(redis)
    {
      if !up || p.userId == "" {
        return false;
      }
      redis := redis[RedisKey(p.channel, p.userId) := Serialize(p)];
      return true;
    }

    /** `list_users`, over the keys a scan yields. */
    method ListUsers(channel: string, keys: seq<string>) returns (seen: map<string, Profile>)
      ensures seen == Listed(if up then redis else map[], json, channel, keys)
    {
      seen := map[];
      ghost var source := if up then redis else map[];
      EmptyScan(channel, keys, |keys|);
      if up {
        for i := 0 to |keys|
          invariant seen == FromScan(redis, channel, keys, i)
        {
          if StartsWith(keys[i], ChannelPrefix(channel)) && keys[i] in redis {
            var p := Deserialize(redis[keys[i]]);
            if p.Some? && p.value.channel == channel {
              seen := seen[p.value.userId := p.value];
            }
          }
        }
      }
      ghost var scanned := seen;
      var entries := Configured(json, channel);
      for i := 0 to |entries|
        invariant seen == WithConfigured(scanned, entries, i)
      {
        if entries[i].userId !in seen {
          seen := seen[entries[i].userId := entries[i]];
        }
      }
    }
  }

  lemma {:induction false} EmptyScan(channel: string, keys: seq<string>, n: nat)
    requires n <= |keys|
    ensures FromScan(map[], channel, keys, n) == map[]
  {
    if n > 0 {
      EmptyScan(channel, keys, n - 1);
    }
  }

  lemma ListedUnderOwnKey(redis: Redis, channel: string, u: string)
    requires OwnKeys(redis) && channel in CHANNELS && InRedis(redis, channel, u).Some?
    ensures var p := InRedis(redis, channel, u).value; p.channel == channel && p.userId == u
    ensures StartsWith(RedisKey(channel, u), ChannelPrefix(channel))
  {
    var p := InRedis(redis, channel, u).value;
    KeysAreDistinct(channel, u, p.channel, p.userId);
  }

  /** A profile filed under another user's key is handed out for that user. */
  lemma MisfiledProfileIsServed(json: Config)
    ensures exists redis: Redis :: !OwnKeys(redis) && Get(redis, json, "web", "a").userId == "b"
  {
    var p := Profile("web", "b", Admin, None, "");
    var redis: Redis := map[RedisKey("web", "a") := Serialize(p)];
    KeysAreDistinct("web", "a", "web", "b");
    assert RedisKey("web", "a") in redis && Deserialize(redis[RedisKey("web", "a")]) == Some(p);
    assert Get(redis, json, "web", "a") == p;
  }
}
