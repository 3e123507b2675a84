/**
 What a Feishu event is routed and deduplicated by, read off the event tree itself: attributes
 are named by their path, whatever functions the handler reads them with.
 */
module FeishuRouting {
  import opened Prelude
  import opened EventCodec
  import opened Gateway
  import opened GatewaySafety

  type Path = seq<string>

  /** The first field called `name` holds `x`. */
  ghost predicate FirstField(fields: seq<Field>, name: string, x: Value) {
    exists i | 0 <= i < |fields| ::
      fields[i] == Field(name, x) && forall j | 0 <= j < i :: fields[j].name != name
  }

  /** Following the attributes of `path` from `v` leads to `x`. */
  ghost predicate Reaches(v: Value, path: Path, x: Value) {
    if path == [] then v == x
    else v.Obj? && exists y :: FirstField(v.fields, path[0], y) && Reaches(y, path[1..], x)
  }

  /** The attribute is that text; an attribute that is None counts as "". */
  ghost predicate Says(e: Value, path: Path, s: string) {
    Reaches(e, path, Str(s)) || (s == "" && Reaches(e, path, Null))
  }

  const SENDER: Path := ["event", "sender"]
  const SENDER_ID: Path := ["event", "sender", "sender_id"]
  const OPEN_ID: Path := ["event", "sender", "sender_id", "open_id"]

  function InMessage(name: string): Path {
    ["event", "message", name]
  }

  ghost predicate SentBy(e: Value, s: string) {
    Says(e, OPEN_ID, s) || (s == "" && (Reaches(e, SENDER, Null) || Reaches(e, SENDER_ID, Null)))
  }

  datatype Facets = Facets(id: string, chatType: string, chat: string, thread: string, sender: string)

  /** `f` is what the event says about itself. */
  ghost predicate Reads(e: Value, f: Facets) {
    && Says(e, InMessage("message_id"), f.id)
    && Says(e, InMessage("chat_type"), f.chatType)
    && Says(e, InMessage("chat_id"), f.chat)
    && Says(e, InMessage("thread_id"), f.thread)
    && SentBy(e, f.sender)
  }

  ghost predicate Mentions(e: Value, bot: string) {
    exists items, m :: Reaches(e, InMessage("mentions"), List(items)) && m in items && Reaches(m, ["id", "open_id"], Str(bot))
  }

  // ---- Paths and the functions that follow them ----

  lemma {:induction false} LookupIsFirst(fields: seq<Field>, name: string, x: Value)
    ensures FirstField(fields, name, x) <==> Lookup(fields, name) == Some(x)
  {
    if fields != [] {
      LookupIsFirst(fields[1..], name, x);
      if FirstField(fields[1..], name, x) && fields[0].name != name {
        var i :| 0 <= i < |fields[1..]| && fields[1..][i] == Field(name, x) && forall j | 0 <= j < i :: fields[1..][j].name != name;
        assert fields[i+1] == Field(name, x) && forall j | 0 <= j < i + 1 :: fields[j].name != name;
      }
      if FirstField(fields, name, x) && fields[0].name != name {
        var i :| 0 <= i < |fields| && fields[i] == Field(name, x) && forall j | 0 <= j < i :: fields[j].name != name;
        assert fields[1..][i-1] == Field(name, x) && forall j | 0 <= j < i - 1 :: fields[1..][j].name != name;
      }
      if fields[0] == Field(name, x) {
        assert FirstField(fields, name, x);
      }
    }
  }

  lemma ReachesOne(v: Value, name: string, rest: Path, x: Value)
    ensures Reaches(v, [name] + rest, x) <==> Attr(v, name).Some? && Reaches(Attr(v, name).value, rest, x)
  {
    var path := [name] + rest;
    assert path[0] == name && path[1..] == rest;
    if v.Obj? && Attr(v, name).Some? {
      LookupIsFirst(v.fields, name, Attr(v, name).value);
    }
    if Reaches(v, path, x) {
      var y :| FirstField(v.fields, name, y) && Reaches(y, rest, x);
      LookupIsFirst(v.fields, name, y);
    }
  }

  lemma ReachesTwo(v: Value, a: string, b: string, x: Value)
    ensures Reaches(v, [a, b], x) <==> AttrOf(Attr(v, a), b) == Some(x)
  {
    assert [a, b] == [a] + [b] && [b] == [b] + [];
    ReachesOne(v, a, [b], x);
    if Attr(v, a).Some? {
      ReachesOne(Attr(v, a).value, b, [], x);
    }
  }

  lemma ReachesThree(v: Value, a: string, b: string, c: string, x: Value)
    ensures Reaches(v, [a, b, c], x) <==> AttrOf(AttrOf(Attr(v, a), b), c) == Some(x)
  {
    assert [a, b, c] == [a] + [b, c];
    ReachesOne(v, a, [b, c], x);
    if Attr(v, a).Some? {
      ReachesTwo(Attr(v, a).value, b, c, x);
    }
  }

  lemma SaysText(e: Value, name: string, s: string)
    ensures Says(e, InMessage(name), s) <==> MessageText(e, name) == Some(s)
  {
    ReachesThree(e, "event", "message", name, Str(s));
    ReachesThree(e, "event", "message", name, Null);
  }

  lemma SaysSender(e: Value, s: string)
    ensures SentBy(e, s) <==> SenderOpenId(e) == Some(s)
  {
    ReachesTwo(e, "event", "sender", Null);
    ReachesThree(e, "event", "sender", "sender_id", Null);
    assert OPEN_ID == ["event"] + ["sender", "sender_id", "open_id"];
    forall x
      ensures Reaches(e, OPEN_ID, x) <==> AttrOf(AttrOf(AttrOf(Attr(e, "event"), "sender"), "sender_id"), "open_id") == Some(x)
    {
      ReachesOne(e, "event", ["sender", "sender_id", "open_id"], x);
      if Attr(e, "event").Some? {
        ReachesThree(Attr(e, "event").value, "sender", "sender_id", "open_id", x);
      }
    }
  }

  lemma ReadsAll(e: Value, f: Facets)
    ensures Reads(e, f)
       <==> && MessageText(e, "message_id") == Some(f.id) && MessageText(e, "chat_type") == Some(f.chatType)
            && MessageText(e, "chat_id") == Some(f.chat) && MessageText(e, "thread_id") == Some(f.thread)
            && SenderOpenId(e) == Some(f.sender)
  {
    SaysText(e, "message_id", f.id);
    SaysText(e, "chat_type", f.chatType);
    SaysText(e, "chat_id", f.chat);
    SaysText(e, "thread_id", f.thread);
    SaysSender(e, f.sender);
  }

  // ---- Changing one attribute ----

  /** `v` with the attribute at `path` replaced; an attribute that is not there stays away. */
  function Put(v: Value, path: Path, x: Value): Value
    decreases v
  {
    if path == [] then x else if v.Obj? then Obj(PutField(v.fields, path, x)) else v
  }

  function PutField(fields: seq<Field>, path: Path, x: Value): seq<Field>
    requires path != []
    decreases fields
  {
    if fields == [] then []
    else if fields[0].name == path[0] then [Field(path[0], Put(fields[0].value, path[1..], x))] + fields[1..]
    else [fields[0]] + PutField(fields[1..], path, x)
  }

  lemma {:induction false} LookupPut(fields: seq<Field>, path: Path, x: Value, name: string)
    requires path != []
    ensures Lookup(PutField(fields, path, x), name)
         == if name == path[0] && Lookup(fields, name).Some? then Some(Put(Lookup(fields, name).value, path[1..], x))
            else Lookup(fields, name)
    decreases |fields|
  {
    if fields != [] {
      var after := PutField(fields, path, x);
      if fields[0].name == path[0] {
        assert after[1..] == fields[1..];
      } else {
        LookupPut(fields[1..], path, x, name);
        assert after[1..] == PutField(fields[1..], path, x);
      }
    }
  }

  lemma StepInto(v: Value, path: Path, x: Value)
    requires path != []
    ensures Reaches(v, path, x) <==> Attr(v, path[0]).Some? && Reaches(Attr(v, path[0]).value, path[1..], x)
  {
    assert path == [path[0]] + path[1..];
    ReachesOne(v, path[0], path[1..], x);
  }

  lemma {:induction false} PutReaches(v: Value, path: Path, was: Value, x: Value)
    requires Reaches(v, path, was)
    ensures Reaches(Put(v, path, x), path, x)
    decreases |path|
  {
    if path != [] {
      StepInto(v, path, was);
      LookupPut(v.fields, path, x, path[0]);
      PutReaches(Attr(v, path[0]).value, path[1..], was, x);
      StepInto(Put(v, path, x), path, x);
    }
  }

  /** A text stays where it is when an attribute is replaced that it does not lie under. */
  lemma {:induction false} PutElsewhere(v: Value, path: Path, x: Value, here: Path, s: string)
    requires Reaches(v, here, Str(s)) && !(path <= here)
    ensures Reaches(Put(v, path, x), here, Str(s))
    decreases |here|
  {
    if here != [] {
      StepInto(v, here, Str(s));
      LookupPut(v.fields, path, x, here[0]);
      if here[0] == path[0] {
        assert path[1..] <= here[1..] ==> path <= here by {
          assert path == [path[0]] + path[1..] && here == [here[0]] + here[1..];
        }
        PutElsewhere(Attr(v, here[0]).value, path[1..], x, here[1..], s);
      }
      StepInto(Put(v, path, x), here, Str(s));
    }
  }

  // ---- What the handler goes by ----

  /** An event is deduplicated under exactly the text at `event.message.message_id`. */
  lemma DeduplicatedUnderItsId(cfg: Config, e: Value, s: string)
    requires Says(e, InMessage("message_id"), s)
    ensures FeishuHandler(cfg).id(e) == s
  {
    SaysText(e, "message_id", s);
  }

  /** Replacing that attribute replaces the id, and replacing any other leaves it. */
  lemma OnlyThatAttribute(cfg: Config, e: Value, s: string, path: Path, x: Value, other: string)
    requires Reaches(e, InMessage("message_id"), Str(s))
    ensures FeishuHandler(cfg).id(Put(e, InMessage("message_id"), Str(other))) == other
    ensures !(path <= InMessage("message_id")) ==> FeishuHandler(cfg).id(Put(e, path, x)) == s
  {
    PutReaches(e, InMessage("message_id"), Str(s), Str(other));
    DeduplicatedUnderItsId(cfg, Put(e, InMessage("message_id"), Str(other)), other);
    if !(path <= InMessage("message_id")) {
      PutElsewhere(e, path, x, InMessage("message_id"), s);
      DeduplicatedUnderItsId(cfg, Put(e, path, x), s);
    }
  }

  /** All that is asked of an event to be handled. */
  ghost predicate Asked(cfg: Config, e: Value, f: Facets) {
    Reads(e, f) && (f.chatType == "group" ==> Mentions(e, cfg.botOpenId))
  }

  lemma AdmittedIsAsked(cfg: Config, e: Value) returns (f: Facets)
    requires FeishuHandler(cfg).admits(e)
    ensures Asked(cfg, e, f)
  {
    MentionedExactly(e, cfg.botOpenId);
    f := Facets(MessageText(e, "message_id").value, MessageText(e, "chat_type").value, MessageText(e, "chat_id").value,
                MessageText(e, "thread_id").value, SenderOpenId(e).value);
    ReadsAll(e, f);
  }

  lemma AskedIsAdmitted(cfg: Config, e: Value, f: Facets)
    requires Asked(cfg, e, f)
    ensures FeishuHandler(cfg).admits(e)
  {
    MentionedExactly(e, cfg.botOpenId);
    ReadsAll(e, f);
  }

  /** An event is handled exactly when it says all that is asked, and, from a group, mentions the bot. */
  lemma AdmittedExactly(cfg: Config, e: Value)
    ensures FeishuHandler(cfg).admits(e) <==> exists f :: Asked(cfg, e, f)
  {
    if FeishuHandler(cfg).admits(e) {
      var f := AdmittedIsAsked(cfg, e);
    }
    if f :| Asked(cfg, e, f) {
      AskedIsAdmitted(cfg, e, f);
    }
  }

  lemma MentionedExactly(e: Value, bot: string)
    ensures Mentions(e, bot) <==> BotMentioned(e, bot)
  {
    forall items
      ensures Reaches(e, InMessage("mentions"), List(items)) <==> AttrOf(MessageOf(e), "mentions") == Some(List(items))
    {
      ReachesThree(e, "event", "message", "mentions", List(items));
    }
    forall m
      ensures Reaches(m, ["id", "open_id"], Str(bot)) <==> NamesBot(m, bot)
    {
      ReachesTwo(m, "id", "open_id", Str(bot));
    }
  }

  /** The two events belong to one session: what tells sessions apart depends on the scope. */
  predicate SameSession(scope: string, f: Facets, g: Facets) {
    if f.chatType == "p2p" && g.chatType == "p2p" then f.sender == g.sender
    else if f.chatType == "p2p" then f.sender == g.chat && Unscoped(scope, g)
    else if g.chatType == "p2p" then g.sender == f.chat && Unscoped(scope, f)
    else f.chat == g.chat && (scope == "user" ==> f.sender == g.sender) && (scope == "thread" ==> f.thread == g.thread)
  }

  /** A group message whose scope adds nothing to the chat. */
  predicate Unscoped(scope: string, g: Facets) {
    scope != "user" && (scope == "thread" ==> g.thread == "")
  }

  /** What follows the application in a session key: the part before a further colon, and the rest. */
  predicate Splits(text: string, front: string, rest: string) {
    text == front + rest && ':' !in front && (rest == "" || rest[0] == ':')
  }

  /** The front ends at the first colon of the text, or with the text. */
  lemma FrontEnds(text: string, front: string, rest: string)
    requires Splits(text, front, rest)
    ensures |front| <= |text| && (|front| < |text| ==> text[|front|] == ':')
    ensures forall k | 0 <= k < |front| :: text[k] != ':'
  {
    forall k | 0 <= k < |front|
      ensures text[k] != ':'
    {
      assert text[k] == front[k] && front[k] in front;
    }
  }

  lemma SplitsOnce(text: string, front: string, rest: string, front': string, rest': string)
    requires Splits(text, front, rest) && Splits(text, front', rest')
    ensures front == front' && rest == rest'
  {
    FrontEnds(text, front, rest);
    FrontEnds(text, front', rest');
    assert |front| == |front'|;
    assert front == text[..|front|] && front' == text[..|front'|];
    assert rest == text[|front|..] && rest' == text[|front'|..];
  }

  function Front(f: Facets): string {
    if f.chatType == "p2p" then f.sender else f.chat
  }

  function Rest(scope: string, f: Facets): string {
    if f.chatType == "p2p" then ""
    else if scope == "user" then ":" + f.sender
    else if scope == "thread" && f.thread != "" then ":thread:" + f.thread
    else ""
  }

  lemma KeyIs(cfg: Config, e: Value, f: Facets)
    requires Reads(e, f)
    ensures FeishuHandler(cfg).key(e) == "feishu:" + cfg.appId + ":" + (Front(f) + Rest(cfg.scope, f))
  {
    ReadsAll(e, f);
    var head := "feishu:" + cfg.appId + ":";
    assert Front(f) + "" == Front(f);
    assert head + f.chat + ":" + f.sender == head + (f.chat + (":" + f.sender));
    assert head + f.chat + ":thread:" + f.thread == head + (f.chat + (":thread:" + f.thread));
  }

  predicate ColonFree(f: Facets) {
    ':' !in f.chat && ':' !in f.sender
  }

  lemma SameRest(scope: string, f: Facets, g: Facets)
    ensures Front(f) == Front(g) && Rest(scope, f) == Rest(scope, g) <==> SameSession(scope, f, g)
  {
    if f.chatType != "p2p" && g.chatType != "p2p" {
      assert (":" + f.sender)[1..] == f.sender && (":" + g.sender)[1..] == g.sender;
      assert (":thread:" + f.thread)[8..] == f.thread && (":thread:" + g.thread)[8..] == g.thread;
    }
  }

  /**
   Two events have one session key exactly when they belong to one session: the same sender in
   direct chats, the same chat in groups, and in scope "user" also the same sender there, in scope
   "thread" the same thread.
   */
  lemma SessionsHaveKeys(cfg: Config, e: Value, f: Facets, e': Value, f': Facets)
    requires Reads(e, f) && Reads(e', f') && ColonFree(f) && ColonFree(f')
    ensures FeishuHandler(cfg).key(e) == FeishuHandler(cfg).key(e') <==> SameSession(cfg.scope, f, f')
  {
    KeyIs(cfg, e, f);
    KeyIs(cfg, e', f');
    var head, tail, tail' := "feishu:" + cfg.appId + ":", Front(f) + Rest(cfg.scope, f), Front(f') + Rest(cfg.scope, f');
    SameRest(cfg.scope, f, f');
    assert (head + tail)[|head|..] == tail && (head + tail')[|head|..] == tail';
    if tail == tail' {
      assert Splits(tail, Front(f), Rest(cfg.scope, f)) && Splits(tail, Front(f'), Rest(cfg.scope, f'));
      SplitsOnce(tail, Front(f), Rest(cfg.scope, f), Front(f'), Rest(cfg.scope, f'));
    }
  }

  /** Applications share no session. */
  lemma ApplicationsAreApart(cfg: Config, cfg': Config, e: Value, f: Facets, e': Value, f': Facets)
    requires Reads(e, f) && Reads(e', f') && ':' !in cfg.appId && ':' !in cfg'.appId
    ensures FeishuHandler(cfg).key(e) == FeishuHandler(cfg').key(e') ==> cfg.appId == cfg'.appId
  {
    KeyIs(cfg, e, f);
    KeyIs(cfg', e', f');
    ApplicationFirst(cfg.appId, Front(f) + Rest(cfg.scope, f), cfg'.appId, Front(f') + Rest(cfg'.scope, f'));
  }

  lemma ApplicationFirst(app: string, tail: string, app': string, tail': string)
    requires ':' !in app && ':' !in app'
    ensures "feishu:" + app + ":" + tail == "feishu:" + app' + ":" + tail' ==> app == app'
  {
    var key, key' := "feishu:" + app + ":" + tail, "feishu:" + app' + ":" + tail';
    var after, after' := app + (":" + tail), app' + (":" + tail');
    assert key == "feishu:" + after && key' == "feishu:" + after';
    assert key[7..] == after && key'[7..] == after';
    if key == key' {
      SplitsOnce(after, app, ":" + tail, app', ":" + tail');
    }
  }

  // ---- What is discarded in a run ----

  /** Step `i` brings in event `e` as copy `c`. */
  ghost predicate Arrives(h: Handler, run: seq<Step>, i: nat, c: nat, e: Value) {
    i < |run| && run[i].DoArrive? && run[i].e == e && h.admits(e) && c == Execute(h, run[..i]).at.next
  }

  lemma {:induction false} ArrivedUnder(h: Handler, run: seq<Step>, i: nat, c: nat, e: Value)
    requires Faithful(h) && Arrives(h, run, i, c, e)
    ensures c in Execute(h, run).log.origin && Execute(h, run).log.origin[c] == Origin(h.key(e), h.id(e))
    decreases |run|
  {
    var front := run[..|run|-1];
    Reachable(h, front);
    if i == |run| - 1 {
      assert run[..i] == front;
    } else {
      assert front[..i] == run[..i];
      ArrivedUnder(h, front, i, c, e);
      HistoryFrame(h, Execute(h, front), run[|run|-1]);
    }
  }

  /**
   A message is never discarded because of one with another id: when a copy of it is, then another
   copy under its own id was accepted, or a worker died while setting the key of that id.
   */
  lemma NotBecauseOfAnother(cfg: Config, run: seq<Step>, i: nat, c: nat, e: Value, s: string, j: nat, d: nat, e': Value, s': string)
    requires var h := FeishuHandler(cfg); Arrives(h, run, i, c, e) && Arrives(h, run, j, d, e')
    requires Says(e, InMessage("message_id"), s) && Says(e', InMessage("message_id"), s') && s != s'
    ensures var after := Execute(FeishuHandler(cfg), run);
            c in after.at.discarded ==> s in after.log.orphaned || exists x :: x != c && x != d && Accepted(after, x, s)
  {
    var h := FeishuHandler(cfg);
    var after := Execute(h, run);
    FeishuIsFaithful(cfg);
    Reachable(h, run);
    ArrivedUnder(h, run, i, c, e);
    ArrivedUnder(h, run, j, d, e');
    DeduplicatedUnderItsId(cfg, e, s);
    DeduplicatedUnderItsId(cfg, e', s');
    if c in after.at.discarded && s !in after.log.orphaned {
      DiscardedOnlyAfterAcceptance(h, run, c);
      var x :| Accepted(after, x, s);
      assert Places(after, c) == 1 && x in after.at.accepted;
      assert after.log.origin[x].id == s && after.log.origin[d].id == s';
      assert x != c && x != d;
    }
  }

  /** No step's command was executed without its worker hearing of it. */
  predicate NothingHalfDone(run: seq<Step>) {
    forall step | step in run :: !((step.RouteError? || step.Crash?) && step.applied)
  }

  lemma FaultlessStep(h: Handler, s: State, step: Step)
    requires Good(h, s) && !((step.RouteError? || step.Crash?) && step.applied)
    ensures var s' := Apply(h, s, step);
            && s'.log.orphaned == s.log.orphaned
            && s'.at.next == if step.DoArrive? && h.admits(step.e) then s.at.next + 1 else s.at.next
  {
    if IsRouterStep(step) {
      RouterFrame(h, s, step);
    }
  }

  /** Then every copy is one that arrived, and no dedup key is orphaned. */
  lemma {:induction false} CopiesArrived(h: Handler, run: seq<Step>, c: nat) returns (i: nat, e: Value)
    requires Faithful(h) && NothingHalfDone(run) && c < Execute(h, run).at.next
    ensures Arrives(h, run, i, c, e)
  {
    var front, step := run[..|run|-1], run[|run|-1];
    assert forall x | x in front :: x in run;
    Reachable(h, front);
    FaultlessStep(h, Execute(h, front), step);
    if c < Execute(h, front).at.next {
      i, e := CopiesArrived(h, front, c);
      assert front[..i] == run[..i];
    } else {
      i, e := |run| - 1, step.e;
      assert run[..i] == front;
    }
  }

  lemma {:induction false} NothingOrphaned(h: Handler, run: seq<Step>)
    requires Faithful(h) && NothingHalfDone(run)
    ensures Execute(h, run).log.orphaned == {}
  {
    if run != [] {
      var front := run[..|run|-1];
      assert forall x | x in front :: x in run;
      Reachable(h, front);
      NothingOrphaned(h, front);
      FaultlessStep(h, Execute(h, front), run[|run|-1]);
    }
  }

  /** The other admitted arrivals of the run carry other ids. */
  ghost predicate AloneWith(h: Handler, run: seq<Step>, c: nat, s: string) {
    forall j: nat, d: nat, e | Arrives(h, run, j, d, e) && d != c :: !Says(e, InMessage("message_id"), s)
  }

  lemma SaysItsId(cfg: Config, e: Value) returns (s: string)
    requires FeishuHandler(cfg).admits(e)
    ensures Says(e, InMessage("message_id"), s) && FeishuHandler(cfg).id(e) == s
  {
    s := MessageText(e, "message_id").value;
    SaysText(e, "message_id", s);
  }

  /** In a run without half-done commands, a message whose id no other arrival carries is never discarded. */
  lemma OnlyCopyIsKept(cfg: Config, run: seq<Step>, i: nat, c: nat, e: Value, s: string)
    requires NothingHalfDone(run) && Arrives(FeishuHandler(cfg), run, i, c, e) && Says(e, InMessage("message_id"), s)
    requires AloneWith(FeishuHandler(cfg), run, c, s)
    ensures c !in Execute(FeishuHandler(cfg), run).at.discarded
  {
    var h := FeishuHandler(cfg);
    var after := Execute(h, run);
    FeishuIsFaithful(cfg);
    NothingOrphaned(h, run);
    Reachable(h, run);
    if c in after.at.discarded {
      NotTwiceTheSame(cfg, run, i, c, e, s);
      var x :| x != c && Accepted(after, x, s);
      assert x in after.log.origin && after.log.origin[x].id == s;
      var j, e' := CopiesArrived(h, run, x);
      ArrivedUnder(h, run, j, x, e');
      var s' := SaysItsId(cfg, e');
      assert false;
    }
  }

  lemma NotTwiceTheSame(cfg: Config, run: seq<Step>, i: nat, c: nat, e: Value, s: string)
    requires Arrives(FeishuHandler(cfg), run, i, c, e) && Says(e, InMessage("message_id"), s)
    requires var after := Execute(FeishuHandler(cfg), run); c in after.at.discarded && after.log.orphaned == {}
    ensures exists x :: x != c && Accepted(Execute(FeishuHandler(cfg), run), x, s)
  {
    var h := FeishuHandler(cfg);
    var after := Execute(h, run);
    FeishuIsFaithful(cfg);
    Reachable(h, run);
    ArrivedUnder(h, run, i, c, e);
    DeduplicatedUnderItsId(cfg, e, s);
    DiscardedOnlyAfterAcceptance(h, run, c);
    var x :| Accepted(after, x, s);
    assert Places(after, c) == 1;
  }
}
