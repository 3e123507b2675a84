/**
 Who can answer an approval card in which Feishu session: the originator read off the session id
 is the sender in a direct chat, and the chat itself in a group.
 */
module FeishuSessions {
  import opened Prelude
  import opened PyText
  import opened Approval
  import opened ApprovalHooks
  import EventCodec

  predicate Suffix(rest: string) {
    rest == "" || rest[0] == ':'
  }

  lemma SplitHead(s: string, rest: string, most: nat)
    requires ':' !in s && Suffix(rest) && most > 0
    ensures |Split(s + rest, ':', most)| >= 1 && Split(s + rest, ':', most)[0] == s
  {
    if rest == "" {
      assert s + rest == s;
      SplitWhole(s, ':', most);
    } else {
      assert s + rest == s + [':'] + rest[1..];
      SplitOff(s, ':', rest[1..], most);
    }
  }

  lemma SplitThird(a: string, b: string, c: string, rest: string, most: nat)
    requires ':' !in a && ':' !in b && ':' !in c && Suffix(rest) && most > 2
    ensures var parts := Split(a + [':'] + (b + [':'] + (c + rest)), ':', most);
            |parts| >= 3 && parts[0] == a && parts[2] == c
  {
    SplitOff(a, ':', b + [':'] + (c + rest), most);
    SplitOff(b, ':', c + rest, most - 1);
    SplitHead(c, rest, most - 2);
  }

  /** The originator of a session id `feishu:<app>:<third>`, with anything behind a further colon. */
  lemma OriginatorIsThird(head: string, app: string, third: string, rest: string, session: string)
    requires head == "feishu" && ':' !in app && ':' !in third && Suffix(rest)
    requires session == head + ":" + app + ":" + third + rest
    ensures Originator(session) == third
  {
    assert session == head + [':'] + (app + [':'] + (third + rest));
    assert ':' !in head;
    SplitThird(head, app, third, rest, |session|);
  }

  function Sender(e: EventCodec.Value): string {
    if EventCodec.SenderOpenId(e).Some? then EventCodec.SenderOpenId(e).value else ""
  }

  function Chat(e: EventCodec.Value): string {
    var id := EventCodec.MessageText(e, "chat_id");
    if id.Some? then id.value else ""
  }

  predicate Direct(e: EventCodec.Value) {
    EventCodec.MessageText(e, "chat_type") == Some("p2p")
  }

  lemma KeyParts(cfg: EventCodec.Config, e: EventCodec.Value, third: string) returns (rest: string)
    requires EventCodec.SessionKey(cfg, e).Some? && third == if Direct(e) then Sender(e) else Chat(e)
    ensures EventCodec.SessionKey(cfg, e).value == "feishu:" + cfg.appId + ":" + third + rest && Suffix(rest)
  {
    var head := "feishu:" + cfg.appId + ":";
    var thread := EventCodec.MessageText(e, "thread_id").value;
    if Direct(e) {
      rest := "";
    } else if cfg.scope == "user" {
      rest := ":" + Sender(e);
      assert head + third + ":" + Sender(e) == head + third + rest;
    } else if cfg.scope == "thread" && thread != "" {
      rest := ":thread:" + thread;
      assert head + third + ":thread:" + thread == head + third + rest;
    } else {
      rest := "";
    }
    assert rest == "" ==> head + third + rest == head + third;
  }

  lemma FeishuHead(app: string, third: string, rest: string)
    ensures "feishu:" + app + ":" + third + rest == "feishu" + ":" + app + ":" + third + rest
  {
    assert "feishu:" == "feishu" + ":";
  }

  /**
   A session grown from a Feishu session key has the sender as originator in a direct chat, and
   the chat itself in any other, whatever the scope.
   */
  lemma FeishuOriginator(cfg: EventCodec.Config, e: EventCodec.Value, suffix: string)
    requires EventCodec.SessionKey(cfg, e).Some? && Suffix(suffix)
    requires var third := if Direct(e) then Sender(e) else Chat(e); ':' !in cfg.appId && ':' !in third
    ensures Originator(EventCodec.SessionKey(cfg, e).value + suffix) == if Direct(e) then Sender(e) else Chat(e)
  {
    var third := if Direct(e) then Sender(e) else Chat(e);
    var rest := KeyParts(cfg, e, third);
    var session := EventCodec.SessionKey(cfg, e).value + suffix;
    FeishuHead(cfg.appId, third, rest);
    assert session == "feishu" + ":" + cfg.appId + ":" + third + (rest + suffix);
    assert rest + suffix == if rest == "" then suffix else rest + suffix;
    OriginatorIsThird("feishu", cfg.appId, third, rest + suffix, session);
  }

  /**
   Where the third part of the session id is nobody's user id, as in every group chat, no click of
   a named operator settles a call: it is never approved.
   */
  lemma GroupChatIsNeverApproved(key: Keyed, w: FeishuWait, people: set<string>)
    requires Originator(key.0) != NOBODY && Originator(key.0) !in people
    requires forall i | 0 <= i < |Deciding(w)| :: Deciding(w)[i].operator in people && Deciding(w)[i].operator != NOBODY
    ensures FeishuRuling(key, w) == Ruling(DENY, if w.posted then BY_TIMEOUT else BY_POST_FAILURE)
  {
    SettleIsLast(key, Card(key), Deciding(w));
    assert !Mentions(key, Originator(key.0), Deciding(w));
  }

  /** So for every session of every group chat, in all three scopes and after every rotation. */
  lemma GroupSessionIsNeverApproved(cfg: EventCodec.Config, e: EventCodec.Value, suffix: string, callId: string, w: FeishuWait, people: set<string>)
    requires EventCodec.SessionKey(cfg, e).Some? && Suffix(suffix) && !Direct(e)
    requires ':' !in cfg.appId && ':' !in Chat(e) && Chat(e) != "" && Chat(e) !in people
    requires forall i | 0 <= i < |Deciding(w)| :: Deciding(w)[i].operator in people && Deciding(w)[i].operator != NOBODY
    ensures FeishuRuling((EventCodec.SessionKey(cfg, e).value + suffix, callId), w)
         == Ruling(DENY, if w.posted then BY_TIMEOUT else BY_POST_FAILURE)
  {
    FeishuOriginator(cfg, e, suffix);
    GroupChatIsNeverApproved((EventCodec.SessionKey(cfg, e).value + suffix, callId), w, people);
  }
}
