/**
 How an inbound event travels between workers: it is flattened to a JSON tree
 before publishing (`serialize_event`) and rebuilt as a tree of attribute objects
 on the receiving side (`reconstruct_feishu_event`, fallback branch).
 */
module EventCodec {
  import opened Prelude

  /** A Python value as the codec tells them apart. `Obj` is anything with a `__dict__`. */
  datatype Value =
    | Null
    | Bool(b: bool)
    | Num(n: int)
    | Str(s: string)
    | List(items: seq<Value>)
    | Dict(fields: seq<Field>)
    | Obj(fields: seq<Field>)

  datatype Field = Field(name: string, value: Value)

  predicate Hidden(name: string) {
    name != "" && name[0] == '_'
  }

  /** `_to_jsonable`: dictionaries keep every key, objects drop underscore-led attributes. */
  function ToJsonable(v: Value): Value {
    match v
    case List(items) => List(JsonableItems(items))
    case Dict(fields) => Dict(JsonableFields(fields, false))
    case Obj(fields) => Dict(JsonableFields(fields, true))
    case _ => v
  }

  function JsonableItems(items: seq<Value>): seq<Value> {
    if items == [] then [] else [ToJsonable(items[0])] + JsonableItems(items[1..])
  }

  function JsonableFields(fields: seq<Field>, attrsOnly: bool): seq<Field> {
    if fields == [] then []
    else if attrsOnly && Hidden(fields[0].name) then JsonableFields(fields[1..], attrsOnly)
    else [Field(fields[0].name, ToJsonable(fields[0].value))] + JsonableFields(fields[1..], attrsOnly)
  }

  /** `_to_namespace`: every dictionary becomes an attribute object. */
  function ToNamespace(v: Value): Value {
    match v
    case List(items) => List(NamespaceItems(items))
    case Dict(fields) => Obj(NamespaceFields(fields))
    case _ => v
  }

  function NamespaceItems(items: seq<Value>): seq<Value> {
    if items == [] then [] else [ToNamespace(items[0])] + NamespaceItems(items[1..])
  }

  function NamespaceFields(fields: seq<Field>): seq<Field> {
    if fields == [] then []
    else [Field(fields[0].name, ToNamespace(fields[0].value))] + NamespaceFields(fields[1..])
  }

  /** What the next worker sees of an event this worker saw as `v`. */
  function Rebuild(v: Value): Value {
    ToNamespace(ToJsonable(v))
  }

  // ---------------------------------------------------------------- JSON trees

  /** A value without attribute objects: what `json.loads` can produce. */
  predicate IsJson(v: Value) {
    match v
    case List(items) => forall x | x in items :: IsJson(x)
    case Dict(fields) => forall f | f in fields :: IsJson(f.value)
    case Obj(_) => false
    case _ => true
  }

  /** No key at any depth starts with an underscore. */
  predicate NoHiddenKeys(v: Value) {
    match v
    case List(items) => forall x | x in items :: NoHiddenKeys(x)
    case Dict(fields) => forall f | f in fields :: !Hidden(f.name) && NoHiddenKeys(f.value)
    case Obj(fields) => forall f | f in fields :: !Hidden(f.name) && NoHiddenKeys(f.value)
    case _ => true
  }

  /** Serialising always yields a JSON tree. */
  lemma {:induction false} JsonableIsJson(v: Value)
    ensures IsJson(ToJsonable(v))
    decreases v
  {
    match v
    case List(items) => JsonableItemsAreJson(items);
    case Dict(fields) => JsonableFieldsAreJson(fields, false);
    case Obj(fields) => JsonableFieldsAreJson(fields, true);
    case _ =>
  }

  lemma {:induction false} JsonableItemsAreJson(items: seq<Value>)
    ensures forall x | x in JsonableItems(items) :: IsJson(x)
    decreases items
  {
    if items != [] {
      JsonableIsJson(items[0]);
      JsonableItemsAreJson(items[1..]);
    }
  }

  lemma {:induction false} JsonableFieldsAreJson(fields: seq<Field>, attrsOnly: bool)
    ensures forall f | f in JsonableFields(fields, attrsOnly) :: IsJson(f.value)
    decreases fields
  {
    if fields != [] {
      JsonableIsJson(fields[0].value);
      JsonableFieldsAreJson(fields[1..], attrsOnly);
    }
  }

  /**
   The round trip of the forwarding codec: rebuilding a JSON tree and serialising
   it again gives the tree back exactly when it has no underscore-led key. The size of
   what comes back never grows, which is what makes the "only if" half go through.
   */
  lemma {:induction false} JsonRoundTrip(j: Value)
    requires IsJson(j)
    ensures ToJsonable(ToNamespace(j)) == j <==> NoHiddenKeys(j)
    decreases j
  {
    match j
    case List(items) => ItemsRoundTrip(items);
    case Dict(fields) => FieldsRoundTrip(fields);
    case _ =>
  }

  lemma {:induction false} ItemsRoundTrip(items: seq<Value>)
    requires forall x | x in items :: IsJson(x)
    ensures JsonableItems(NamespaceItems(items)) == items <==> forall x | x in items :: NoHiddenKeys(x)
    decreases items
  {
    if items != [] {
      var rest := items[1..];
      JsonRoundTrip(items[0]);
      ItemsRoundTrip(rest);
      var again := JsonableItems(NamespaceItems(items));
      assert NamespaceItems(items)[1..] == NamespaceItems(rest);
      assert again == [ToJsonable(ToNamespace(items[0]))] + JsonableItems(NamespaceItems(rest));
      assert items == [items[0]] + rest;
      assert again[1..] == JsonableItems(NamespaceItems(rest));
      assert forall x :: x in items <==> x == items[0] || x in rest;
    }
  }

  lemma {:induction false} FieldsRoundTrip(fields: seq<Field>)
    requires forall f | f in fields :: IsJson(f.value)
    ensures |JsonableFields(NamespaceFields(fields), true)| <= |fields|
    ensures JsonableFields(NamespaceFields(fields), true) == fields
       <==> forall f | f in fields :: !Hidden(f.name) && NoHiddenKeys(f.value)
    decreases fields
  {
    if fields != [] {
      var head, rest := fields[0], fields[1..];
      JsonRoundTrip(head.value);
      FieldsRoundTrip(rest);
      var again := JsonableFields(NamespaceFields(fields), true);
      assert NamespaceFields(fields)[1..] == NamespaceFields(rest);
      assert fields == [head] + rest;
      assert forall f :: f in fields <==> f == head || f in rest;
      if !Hidden(head.name) {
        assert again[1..] == JsonableFields(NamespaceFields(rest), true);
      }
    }
  }

  /**
   One hop already strips every hidden key, so from the first forwarding on the payload
   never changes again, however many workers it visits.
   */
  lemma PayloadSettles(j: Value)
    requires IsJson(j)
    ensures ToJsonable(ToNamespace(ToJsonable(ToNamespace(j)))) == ToJsonable(ToNamespace(j))
  {
    HopStripsHiddenKeys(j);
    JsonableIsJson(ToNamespace(j));
    JsonRoundTrip(ToJsonable(ToNamespace(j)));
  }

  lemma {:induction false} HopStripsHiddenKeys(j: Value)
    requires IsJson(j)
    ensures NoHiddenKeys(ToJsonable(ToNamespace(j)))
    decreases j
  {
    match j
    case List(items) => ItemsStripped(items);
    case Dict(fields) => FieldsStripped(fields);
    case _ =>
  }

  lemma {:induction false} ItemsStripped(items: seq<Value>)
    requires forall x | x in items :: IsJson(x)
    ensures forall x | x in JsonableItems(NamespaceItems(items)) :: NoHiddenKeys(x)
    decreases items
  {
    if items != [] {
      HopStripsHiddenKeys(items[0]);
      ItemsStripped(items[1..]);
      assert NamespaceItems(items)[1..] == NamespaceItems(items[1..]);
    }
  }

  lemma {:induction false} FieldsStripped(fields: seq<Field>)
    requires forall f | f in fields :: IsJson(f.value)
    ensures forall f | f in JsonableFields(NamespaceFields(fields), true) :: !Hidden(f.name) && NoHiddenKeys(f.value)
    decreases fields
  {
    if fields != [] {
      HopStripsHiddenKeys(fields[0].value);
      FieldsStripped(fields[1..]);
      assert NamespaceFields(fields)[1..] == NamespaceFields(fields[1..]);
    }
  }

  // ---------------------------------------------------------------- attribute access

  /** `obj.name`; `None` stands for the attribute error. */
  function Attr(v: Value, name: string): Option<Value> {
    if v.Obj? then Lookup(v.fields, name) else None
  }

  function Lookup(fields: seq<Field>, name: string): Option<Value> {
    if fields == [] then None
    else if fields[0].name == name then Some(fields[0].value)
    else Lookup(fields[1..], name)
  }

  function AttrOf(v: Option<Value>, name: string): Option<Value> {
    if v.Some? then Attr(v.value, name) else None
  }

  /** `x or ""` for a field that is text or absent. */
  function TextOr(v: Option<Value>): Option<string> {
    match v
    case Some(Null) => Some("")
    case Some(Str(s)) => Some(s)
    case _ => None
  }

  /** Rebuilding commutes with reading any attribute that is not underscore-led. */
  lemma {:induction false} RebuildAttr(v: Value, name: string)
    requires v.Obj? && !Hidden(name)
    ensures Attr(Rebuild(v), name)
         == (match Attr(v, name) case None => None case Some(x) => Some(Rebuild(x)))
  {
    RebuildLookup(v.fields, name);
  }

  lemma {:induction false} RebuildLookup(fields: seq<Field>, name: string)
    requires !Hidden(name)
    ensures Lookup(NamespaceFields(JsonableFields(fields, true)), name)
         == (match Lookup(fields, name) case None => None case Some(x) => Some(Rebuild(x)))
  {
    if fields != [] {
      RebuildLookup(fields[1..], name);
      if !Hidden(fields[0].name) {
        var kept := JsonableFields(fields, true);
        assert kept[1..] == JsonableFields(fields[1..], true);
        assert NamespaceFields(kept)[1..] == NamespaceFields(kept[1..]);
      }
    }
  }

  /**
   What serialising keeps of a value, member by member: everything, except that an attribute object
   becomes a dictionary without its underscore-led attributes. A dictionary keeps all its keys.
   */
  lemma JsonableKeeps(v: Value, name: string)
    ensures v.Dict? ==> ToJsonable(v).Dict? && Lookup(ToJsonable(v).fields, name) == Mapped(Lookup(v.fields, name))
    ensures v.Obj? ==> ToJsonable(v).Dict?
                       && Lookup(ToJsonable(v).fields, name) == if Hidden(name) then None else Mapped(Lookup(v.fields, name))
    ensures v.List? ==> ToJsonable(v).List? && |ToJsonable(v).items| == |v.items|
                        && forall i | 0 <= i < |v.items| :: ToJsonable(v).items[i] == ToJsonable(v.items[i])
    ensures !v.List? && !v.Dict? && !v.Obj? ==> ToJsonable(v) == v
  {
    match v
    case List(items) => ItemsKept(items);
    case Dict(fields) => FieldsKept(fields, false, name);
    case Obj(fields) => FieldsKept(fields, true, name);
    case _ =>
  }

  function Mapped(v: Option<Value>): Option<Value> {
    match v case None => None case Some(x) => Some(ToJsonable(x))
  }

  lemma {:induction false} ItemsKept(items: seq<Value>)
    ensures |JsonableItems(items)| == |items|
    ensures forall i | 0 <= i < |items| :: JsonableItems(items)[i] == ToJsonable(items[i])
  {
    if items != [] {
      ItemsKept(items[1..]);
    }
  }

  lemma {:induction false} FieldsKept(fields: seq<Field>, attrsOnly: bool, name: string)
    ensures Lookup(JsonableFields(fields, attrsOnly), name)
         == if attrsOnly && Hidden(name) then None else Mapped(Lookup(fields, name))
  {
    if fields != [] {
      FieldsKept(fields[1..], attrsOnly, name);
      if !(attrsOnly && Hidden(fields[0].name)) {
        assert JsonableFields(fields, attrsOnly)[1..] == JsonableFields(fields[1..], attrsOnly);
      }
    }
  }

  // ---------------------------------------------------------------- what routing reads

  datatype Config = Config(appId: string, scope: string, botOpenId: string)

  function MessageOf(e: Value): Option<Value> {
    AttrOf(Attr(e, "event"), "message")
  }

  function MessageText(e: Value, name: string): Option<string> {
    TextOr(AttrOf(MessageOf(e), name))
  }

  /** `(sender.sender_id.open_id or "") if sender and sender.sender_id else ""`. */
  function SenderOpenId(e: Value): Option<string> {
    var sender := AttrOf(Attr(e, "event"), "sender");
    match sender
    case None => None
    case Some(Null) => Some("")
    case Some(s) =>
      var sid := Attr(s, "sender_id");
      match sid
      case None => None
      case Some(Null) => Some("")
      case Some(i) => TextOr(Attr(i, "open_id"))
  }

  /** `build_session_key`; `None` when a needed attribute is missing. */
  function SessionKey(cfg: Config, e: Value): Option<string> {
    var chatType := MessageText(e, "chat_type");
    var chatId := MessageText(e, "chat_id");
    var openId := SenderOpenId(e);
    var threadId := MessageText(e, "thread_id");
    if chatType.None? || chatId.None? || openId.None? || threadId.None? then None
    else
      var head := "feishu:" + cfg.appId + ":";
      if chatType.value == "p2p" then Some(head + openId.value)
      else if cfg.scope == "user" then Some(head + chatId.value + ":" + openId.value)
      else if cfg.scope == "thread" && threadId.value != "" then
        Some(head + chatId.value + ":thread:" + threadId.value)
      else Some(head + chatId.value)
  }

  function MessageId(e: Value): Option<string> {
    MessageText(e, "message_id")
  }

  /** `m.id and m.id.open_id == bot_open_id`. */
  predicate NamesBot(m: Value, bot: string) {
    var id := Attr(m, "id");
    id.Some? && Attr(id.value, "open_id") == Some(Str(bot))
  }

  predicate BotMentioned(e: Value, bot: string) {
    var mentions := AttrOf(MessageOf(e), "mentions");
    mentions.Some? && mentions.value.List? && exists m | m in mentions.value.items :: NamesBot(m, bot)
  }

  /** The event reaches the router: it is addressed to the bot and has a key and an id. */
  predicate Routable(cfg: Config, e: Value) {
    && SessionKey(cfg, e).Some?
    && MessageId(e).Some?
    && (MessageText(e, "chat_type") == Some("group") ==> BotMentioned(e, cfg.botOpenId))
  }

  lemma RebuildMessage(e: Value)
    requires MessageOf(e).Some?
    ensures MessageOf(Rebuild(e)) == Some(Rebuild(MessageOf(e).value))
  {
    RebuildAttr(e, "event");
    RebuildAttr(Attr(e, "event").value, "message");
  }

  lemma RebuildMessageText(e: Value, name: string)
    requires !Hidden(name) && MessageText(e, name).Some?
    ensures MessageText(Rebuild(e), name) == MessageText(e, name)
  {
    RebuildMessage(e);
    RebuildAttr(MessageOf(e).value, name);
  }

  lemma RebuildSender(e: Value)
    requires SenderOpenId(e).Some?
    ensures SenderOpenId(Rebuild(e)) == SenderOpenId(e)
  {
    RebuildAttr(e, "event");
    var event := Attr(e, "event").value;
    RebuildAttr(event, "sender");
    var sender := Attr(event, "sender").value;
    if sender.Obj? {
      RebuildAttr(sender, "sender_id");
      var sid := Attr(sender, "sender_id").value;
      if sid.Obj? {
        RebuildAttr(sid, "open_id");
      }
    }
  }

  lemma {:induction false} RebuildItem(items: seq<Value>, x: Value)
    requires x in items
    ensures Rebuild(x) in NamespaceItems(JsonableItems(items))
  {
    var kept := JsonableItems(items);
    assert kept[1..] == JsonableItems(items[1..]);
    assert NamespaceItems(kept)[1..] == NamespaceItems(kept[1..]);
    if x != items[0] {
      RebuildItem(items[1..], x);
    }
  }

  lemma RebuildMention(e: Value, bot: string)
    requires BotMentioned(e, bot)
    ensures BotMentioned(Rebuild(e), bot)
  {
    RebuildMessage(e);
    var message := MessageOf(e).value;
    RebuildAttr(message, "mentions");
    var items := Attr(message, "mentions").value.items;
    var m :| m in items && NamesBot(m, bot);
    RebuildItem(items, m);
    RebuildAttr(m, "id");
    RebuildAttr(Attr(m, "id").value, "open_id");
    assert NamesBot(Rebuild(m), bot);
  }

  /**
   Forwarding loses nothing routing depends on: whatever hidden or unknown attributes the
   event carries, the next worker admits it too and computes the same session key and id.
   */
  lemma RebuildKeepsRouting(cfg: Config, e: Value)
    requires Routable(cfg, e)
    ensures Routable(cfg, Rebuild(e))
    ensures SessionKey(cfg, Rebuild(e)) == SessionKey(cfg, e)
    ensures MessageId(Rebuild(e)) == MessageId(e)
  {
    RebuildMessageText(e, "chat_type");
    RebuildMessageText(e, "chat_id");
    RebuildMessageText(e, "thread_id");
    RebuildMessageText(e, "message_id");
    RebuildSender(e);
    if MessageText(e, "chat_type") == Some("group") {
      RebuildMention(e, cfg.botOpenId);
    }
  }

  /** Every session key lives in the "feishu:" namespace, apart from web connections. */
  lemma SessionKeyNamespace(cfg: Config, e: Value, user: string)
    requires SessionKey(cfg, e).Some?
    ensures StartsWith(SessionKey(cfg, e).value, "feishu:")
    ensures SessionKey(cfg, e).value != "web:" + user
  {
    var key := SessionKey(cfg, e).value;
    var head := "feishu:" + cfg.appId + ":";
    assert head[0] == 'f' && head[..7] == "feishu:";
    assert key[..|head|] == head;
    assert key[..7] == key[..|head|][..7];
    assert ("web:" + user)[0] == 'w';
  }
}
