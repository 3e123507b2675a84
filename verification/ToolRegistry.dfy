/**
 Tool names. A tool imported from an MCP server is registered as `server:tool` but offered
 to the model as `server__tool`; `get` undoes the rewrite, plain membership does not.
 */
module ToolRegistry {
  import opened Prelude

  datatype Tier = ReadOnly | Approval | Yolo
  datatype ToolClass = Read | MemoryWriteSafe | Write

  /** `forced` and `server` are read from the server configuration of an imported tool. */
  datatype Tool = Tool(name: string, toolClass: ToolClass, imported: bool, forced: Option<Tier>, server: string)

  type Registry = map<string, Tool>

  predicate DunderAt(s: string, i: nat) {
    i + 1 < |s| && s[i] == '_' && s[i+1] == '_'
  }

  /** `s.find("__")`. */
  function FirstDunder(s: string, from: nat): (k: Option<nat>)
    ensures k.Some? ==> from <= k.value && DunderAt(s, k.value) && forall j | from <= j < k.value :: !DunderAt(s, j)
    ensures k.None? ==> forall j | from <= j :: !DunderAt(s, j)
    decreases |s| - from
  {
    if from + 1 >= |s| then None
    else if DunderAt(s, from) then Some(from)
    else FirstDunder(s, from + 1)
  }

  /** `name.replace(":", "__")`. */
  function ColonsToDunders(s: string): string {
    if s == "" then "" else (if s[0] == ':' then "__" else [s[0]]) + ColonsToDunders(s[1..])
  }

  /** The name a tool is offered under. */
  function LlmName(t: Tool): string {
    ColonsToDunders(t.name)
  }

  /** `ToolRegistry.get`. */
  function Get(r: Registry, name: string): Option<Tool> {
    if name == "" then None
    else if name in r then Some(r[name])
    else
      match FirstDunder(name, 0)
      case None => None
      case Some(k) =>
        var canonical := name[..k] + ":" + name[k+2..];
        if canonical in r then Some(r[canonical]) else None
  }

  /** `name not in registry`, the test of the unknown-tool detector. */
  predicate CountsAsUnknown(r: Registry, name: string) {
    name != "" && name !in r
  }

  predicate ServerPart(name: string, k: nat) {
    k < |name| && name[k] == ':' && (forall j | 0 <= j < |name| && j != k :: name[j] != ':')
  }

  /** The server part of an imported tool's canonical name is free of double underscores. */
  ghost predicate CleanServer(name: string, k: nat) {
    ServerPart(name, k) && forall j | 0 <= j :: !DunderAt(name[..k], j)
  }

  /** What `register` admits. */
  ghost predicate Admitted(t: Tool) {
    if t.imported then
      exists k: nat :: CleanServer(t.name, k)
    else
      && (forall j | 0 <= j < |t.name| :: t.name[j] != ':')
      && (forall j | 0 <= j :: !DunderAt(t.name, j))
  }

  /** `ToolRegistry.register`; `None` stands for the ValueError. */
  ghost function Register(r: Registry, t: Tool): Option<Registry> {
    if t.name in r || !Admitted(t) then None else Some(r[t.name := t])
  }

  ghost predicate Registered(r: Registry) {
    forall n | n in r :: r[n].name == n && Admitted(r[n])
  }

  lemma {:induction false} NoColonsNoChange(s: string)
    requires forall j | 0 <= j < |s| :: s[j] != ':'
    ensures ColonsToDunders(s) == s
  {
    if s != "" {
      NoColonsNoChange(s[1..]);
    }
  }

  lemma {:induction false} OneColon(s: string, k: nat)
    requires ServerPart(s, k)
    ensures ColonsToDunders(s) == s[..k] + "__" + s[k+1..]
  {
    if k == 0 {
      NoColonsNoChange(s[1..]);
    } else {
      assert ServerPart(s[1..], k - 1);
      OneColon(s[1..], k - 1);
      assert s[1..][..k-1] == s[1..k] && s[1..][k..] == s[k+1..];
      assert s[..k] == [s[0]] + s[1..k];
    }
  }

  /** Where the first double underscore of an offered name sits. */
  lemma OfferedDunder(s: string, k: nat)
    requires CleanServer(s, k)
    ensures var offered := s[..k] + "__" + s[k+1..];
            FirstDunder(offered, 0) == Some(if k > 0 && s[k-1] == '_' then k - 1 else k)
  {
    var offered, at := s[..k] + "__" + s[k+1..], if k > 0 && s[k-1] == '_' then k - 1 else k;
    assert DunderAt(offered, at);
    forall j | 0 <= j < at
      ensures !DunderAt(offered, j)
    {
      assert !DunderAt(s[..k], j);
    }
    assert FirstDunder(offered, 0).Some?;
  }

  predicate EndsInUnderscore(name: string, k: nat) {
    0 < k <= |name| && name[k-1] == '_'
  }

  lemma OfferedOf(r: Registry, n: string) returns (k: nat)
    requires Registered(r) && n in r && r[n].imported
    ensures CleanServer(n, k)
    ensures LlmName(r[n]) == n[..k] + "__" + n[k+1..]
    ensures LlmName(r[n]) !in r && LlmName(r[n]) != ""
  {
    k :| CleanServer(n, k);
    OneColon(n, k);
    var offered := n[..k] + "__" + n[k+1..];
    assert DunderAt(offered, k);
    forall j | 0 <= j < |offered|
      ensures offered[j] != ':'
    {
      if j < k {
        assert offered[j] == n[j];
      } else if j >= k + 2 {
        assert offered[j] == n[j-1];
      }
    }
    OfferedIsNotRegistered(r, offered, k);
  }

  lemma OfferedIsNotRegistered(r: Registry, offered: string, k: nat)
    requires Registered(r) && DunderAt(offered, k)
    requires forall j | 0 <= j < |offered| :: offered[j] != ':'
    ensures offered !in r
  {
    assert forall i: nat :: !CleanServer(offered, i);
  }

  lemma ImportedResolves(r: Registry, n: string, k: nat)
    requires Registered(r) && n in r && CleanServer(n, k)
    requires LlmName(r[n]) == n[..k] + "__" + n[k+1..] && LlmName(r[n]) !in r && LlmName(r[n]) != ""
    ensures Get(r, LlmName(r[n])) == Some(r[n]) <==> !EndsInUnderscore(n, k)
  {
    var offered := LlmName(r[n]);
    OfferedDunder(n, k);
    if EndsInUnderscore(n, k) {
      var canonical := offered[..k-1] + ":" + offered[k+1..];
      assert canonical[k-1] == ':' && n[k-1] == '_';
      assert Get(r, offered) == if canonical in r then Some(r[canonical]) else None;
    } else {
      assert offered[..k] + ":" + offered[k+2..] == n;
    }
  }

  /**
   `get` finds a tool again under the name the model was offered, unless the tool has no name
   or is imported from a server whose name ends in an underscore: there the rewrite is undone
   one character too early.
   */
  lemma OfferedNameResolves(r: Registry, n: string)
    requires Registered(r) && n in r
    ensures Get(r, LlmName(r[n])) == Some(r[n])
       <==> n != "" && !(r[n].imported && exists k: nat :: ServerPart(n, k) && EndsInUnderscore(n, k))
  {
    if r[n].imported {
      var k := OfferedOf(r, n);
      ImportedResolves(r, n, k);
      assert forall i: nat | ServerPart(n, i) :: i == k;
    } else {
      NoColonsNoChange(n);
    }
  }

  /** `m` and `n` differ in the side of the colon on which an underscore stands. */
  predicate Shifted(m: string, n: string, k: nat) {
    && 0 < k < |m| && |m| == |n| && m[k-1] == '_' && m[k] == ':' && n[k-1] == ':' && n[k] == '_'
    && m[..k-1] == n[..k-1] && m[k+1..] == n[k+1..]
  }

  lemma ShiftedOffersAlike(m: string, n: string, k: nat, l: nat)
    requires CleanServer(m, k) && CleanServer(n, l) && l < k
    ensures m[..k] + "__" + m[k+1..] == n[..l] + "__" + n[l+1..] <==> Shifted(m, n, k)
  {
    var a, b := m[..k] + "__" + m[k+1..], n[..l] + "__" + n[l+1..];
    assert forall i | 0 <= i < k :: a[i] == m[i];
    if a == b {
      NoDunderBefore(m, k, l);
      assert b[l] == '_' && b[l+1] == '_' && a[l] == m[l];
      assert l == k - 1;
      assert m[..k-1] == a[..k-1] && n[..k-1] == b[..k-1];
      assert m[k+1..] == a[k+2..] && b[k+2..] == n[k+1..];
      assert a[k-1] == m[k-1] && b[k-1] == '_' && a[k+1] == '_' && b[k+1] == n[k];
    }
    if Shifted(m, n, k) {
      assert l == k - 1;
      var p, q := m[..k-1], m[k+1..];
      assert m[..k] == p + "_" && n[l+1..] == "_" + q && n[..l] == p;
      assert p + "_" + "__" + q == p + "__" + ("_" + q);
    }
  }

  /**
   Two registered tools are offered to the model under one name exactly when they differ in the
   side of the colon on which an underscore stands; a call under that name then runs the one
   whose server does not end in it.
   */
  lemma OfferedNamesCollide(r: Registry, m: string, n: string)
    requires Registered(r) && m in r && n in r && m != n
    ensures LlmName(r[m]) == LlmName(r[n])
       <==> r[m].imported && r[n].imported && exists k: nat :: Shifted(m, n, k) || Shifted(n, m, k)
    ensures r[m].imported && r[n].imported && (exists k: nat :: Shifted(m, n, k)) ==> Get(r, LlmName(r[m])) == Some(r[n])
  {
    if r[m].imported && r[n].imported {
      BothImportedCollide(r, m, n);
    } else if r[m].imported {
      var k := OfferedOf(r, m);
      NoColonsNoChange(n);
    } else if r[n].imported {
      var l := OfferedOf(r, n);
      NoColonsNoChange(m);
    } else {
      NoColonsNoChange(m);
      NoColonsNoChange(n);
    }
  }

  lemma BothImportedCollide(r: Registry, m: string, n: string)
    requires Registered(r) && m in r && n in r && m != n && r[m].imported && r[n].imported
    ensures LlmName(r[m]) == LlmName(r[n]) <==> exists k: nat :: Shifted(m, n, k) || Shifted(n, m, k)
    ensures (exists k: nat :: Shifted(m, n, k)) ==> Get(r, LlmName(r[m])) == Some(r[n])
  {
    var k := OfferedOf(r, m);
    var l := OfferedOf(r, n);
    ShiftedSits(m, n, k, l);
    ShiftedSits(n, m, l, k);
    if l < k {
      ShiftedOffersAlike(m, n, k, l);
      if Shifted(m, n, k) {
        ShiftedResolves(r, m, n, k, l);
      }
    } else if k < l {
      ShiftedOffersAlike(n, m, l, k);
    } else {
      SameColonSameName(m, n, k);
    }
  }

  lemma ShiftedSits(m: string, n: string, k: nat, l: nat)
    requires CleanServer(m, k) && CleanServer(n, l)
    ensures forall i: nat | Shifted(m, n, i) :: i == k && l == k - 1
  {
  }

  lemma SameColonSameName(m: string, n: string, k: nat)
    requires CleanServer(m, k) && CleanServer(n, k)
    ensures m[..k] + "__" + m[k+1..] == n[..k] + "__" + n[k+1..] ==> m == n
  {
    var a, b := m[..k] + "__" + m[k+1..], n[..k] + "__" + n[k+1..];
    assert a[..k] == m[..k] && b[..k] == n[..k] && a[k+2..] == m[k+1..] && b[k+2..] == n[k+1..];
    assert m == m[..k] + ":" + m[k+1..] && n == n[..k] + ":" + n[k+1..];
  }

  lemma ShiftedResolves(r: Registry, m: string, n: string, k: nat, l: nat)
    requires Registered(r) && m in r && n in r && CleanServer(m, k) && CleanServer(n, l) && l == k - 1 && Shifted(m, n, k)
    requires LlmName(r[n]) == n[..l] + "__" + n[l+1..] && LlmName(r[n]) !in r && LlmName(r[n]) != ""
    requires LlmName(r[m]) == LlmName(r[n])
    ensures Get(r, LlmName(r[m])) == Some(r[n])
  {
    NoDunderBefore(m, k, k - 2);
    assert l > 0 ==> n[l-1] == n[..l][l-1] == m[..k-1][l-1] == m[k-2];
    ImportedResolves(r, n, l);
  }

  lemma NoDunderBefore(m: string, k: nat, j: int)
    requires CleanServer(m, k)
    ensures 0 <= j && j + 1 < k ==> m[j] != '_' || m[j+1] != '_'
  {
    if 0 <= j && j + 1 < k {
      assert !DunderAt(m[..k], j);
    }
  }

  /** Both can be registered, one after the other; the first is then never reached. */
  lemma CollisionIsRegistered(class1: ToolClass, class2: ToolClass)
    ensures var a, b := Tool("s_:x", class1, true, None, "s_"), Tool("s:_x", class2, true, None, "s");
            && Register(map[], a) == Some(map[a.name := a])
            && Get(map[a.name := a], LlmName(a)) == None
            && Register(map[a.name := a], b) == Some(map[a.name := a, b.name := b])
            && Get(map[a.name := a, b.name := b], LlmName(a)) == Some(b)
  {
    var a, b := Tool("s_:x", class1, true, None, "s_"), Tool("s:_x", class2, true, None, "s");
    assert CleanServer(a.name, 2) && CleanServer(b.name, 1);
    OneColon(a.name, 2);
    assert LlmName(a) == "s___x";
    assert DunderAt("s___x", 1) && FirstDunder("s___x", 0) == Some(1);
    assert "s___x"[..1] + ":" + "s___x"[3..] == b.name;
  }

  /** The detector takes every call of an imported tool, under its offered name, for an unknown one. */
  lemma ImportedToolsCountAsUnknown(r: Registry, n: string)
    requires Registered(r) && n in r
    ensures CountsAsUnknown(r, LlmName(r[n])) <==> r[n].imported
  {
    if r[n].imported {
      var k := OfferedOf(r, n);
    } else {
      NoColonsNoChange(n);
    }
  }

  lemma RegisterKeepsRegistered(r: Registry, t: Tool)
    requires Registered(r)
    ensures Register(r, t).Some? ==> Registered(Register(r, t).value)
    ensures Registered(r - {t.name})
  {
  }
}
