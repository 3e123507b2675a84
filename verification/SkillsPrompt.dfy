/** The skills catalogue in the system prompt: as many skills as fit, and an honest count of them. */
module SkillsPrompt {
  import opened PyText
  import opened XmlEscape

  datatype Skill = Skill(name: string, description: string, path: string)

  /** The two fixed introductions; neither contains markup. */
  datatype Wording = Wording(full: string, compact: string)

  ghost predicate Plain(w: Wording) {
    '<' !in w.full && '<' !in w.compact
  }

  // ---- Rendering ----

  /** `"\n".join(parts[:n])`. */
  function Join(parts: seq<string>, n: nat): string
    requires n <= |parts|
  {
    if n == 0 then "" else if n == 1 then parts[0] else Join(parts, n - 1) + "\n" + parts[n-1]
  }

  function Lines(parts: seq<string>): string {
    Join(parts, |parts|)
  }

  function Element(tag: string, value: string): string {
    "    <" + tag + ">" + Escape(value) + "</" + tag + ">"
  }

  function RenderFull(s: Skill): string {
    Lines(["  <skill>", Element("name", s.name), Element("description", s.description), Element("location", s.path), "  </skill>"])
  }

  function RenderCompact(s: Skill): string {
    Lines(["  <skill>", Element("name", s.name), Element("location", s.path), "  </skill>"])
  }

  function Parts(preamble: string, skills: seq<Skill>, render: Skill -> string, n: nat): seq<string>
    requires n <= |skills|
  {
    if n == 0 then [preamble, "", "<available_skills>"] else Parts(preamble, skills, render, n - 1) + [render(skills[n-1])]
  }

  /** The catalogue of the first `n` skills. */
  function Format(preamble: string, skills: seq<Skill>, render: Skill -> string, n: nat): string
    requires n <= |skills|
  {
    if n == 0 then "" else Lines(Parts(preamble, skills, render, n) + ["</available_skills>"])
  }

  // ---- Counting "<skill>" ----

  /** The text "<skill>" stands at position `i`. */
  predicate TagAt(s: string, i: nat) {
    && i + 7 <= |s|
    && s[i] == '<' && s[i+1] == 's' && s[i+2] == 'k' && s[i+3] == 'i' && s[i+4] == 'l' && s[i+5] == 'l' && s[i+6] == '>'
  }

  lemma TagIsTheText(s: string, i: nat)
    ensures TagAt(s, i) <==> i + 7 <= |s| && s[i..i+7] == "<skill>"
  {
    if i + 7 <= |s| {
      var t := s[i..i+7];
      assert t[0] == s[i] && t[1] == s[i+1] && t[2] == s[i+2] && t[3] == s[i+3] && t[4] == s[i+4] && t[5] == s[i+5] && t[6] == s[i+6];
    }
  }

  /** `s.count("<skill>")`, counting on from position `i`. */
  function CountFrom(s: string, i: nat): nat
    decreases |s| - i
  {
    if i >= |s| then 0 else if TagAt(s, i) then 1 + CountFrom(s, i + 7) else CountFrom(s, i + 1)
  }

  /** How many of the first `n` positions start the tag. */
  function Tags(s: string, n: nat): nat {
    if n == 0 then 0 else Tags(s, n - 1) + if TagAt(s, n - 1) then 1 else 0
  }

  function AllTags(s: string): nat {
    Tags(s, |s|)
  }

  lemma TagsDoNotOverlap(s: string, i: nat, j: nat)
    requires TagAt(s, i) && i < j < i + 7
    ensures !TagAt(s, j)
  {
  }

  lemma {:induction false} CountIsTags(s: string, i: nat)
    requires i <= |s|
    ensures Tags(s, i) + CountFrom(s, i) == AllTags(s)
    decreases |s| - i
  {
    if i < |s| {
      if TagAt(s, i) {
        TagsSkip(s, i, 7);
        CountIsTags(s, i + 7);
      } else {
        CountIsTags(s, i + 1);
      }
    }
  }

  lemma {:induction false} TagsSkip(s: string, i: nat, k: nat)
    requires TagAt(s, i) && 1 <= k <= 7
    ensures Tags(s, i + k) == Tags(s, i) + 1
  {
    if k > 1 {
      TagsSkip(s, i, k - 1);
      TagsDoNotOverlap(s, i, i + k - 1);
    }
  }

  lemma {:induction false} TagsBefore(a: string, b: string, n: nat)
    requires n <= |a|
    ensures Tags(a + "\n" + b, n) == Tags(a, n)
  {
    if n > 0 {
      TagsBefore(a, b, n - 1);
      assert (a + "\n" + b)[|a|] == '\n';
    }
  }

  lemma {:induction false} TagsBehind(a: string, b: string, n: nat)
    requires n <= |b|
    ensures Tags(a + "\n" + b, |a| + 1 + n) == Tags(a, |a|) + Tags(b, n)
  {
    var s := a + "\n" + b;
    if n == 0 {
      TagsBefore(a, b, |a|);
      assert s[|a|] == '\n';
    } else {
      TagsBehind(a, b, n - 1);
      assert forall k | n - 1 <= k < |b| :: s[|a| + 1 + k] == b[k];
    }
  }

  /** A line break keeps tags apart. */
  lemma TagsAcross(a: string, b: string)
    ensures AllTags(a + "\n" + b) == AllTags(a) + AllTags(b)
  {
    TagsBehind(a, b, |b|);
  }

  /** No opening of a tag is followed by the letter of "skill". */
  predicate Harmless(s: string) {
    forall i | 0 <= i < |s| && s[i] == '<' :: i + 1 < |s| && s[i+1] != 's'
  }

  lemma HarmlessConcat(a: string, b: string)
    requires Harmless(a) && Harmless(b)
    ensures Harmless(a + b)
  {
    var s := a + b;
    forall i | 0 <= i < |s| && s[i] == '<'
      ensures i + 1 < |s| && s[i+1] != 's'
    {
      if i < |a| { assert a[i] == '<'; } else { assert b[i-|a|] == '<'; }
    }
  }

  lemma PlainIsHarmless(s: string)
    requires '<' !in s
    ensures Harmless(s)
  {
    assert forall i | 0 <= i < |s| :: s[i] in s;
  }

  lemma {:induction false} HarmlessHasNoTags(s: string, n: nat)
    requires Harmless(s)
    ensures Tags(s, n) == 0
  {
    if n > 0 {
      HarmlessHasNoTags(s, n - 1);
    }
  }

  lemma ElementIsHarmless(tag: string, value: string)
    requires '<' !in tag && tag != "" && tag[0] != 's'
    ensures AllTags(Element(tag, value)) == 0
  {
    EscapedIsPlain(value);
    var opening, closing := "    <" + tag, "</" + tag;
    assert Harmless(opening) by {
      assert opening[4] == '<' && opening[5] == tag[0];
    }
    assert Harmless(closing) by {
      assert closing[0] == '<' && closing[1] == '/';
    }
    PlainIsHarmless(Escape(value));
    PlainIsHarmless(">");
    HarmlessConcat(opening, ">");
    HarmlessConcat(opening + ">", Escape(value));
    HarmlessConcat(opening + ">" + Escape(value), closing);
    HarmlessConcat(opening + ">" + Escape(value) + closing, ">");
    var e := opening + ">" + Escape(value) + closing + ">";
    assert Element(tag, value) == e;
    HarmlessHasNoTags(e, |e|);
  }

  lemma OneTag()
    ensures AllTags("  <skill>") == 1 && AllTags("  </skill>") == 0
  {
    var s := "  <skill>";
    assert TagAt(s, 2);
    forall i: nat | i != 2
      ensures !TagAt(s, i)
    {
    }
    OnlyOne(s, 2, |s|);
    HarmlessHasNoTags("  </skill>", 10);
  }

  lemma {:induction false} OnlyOne(s: string, at: nat, n: nat)
    requires TagAt(s, at) && forall i: nat | i != at :: !TagAt(s, i)
    ensures Tags(s, n) == if at < n then 1 else 0
  {
    if n > 0 {
      OnlyOne(s, at, n - 1);
    }
  }

  lemma JoinFour(a: string, b: string, c: string, d: string)
    ensures Lines([a, b, c, d]) == a + "\n" + b + "\n" + c + "\n" + d
  {
    var p := [a, b, c, d];
    assert Join(p, 2) == a + "\n" + b;
    assert Join(p, 3) == Join(p, 2) + "\n" + c;
  }

  lemma CompactHasOneTag(s: Skill)
    ensures AllTags(RenderCompact(s)) == 1
  {
    OneTag();
    var a, b, c, d := "  <skill>", Element("name", s.name), Element("location", s.path), "  </skill>";
    ElementIsHarmless("name", s.name);
    ElementIsHarmless("location", s.path);
    TagsAcross(a, b);
    TagsAcross(a + "\n" + b, c);
    TagsAcross(a + "\n" + b + "\n" + c, d);
    JoinFour(a, b, c, d);
  }

  // ---- The catalogue ----

  lemma {:induction false} TagsOfParts(preamble: string, skills: seq<Skill>, render: Skill -> string, n: nat)
    requires n <= |skills| && '<' !in preamble && forall s :: AllTags(render(s)) == 1
    ensures AllTags(Lines(Parts(preamble, skills, render, n))) == n
  {
    if n == 0 {
      var opening := "<available_skills>";
      PlainIsHarmless(preamble);
      HarmlessHasNoTags(preamble, |preamble|);
      assert Harmless(opening) && Harmless("");
      HarmlessHasNoTags(opening, |opening|);
      TagsAcross(preamble, "");
      TagsAcross(preamble + "\n" + "", opening);
      JoinThree(preamble, "", opening);
    } else {
      TagsOfParts(preamble, skills, render, n - 1);
      OneMoreLine(Parts(preamble, skills, render, n - 1), render(skills[n-1]));
      TagsAcross(Lines(Parts(preamble, skills, render, n - 1)), render(skills[n-1]));
    }
  }

  lemma JoinThree(a: string, b: string, c: string)
    ensures Lines([a, b, c]) == a + "\n" + b + "\n" + c
  {
    assert Join([a, b, c], 2) == a + "\n" + b;
  }

  lemma {:induction false} JoinPrefix(parts: seq<string>, more: string, n: nat)
    requires n <= |parts|
    ensures Join(parts + [more], n) == Join(parts, n)
  {
    if n > 1 {
      JoinPrefix(parts, more, n - 1);
    }
  }

  lemma OneMoreLine(parts: seq<string>, more: string)
    requires parts != []
    ensures Lines(parts + [more]) == Lines(parts) + "\n" + more
  {
    JoinPrefix(parts, more, |parts|);
  }

  lemma {:induction false} PartsNonEmpty(preamble: string, skills: seq<Skill>, render: Skill -> string, n: nat)
    requires n <= |skills|
    ensures |Parts(preamble, skills, render, n)| == n + 3
  {
    if n > 0 {
      PartsNonEmpty(preamble, skills, render, n - 1);
    }
  }

  /** The number reported is the number of skills shown. */
  lemma CountIsHonest(preamble: string, skills: seq<Skill>, render: Skill -> string, n: nat)
    requires n <= |skills| && '<' !in preamble && forall s :: AllTags(render(s)) == 1
    ensures CountFrom(Format(preamble, skills, render, n), 0) == n
  {
    var text := Format(preamble, skills, render, n);
    CountIsTags(text, 0);
    if n > 0 {
      var closing := "</available_skills>";
      TagsOfParts(preamble, skills, render, n);
      PartsNonEmpty(preamble, skills, render, n);
      OneMoreLine(Parts(preamble, skills, render, n), closing);
      TagsAcross(Lines(Parts(preamble, skills, render, n)), closing);
      assert Harmless(closing) by {
        assert closing[0] == '<' && closing[1] == '/';
      }
      HarmlessHasNoTags(closing, |closing|);
    }
  }

  /** Showing one more skill makes the catalogue longer. */
  lemma FormatGrows(preamble: string, skills: seq<Skill>, render: Skill -> string, n: nat)
    requires n < |skills|
    ensures |Format(preamble, skills, render, n)| < |Format(preamble, skills, render, n + 1)|
  {
    var closing := "</available_skills>";
    var parts, parts' := Parts(preamble, skills, render, n), Parts(preamble, skills, render, n + 1);
    PartsNonEmpty(preamble, skills, render, n);
    OneMoreLine(parts, closing);
    OneMoreLine(parts, render(skills[n]));
    OneMoreLine(parts', closing);
  }

  lemma {:induction false} Increasing(f: nat -> nat, n: nat, m: nat)
    requires n <= m && forall k: nat | n <= k < m :: f(k) < f(k + 1)
    ensures f(n) <= f(m) && (n < m ==> f(n) < f(m))
  {
    if n < m {
      Increasing(f, n, m - 1);
      assert f(m - 1) < f(m - 1 + 1);
    }
  }

  function Size(preamble: string, skills: seq<Skill>, render: Skill -> string): nat -> nat {
    (k: nat) => if k <= |skills| then |Format(preamble, skills, render, k)| else 0
  }

  lemma SizeGrows(preamble: string, skills: seq<Skill>, render: Skill -> string, k: nat)
    requires k < |skills|
    ensures Size(preamble, skills, render)(k) < Size(preamble, skills, render)(k + 1)
  {
    FormatGrows(preamble, skills, render, k);
  }

  lemma SizeGrowsTo(preamble: string, skills: seq<Skill>, render: Skill -> string, n: nat, m: nat, size: nat -> nat)
    requires n <= m <= |skills| && size == Size(preamble, skills, render)
    ensures size(n) <= size(m)
  {
    forall k: nat | n <= k < m
      ensures size(k) < size(k + 1)
    {
      SizeGrows(preamble, skills, render, k);
    }
    Increasing(size, n, m);
  }

  lemma FormatGrowsTo(preamble: string, skills: seq<Skill>, render: Skill -> string, n: nat, m: nat)
    requires n <= m <= |skills|
    ensures |Format(preamble, skills, render, n)| <= |Format(preamble, skills, render, m)|
  {
    SizeGrowsTo(preamble, skills, render, n, m, Size(preamble, skills, render));
  }

  const RESERVE := 150

  /** The first `n` skills fit in compact form. */
  predicate Fits(w: Wording, skills: seq<Skill>, budget: int, n: nat)
    requires n <= |skills|
  {
    |Format(w.compact, skills, RenderCompact, n)| <= budget
  }

  /** `n` skills can be shown and not one more; none when not even one fits. */
  ghost predicate Longest(w: Wording, skills: seq<Skill>, budget: int, n: nat) {
    && n <= |skills|
    && (n > 0 ==> Fits(w, skills, budget, n))
    && forall m | n < m <= |skills| :: !Fits(w, skills, budget, m)
  }

  /** The binary search: `mid` is the middle, rounded up. */
  method LongestFitting(w: Wording, skills: seq<Skill>, budget: int) returns (best: nat)
    ensures Longest(w, skills, budget, best)
  {
    var lo: int, hi: int := 0, |skills|;
    best := 0;
    while lo <= hi
      invariant 0 <= lo <= hi + 1 <= |skills| + 1
      invariant best == if lo == 0 then 0 else lo - 1
      invariant best > 0 ==> Fits(w, skills, budget, best)
      invariant forall m: nat | hi < m <= |skills| :: !Fits(w, skills, budget, m)
      decreases hi - lo
    {
      var mid := (lo + hi + 1) / 2;
      if mid == 0 {
        lo := mid + 1;
        continue;
      }
      if Fits(w, skills, budget, mid) {
        best := mid;
        lo := mid + 1;
      } else {
        forall m: nat | mid <= m <= |skills|
          ensures !Fits(w, skills, budget, m)
        {
          FormatGrowsTo(w.compact, skills, RenderCompact, mid, m);
        }
        hi := mid - 1;
      }
    }
  }

  /** `skills[:m]` for any integer. */
  function Slice(skills: seq<Skill>, m: int): seq<Skill> {
    if m >= 0 then (if m <= |skills| then skills[..m] else skills)
    else if |skills| + m >= 0 then skills[..|skills| + m]
    else []
  }

  const SIGN := "\U{26a0}\U{fe0f} Skills "

  function TruncatedWarning(included: nat, total: nat): string {
    SIGN + "truncated: included " + Decimal(included) + " of " + Decimal(total) + " (compact format, descriptions omitted)."
  }

  const COMPACT_WARNING := SIGN + "catalog using compact format (descriptions omitted)."

  function Below(warning: string, rendered: string): string {
    if rendered == "" then warning else warning + "\n" + rendered
  }

  function Selected(sorted: seq<Skill>, maxSkills: int): seq<Skill> {
    if |sorted| > maxSkills then Slice(sorted, maxSkills) else sorted
  }

  lemma RendersHaveOneTag()
    ensures forall s :: AllTags(RenderCompact(s)) == 1
  {
    forall s
      ensures AllTags(RenderCompact(s)) == 1
    {
      CompactHasOneTag(s);
    }
  }

  /** The compact form of as many skills as fit, under its warning. */
  method CompactPrompt(selected: seq<Skill>, total: nat, cutBefore: bool, maxChars: int, w: Wording) returns (text: string, shown: nat)
    requires Plain(w) && (selected == [] ==> cutBefore)
    ensures Longest(w, selected, maxChars - RESERVE, shown)
    ensures text == Below(if cutBefore || shown < |selected| then TruncatedWarning(shown, total) else COMPACT_WARNING,
                          Format(w.compact, selected, RenderCompact, shown))
  {
    var n, truncated := |selected|, cutBefore;
    if !Fits(w, selected, maxChars - RESERVE, n) {
      truncated := true;
      n := LongestFitting(w, selected, maxChars - RESERVE);
      NotAll(w, selected, maxChars - RESERVE, n);
    }
    var rendered := Format(w.compact, selected, RenderCompact, n);
    var included := CountFrom(rendered, 0);
    RendersHaveOneTag();
    CountIsHonest(w.compact, selected, RenderCompact, n);
    shown := n;
    text := Below(if truncated then TruncatedWarning(included, total) else COMPACT_WARNING, rendered);
  }

  /** An empty catalogue of no skills always counts as shown. */
  lemma NotAll(w: Wording, skills: seq<Skill>, budget: int, n: nat)
    requires Longest(w, skills, budget, n) && !Fits(w, skills, budget, |skills|)
    ensures n < |skills| || skills == []
  {
  }

  /**
   `build_skills_prompt`, from the skills in order of name. All descriptions when they fit;
   otherwise the longest initial part in compact form, under a warning that says how many.
   */
  method BuildSkillsPrompt(sorted: seq<Skill>, maxSkills: int, maxChars: int, w: Wording) returns (text: string, shown: nat)
    requires Plain(w)
    ensures sorted == [] ==> text == ""
    ensures var selected := Selected(sorted, maxSkills);
            var full := Format(w.full, selected, RenderFull, |selected|);
            && (sorted != [] && |full| <= maxChars ==> text == full)
            && (sorted != [] && |full| > maxChars ==>
                  && Longest(w, selected, maxChars - RESERVE, shown)
                  && text == Below(if |sorted| > maxSkills || shown < |selected| then TruncatedWarning(shown, |sorted|) else COMPACT_WARNING,
                                   Format(w.compact, selected, RenderCompact, shown)))
  {
    shown := 0;
    if sorted == [] {
      return "", 0;
    }
    var selected, truncated := sorted, false;
    if |sorted| > maxSkills {
      selected, truncated := Slice(sorted, maxSkills), true;
    }
    if |Format(w.full, selected, RenderFull, |selected|)| <= maxChars {
      return Format(w.full, selected, RenderFull, |selected|), 0;
    }
    text, shown := CompactPrompt(selected, |sorted|, truncated, maxChars, w);
  }

  lemma WarningLengths(included: nat, total: nat)
    ensures |TruncatedWarning(included, total)| == 74 + |Decimal(included)| + |Decimal(total)|
    ensures |COMPACT_WARNING| == 62
  {
  }

  /** What is built stays within the limit, once that covers the reserve and the numbers are not absurdly long. */
  lemma PromptFits(w: Wording, skills: seq<Skill>, maxChars: int, shown: nat, total: nat, cut: bool)
    requires maxChars >= RESERVE && Longest(w, skills, maxChars - RESERVE, shown)
    requires |Decimal(shown)| + |Decimal(total)| <= 75
    ensures |Below(if cut then TruncatedWarning(shown, total) else COMPACT_WARNING,
                   Format(w.compact, skills, RenderCompact, shown))| <= maxChars
  {
    WarningLengths(shown, total);
  }

  // ---- What the catalogue says ----

  lemma JoinFive(a: string, b: string, c: string, d: string, e: string)
    ensures Lines([a, b, c, d, e]) == a + "\n" + b + "\n" + c + "\n" + d + "\n" + e
  {
    var p := [a, b, c, d, e];
    assert Join(p, 2) == a + "\n" + b;
    assert Join(p, 3) == Join(p, 2) + "\n" + c;
    assert Join(p, 4) == Join(p, 3) + "\n" + d;
  }

  lemma Around(tag: string, open: string, close: string, value: string)
    requires open == "    <" + tag + ">" && close == "</" + tag + ">"
    ensures Element(tag, value) == open + Escape(value) + close
  {
    assert Element(tag, value) == "    <" + tag + ">" + Escape(value) + "</" + tag + ">";
    assert open + Escape(value) + close == open + Escape(value) + "</" + tag + ">";
  }

  lemma ElementsAre(value: string)
    ensures Element("name", value) == "    <name>" + Escape(value) + "</name>"
    ensures Element("description", value) == "    <description>" + Escape(value) + "</description>"
    ensures Element("location", value) == "    <location>" + Escape(value) + "</location>"
  {
    Around("name", "    <name>", "</name>", value);
    Around("description", "    <description>", "</description>", value);
    Around("location", "    <location>", "</location>", value);
  }

  /** A skill in full, and in compact form: its escaped name, description and location, each in its element. */
  lemma SkillIsShown(s: Skill)
    ensures RenderFull(s) == "  <skill>" + "\n" + ("    <name>" + Escape(s.name) + "</name>") + "\n"
                             + ("    <description>" + Escape(s.description) + "</description>") + "\n"
                             + ("    <location>" + Escape(s.path) + "</location>") + "\n" + "  </skill>"
    ensures RenderCompact(s) == "  <skill>" + "\n" + ("    <name>" + Escape(s.name) + "</name>") + "\n"
                                + ("    <location>" + Escape(s.path) + "</location>") + "\n" + "  </skill>"
  {
    ElementsAre(s.name);
    ElementsAre(s.description);
    ElementsAre(s.path);
    JoinFive("  <skill>", Element("name", s.name), Element("description", s.description), Element("location", s.path), "  </skill>");
    JoinFour("  <skill>", Element("name", s.name), Element("location", s.path), "  </skill>");
  }

  /** The first `n` skills, one below the other, each exactly once. */
  function Listing(skills: seq<Skill>, render: Skill -> string, n: nat): string
    requires n <= |skills|
  {
    if n == 0 then "" else Listing(skills, render, n - 1) + "\n" + render(skills[n-1])
  }

  lemma {:induction false} PartsAreListed(preamble: string, skills: seq<Skill>, render: Skill -> string, n: nat)
    requires n <= |skills|
    ensures Lines(Parts(preamble, skills, render, n)) == preamble + "\n" + "" + "\n" + "<available_skills>" + Listing(skills, render, n)
  {
    if n == 0 {
      JoinThree(preamble, "", "<available_skills>");
    } else {
      PartsAreListed(preamble, skills, render, n - 1);
      PartsNonEmpty(preamble, skills, render, n - 1);
      OneMoreLine(Parts(preamble, skills, render, n - 1), render(skills[n-1]));
    }
  }

  /** The catalogue is the introduction and, between its two tags, the listing of the skills in order. */
  lemma CatalogueIsListing(preamble: string, skills: seq<Skill>, render: Skill -> string, n: nat)
    requires 0 < n <= |skills|
    ensures Format(preamble, skills, render, n)
         == preamble + "\n" + "" + "\n" + "<available_skills>" + Listing(skills, render, n) + "\n" + "</available_skills>"
  {
    PartsAreListed(preamble, skills, render, n);
    PartsNonEmpty(preamble, skills, render, n);
    OneMoreLine(Parts(preamble, skills, render, n), "</available_skills>");
  }

  /** What may be shown is an initial part, of the allowed length; a negative limit drops from the end. */
  lemma SelectionIsInitial(sorted: seq<Skill>, maxSkills: int)
    ensures Selected(sorted, maxSkills) <= sorted
    ensures maxSkills >= |sorted| ==> Selected(sorted, maxSkills) == sorted
    ensures 0 <= maxSkills <= |sorted| ==> |Selected(sorted, maxSkills)| == maxSkills
    ensures -|sorted| <= maxSkills < 0 ==> |Selected(sorted, maxSkills)| == |sorted| + maxSkills
    ensures maxSkills < -|sorted| ==> Selected(sorted, maxSkills) == []
  {
  }

  /** The warning names the number shown and then the number there is, in decimal digits. */
  lemma WarningNames(included: nat, total: nat)
    ensures TruncatedWarning(included, total)
         == "\U{26a0}\U{fe0f} Skills " + "truncated: included " + Decimal(included) + " of " + Decimal(total) + " (compact format, descriptions omitted)."
    ensures DigitsValue(Decimal(included)) == included && DigitsValue(Decimal(total)) == total
  {
    DecimalReads(included);
    DecimalReads(total);
  }
}
