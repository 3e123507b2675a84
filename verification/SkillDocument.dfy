/** SKILL.md: the generated text and the front matter cut out of it again. */
module SkillDocument {
  import opened Prelude
  import opened PyText
  import XmlEscape
  import SopDocument

  type Sop = SopDocument.Sop

  predicate DashesAt(s: string, i: nat) {
    i + 3 <= |s| && s[i] == '-' && s[i+1] == '-' && s[i+2] == '-'
  }

  ghost predicate HasDashes(s: string) {
    exists i: nat :: DashesAt(s, i)
  }

  /** `s.find("---", from)`, as the length of `s` when there is none. */
  function Find(s: string, from: nat): (i: nat)
    requires from <= |s|
    ensures from <= i <= |s| && (i < |s| ==> DashesAt(s, i)) && forall j: nat | from <= j < i :: !DashesAt(s, j)
    decreases |s| - from
  {
    if from == |s| || DashesAt(s, from) then from else Find(s, from + 1)
  }

  datatype Extracted = NoFrontmatter | Unclosed | Parts(frontmatter: string, body: string)

  /** `_extract_frontmatter`. */
  function Extract(content: string): Extracted {
    if !StartsWith(content, "---") then NoFrontmatter
    else
      var end := Find(content, 3);
      if end == |content| then Unclosed else Parts(Strip(content[3..end]), Strip(content[end+3..]))
  }

  /** `description.replace('"', '\\"')`. */
  function Safe(description: string): string {
    XmlEscape.Replace(description, '"', "\\\"")
  }

  /** A line `key value`, followed by the rest. */
  function Line(key: string, value: string, rest: string): string {
    key + " " + value + "\n" + rest
  }

  function Quoted(value: string): string {
    "\"" + value + "\""
  }

  /** The lines between the two rulers, without the last line break. */
  function Front(name: string, description: string, session: string, now: string): string {
    Line("name:", name, Line("description:", Quoted(Safe(description)), Stamped(session, now)))
  }

  function Stamped(session: string, now: string): string {
    Line("auto_generated:", "true", Line("lifecycle:", "active", Line("generated_at:", Quoted(now), Source(session))))
  }

  function Source(session: string): string {
    "source_session:" + " " + Quoted(session)
  }

  function Body(name: string, description: string, procedure: string): string {
    "# " + name + "\n\n" + description + "\n\n## Procedure\n\n" + procedure
  }

  /** `generate_skill_md_template`, at time `now`. */
  function Template(name: string, description: string, procedure: string, session: string, now: string): string {
    "---" + ("\n" + Front(name, description, session, now) + "\n") + "---" + ("\n\n" + Body(name, description, procedure) + "\n")
  }

  // ---- Dashes ----

  /** A character that is no dash keeps the two sides apart. */
  lemma DashesAcross(a: string, c: char, b: string)
    requires c != '-'
    ensures HasDashes(a + [c] + b) <==> HasDashes(a) || HasDashes(b)
  {
    var s := a + [c] + b;
    assert s[|a|] == c && forall k | 0 <= k < |b| :: s[|a| + 1 + k] == b[k];
    if i: nat :| DashesAt(a, i) {
      assert DashesAt(s, i);
    }
    if i: nat :| DashesAt(b, i) {
      assert DashesAt(s, |a| + 1 + i);
    }
    if i: nat :| DashesAt(s, i) {
      if i < |a| {
        assert DashesAt(a, i);
      } else {
        assert DashesAt(b, i - |a| - 1);
      }
    }
  }

  lemma NoDashNoDashes(s: string)
    requires '-' !in s
    ensures !HasDashes(s)
  {
    assert forall i | 0 <= i < |s| :: s[i] in s;
  }

  predicate Leads(s: string, k: nat) {
    k <= |s| && forall i | 0 <= i < k :: s[i] == '-'
  }

  lemma {:induction false} SafeLeads(s: string, k: nat)
    ensures Leads(Safe(s), k) <==> Leads(s, k)
  {
    if k > 0 && s != "" && s[0] == '-' {
      SafeLeads(s[1..], k - 1);
      assert Safe(s) == ['-'] + Safe(s[1..]);
      LeadsMore(s[1..], k - 1);
      LeadsMore(Safe(s[1..]), k - 1);
      assert s == ['-'] + s[1..];
    } else if k > 0 && s != "" {
      assert Safe(s)[0] != '-';
    }
  }

  lemma LeadsMore(s: string, k: nat)
    ensures Leads(['-'] + s, k + 1) <==> Leads(s, k)
  {
    var t := ['-'] + s;
    assert forall i | 0 <= i < |s| :: t[i+1] == s[i];
  }

  lemma DashesFirst(c: char, s: string)
    ensures HasDashes([c] + s) <==> HasDashes(s) || (c == '-' && Leads(s, 2))
  {
    var t := [c] + s;
    assert forall i | 0 <= i < |s| :: t[i+1] == s[i];
    if i: nat :| DashesAt(s, i) {
      assert DashesAt(t, i + 1);
    }
    if c == '-' && Leads(s, 2) {
      assert DashesAt(t, 0);
    }
    if i: nat :| DashesAt(t, i) {
      if i > 0 {
        assert DashesAt(s, i - 1);
      } else {
        assert t[1] == s[0] && t[2] == s[1];
      }
    }
  }

  /** Quoting neither makes nor hides a ruler. */
  lemma {:induction false} SafeDashes(s: string)
    ensures HasDashes(Safe(s)) <==> HasDashes(s)
  {
    if s != "" {
      SafeDashes(s[1..]);
      if s[0] == '"' {
        DashesAcross("", '"', s[1..]);
        DashesAcross("\\", '"', Safe(s[1..]));
        NoDashNoDashes("\\");
        assert s == "" + ['"'] + s[1..] && Safe(s) == "\\" + ['"'] + Safe(s[1..]);
      } else {
        DashesFirst(s[0], s[1..]);
        DashesFirst(s[0], Safe(s[1..]));
        SafeLeads(s[1..], 2);
        assert s == [s[0]] + s[1..] && Safe(s) == [s[0]] + Safe(s[1..]);
      }
    }
  }

  lemma LineDashes(key: string, value: string, rest: string)
    requires '-' !in key
    ensures HasDashes(Line(key, value, rest)) <==> HasDashes(value) || HasDashes(rest)
  {
    NoDashNoDashes(key);
    DashesAcross(key, ' ', value);
    DashesAcross(key + " " + value, '\n', rest);
  }

  lemma QuotedDashes(value: string)
    ensures HasDashes(Quoted(value)) <==> HasDashes(value)
  {
    NoDashNoDashes("");
    DashesAcross("", '"', value);
    assert "" + ['"'] + value == "\"" + value;
    DashesAcross("\"" + value, '"', "");
    assert ("\"" + value) + ['"'] + "" == Quoted(value);
  }

  lemma SourceDashes(session: string)
    ensures HasDashes(Source(session)) <==> HasDashes(session)
  {
    NoDashNoDashes("source_session:");
    DashesAcross("source_session:", ' ', Quoted(session));
    QuotedDashes(session);
  }

  lemma StampedDashes(session: string, now: string)
    ensures HasDashes(Stamped(session, now)) <==> HasDashes(now) || HasDashes(session)
  {
    var third := Line("generated_at:", Quoted(now), Source(session));
    SourceDashes(session);
    QuotedDashes(now);
    LineDashes("generated_at:", Quoted(now), Source(session));
    NoDashNoDashes("active");
    LineDashes("lifecycle:", "active", third);
    NoDashNoDashes("true");
    LineDashes("auto_generated:", "true", Line("lifecycle:", "active", third));
  }

  /** The front matter holds a ruler exactly when one of its values does. */
  lemma FrontDashes(name: string, description: string, session: string, now: string)
    ensures HasDashes(Front(name, description, session, now))
       <==> HasDashes(name) || HasDashes(description) || HasDashes(now) || HasDashes(session)
  {
    var second := Line("description:", Quoted(Safe(description)), Stamped(session, now));
    StampedDashes(session, now);
    QuotedDashes(Safe(description));
    SafeDashes(description);
    LineDashes("description:", Quoted(Safe(description)), Stamped(session, now));
    LineDashes("name:", name, second);
  }

  // ---- Extraction ----

  /** The second ruler is found where it was written, when nothing before it looks like one. */
  lemma FindsRuler(front: string, rest: string)
    requires !HasDashes(front)
    ensures var content := "---" + ("\n" + front + "\n") + "---" + rest;
            Find(content, 3) == 3 + |front| + 2
  {
    var content := "---" + ("\n" + front + "\n") + "---" + rest;
    var at := 3 + |front| + 2;
    assert DashesAt(content, at);
    assert content[3] == '\n' && content[at-1] == '\n';
    forall j: nat | 3 <= j < at
      ensures !DashesAt(content, j)
    {
      assert forall k | 0 <= k < |front| :: content[4 + k] == front[k];
      assert 4 <= j ==> !DashesAt(front, j - 4);
    }
  }

  /** A ruler inside the front matter is taken for its end. */
  lemma FindsEarlier(front: string, rest: string, i: nat)
    requires DashesAt(front, i)
    ensures var content := "---" + ("\n" + front + "\n") + "---" + rest;
            Find(content, 3) <= 4 + i
  {
    var content := "---" + ("\n" + front + "\n") + "---" + rest;
    assert content[4+i] == front[i] && content[4+i+1] == front[i+1] && content[4+i+2] == front[i+2];
    assert DashesAt(content, 4 + i);
  }

  lemma {:induction false} LStripShortens(s: string)
    ensures |LStrip(s)| <= |s|
  {
    if s != "" && IsSpace(s[0]) {
      LStripShortens(s[1..]);
    }
  }

  lemma {:induction false} RStripShortens(s: string)
    ensures |RStrip(s)| <= |s|
  {
    if s != "" && IsSpace(s[|s|-1]) {
      RStripShortens(s[..|s|-1]);
    }
  }

  /** The general form: text between two rulers is extracted exactly when it holds none. */
  lemma ExtractBetweenRulers(front: string, body: string)
    requires front != "" && Trim(front) && body != "" && Trim(body)
    ensures Extract("---" + ("\n" + front + "\n") + "---" + ("\n\n" + body + "\n")) == Parts(front, body) <==> !HasDashes(front)
  {
    var rest := "\n\n" + body + "\n";
    var content := "---" + ("\n" + front + "\n") + "---" + rest;
    assert content[..3] == "---";
    if HasDashes(front) {
      var i: nat :| DashesAt(front, i);
      FindsEarlier(front, rest, i);
      var end := Find(content, 3);
      LStripShortens(content[3..end]);
      RStripShortens(LStrip(content[3..end]));
    } else {
      FindsRuler(front, rest);
      var end := 3 + |front| + 2;
      assert content[3..end] == "\n" + front + "\n";
      assert content[end+3..] == rest;
      StripDrops("\n", front, "\n");
      StripDrops("\n\n", body, "\n");
    }
  }

  lemma FrontIsTrim(name: string, description: string, session: string, now: string)
    ensures var front := Front(name, description, session, now);
            front != "" && Trim(front)
  {
    var front := Front(name, description, session, now);
    LineEnds("generated_at:", Quoted(now), Source(session));
    LineEnds("lifecycle:", "active", Line("generated_at:", Quoted(now), Source(session)));
    LineEnds("auto_generated:", "true", Line("lifecycle:", "active", Line("generated_at:", Quoted(now), Source(session))));
    LineEnds("description:", Quoted(Safe(description)), Stamped(session, now));
    LineEnds("name:", name, Line("description:", Quoted(Safe(description)), Stamped(session, now)));
    assert front[0] == 'n' && front[|front|-1] == '"';
  }

  lemma LineEnds(key: string, value: string, rest: string)
    requires key != "" && rest != ""
    ensures var line := Line(key, value, rest);
            line != "" && line[0] == key[0] && line[|line|-1] == rest[|rest|-1]
  {
  }

  /**
   The front matter and the body of a generated SKILL.md are recovered exactly when neither the
   name, the description, the session key nor the time stamp holds three dashes in a row.
   */
  lemma {:induction false} SkillDocumentRoundTrip(name: string, description: string, procedure: string, session: string, now: string)
    requires Trim(procedure) && procedure != ""
    ensures Extract(Template(name, description, procedure, session, now))
            == Parts(Front(name, description, session, now), Body(name, description, procedure))
       <==> !HasDashes(name) && !HasDashes(description) && !HasDashes(session) && !HasDashes(now)
  {
    FrontIsTrim(name, description, session, now);
    BodyIsTrim(name, description, procedure);
    ExtractBetweenRulers(Front(name, description, session, now), Body(name, description, procedure));
    FrontDashes(name, description, session, now);
  }

  lemma BodyIsTrim(name: string, description: string, procedure: string)
    requires Trim(procedure) && procedure != ""
    ensures var body := Body(name, description, procedure); body != "" && Trim(body)
  {
    var body := Body(name, description, procedure);
    assert body[0] == '#' && body[|body|-1] == procedure[|procedure|-1];
  }

  lemma LineIs(key: string, open: string, value: string, rest: string)
    requires open == key + " "
    ensures Line(key, value, rest) == open + value + ("\n" + rest)
  {
    assert key + " " + value + "\n" + rest == open + value + ("\n" + rest);
  }

  /** The front matter, line by line. */
  lemma FrontReads(name: string, description: string, session: string, now: string)
    ensures Front(name, description, session, now) == "name: " + name + ("\n" + (
            "description: " + Quoted(Safe(description)) + ("\n" + (
            "auto_generated: " + "true" + ("\n" + (
            "lifecycle: " + "active" + ("\n" + (
            "generated_at: " + Quoted(now) + ("\n" + (
            "source_session: " + Quoted(session)))))))))))
  {
    var last := Source(session);
    var fifth := Line("generated_at:", Quoted(now), last);
    var fourth := Line("lifecycle:", "active", fifth);
    LineIs("generated_at:", "generated_at: ", Quoted(now), last);
    LineIs("lifecycle:", "lifecycle: ", "active", fifth);
    LineIs("auto_generated:", "auto_generated: ", "true", fourth);
    LineIs("description:", "description: ", Quoted(Safe(description)), Stamped(session, now));
    LineIs("name:", "name: ", name, Line("description:", Quoted(Safe(description)), Stamped(session, now)));
  }

  // ---- From the stored procedure to the file and back ----

  /** The file a stored procedure graduates to, if it does. */
  function Graduated(content: string, session: string, now: string): Option<string> {
    var sop := SopDocument.ParseContent(content);
    if sop.None? then None
    else Some(Template(sop.value.name, sop.value.description, sop.value.procedure, session, now))
  }

  /** Reading the graduated file gives the front matter and body of the fields that were stored. */
  predicate CarriesOver(s: Sop, session: string, now: string) {
    var t, file := SopDocument.Stripped(s), Graduated(SopDocument.FormatContent(s), session, now);
    && file.Some?
    && Extract(file.value) == Parts(Front(t.name, t.description, session, now), Body(t.name, t.description, t.procedure))
  }

  function Breaks(s: string): nat {
    if s == "" then 0 else Breaks(s[..|s|-1]) + if s[|s|-1] == '\n' then 1 else 0
  }

  lemma {:induction false} BreaksConcat(a: string, b: string)
    ensures Breaks(a + b) == Breaks(a) + Breaks(b)
  {
    if b == "" {
      assert a + b == a;
    } else {
      BreaksConcat(a, b[..|b|-1]);
      assert (a + b)[..|a + b| - 1] == a + b[..|b|-1];
    }
  }

  lemma {:induction false} SomeBreak(s: string)
    ensures Breaks(s) > 0 <==> '\n' in s
  {
    if s != "" {
      SomeBreak(s[..|s|-1]);
      assert s == s[..|s|-1] + [s[|s|-1]];
    }
  }

  lemma PartBreaks(a: string, b: string, c: string)
    ensures Breaks(a + b + c) == Breaks(a) + Breaks(b) + Breaks(c)
  {
    BreaksConcat(a, b);
    BreaksConcat(a + b, c);
  }

  lemma {:induction false} SafeBreaks(s: string)
    ensures Breaks(Safe(s)) == Breaks(s)
  {
    if s != "" {
      SafeBreaks(s[1..]);
      BreaksConcat([s[0]], s[1..]);
      BreaksConcat(if s[0] == '"' then "\\\"" else [s[0]], Safe(s[1..]));
      assert s == [s[0]] + s[1..];
      if s[0] == '"' {
        SomeBreak("\\\"");
      }
    }
  }

  lemma LineBreaks(key: string, value: string, rest: string)
    requires '\n' !in key
    ensures Breaks(Line(key, value, rest)) == Breaks(value) + 1 + Breaks(rest)
  {
    SomeBreak(key);
    SomeBreak(" ");
    PartBreaks(key, " ", value);
    PartBreaks(key + " " + value, "\n", rest);
    assert "\n"[..0] == "";
    assert Breaks("\n") == 1;
  }

  lemma FrontBreaks(name: string, description: string, session: string, now: string)
    ensures Breaks(Front(name, description, session, now)) == Breaks(name) + Breaks(description) + 2 + Breaks(Stamped(session, now))
  {
    SomeBreak("\"");
    PartBreaks("\"", Safe(description), "\"");
    SafeBreaks(description);
    LineBreaks("description:", Quoted(Safe(description)), Stamped(session, now));
    LineBreaks("name:", name, Line("description:", Quoted(Safe(description)), Stamped(session, now)));
  }

  lemma {:induction false} LStripBreaks(s: string)
    ensures Breaks(LStrip(s)) <= Breaks(s)
  {
    if s != "" && IsSpace(s[0]) {
      LStripBreaks(s[1..]);
      BreaksConcat([s[0]], s[1..]);
      assert s == [s[0]] + s[1..];
    }
  }

  lemma {:induction false} RStripBreaks(s: string)
    ensures Breaks(RStrip(s)) <= Breaks(s)
  {
    if s != "" && IsSpace(s[|s|-1]) {
      RStripBreaks(s[..|s|-1]);
    }
  }

  lemma StripBreaks(s: string)
    ensures Breaks(Strip(s)) <= Breaks(s)
  {
    LStripBreaks(s);
    RStripBreaks(LStrip(s));
  }

  /** A text between rulers that is cut short has no more line breaks than the whole. */
  lemma CutBreaks(front: string, rest: string, i: nat)
    requires DashesAt(front, i)
    ensures var content := "---" + ("\n" + front + "\n") + "---" + rest;
            var end := Find(content, 3);
            end < |content| && Breaks(Strip(content[3..end])) <= Breaks(front)
  {
    var content := "---" + ("\n" + front + "\n") + "---" + rest;
    FindsEarlier(front, rest, i);
    var end := Find(content, 3);
    assert content[3] == '\n' && !DashesAt(content, 3);
    var cut := front[..end-4];
    assert content[3..end] == ['\n'] + cut;
    assert Strip(['\n'] + cut) == Strip(cut) by {
      assert (['\n'] + cut)[1..] == cut;
    }
    StripBreaks(cut);
    BreaksConcat(cut, front[end-4..]);
    assert front == cut + front[end-4..];
  }

  /** What is extracted has no more line breaks than what was written between the rulers. */
  lemma ExtractedBreaks(front: string, body: string)
    requires front != "" && Trim(front) && body != "" && Trim(body)
    ensures var parts := Extract("---" + ("\n" + front + "\n") + "---" + ("\n\n" + body + "\n"));
            parts.Parts? && Breaks(parts.frontmatter) <= Breaks(front)
  {
    var rest := "\n\n" + body + "\n";
    var content := "---" + ("\n" + front + "\n") + "---" + rest;
    assert content[..3] == "---";
    ExtractBetweenRulers(front, body);
    if i: nat :| DashesAt(front, i) {
      CutBreaks(front, rest, i);
    }
  }

  /** A file read back as that of some fields was made from fields with at least as many line breaks. */
  lemma NoBreaksGained(p: Sop, t: Sop, session: string, now: string)
    requires Trim(p.procedure) && p.procedure != "" && '\n' !in p.name && '\n' !in p.description
    requires Extract(Template(p.name, p.description, p.procedure, session, now))
          == Parts(Front(t.name, t.description, session, now), Body(t.name, t.description, t.procedure))
    ensures '\n' !in t.name && '\n' !in t.description
  {
    FrontIsTrim(p.name, p.description, session, now);
    BodyIsTrim(p.name, p.description, p.procedure);
    ExtractedBreaks(Front(p.name, p.description, session, now), Body(p.name, p.description, p.procedure));
    FrontBreaks(p.name, p.description, session, now);
    FrontBreaks(t.name, t.description, session, now);
    SomeBreak(p.name);
    SomeBreak(p.description);
    SomeBreak(t.name);
    SomeBreak(t.description);
  }

  /**
   A stored procedure survives on its way through storage, parsing, the generated file and the
   reading of it exactly when its name is in kebab case, its description is one line, its
   procedure is not blank, and no value in the front matter holds three dashes in a row.
   */
  lemma {:induction false} GraduationCarriesOver(s: Sop, session: string, now: string)
    ensures var t := SopDocument.Stripped(s);
            CarriesOver(s, session, now) <==>
              && SopDocument.KebabName(t.name) && '\n' !in t.description && t.procedure != ""
              && !HasDashes(t.name) && !HasDashes(t.description) && !HasDashes(session) && !HasDashes(now)
  {
    var t, parsed := SopDocument.Stripped(s), SopDocument.ParseContent(SopDocument.FormatContent(s));
    SopDocument.StoredSopRoundTrip(s);
    StripTrims(s.procedure);
    if CarriesOver(s, session, now) {
      SopDocument.ParsedFields(SopDocument.FormatContent(s));
      NoBreaksGained(parsed.value, t, session, now);
      SopDocument.OneLineFields(s);
    }
    if parsed == Some(t) {
      SkillDocumentRoundTrip(t.name, t.description, t.procedure, session, now);
    }
  }

  /** A procedure that is parsed back whole, but whose file is cut inside its name, whenever it graduates. */
  lemma KebabNameCanHoldRuler(session: string, now: string)
    ensures exists s: Sop ::
              SopDocument.ParseContent(SopDocument.FormatContent(s)) == Some(s) && !CarriesOver(s, session, now)
  {
    var s := SopDocument.Sop("a---b", "d", "p");
    assert Strip("a---b") == "a---b" && Strip("d") == "d" && Strip("p") == "p";
    assert DashesAt("a---b", 1);
    SopDocument.StoredSopRoundTrip(s);
    GraduationCarriesOver(s, session, now);
    assert SopDocument.Stripped(s) == s;
  }
}
