/** A learned procedure as stored text, and as the SKILL.md generated from it. */
module SopDocument {
  import opened Prelude
  import opened PyText

  datatype Sop = Sop(name: string, description: string, procedure: string)

  function Stripped(s: Sop): Sop {
    Sop(Strip(s.name), Strip(s.description), Strip(s.procedure))
  }

  /** `_format_sop_content`. */
  function FormatContent(s: Sop): string {
    Strip(s.name) + "\n" + Strip(s.description) + "\n" + Strip(s.procedure)
  }

  predicate LowerOrDigit(c: char) {
    'a' <= c <= 'z' || '0' <= c <= '9'
  }

  /** `^[a-z0-9][a-z0-9-]{1,60}$` on a stripped text. */
  predicate KebabName(s: string) {
    && 2 <= |s| <= 61 && LowerOrDigit(s[0])
    && forall c | c in s :: LowerOrDigit(c) || c == '-'
  }

  /** `parse_sop_content`. */
  function ParseContent(content: string): Option<Sop> {
    var parts := Split(content, '\n', 2);
    if Strip(content) == "" || |parts| < 3 then None
    else
      var s := Sop(Strip(parts[0]), Strip(parts[1]), Strip(parts[2]));
      if !KebabName(s.name) || s.procedure == "" then None else Some(s)
  }

  lemma {:induction false} SplitHasNoBreak(s: string, most: nat, k: nat)
    requires k < most && k < |Split(s, '\n', most)|
    ensures '\n' !in Split(s, '\n', most)[k]
    decreases most
  {
    var i := Index(s, '\n', 0);
    if i < |s| && k > 0 {
      SplitHasNoBreak(s[i+1..], most - 1, k - 1);
    } else if i < |s| {
      assert forall j | 0 <= j < i :: s[..i][j] == s[j];
    }
  }

  lemma {:induction false} LStripKeeps(s: string)
    ensures forall c | c in LStrip(s) :: c in s
  {
    if s != "" && IsSpace(s[0]) {
      LStripKeeps(s[1..]);
      assert forall c | c in s[1..] :: c in s;
    }
  }

  lemma {:induction false} RStripKeeps(s: string)
    ensures forall c | c in RStrip(s) :: c in s
  {
    if s != "" && IsSpace(s[|s|-1]) {
      RStripKeeps(s[..|s|-1]);
      assert forall c | c in s[..|s|-1] :: c in s;
    }
  }

  lemma StripKeeps(s: string)
    ensures forall c | c in Strip(s) :: c in s
  {
    LStripKeeps(s);
    RStripKeeps(LStrip(s));
  }

  lemma SpaceOnly(c: char, s: string)
    requires c in s && !IsSpace(c)
    ensures Strip(s) != ""
  {
    NotAllSpace(s, c);
  }

  lemma {:induction false} LStripLeaves(s: string, c: char)
    requires c in s && !IsSpace(c)
    ensures c in LStrip(s)
  {
    if IsSpace(s[0]) {
      assert s == [s[0]] + s[1..];
      LStripLeaves(s[1..], c);
    }
  }

  lemma {:induction false} RStripLeaves(s: string, c: char)
    requires c in s && !IsSpace(c)
    ensures c in RStrip(s)
  {
    if IsSpace(s[|s|-1]) {
      assert s == s[..|s|-1] + [s[|s|-1]];
      RStripLeaves(s[..|s|-1], c);
    }
  }

  lemma NotAllSpace(s: string, c: char)
    requires c in s && !IsSpace(c)
    ensures c in Strip(s)
  {
    LStripLeaves(s, c);
    RStripLeaves(LStrip(s), c);
  }

  /** Three lines come apart again. */
  lemma ThreeLines(a: string, b: string, c: string)
    requires '\n' !in a && '\n' !in b
    ensures Split(a + "\n" + b + "\n" + c, '\n', 2) == [a, b, c]
  {
    assert a + "\n" + b + "\n" + c == a + ['\n'] + (b + ['\n'] + c);
    SplitOff(a, '\n', b + ['\n'] + c, 2);
    SplitOff(b, '\n', c, 1);
  }

  /**
   A stored procedure is read back as its stripped fields, exactly when the name is in kebab
   case, the description is one line and the procedure is not blank.
   */
  lemma StoredSopRoundTrip(s: Sop)
    ensures ParseContent(FormatContent(s)) == Some(Stripped(s))
       <==> KebabName(Strip(s.name)) && '\n' !in Strip(s.description) && Strip(s.procedure) != ""
  {
    var a, b, c := Strip(s.name), Strip(s.description), Strip(s.procedure);
    var content := FormatContent(s);
    if KebabName(a) && '\n' !in b && c != "" {
      ReadsBack(a, b, c);
      StripTrims(s.name);
      StripTrims(s.description);
      StripTrims(s.procedure);
      StripStripped(a);
      StripStripped(b);
      StripStripped(c);
    } else if ParseContent(content).Some? && '\n' in b {
      var parts := Split(content, '\n', 2);
      SplitHasNoBreak(content, 2, 1);
      StripKeeps(parts[1]);
    }
  }

  /** What is parsed has a name and a description of one line, and a trimmed procedure. */
  lemma ParsedFields(content: string)
    requires ParseContent(content).Some?
    ensures var p := ParseContent(content).value;
            '\n' !in p.name && '\n' !in p.description && Trim(p.procedure) && p.procedure != ""
  {
    var parts := Split(content, '\n', 2);
    SplitHasNoBreak(content, 2, 1);
    StripKeeps(parts[1]);
    StripTrims(parts[2]);
  }

  /** Fields of one line are parsed back, if anything is. */
  lemma OneLineFields(s: Sop)
    requires '\n' !in Strip(s.name) && '\n' !in Strip(s.description)
    requires ParseContent(FormatContent(s)).Some?
    ensures ParseContent(FormatContent(s)) == Some(Stripped(s))
  {
    ThreeLines(Strip(s.name), Strip(s.description), Strip(s.procedure));
    StripTrims(s.name);
    StripTrims(s.description);
    StripTrims(s.procedure);
    StripStripped(Strip(s.name));
    StripStripped(Strip(s.description));
    StripStripped(Strip(s.procedure));
  }

  lemma ReadsBack(a: string, b: string, c: string)
    requires KebabName(a) && '\n' !in b
    ensures var content := a + "\n" + b + "\n" + c;
            Split(content, '\n', 2) == [a, b, c] && Strip(content) != ""
  {
    var content := a + "\n" + b + "\n" + c;
    assert '\n' !in a;
    ThreeLines(a, b, c);
    assert content[0] == a[0] && content[0] in content;
    SpaceOnly(content[0], content);
  }
}
