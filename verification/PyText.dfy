/** The Python string operations the modelled code relies on. */
module PyText {

  /** `c.isspace()`. */
  predicate IsSpace(c: char) {
    var n := c as int;
    || 0x09 <= n <= 0x0d || 0x1c <= n <= 0x20 || n == 0x85 || n == 0xa0 || n == 0x1680
    || 0x2000 <= n <= 0x200a || n == 0x2028 || n == 0x2029 || n == 0x202f || n == 0x205f || n == 0x3000
  }

  /** `not s.strip()`. */
  predicate Blank(s: string) {
    forall c | c in s :: IsSpace(c)
  }

  const DIGITS := "0123456789"

  /** `str(n)` for a non-negative integer. */
  function Decimal(n: nat): (s: string)
    ensures s != "" && forall c | c in s :: '0' <= c <= '9'
  {
    if n < 10 then [DIGITS[n]] else Decimal(n / 10) + [DIGITS[n % 10]]
  }

  /** The number a text of digits stands for. */
  function DigitsValue(s: string): int {
    if s == "" then 0 else 10 * DigitsValue(s[..|s|-1]) + (s[|s|-1] as int - '0' as int)
  }

  lemma {:induction false} DecimalReads(n: nat)
    ensures DigitsValue(Decimal(n)) == n
  {
    var d := n % 10;
    assert DIGITS[d] as int - '0' as int == d;
    if n < 10 {
      assert Decimal(n)[..0] == "";
    } else {
      DecimalReads(n / 10);
      assert Decimal(n)[..|Decimal(n)|-1] == Decimal(n / 10);
    }
  }

  /** `str(n)`. */
  function Str(n: int): string {
    if n < 0 then "-" + Decimal(-n) else Decimal(n)
  }

  lemma {:induction false} DecimalInjective(m: nat, n: nat)
    requires Decimal(m) == Decimal(n)
    ensures m == n
  {
    var s := Decimal(m);
    assert s[|s|-1] == DIGITS[m % 10] && s[|s|-1] == DIGITS[n % 10];
    if m >= 10 && n >= 10 {
      assert s[..|s|-1] == Decimal(m / 10) && s[..|s|-1] == Decimal(n / 10);
      DecimalInjective(m / 10, n / 10);
    }
  }

  lemma NegativeIsMarked(n: int)
    ensures Str(n)[0] == '-' <==> n < 0
  {
    if n >= 0 {
      assert Decimal(n)[0] in Decimal(n);
    }
  }

  lemma StrInjective(m: int, n: int)
    requires Str(m) == Str(n)
    ensures m == n
  {
    NegativeIsMarked(m);
    NegativeIsMarked(n);
    if m >= 0 {
      DecimalInjective(m, n);
    } else {
      assert Str(m)[1..] == Decimal(-m) && Str(n)[1..] == Decimal(-n);
      DecimalInjective(-m, -n);
    }
  }

  // ---- split ----

  /** `s.index(c, from)`, as the length of `s` when there is none. */
  function Index(s: string, c: char, from: nat): (i: nat)
    requires from <= |s|
    ensures from <= i <= |s| && (i < |s| ==> s[i] == c) && forall j | from <= j < i :: s[j] != c
    decreases |s| - from
  {
    if from == |s| || s[from] == c then from else Index(s, c, from + 1)
  }

  /** `s.split(c, most)`: at most that many cuts. */
  function Split(s: string, c: char, most: nat): seq<string>
    decreases most
  {
    var i := Index(s, c, 0);
    if most == 0 || i == |s| then [s] else [s[..i]] + Split(s[i+1..], c, most - 1)
  }

  lemma IndexIs(s: string, c: char, i: nat)
    requires i <= |s| && (i < |s| ==> s[i] == c) && forall j | 0 <= j < i :: s[j] != c
    ensures Index(s, c, 0) == i
  {
  }

  lemma SplitOff(head: string, c: char, rest: string, most: nat)
    requires c !in head && most > 0
    ensures Split(head + [c] + rest, c, most) == [head] + Split(rest, c, most - 1)
  {
    var s := head + [c] + rest;
    forall j | 0 <= j < |head|
      ensures s[j] != c
    {
      assert s[j] == head[j] && head[j] in head;
    }
    IndexIs(s, c, |head|);
    assert s[..|head|] == head && s[|head|+1..] == rest;
  }

  lemma SplitWhole(s: string, c: char, most: nat)
    requires c !in s
    ensures Split(s, c, most) == [s]
  {
    assert forall j | 0 <= j < |s| :: s[j] in s;
    IndexIs(s, c, |s|);
  }

  // ---- strip ----

  function LStrip(s: string): string {
    if s != "" && IsSpace(s[0]) then LStrip(s[1..]) else s
  }

  function RStrip(s: string): string {
    if s != "" && IsSpace(s[|s|-1]) then RStrip(s[..|s|-1]) else s
  }

  /** `s.strip()`. */
  function Strip(s: string): string {
    RStrip(LStrip(s))
  }

  /** No space at either end. */
  predicate Trim(s: string) {
    s == "" || (!IsSpace(s[0]) && !IsSpace(s[|s|-1]))
  }

  lemma {:induction false} LStripStarts(s: string)
    ensures LStrip(s) == "" || !IsSpace(LStrip(s)[0])
  {
    if s != "" && IsSpace(s[0]) {
      LStripStarts(s[1..]);
    }
  }

  lemma {:induction false} RStripEnds(s: string)
    ensures RStrip(s) == "" || (!IsSpace(RStrip(s)[|RStrip(s)|-1]) && RStrip(s)[0] == s[0])
  {
    if s != "" && IsSpace(s[|s|-1]) {
      RStripEnds(s[..|s|-1]);
    }
  }

  lemma StripTrims(s: string)
    ensures Trim(Strip(s))
  {
    LStripStarts(s);
    RStripEnds(LStrip(s));
  }

  lemma {:induction false} LStripDrops(before: string, core: string)
    requires (forall c | c in before :: IsSpace(c)) && (core == "" || !IsSpace(core[0]))
    ensures LStrip(before + core) == core
  {
    if before == "" {
      assert before + core == core;
    } else {
      assert before[0] in before && forall c | c in before[1..] :: c in before;
      assert (before + core)[1..] == before[1..] + core;
      LStripDrops(before[1..], core);
    }
  }

  lemma {:induction false} RStripDrops(core: string, after: string)
    requires (forall c | c in after :: IsSpace(c)) && (core == "" || !IsSpace(core[|core|-1]))
    ensures RStrip(core + after) == core
  {
    if after == "" {
      assert core + after == core;
    } else {
      var last := after[|after|-1];
      assert last in after && forall c | c in after[..|after|-1] :: c in after;
      assert (core + after)[..|core + after|-1] == core + after[..|after|-1];
      RStripDrops(core, after[..|after|-1]);
    }
  }

  /** Stripping removes surrounding space and nothing else. */
  lemma StripDrops(before: string, core: string, after: string)
    requires Blank(before) && Blank(after) && core != "" && Trim(core)
    ensures Strip(before + core + after) == core
  {
    assert before + core + after == before + (core + after);
    LStripDrops(before, core + after);
    RStripDrops(core, after);
  }

  lemma StripStripped(s: string)
    requires Trim(s)
    ensures Strip(s) == s
  {
    LStripDrops("", s);
    RStripDrops(s, "");
    assert "" + s == s && s + "" == s;
  }
}
