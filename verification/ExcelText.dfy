/** Cell texts on their way into a workbook and back. The writer strips what would spoil the file and
    keeps spreadsheet programs from taking a text for a formula; the reader trims. */
module ExcelText {
  import opened Wrappers

  type Cell = Option<string>

  /** What `str.strip` takes off. */
  predicate Space(c: char) {
    var n := c as int;
    || 0x09 <= n <= 0x0d || 0x1c <= n <= 0x20 || n == 0x85 || n == 0xa0 || n == 0x1680
    || 0x2000 <= n <= 0x200a || n == 0x2028 || n == 0x2029 || n == 0x202f || n == 0x205f || n == 0x3000
  }

  /** Characters that a workbook cannot hold. */
  predicate Illegal(c: char) {
    var n := c as int;
    n <= 0x08 || n == 0x0b || n == 0x0c || 0x0e <= n <= 0x1f || n == 0xfffe || n == 0xffff
  }

  predicate Trigger(c: char) { c in {'=', '+', '-', '@', '\t', '\r', '\n'} }

  function Cleaned(s: string): string {
    if s == "" then "" else (if Illegal(s[0]) then "" else [s[0]]) + Cleaned(s[1..])
  }

  function LStrip(s: string): string {
    if s != "" && Space(s[0]) then LStrip(s[1..]) else s
  }

  function RStrip(s: string): string {
    if s != "" && Space(s[|s| - 1]) then RStrip(s[..|s| - 1]) else s
  }

  function Strip(s: string): string { RStrip(LStrip(s)) }

  /** The writer's canonical text. */
  function ToText(value: Cell): string {
    var text := Cleaned(if value.Some? then value.value else "");
    if text != "" && Trigger(text[0]) then "'" + text else text
  }

  /** The workbook keeps an empty text as an empty cell. */
  function Stored(text: string): Cell { if text == "" then None else Some(text) }

  /** The reader's canonical text. */
  function FromCell(c: Cell): string { if c.Some? then Strip(c.value) else "" }

  /** Out and in again. */
  function Trip(s: string): string { FromCell(Stored(ToText(Some(s)))) }

  predicate IsClean(s: string) { forall c | c in s :: !Illegal(c) }

  predicate IsStripped(s: string) { s != "" ==> !Space(s[0]) && !Space(s[|s| - 1]) }

  predicate StartsWithTrigger(s: string) { s != "" && Trigger(s[0]) }

  predicate Plain(s: string) { IsClean(s) && IsStripped(s) && !StartsWithTrigger(s) }

  lemma {:induction false} CleanedIsClean(s: string)
    ensures IsClean(Cleaned(s)) && (IsClean(s) ==> Cleaned(s) == s)
    decreases |s|
  {
    if s != "" {
      CleanedIsClean(s[1..]);
      assert IsClean(s) ==> IsClean(s[1..]) && s[0] in s;
    }
  }

  lemma {:induction false} LStripStrips(s: string)
    ensures var r := LStrip(s);
      && |r| <= |s| && r == s[|s| - |r|..] && (r != "" ==> !Space(r[0]))
      && (forall i | 0 <= i < |s| - |r| :: Space(s[i]))
    decreases |s|
  {
    if s != "" && Space(s[0]) { LStripStrips(s[1..]); }
  }

  lemma {:induction false} RStripStrips(s: string)
    ensures var r := RStrip(s);
      && |r| <= |s| && r == s[..|r|] && (r != "" ==> !Space(r[|r| - 1]))
      && (forall i | |r| <= i < |s| :: Space(s[i]))
    decreases |s|
  {
    if s != "" && Space(s[|s| - 1]) { RStripStrips(s[..|s| - 1]); }
  }

  /** Trimming keeps a middle part without spaces at its ends, and drops only spaces. */
  lemma StripStrips(s: string)
    ensures IsStripped(Strip(s)) && (IsStripped(s) ==> Strip(s) == s)
    ensures IsClean(s) ==> IsClean(Strip(s))
    ensures s != "" && !Space(s[0]) ==> Strip(s) != "" && Strip(s)[0] == s[0]
  {
    var l := LStrip(s);
    LStripStrips(s);
    RStripStrips(l);
    var r := RStrip(l);
    if r != "" { assert r[0] == l[0]; }
    forall c | c in r ensures c in s { }
    if s != "" && !Space(s[0]) {
      assert l == s;
    }
  }

  /** Trimming takes nothing but a beginning and an end of spaces away. */
  lemma StripIsTheMiddle(s: string) returns (before: string, after: string)
    ensures s == before + Strip(s) + after
    ensures (forall c | c in before :: Space(c)) && (forall c | c in after :: Space(c))
  {
    var l := LStrip(s);
    LStripStrips(s);
    RStripStrips(l);
    assert Strip(s) == RStrip(l);
    hide Strip, LStrip, RStrip, Space;
    before, after := s[..|s| - |l|], l[|Strip(s)|..];
    assert l == Strip(s) + after;
    assert s == before + l;
  }

  /** Each character is kept or dropped on its own. */
  lemma {:induction false} CleanedBoth(s: string, t: string)
    ensures Cleaned(s + t) == Cleaned(s) + Cleaned(t)
    decreases |s|
  {
    if s == "" {
      assert s + t == t;
    } else {
      assert (s + t)[1..] == s[1..] + t;
      CleanedBoth(s[1..], t);
    }
  }

  lemma CleanedOne(c: char)
    ensures Cleaned([c]) == if Illegal(c) then "" else [c]
  {
    assert [c][1..] == "";
  }

  /** What becomes of each character between two others: control characters and noncharacters are dropped, and
      everything else is kept, line breaks and tabs included. */
  lemma CharacterInside(c: char)
    ensures Trip(['a', c, 'b']) ==
            var n := c as int;
            if n <= 8 || n == 11 || n == 12 || 14 <= n <= 31 || n == 65534 || n == 65535 then "ab" else ['a', c, 'b']
  {
    var s := ['a', c, 'b'];
    assert s == "a" + ([c] + "b") && "ab" == "a" + "b";
    CleanedBoth("a", [c] + "b");
    CleanedBoth([c], "b");
    CleanedOne(c);
    CleanedOne('a');
    CleanedOne('b');
    assert !Space('a') && !Space('b') && !Trigger('a');
    StripStrips("ab");
    StripStrips(s);
    hide Cleaned, Strip, Space, Trigger, Illegal;
    assert Cleaned(s) == if Illegal(c) then "ab" else s;
    IllegalCharacters(c);
  }

  lemma IllegalCharacters(c: char)
    ensures var n := c as int;
      Illegal(c) <==> n <= 8 || n == 11 || n == 12 || 14 <= n <= 31 || n == 65534 || n == 65535
  {
  }

  /** What becomes of each character on its own: the beginning of a formula gets an apostrophe, of which alone a tab
      or a line break leaves anything, and any other space is trimmed. */
  lemma CharacterAlone(c: char)
    ensures Trip([c]) ==
            var n := c as int;
            if c == '=' || c == '+' || c == '-' || c == '@' then ['\'', c]
            else if n == 9 || n == 10 || n == 13 then "'"
            else if n <= 32 || n == 65534 || n == 65535 || n == 133 || n == 160 || n == 5760 || 8192 <= n <= 8202
                    || n == 8232 || n == 8233 || n == 8239 || n == 8287 || n == 12288 then ""
            else [c]
  {
    CleanedOne(c);
    StripOne(c);
    StripQuoted(c);
    assert "'" + [c] == ['\'', c];
    hide Strip, Cleaned;
  }

  lemma StripOne(c: char)
    ensures Strip([c]) == (if Space(c) then "" else [c]) && Strip("") == ""
  {
    hide Space;
    assert [c][1..] == "" && [c][..0] == "";
    assert LStrip([c]) == if Space(c) then "" else [c];
    assert RStrip([c]) == if Space(c) then "" else [c];
  }

  lemma StripQuoted(c: char)
    ensures Strip(['\'', c]) == if Space(c) then "'" else ['\'', c]
  {
    var quoted := ['\'', c];
    assert !Space('\'');
    hide Space;
    assert LStrip(quoted) == quoted && quoted[..1] == "'" && RStrip("'") == "'";
  }

  /** A text that only looks like a formula comes back with an apostrophe before it, and otherwise as it was. */
  lemma FormulaIsQuoted(s: string)
    requires IsClean(s) && s != "" && !Space(s[|s| - 1])
    requires s[0] in {'=', '+', '-', '@', '\t', '\r', '\n'}
    ensures Trip(s) == "'" + s
  {
    CleanedIsClean(s);
    StripStrips("'" + s);
  }

  lemma TripIsTidy(s: string)
    ensures IsClean(Trip(s)) && IsStripped(Trip(s))
    ensures StartsWithTrigger(Cleaned(s)) ==> Trip(s) != "" && Trip(s)[0] == '\''
  {
    var text := ToText(Some(s));
    CleanedIsClean(s);
    StripStrips(text);
    assert !Illegal('\'');
  }

  /** A text survives the trip exactly when it holds nothing illegal, has no space at its ends and does
      not look like a formula. */
  lemma SurvivesExactlyWhenPlain(s: string)
    ensures Trip(s) == s <==> Plain(s)
  {
    TripIsTidy(s);
    CleanedIsClean(s);
    StripStrips(s);
  }

  /** Two trips settle any text, and one does unless trimming uncovers a formula. */
  lemma TripsSettle(s: string)
    ensures Trip(Trip(Trip(s))) == Trip(Trip(s))
    ensures Trip(Trip(s)) == Trip(s) <==> !StartsWithTrigger(Trip(s))
  {
    var once := Trip(s);
    TripIsTidy(s);
    SurvivesExactlyWhenPlain(once);
    CleanedIsClean(once);
    TripIsTidy(once);
    SurvivesExactlyWhenPlain(Trip(once));
  }

  /** The second trip can be needed. */
  lemma OneTripIsNotEnough()
    ensures Trip(" =1") == "=1" && Trip(Trip(" =1")) == "'=1"
  {
    assert IsClean(" =1") && IsClean("=1");
    CleanedIsClean(" =1");
    CleanedIsClean("=1");
    assert Space(' ') && !Space('=') && !Space('1') && !Space('\'');
    hide Cleaned, IsClean, Space;
    assert " =1"[1..] == "=1";
    assert LStrip(" =1") == LStrip("=1") == "=1" && RStrip("=1") == "=1";
    assert "'" + "=1" == "'=1" && LStrip("'=1") == "'=1" && RStrip("'=1") == "'=1";
  }
}
