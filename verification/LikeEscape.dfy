/** Search keywords as LIKE patterns: `like_contains` escapes the keyword so that the pattern, matched by
    the rules of LIKE in section 8.5 of ISO/IEC 9075-2 with `\` as the escape, means containment. */
module LikeEscape {

  // ---------- The pattern ----------

  /** `str.replace` for a single character. */
  function Replace(s: string, c: char, with: string): string {
    if s == "" then "" else (if s[0] == c then with else [s[0]]) + Replace(s[1..], c, with)
  }

  /** Three replacements, the escape character first. */
  function Escaped(keyword: string): string {
    Replace(Replace(Replace(keyword, '\\', "\\\\"), '%', "\\%"), '_', "\\_")
  }

  function LikeContains(keyword: string): string { "%" + Escaped(keyword) + "%" }

  predicate Meta(c: char) { c == '\\' || c == '%' || c == '_' }

  /** Each character on its own. */
  function Escape(s: string): string {
    if s == "" then "" else (if Meta(s[0]) then ['\\', s[0]] else [s[0]]) + Escape(s[1..])
  }

  lemma {:induction false} ReplaceBoth(s: string, t: string, c: char, with: string)
    ensures Replace(s + t, c, with) == Replace(s, c, with) + Replace(t, c, with)
    decreases |s|
  {
    if s == "" {
      assert s + t == t;
    } else {
      assert (s + t)[1..] == s[1..] + t;
      ReplaceBoth(s[1..], t, c, with);
    }
  }

  lemma ReplaceOne(x: char, c: char, with: string)
    ensures Replace([x], c, with) == if x == c then with else [x]
  {
    assert [x][1..] == "";
  }

  /** The replacements one after the other do what a single pass would. */
  lemma {:induction false} ReplacementsAreOnePass(s: string)
    ensures Escaped(s) == Escape(s)
    decreases |s|
  {
    if s != "" {
      var head, tail := [s[0]], s[1..];
      assert s == head + tail;
      ReplacementsAreOnePass(tail);
      var one := Replace(head, '\\', "\\\\");
      ReplaceBoth(head, tail, '\\', "\\\\");
      ReplaceBoth(one, Replace(tail, '\\', "\\\\"), '%', "\\%");
      ReplaceBoth(Replace(one, '%', "\\%"), Replace(Replace(tail, '\\', "\\\\"), '%', "\\%"), '_', "\\_");
      EscapedOne(s[0]);
    }
  }

  lemma EscapedOne(x: char)
    ensures Escaped([x]) == if Meta(x) then ['\\', x] else [x]
  {
    ReplaceOne(x, '\\', "\\\\");
    ReplaceOne(x, '%', "\\%");
    ReplaceOne(x, '_', "\\_");
    var esc := ['\\'];
    ReplaceBoth(esc, esc, '%', "\\%");
    ReplaceBoth(esc, esc, '_', "\\_");
    ReplaceBoth(esc, "%", '_', "\\_");
    ReplaceOne('\\', '%', "\\%");
    ReplaceOne('\\', '_', "\\_");
    ReplaceOne('%', '_', "\\_");
    assert "\\\\" == esc + esc && "\\%" == esc + "%";
  }

  /** The escape character last would escape its own escapes. */
  lemma EscapeCharacterComesFirst()
    ensures Replace(Replace("%", '%', "\\%"), '\\', "\\\\") != Escaped("%")
  {
    ReplaceOne('%', '%', "\\%");
    assert "\\%" == ['\\'] + "%";
    ReplaceBoth(['\\'], "%", '\\', "\\\\");
    ReplaceOne('\\', '\\', "\\\\");
    EscapedOne('%');
    assert |Replace(Replace("%", '%', "\\%"), '\\', "\\\\")| >= 2;
    assert Replace(Replace("%", '%', "\\%"), '\\', "\\\\")[1] == '\\';
  }

  // ---------- What it matches ----------

  /** LIKE: % is any string, _ any character, and an escaped character itself. */
  predicate Match(p: string, s: string)
    decreases |p| + |s|
  {
    if p == "" then s == ""
    else if p[0] == '%' then Match(p[1..], s) || (s != "" && Match(p, s[1..]))
    else if s == "" then false
    else if p[0] == '_' then Match(p[1..], s[1..])
    else if p[0] == '\\' && |p| > 1 then s[0] == p[1] && Match(p[2..], s[1..])
    else s[0] == p[0] && Match(p[1..], s[1..])
  }

  predicate At(k: string, s: string, i: int) { 0 <= i <= |s| - |k| && s[i..i + |k|] == k }

  ghost predicate Contains(s: string, k: string) { exists i :: At(k, s, i) }

  lemma EscapedCharacterMatchesItself(c: char, rest: string, s: string)
    ensures Match((if Meta(c) then ['\\', c] else [c]) + rest, s) <==> s != "" && s[0] == c && Match(rest, s[1..])
  {
    var p := (if Meta(c) then ['\\', c] else [c]) + rest;
    assert p[if Meta(c) then 2 else 1..] == rest;
  }

  /** An escaped text matches itself and nothing else. */
  lemma {:induction false} EscapedMatchesItself(k: string, rest: string, s: string)
    ensures Match(Escape(k) + rest, s) <==> |k| <= |s| && s[..|k|] == k && Match(rest, s[|k|..])
    decreases |k|
  {
    hide Match;
    if k == "" {
      assert Escape(k) + rest == rest && s[0..] == s && s[..0] == k;
    } else {
      assert Escape(k) + rest == (if Meta(k[0]) then ['\\', k[0]] else [k[0]]) + (Escape(k[1..]) + rest);
      EscapedCharacterMatchesItself(k[0], Escape(k[1..]) + rest, s);
      if s != "" {
        EscapedMatchesItself(k[1..], rest, s[1..]);
        if |k| <= |s| {
          assert s[1..][|k| - 1..] == s[|k|..];
          assert s[..|k|] == [s[0]] + s[1..][..|k| - 1] && k == [k[0]] + k[1..];
        }
      }
    }
  }

  lemma {:induction false} AnyTail(s: string)
    ensures Match("%", s)
    decreases |s|
  {
    assert "%"[1..] == "";
    if s != "" { AnyTail(s[1..]); }
  }

  lemma {:induction false} AnyHead(k: string, s: string)
    ensures Match("%" + (Escape(k) + "%"), s) <==> Contains(s, k)
    decreases |s|
  {
    var p := Escape(k) + "%";
    assert ("%" + p)[1..] == p;
    EscapedMatchesItself(k, "%", s);
    if |k| <= |s| { AnyTail(s[|k|..]); }
    assert Match(p, s) <==> At(k, s, 0);
    if s != "" {
      AnyHead(k, s[1..]);
      if i :| At(k, s[1..], i) { assert s[1..][i..i + |k|] == s[i + 1..i + 1 + |k|]; assert At(k, s, i + 1); }
      if i :| At(k, s, i) && i > 0 { assert s[1..][i - 1..i - 1 + |k|] == s[i..i + |k|]; assert At(k, s[1..], i - 1); }
    }
  }

  /** The pattern of a keyword matches exactly the texts that contain the keyword, wildcards, escape
      characters and all. */
  lemma KeywordMatchesExactlyWhenContained(k: string, s: string)
    ensures Match(LikeContains(k), s) <==> Contains(s, k)
  {
    ReplacementsAreOnePass(k);
    assert LikeContains(k) == "%" + (Escape(k) + "%");
    AnyHead(k, s);
  }

  // ---------- Ignoring case ----------

  function Folded(f: char -> char, s: string): string {
    if s == "" then "" else [f(s[0])] + Folded(f, s[1..])
  }

  /** A case folding leaves the special characters alone and makes no new ones. */
  ghost predicate IsFold(f: char -> char) { forall c :: (Meta(c) ==> f(c) == c) && (Meta(f(c)) ==> Meta(c)) }

  lemma {:induction false} FoldedEscape(f: char -> char, k: string)
    requires IsFold(f)
    ensures Folded(f, Escape(k)) == Escape(Folded(f, k))
    decreases |k|
  {
    if k != "" {
      var head := if Meta(k[0]) then ['\\', k[0]] else [k[0]];
      FoldedEscape(f, k[1..]);
      FoldedBoth(f, head, Escape(k[1..]));
      assert Meta(k[0]) ==> head[1..] == [k[0]] && head[1..][1..] == "";
      assert Folded(f, k)[1..] == Folded(f, k[1..]);
    }
  }

  lemma {:induction false} FoldedBoth(f: char -> char, s: string, t: string)
    ensures Folded(f, s + t) == Folded(f, s) + Folded(f, t)
    decreases |s|
  {
    if s == "" {
      assert s + t == t;
    } else {
      assert (s + t)[1..] == s[1..] + t;
      FoldedBoth(f, s[1..], t);
    }
  }

  /** `ilike_contains`: both sides are folded before they are compared. */
  lemma KeywordMatchesIgnoringCase(f: char -> char, k: string, s: string)
    requires IsFold(f)
    ensures Match(Folded(f, LikeContains(k)), Folded(f, s)) <==> Contains(Folded(f, s), Folded(f, k))
  {
    ReplacementsAreOnePass(k);
    ReplacementsAreOnePass(Folded(f, k));
    FoldedEscape(f, k);
    FoldedBoth(f, "%" + Escape(k), "%");
    FoldedBoth(f, "%", Escape(k));
    assert Meta('%') && "%"[1..] == "";
    assert Folded(f, "%") == "%";
    KeywordMatchesExactlyWhenContained(Folded(f, k), Folded(f, s));
  }
}
