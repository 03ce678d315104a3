/** Script text that opens no quoted text and no comment: every question mark is a placeholder, every semicolon cuts. */
module SqlPlain {
  import opened Prelude
  import opened SqlLexer
  import opened Strips
  import opened SqlScanners
  import opened SqlScannerLaws

  /** A dollar tag as the scanners know it: two dollars around nothing or around a name. */
  predicate DollarTag(t: string) { IsTag(t) && (|t| > 2 ==> IsIdentStart(t[1])) }

  /** The text begins a quoted text, a comment or a dollar-quoted text. */
  ghost predicate Opens(s: string) {
    s != "" && (IsQuote(s[0]) || "--" <= s || "/*" <= s || exists t :: DollarTag(t) && t <= s)
  }

  /** A tag is found exactly where the text starts with one, and then that one. */
  lemma TagExactly(s: string, t: string)
    requires s != "" && s[0] == '$'
    ensures MatchTag(s) == Some(t) <==> DollarTag(t) && t <= s
  {
    var n := IdentRun(s[1..]);
    assert forall k :: 0 <= k < n ==> s[1..][k] == s[k + 1];
    if DollarTag(t) && t <= s {
      assert forall k :: 0 <= k < |t| - 2 ==> s[1..][k] == t[k + 1];
      IdentRunUnique(s[1..], |t| - 2);
      assert s[..|t|] == t;
    }
  }

  lemma PlainStep(s: string)
    requires s != "" && !Opens(s)
    ensures Step(s, Code) == (Free(s[0]), Code)
  {
    assert forall a, b: char :: |s| > 1 && s[0] == a && s[1] == b ==> [a, b] <= s;
    if s[0] == '$' && MatchTag(s).Some? { TagExactly(s, MatchTag(s).value); }
  }

  /** Nothing in `s`, standing before `rest`, opens anything. */
  ghost predicate Plain(s: string, rest: string) { forall k :: 0 <= k < |s| ==> !Opens((s + rest)[k..]) }

  function Frees(s: string): seq<Piece> { if s == "" then [] else [Free(s[0])] + Frees(s[1..]) }

  lemma {:induction false} PlainIsFree(s: string, rest: string)
    requires Plain(s, rest)
    ensures Lex(s + rest, Code) == Frees(s) + Lex(rest, Code)
  {
    hide Step, Opens;
    if s == "" {
      assert s + rest == rest;
    } else {
      assert (s + rest)[0..] == s + rest && (s + rest)[1..] == s[1..] + rest;
      PlainStep(s + rest);
      assert Plain(s[1..], rest) by {
        forall k | 0 <= k < |s| - 1 ensures !Opens((s[1..] + rest)[k..]) { assert (s[1..] + rest)[k..] == (s + rest)[k + 1..]; }
      }
      PlainIsFree(s[1..], rest);
      Unfold(s + rest, Code);
    }
  }

  /** Every question mark as a placeholder, everything else as it is. */
  function Marked(s: string): string { if s == "" then "" else (if s[0] == '?' then "%s" else [s[0]]) + Marked(s[1..]) }

  lemma {:induction false} FreesRender(s: string)
    ensures Render(Frees(s)) == Marked(s)
  {
    if s != "" { FreesRender(s[1..]); }
  }

  /** Plain text is converted at every question mark, and what follows it as if it stood alone. */
  lemma PlainIsConverted(s: string, rest: string)
    requires Plain(s, rest)
    ensures Qmark(s + rest) == Marked(s) + Qmark(rest)
  {
    PlainIsFree(s, rest);
    FreesRender(s);
    RenderConcat(Frees(s), Lex(rest, Code));
  }

  lemma CutHere(ps: seq<Piece>)
    ensures Segments([Free(';')] + ps) == [[]] + Segments(ps)
  {
    assert ([Free(';')] + ps)[1..] == ps;
  }

  lemma CutLater(c: char, ps: seq<Piece>, first: seq<Piece>, rest: seq<seq<Piece>>)
    requires c != ';' && Segments(ps) == [first] + rest
    ensures Segments([Free(c)] + ps) == [[Free(c)] + first] + rest
  {
    assert ([Free(c)] + ps)[1..] == ps && Segments(ps)[0] == first && Segments(ps)[1..] == rest;
  }

  lemma {:induction false} FreesCut(s: string, ps: seq<Piece>)
    requires ';' !in s
    ensures Segments(Frees(s) + [Free(';')] + ps) == [Frees(s)] + Segments(ps)
  {
    hide Segments;
    if s == "" {
      assert Frees(s) + [Free(';')] + ps == [Free(';')] + ps;
      CutHere(ps);
    } else {
      var later := Frees(s[1..]) + [Free(';')] + ps;
      assert s[0] in s && forall c :: c in s[1..] ==> c in s;
      FreesCut(s[1..], ps);
      CutLater(s[0], later, Frees(s[1..]), Segments(ps));
      assert Frees(s) + [Free(';')] + ps == [Free(s[0])] + later;
    }
  }

  lemma {:induction false} FreesSpell(s: string)
    ensures Texts(Frees(s)) == s
  {
    if s != "" { FreesSpell(s[1..]); }
  }

  /** A statement ends at a semicolon after plain text, and the rest is split as if it stood alone. */
  lemma PlainIsCut(s: string, rest: string)
    requires Plain(s + ";", rest) && ';' !in s
    ensures Split(s + ";" + rest) == (if Strip(s) == "" then [] else [Strip(s)]) + Split(rest)
  {
    PlainIsFree(s + ";", rest);
    FreesSplit(s, ";");
    assert Frees(";") == [Free(';')] by { assert ";"[1..] == ""; }
    FreesCut(s, Lex(rest, Code));
    FreesSpell(s);
    assert ([Frees(s)] + Segments(Lex(rest, Code)))[1..] == Segments(Lex(rest, Code));
  }

  lemma {:induction false} FreesSplit(a: string, b: string)
    ensures Frees(a + b) == Frees(a) + Frees(b)
  {
    if a == "" {
      assert a + b == b;
    } else {
      assert (a + b)[1..] == a[1..] + b;
      FreesSplit(a[1..], b);
    }
  }
}
