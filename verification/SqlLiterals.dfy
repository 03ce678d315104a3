/** The lexical elements by their written form: each is copied whole, whatever it contains. */
module SqlLiterals {
  import opened Prelude
  import opened SqlLexer
  import opened SqlScanners
  import opened SqlScannerLaws

  /** `lit`, standing in code before `rest`, is copied character by character by both scanners. */
  ghost predicate CopiedWhole(lit: string, rest: string, m: Mode) {
    exists ks: seq<Piece> ::
      && Lex(lit + rest, m) == ks + Lex(rest, Code)
      && Texts(ks) == lit && forall p :: p in ks ==> p.Kept?
  }

  lemma ExtendCopied(t: string, lit: string, rest: string, m: Mode, m': Mode)
    requires t != "" && Step(t + (lit + rest), m) == (Kept(t), m') && CopiedWhole(lit, rest, m')
    ensures CopiedWhole(t + lit, rest, m)
  {
    hide Step, Lex, Texts;
    var ks :| Lex(lit + rest, m') == ks + Lex(rest, Code) && Texts(ks) == lit && forall p :: p in ks ==> p.Kept?;
    var all := [Kept(t)] + ks;
    LexFirst(t, lit + rest, m, m');
    TextsFirst(Kept(t), ks);
    assert t + lit + rest == t + (lit + rest);
    assert Lex(t + lit + rest, m) == all + Lex(rest, Code);
  }

  lemma LexFirst(t: string, x: string, m: Mode, m': Mode)
    requires t != "" && Step(t + x, m) == (Kept(t), m')
    ensures Lex(t + x, m) == [Kept(t)] + Lex(x, m')
  {
    hide Step;
    assert (t + x)[|t|..] == x;
  }

  lemma TextsFirst(p: Piece, ks: seq<Piece>)
    ensures Texts([p] + ks) == Text(p) + Texts(ks)
  {
  }

  lemma CopiedNothing(rest: string)
    ensures CopiedWhole("", rest, Code)
  {
    assert "" + rest == rest && [] + Lex(rest, Code) == Lex(rest, Code);
    assert Texts([]) == "";
  }

  /** The last piece of an element, `t`, brings the automaton back to code. */
  lemma CloseCopied(t: string, rest: string, m: Mode)
    requires t != "" && Step(t + rest, m) == (Kept(t), Code)
    ensures CopiedWhole(t, rest, m)
  {
    hide Step;
    CopiedNothing(rest);
    assert "" + rest == rest && t + "" == t;
    ExtendCopied(t, "", rest, m, Code);
  }

  /** A body with each quote doubled. */
  function Doubled(body: string, q: char): string {
    if body == "" then "" else (if body[0] == q then [q, q] else [body[0]]) + Doubled(body[1..], q)
  }

  lemma QuotedBody(q: QuoteChar, body: string, rest: string)
    requires rest == "" || rest[0] != q
    ensures CopiedWhole(Doubled(body, q) + [q], rest, Quoted(q))
  {
    if body == "" {
      CloseCopied([q], rest, Quoted(q));
      assert "" + [q] == [q];
    } else {
      QuotedBody(q, body[1..], rest);
      var t := if body[0] == q then [q, q] else [body[0]];
      var tail := Doubled(body[1..], q) + [q];
      ExtendCopied(t, tail, rest, Quoted(q), Quoted(q));
      assert Doubled(body, q) + [q] == t + tail;
    }
  }

  /** A quoted literal or identifier, quotes inside it doubled. */
  lemma QuotedIsCopied(q: QuoteChar, body: string, rest: string)
    requires rest == "" || rest[0] != q
    ensures CopiedWhole([q] + Doubled(body, q) + [q], rest, Code)
  {
    QuotedBody(q, body, rest);
    var tail := Doubled(body, q) + [q];
    ExtendCopied([q], tail, rest, Code, Quoted(q));
    assert [q] + Doubled(body, q) + [q] == [q] + tail;
  }

  lemma LineCommentBody(body: string, rest: string)
    requires '\n' !in body
    ensures CopiedWhole(body + "\n", rest, LineComment)
  {
    if body == "" {
      CloseCopied("\n", rest, LineComment);
      assert "" + "\n" == "\n";
    } else {
      LineCommentBody(body[1..], rest);
      ExtendCopied([body[0]], body[1..] + "\n", rest, LineComment, LineComment);
      assert body + "\n" == [body[0]] + (body[1..] + "\n");
    }
  }

  /** A line comment runs to the end of its line. */
  lemma LineCommentIsCopied(body: string, rest: string)
    requires '\n' !in body
    ensures CopiedWhole("--" + body + "\n", rest, Code)
  {
    LineCommentBody(body, rest);
    ExtendCopied("--", body + "\n", rest, Code, LineComment);
    assert "--" + body + "\n" == "--" + (body + "\n");
  }

  predicate HasNoCloser(body: string) { forall k :: 0 <= k < |body| - 1 ==> !(body[k] == '*' && body[k + 1] == '/') }

  lemma BlockCommentBody(body: string, rest: string)
    requires HasNoCloser(body)
    ensures CopiedWhole(body + "*/", rest, BlockComment)
  {
    if body == "" {
      CloseCopied("*/", rest, BlockComment);
      assert "" + "*/" == "*/";
    } else {
      assert forall k :: 0 <= k < |body| - 1 ==> body[1..][k] == body[k + 1];
      BlockCommentBody(body[1..], rest);
      var s := [body[0]] + ((body[1..] + "*/") + rest);
      assert s[1] == if |body| > 1 then body[1] else '*';
      ExtendCopied([body[0]], body[1..] + "*/", rest, BlockComment, BlockComment);
      assert body + "*/" == [body[0]] + (body[1..] + "*/");
    }
  }

  /** A block comment ends at the first closer: openers inside it mean nothing. */
  lemma BlockCommentIsCopied(body: string, rest: string)
    requires HasNoCloser(body)
    ensures CopiedWhole("/*" + body + "*/", rest, Code)
  {
    BlockCommentBody(body, rest);
    ExtendCopied("/*", body + "*/", rest, Code, BlockComment);
    assert "/*" + body + "*/" == "/*" + (body + "*/");
  }

  lemma DollarBody(tag: Tag, body: string, rest: string)
    requires forall k :: 0 <= k < |body| ==> !(tag <= (body + tag)[k..])
    ensures CopiedWhole(body + tag, rest, Dollar(tag))
  {
    hide Step, CopiedWhole, MatchTag, IsTag;
    if body == "" {
      DollarEnds(tag, rest);
      assert "" + tag == tag;
    } else {
      var more := body[1..] + tag;
      assert (body + tag)[1..] == more;
      assert forall k :: 0 <= k < |body| - 1 ==> more[k..] == (body + tag)[k + 1..];
      assert body + tag == [body[0]] + more == (body + tag)[0..];
      DollarBody(tag, body[1..], rest);
      DollarGoesOn(tag, body[0], more, rest);
      ExtendCopied([body[0]], more, rest, Dollar(tag), Dollar(tag));
    }
  }

  lemma DollarEnds(tag: Tag, rest: string)
    ensures CopiedWhole(tag, rest, Dollar(tag))
  {
    hide MatchTag, CopiedWhole;
    CloseCopied(tag, rest, Dollar(tag));
  }

  lemma DollarGoesOn(tag: Tag, c: char, more: string, rest: string)
    requires |tag| <= |[c] + more| && !(tag <= [c] + more)
    ensures Step([c] + (more + rest), Dollar(tag)) == (Kept([c]), Dollar(tag))
  {
    hide MatchTag, IsTag;
    assert [c] + (more + rest) == ([c] + more) + rest;
    assert (([c] + more) + rest)[..|tag|] == ([c] + more)[..|tag|];
  }

  lemma MatchTagFinds(tag: Tag, x: string)
    requires |tag| > 2 ==> IsIdentStart(tag[1])
    ensures MatchTag(tag + x) == Some(tag)
  {
    var s := (tag + x)[1..];
    assert forall k :: 0 <= k < |tag| - 2 ==> s[k] == tag[k + 1];
    IdentRunUnique(s, |tag| - 2);
    assert (tag + x)[..|tag|] == tag;
  }

  /** A dollar-quoted text ends at the first repetition of its own tag. */
  lemma DollarQuotedIsCopied(tag: Tag, body: string, rest: string)
    requires |tag| > 2 ==> IsIdentStart(tag[1])
    requires forall k :: 0 <= k < |body| ==> !(tag <= (body + tag)[k..])
    ensures CopiedWhole(tag + body + tag, rest, Code)
  {
    DollarBody(tag, body, rest);
    MatchTagFinds(tag, body + tag + rest);
    ExtendCopied(tag, body + tag, rest, Code, Dollar(tag));
    assert tag + body + tag == tag + (body + tag);
  }

  /** A copied element keeps its question marks, and what follows it is converted as if it stood alone. */
  lemma CopiedIsNotConverted(lit: string, rest: string)
    requires CopiedWhole(lit, rest, Code)
    ensures Qmark(lit + rest) == lit + Qmark(rest)
  {
    var ks: seq<Piece> :| Lex(lit + rest, Code) == ks + Lex(rest, Code) && Texts(ks) == lit && forall p :: p in ks ==> p.Kept?;
    RenderConcat(ks, Lex(rest, Code));
    NothingToRender(ks);
  }

  /** A copied element is never cut: its delimiters stay inside the statement it belongs to. */
  lemma CopiedIsNotSplit(lit: string, rest: string)
    requires CopiedWhole(lit, rest, Code)
    ensures var gs := Segments(Lex(rest, Code));
            Split(lit + rest) == Emit(lit + Texts(gs[0])) + Statements(gs[1..])
  {
    var ks: seq<Piece> :| Lex(lit + rest, Code) == ks + Lex(rest, Code) && Texts(ks) == lit && forall p :: p in ks ==> p.Kept?;
    var gs := Segments(Lex(rest, Code));
    SegmentsPrepend(ks, Lex(rest, Code));
    TextsConcat(ks, gs[0]);
  }

  lemma SegmentsPrepend(ks: seq<Piece>, ps: seq<Piece>)
    requires forall p :: p in ks ==> p.Kept?
    ensures Segments(ks + ps) == [ks + Segments(ps)[0]] + Segments(ps)[1..]
  {
    if ks == [] {
      assert ks + ps == ps && ks + Segments(ps)[0] == Segments(ps)[0];
    } else {
      SegmentsPrepend(ks[1..], ps);
      assert (ks + ps)[1..] == ks[1..] + ps;
      assert ks[0].Kept? && (ks + ps)[0] == ks[0];
      assert [ks[0]] + (ks[1..] + Segments(ps)[0]) == ks + Segments(ps)[0];
      assert Segments(ks + ps) == [[ks[0]] + Segments(ks[1..] + ps)[0]] + Segments(ks[1..] + ps)[1..];
      assert ([ks[1..] + Segments(ps)[0]] + Segments(ps)[1..])[1..] == Segments(ps)[1..];
    }
  }
}
