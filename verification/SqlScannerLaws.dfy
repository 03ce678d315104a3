/** What the two scanners of database.py guarantee, alone and together. */
module SqlScannerLaws {
  import opened SqlLexer
  import opened Strips
  import opened SqlScanners

  // ----- the placeholder rewriting -----

  /** The pieces `Qmark` writes: every free `?` became the two free characters `%` and `s`. */
  function Substituted(ps: seq<Piece>): seq<Piece> {
    if ps == [] then []
    else (if ps[0] == Free('?') then [Free('%'), Free('s')] else [ps[0]]) + Substituted(ps[1..])
  }

  lemma {:induction false} RenderConcat(ps: seq<Piece>, qs: seq<Piece>)
    ensures Render(ps + qs) == Render(ps) + Render(qs)
  {
    if ps == [] {
      assert ps + qs == qs;
    } else {
      assert (ps + qs)[1..] == ps[1..] + qs;
      RenderConcat(ps[1..], qs);
    }
  }

  lemma {:induction false} SubstitutedConcat(ps: seq<Piece>, qs: seq<Piece>)
    ensures Substituted(ps + qs) == Substituted(ps) + Substituted(qs)
  {
    if ps == [] {
      assert ps + qs == qs;
    } else {
      assert (ps + qs)[1..] == ps[1..] + qs;
      SubstitutedConcat(ps[1..], qs);
    }
  }

  lemma {:induction false} NothingToRender(ps: seq<Piece>)
    requires Free('?') !in ps
    ensures Render(ps) == Texts(ps) && Substituted(ps) == ps
  {
    if ps != [] {
      NothingToRender(ps[1..]);
    }
  }

  lemma {:induction false} SubstitutedSpells(ps: seq<Piece>)
    ensures Texts(Substituted(ps)) == Render(ps) && Free('?') !in Substituted(ps)
  {
    if ps != [] {
      SubstitutedSpells(ps[1..]);
      if ps[0] == Free('?') {
        var tail := Substituted(ps[1..]);
        TextsConcat([Free('%'), Free('s')], tail);
        assert [Free('%'), Free('s')][1..] == [Free('s')];
      }
    }
  }

  lemma LexPercentS(x: string)
    ensures Lex("%s" + x, Code) == [Free('%'), Free('s')] + Lex(x, Code) && End("%s" + x, Code) == End(x, Code)
  {
    hide Step, Lex, End;
    Unfold("%s" + x, Code);
    StepNeutral("%s" + x);
    assert ("%s" + x)[1..] == "s" + x;
    Unfold("s" + x, Code);
    StepLetter("s" + x);
    assert ("s" + x)[1..] == x;
  }

  lemma StepLetter(s: string)
    requires s != "" && IsIdent(s[0])
    ensures Step(s, Code) == (Free(s[0]), Code)
  {
  }

  /** The rewriting never disturbs the lexical structure: reading the result finds the same pieces,
      in the same modes, with only the free question marks replaced. */
  lemma {:induction false} QmarkKeepsStructure(s: string, m: Mode)
    ensures Lex(Render(Lex(s, m)), m) == Substituted(Lex(s, m))
    ensures End(Render(Lex(s, m)), m) == End(s, m)
    decreases |s|
  {
    var ps := Lex(s, m);
    if Free('?') in ps {
      var k :| 0 <= k < |ps| && ps[k] == Free('?');
      var a, b := CutAt(s, m, k);
      QmarkKeepsStructure(a, m);
      QmarkKeepsStructure(b, Code);
      QmarkCut(ps, k, Render(Lex(a, m)), Render(Lex(b, Code)), m);
    } else {
      NothingToRender(ps);
      LexSpells(s, m);
    }
  }

  lemma QmarkCut(ps: seq<Piece>, k: nat, a: string, b: string, m: Mode)
    requires k < |ps| && ps[k] == Free('?')
    requires a == Render(ps[..k]) && b == Render(ps[k + 1..])
    requires Lex(a, m) == Substituted(ps[..k]) && End(a, m) == Code
    requires Lex(b, Code) == Substituted(ps[k + 1..])
    ensures Render(ps) == a + ("%s" + b)
    ensures Lex(Render(ps), m) == Substituted(ps) && End(Render(ps), m) == End(b, Code)
  {
    hide Step, Lex, End;
    assert ps == ps[..k] + ([ps[k]] + ps[k + 1..]);
    RenderConcat(ps[..k], [ps[k]] + ps[k + 1..]);
    RenderConcat([ps[k]], ps[k + 1..]);
    SubstitutedConcat(ps[..k], [ps[k]] + ps[k + 1..]);
    SubstitutedConcat([ps[k]], ps[k + 1..]);
    LexConcat(a, "%s" + b, m);
    LexPercentS(b);
  }

  lemma QmarkIdempotent(sql: string)
    ensures Qmark(Qmark(sql)) == Qmark(sql)
  {
    QmarkKeepsStructure(sql, Code);
    var ps := Lex(sql, Code);
    SubstitutedSpells(ps);
    NothingToRender(Substituted(ps));
  }

  // ----- segments -----

  predicate NoDelimiter(ps: seq<Piece>) { Free(';') !in ps }

  lemma {:induction false} SegmentsWhole(ps: seq<Piece>)
    requires NoDelimiter(ps)
    ensures Segments(ps) == [ps]
  {
    if ps != [] {
      SegmentsWhole(ps[1..]);
      assert [ps[0]] + ps[1..] == ps;
    }
  }

  lemma {:induction false} SegmentsCut(pre: seq<Piece>, post: seq<Piece>)
    requires NoDelimiter(pre)
    ensures Segments(pre + [Free(';')] + post) == [pre] + Segments(post)
  {
    var ps := pre + [Free(';')] + post;
    if pre == [] {
      assert ps[1..] == post;
    } else {
      SegmentsCut(pre[1..], post);
      assert ps[1..] == pre[1..] + [Free(';')] + post;
      assert [pre[0]] + pre[1..] == pre && ([pre[1..]] + Segments(post))[1..] == Segments(post);
    }
  }

  /** Each segment reads alone as it reads in the script, and all but the last end in code. */
  predicate Faithful(gs: seq<seq<Piece>>) {
    && (forall i :: 0 <= i < |gs| ==> Lex(Texts(gs[i]), Code) == gs[i] && NoDelimiter(gs[i]))
    && (forall i :: 0 <= i < |gs| - 1 ==> End(Texts(gs[i]), Code) == Code)
  }

  lemma {:induction false} SegmentsFaithful(s: string)
    ensures Faithful(Segments(Lex(s, Code)))
    decreases |s|
  {
    hide Lex, End, Texts, Segments;
    var ps := Lex(s, Code);
    LexSpells(s, Code);
    if NoDelimiter(ps) {
      SegmentsWhole(ps);
    } else {
      var k := FirstDelimiter(ps);
      var a, b := CutAt(s, Code, k);
      SegmentsFaithful(b);
      LexSpells(a, Code);
      assert ps == ps[..k] + [Free(';')] + ps[k + 1..];
      SegmentsCut(ps[..k], ps[k + 1..]);
    }
  }

  lemma FirstDelimiter(ps: seq<Piece>) returns (k: nat)
    requires !NoDelimiter(ps)
    ensures k < |ps| && ps[k] == Free(';') && NoDelimiter(ps[..k])
  {
    if ps[0] == Free(';') {
      k := 0;
    } else {
      var k' := FirstDelimiter(ps[1..]);
      k := k' + 1;
      assert ps[..k] == [ps[0]] + ps[1..][..k'];
    }
  }

  function TextsOf(gs: seq<seq<Piece>>): seq<string> {
    if gs == [] then [] else [Texts(gs[0])] + TextsOf(gs[1..])
  }

  lemma TextsOfFirst(g: seq<Piece>, gs: seq<seq<Piece>>)
    ensures TextsOf([g] + gs) == [Texts(g)] + TextsOf(gs)
  {
  }

  lemma JoinFirst(t: string, ts: seq<string>)
    requires ts != []
    ensures Join([t] + ts, ";") == t + ";" + Join(ts, ";")
  {
  }

  /** Text before the first part stands before the join. */
  lemma JoinBefore(x: string, t: string, ts: seq<string>)
    ensures Join([x + t] + ts, ";") == x + Join([t] + ts, ";")
  {
    if ts != [] {
      JoinFirst(x + t, ts);
      JoinFirst(t, ts);
      assert x + t + ";" + Join(ts, ";") == x + (t + ";" + Join(ts, ";"));
    }
  }

  /** Nothing of the script is lost: the segments, put back between the delimiters, spell it. */
  lemma {:induction false} SegmentsSpell(ps: seq<Piece>)
    ensures Join(TextsOf(Segments(ps)), ";") == Texts(ps)
  {
    if ps == [] {
      TextsOfFirst([], []);
    } else {
      SegmentsSpell(ps[1..]);
      hide Join, TextsOf;
      var rest := Segments(ps[1..]);
      assert rest == [rest[0]] + rest[1..];
      if ps[0] == Free(';') {
        TextsOfFirst([], rest);
        TextsOfFirst(rest[0], rest[1..]);
        JoinFirst("", TextsOf(rest));
        assert "" + ";" + Texts(ps[1..]) == Text(ps[0]) + Texts(ps[1..]);
      } else {
        TextsOfFirst(rest[0], rest[1..]);
        TextsOfFirst([ps[0]] + rest[0], rest[1..]);
        assert ([ps[0]] + rest[0])[1..] == rest[0];
        JoinBefore(Text(ps[0]), Texts(rest[0]), TextsOf(rest[1..]));
      }
    }
  }

  lemma SplitKeepsEveryCharacter(sql: string)
    ensures Join(TextsOf(Segments(Lex(sql, Code))), ";") == sql
  {
    SegmentsSpell(Lex(sql, Code));
    LexSpells(sql, Code);
  }

  // ----- stripping and the automaton -----

  lemma StepReads(s: string, m: Mode, c: char)
    requires s != "" && c !in s
    ensures Step(s, m).0 != Free(c)
  {
    hide MatchTag;
  }

  lemma {:induction false} LexHasNoOther(s: string, m: Mode, c: char)
    requires c !in s
    ensures Free(c) !in Lex(s, m)
    decreases |s|
  {
    hide Step, Lex, End;
    Unfold(s, m);
    if s != "" {
      var r := Step(s, m);
      var rest := s[|Text(r.0)|..];
      StepReads(s, m, c);
      assert forall k :: k in rest ==> k in s;
      LexHasNoOther(rest, r.1, c);
      assert forall p :: p in [r.0] + Lex(rest, r.1) ==> p == r.0 || p in Lex(rest, r.1);
    }
  }

  lemma {:induction false} SpacesKeepMode(w: string, m: Mode)
    requires AllSpace(w)
    ensures End(w, m) == Code ==> m == Code || m == LineComment
    ensures m == Code ==> End(w, m) == Code
    decreases |w|
  {
    hide Step, Lex, End, IsSpace;
    Unfold(w, m);
    if w != "" {
      SpaceKeepsMode(w, m);
      assert AllSpace(w[|Text(Step(w, m).0)|..]);
      SpacesKeepMode(w[|Text(Step(w, m).0)|..], Step(w, m).1);
    }
  }

  lemma SpaceKeepsMode(w: string, m: Mode)
    requires AllSpace(w) && w != ""
    ensures Step(w, m).1 == m || (m == LineComment && Step(w, m).1 == Code)
  {
    SpaceIsPlain(w[0]);
    hide IsSpace, MatchTag;
    match m {
      case Dollar(tag) => assert tag[0] == '$';
      case _ =>
    }
  }

  lemma SpaceIsPlain(c: char)
    requires IsSpace(c)
    ensures c != '$' && c != '-' && c != '/' && c != '*' && !IsQuote(c)
  {
  }

  /** A text taken apart at its white space: the core lexes as it did between it. */
  lemma LexCore(w1: string, u: string, w2: string)
    requires AllSpace(w1) && AllSpace(w2)
    ensures Lex(w1 + u + w2, Code) == Lex(w1, Code) + Lex(u, Code) + Lex(w2, End(u, Code))
    ensures End(w1 + u + w2, Code) == End(w2, End(u, Code))
    ensures Render(Lex(w1, Code)) == w1 && Render(Lex(w2, End(u, Code))) == w2
  {
    hide Step, Lex, End;
    assert w1 + u + w2 == w1 + (u + w2);
    LexSpaces(w1, u + w2);
    LexConcat(u, w2, Code);
    SpacesRender(w1, Code);
    SpacesRender(w2, End(u, Code));
    EndSpaces(w1, u + w2);
  }

  lemma {:induction false} EndSpaces(w: string, x: string)
    requires AllSpace(w)
    ensures End(w + x, Code) == End(x, Code)
  {
    if w == "" {
      assert w + x == x;
    } else {
      StepNeutral(w + x);
      assert (w + x)[1..] == w[1..] + x;
      EndSpaces(w[1..], x);
    }
  }

  lemma SpacesRender(w: string, m: Mode)
    requires AllSpace(w)
    ensures Render(Lex(w, m)) == w
  {
    LexHasNoOther(w, m, '?');
    NothingToRender(Lex(w, m));
    LexSpells(w, m);
  }

  lemma {:induction false} RenderEnds(ps: seq<Piece>)
    requires Texts(ps) != "" && forall p :: p in ps ==> Text(p) != ""
    ensures Render(ps) != ""
    ensures Render(ps)[0] == Texts(ps)[0] || Render(ps)[0] == '%'
    ensures Render(ps)[|Render(ps)| - 1] == Texts(ps)[|Texts(ps)| - 1] || Render(ps)[|Render(ps)| - 1] == 's'
  {
    if |ps| > 1 {
      assert Text(ps[1]) != "" && Texts(ps[1..]) != "";
      RenderEnds(ps[1..]);
    }
  }

  lemma {:induction false} LexNonEmptyPieces(s: string, m: Mode)
    ensures forall p :: p in Lex(s, m) ==> Text(p) != ""
    decreases |s|
  {
    hide Step, Lex, End;
    Unfold(s, m);
    if s != "" {
      LexNonEmptyPieces(s[|Text(Step(s, m).0)|..], Step(s, m).1);
    }
  }

  lemma QmarkStripped(u: string)
    requires Stripped(u)
    ensures Stripped(Qmark(u)) && (Qmark(u) == "" <==> u == "")
  {
    hide Step, End;
    if u != "" {
      LexSpells(u, Code);
      LexNonEmptyPieces(u, Code);
      RenderEnds(Lex(u, Code));
    }
  }

  lemma StripQmark(t: string)
    ensures Strip(Qmark(t)) == Qmark(Strip(t)) && (Strip(Qmark(t)) == "" <==> Strip(t) == "")
  {
    var w1, w2 := StripParts(t);
    var u := Strip(t);
    LexCore(w1, u, w2);
    RenderConcat(Lex(w1, Code) + Lex(u, Code), Lex(w2, End(u, Code)));
    RenderConcat(Lex(w1, Code), Lex(u, Code));
    QmarkStripped(u);
    StripOver(w1, Qmark(u), w2);
  }

  // ----- converting and splitting commute -----

  function SubstitutedAll(gs: seq<seq<Piece>>): seq<seq<Piece>> {
    if gs == [] then [] else [Substituted(gs[0])] + SubstitutedAll(gs[1..])
  }

  lemma {:induction false} SegmentsSubstituted(ps: seq<Piece>)
    ensures Segments(Substituted(ps)) == SubstitutedAll(Segments(ps))
  {
    if ps != [] {
      SegmentsSubstituted(ps[1..]);
      var rest, tail := Segments(ps[1..]), Substituted(ps[1..]);
      if ps[0] == Free('?') {
        assert ([Free('%'), Free('s')] + tail)[1..] == [Free('s')] + tail;
        assert ([Free('s')] + tail)[1..] == tail;
        assert ([ps[0]] + rest[0])[1..] == rest[0];
        assert [Free('%')] + ([Free('s')] + Substituted(rest[0])) == Substituted([ps[0]] + rest[0]);
      } else {
        assert ([ps[0]] + tail)[1..] == tail;
        assert ([ps[0]] + rest[0])[1..] == rest[0];
      }
    }
  }

  lemma {:induction false} StatementsSubstituted(gs: seq<seq<Piece>>)
    requires forall i :: 0 <= i < |gs| ==> Lex(Texts(gs[i]), Code) == gs[i]
    ensures Statements(SubstitutedAll(gs)) == QmarkAll(Statements(gs))
  {
    hide Lex, Texts, Substituted, Render, Strip;
    if gs != [] {
      StatementsSubstituted(gs[1..]);
      SubstitutedSpells(gs[0]);
      StripQmark(Texts(gs[0]));
      var first := Emit(Texts(gs[0]));
      assert Qmark(Texts(gs[0])) == Texts(Substituted(gs[0]));
      assert SubstitutedAll(gs) == [Substituted(gs[0])] + SubstitutedAll(gs[1..]);
      assert Emit(Texts(Substituted(gs[0]))) == QmarkAll(first);
      if first == [] {
        assert first + Statements(gs[1..]) == Statements(gs[1..]);
      } else {
        assert (first + Statements(gs[1..]))[1..] == Statements(gs[1..]);
      }
    }
  }

  /** Converting a script and splitting it gives the converted statements: either may go first. */
  lemma SplitQmarkCommute(sql: string)
    ensures Split(Qmark(sql)) == QmarkAll(Split(sql))
  {
    QmarkKeepsStructure(sql, Code);
    SegmentsSubstituted(Lex(sql, Code));
    SegmentsFaithful(sql);
    StatementsSubstituted(Segments(Lex(sql, Code)));
  }
}
