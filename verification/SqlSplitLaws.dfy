/** Splitting a script, joining the statements and splitting again. */
module SqlSplitLaws {
  import opened SqlLexer
  import opened Strips
  import opened SqlScanners
  import opened SqlScannerLaws

  /** What every statement looks like. */
  predicate Clean(u: string) { u != "" && Stripped(u) && NoDelimiter(Lex(u, Code)) }

  /** A newline after `u` is enough to be back in code. */
  predicate Closable(u: string) { End(u, Code) == Code || End(u, Code) == LineComment }

  predicate CleanList(us: seq<string>) {
    && (forall i :: 0 <= i < |us| ==> Clean(us[i]))
    && (forall i :: 0 <= i < |us| - 1 ==> Closable(us[i]))
  }

  lemma CoreOfSegment(t: string)
    requires NoDelimiter(Lex(t, Code)) && Strip(t) != ""
    ensures Clean(Strip(t)) && (End(t, Code) == Code ==> Closable(Strip(t)))
  {
    var w1, w2 := StripParts(t);
    LexCore(w1, Strip(t), w2);
    SpacesKeepMode(w2, End(Strip(t), Code));
  }

  lemma {:induction false} StatementsClean(gs: seq<seq<Piece>>)
    requires Faithful(gs)
    ensures CleanList(Statements(gs))
    ensures forall i :: 0 <= i < |Statements(gs)| && gs != [] && End(Texts(gs[|gs| - 1]), Code) == Code ==> Closable(Statements(gs)[i])
  {
    hide Lex, End, Texts, Strip, Clean, Closable;
    if gs != [] {
      assert Faithful(gs[1..]);
      StatementsClean(gs[1..]);
      var t := Texts(gs[0]);
      if Strip(t) != "" { CoreOfSegment(t); }
    }
  }

  /** Every statement is non-empty, stripped and free of delimiters; each but the last is closable. */
  lemma SplitIsClean(sql: string)
    ensures CleanList(Split(sql))
  {
    SegmentsFaithful(sql);
    StatementsClean(Segments(Lex(sql, Code)));
  }

  lemma SplitOne(u: string)
    requires Clean(u)
    ensures Split(u) == [u]
  {
    hide Lex, Texts, Strip;
    CleanEmits(u);
    SegmentsWhole(Lex(u, Code));
    LexSpells(u, Code);
    StatementsFirst(Lex(u, Code), []);
    assert [Lex(u, Code)] + [] == [Lex(u, Code)];
  }

  /** Each statement splits to itself. */
  lemma StatementsSplitToThemselves(sql: string, i: nat)
    requires i < |Split(sql)|
    ensures Split(Split(sql)[i]) == [Split(sql)[i]]
  {
    SplitIsClean(sql);
    SplitOne(Split(sql)[i]);
  }

  lemma SplitAtDelimiter(pre: string, rest: string)
    requires NoDelimiter(Lex(pre, Code)) && End(pre, Code) == Code
    ensures Split(pre + (";" + rest)) == Emit(pre) + Split(rest)
  {
    hide Lex, End, Texts, Strip, Statements;
    LexConcat(pre, ";" + rest, Code);
    Unfold(";" + rest, Code);
    StepNeutral(";" + rest);
    assert (";" + rest)[1..] == rest;
    var ps := Lex(pre, Code);
    assert ps + ([Free(';')] + Lex(rest, Code)) == ps + [Free(';')] + Lex(rest, Code);
    SegmentsCut(ps, Lex(rest, Code));
    LexSpells(pre, Code);
    StatementsFirst(ps, Segments(Lex(rest, Code)));
  }

  lemma StatementsFirst(g: seq<Piece>, gs: seq<seq<Piece>>)
    ensures Statements([g] + gs) == Emit(Texts(g)) + Statements(gs)
  {
  }

  lemma EndNewline()
    ensures End("\n", Code) == Code && End("\n", LineComment) == Code
  {
    assert "\n"[1..] == "";
  }

  lemma NewlineCloses(u: string)
    requires Clean(u) && Closable(u)
    ensures NoDelimiter(Lex(u + "\n", Code)) && End(u + "\n", Code) == Code && Emit(u + "\n") == [u]
  {
    hide Lex, Strip, Step, End;
    LexConcat(u, "\n", Code);
    LexHasNoOther("\n", End(u, Code), ';');
    EndNewline();
    assert "" + u + "\n" == u + "\n";
    StripOver("", u, "\n");
  }

  /** Joining the statements with a newline and a delimiter and splitting again gives them back. */
  lemma {:induction false} JoinSplit(us: seq<string>)
    requires CleanList(us)
    ensures Split(Join(us, "\n;")) == us
  {
    hide Lex, End, Split, Clean, Closable;
    if us == [] {
      SplitEmpty();
    } else if |us| == 1 {
      SplitOne(us[0]);
    } else {
      JoinSplit(us[1..]);
      NewlineCloses(us[0]);
      SplitAtDelimiter(us[0] + "\n", Join(us[1..], "\n;"));
      assert us[0] + "\n;" + Join(us[1..], "\n;") == us[0] + "\n" + (";" + Join(us[1..], "\n;"));
    }
  }

  lemma SplitEmpty()
    ensures Split("") == []
  {
  }

  lemma SplitRoundTrip(sql: string)
    ensures Split(Join(Split(sql), "\n;")) == Split(sql)
  {
    SplitIsClean(sql);
    JoinSplit(Split(sql));
  }

  /** `strip` drops the newline that closes a trailing line comment, so a bare delimiter between
      the statements is right exactly when no statement but the last ends inside a comment. */
  lemma BareJoinExactly(sql: string)
    ensures Split(Join(Split(sql), ";")) == Split(sql) <==>
            forall i :: 0 <= i < |Split(sql)| - 1 ==> End(Split(sql)[i], Code) == Code
  {
    SplitIsClean(sql);
    BareJoinSplit(Split(sql));
  }

  lemma {:induction false} BareJoinSplit(us: seq<string>)
    requires CleanList(us)
    ensures Split(Join(us, ";")) == us <==> forall i :: 0 <= i < |us| - 1 ==> End(us[i], Code) == Code
  {
    hide Lex, End, Split, Clean, Step;
    if us == [] {
      SplitEmpty();
    } else if |us| == 1 {
      SplitOne(us[0]);
    } else {
      var u, rest := us[0], Join(us[1..], ";");
      BareJoinSplit(us[1..]);
      assert u + ";" + rest == u + (";" + rest);
      if End(u, Code) == Code {
        CleanEmits(u);
        SplitAtDelimiter(u, rest);
        assert us == [u] + us[1..];
        assert forall i :: 0 < i < |us| - 1 ==> us[i] == us[1..][i - 1];
      } else {
        DelimiterSwallowed(u, rest);
      }
    }
  }

  lemma CleanEmits(u: string)
    requires Clean(u)
    ensures Emit(u) == [u] && NoDelimiter(Lex(u, Code))
  {
    assert "" + u + "" == u;
    StripOver("", u, "");
  }

  /** A delimiter right after an open line comment belongs to the comment. */
  lemma DelimiterSwallowed(u: string, rest: string)
    requires Clean(u) && End(u, Code) == LineComment
    ensures Split(u + (";" + rest)) != [] && Split(u + (";" + rest))[0] != u
  {
    hide Texts, Strip, Step, Segments, Lex, End;
    LexConcat(u, ";" + rest, Code);
    var tail := Lex(";" + rest, LineComment);
    LexSwallowed(rest);
    LongFirstSegment(Lex(u, Code), tail);
    var gs := Segments(Lex(u, Code) + tail);
    var more :| gs[0] == Lex(u, Code) + [Kept(";")] + more;
    TextsConcat(Lex(u, Code) + [Kept(";")], more);
    TextsConcat(Lex(u, Code), [Kept(";")]);
    LexSpells(u, Code);
    TextsOne(Kept(";"));
    StripKeepsLongCore(u + ";", Texts(more));
    assert gs == [gs[0]] + gs[1..];
    StatementsFirst(gs[0], gs[1..]);
  }

  lemma LexSwallowed(rest: string)
    ensures Lex(";" + rest, LineComment) != [] && Lex(";" + rest, LineComment)[0] == Kept(";")
  {
  }

  lemma TextsOne(p: Piece)
    ensures Texts([p]) == Text(p)
  {
  }

  lemma {:induction false} LongFirstSegment(pre: seq<Piece>, tail: seq<Piece>)
    requires NoDelimiter(pre) && tail != [] && tail[0] != Free(';')
    ensures exists more :: Segments(pre + tail)[0] == pre + [tail[0]] + more
  {
    if pre == [] {
      assert pre + tail == tail;
      assert Segments(tail)[0] == pre + [tail[0]] + Segments(tail[1..])[0];
    } else {
      LongFirstSegment(pre[1..], tail);
      assert (pre + tail)[1..] == pre[1..] + tail;
      var more :| Segments(pre[1..] + tail)[0] == pre[1..] + [tail[0]] + more;
      assert Segments(pre + tail)[0] == pre + [tail[0]] + more;
    }
  }

  lemma InCore(w1: string, u: string, w2: string, k: nat)
    requires AllSpace(w1) && AllSpace(w2) && k < |w1 + u + w2| && !IsSpace((w1 + u + w2)[k])
    ensures |w1| <= k < |w1| + |u|
  {
  }

  lemma StripKeepsLongCore(core: string, more: string)
    requires core != "" && Stripped(core)
    ensures |Strip(core + more)| >= |core|
  {
    hide IsSpace, AllSpace, Strip;
    var w1, w2 := StripParts(core + more);
    InCore(w1, Strip(core + more), w2, 0);
    InCore(w1, Strip(core + more), w2, |core| - 1);
  }

  /** The concrete script that shows the newline is needed. */
  lemma BareJoinFails()
    ensures Split(Join(Split("--a\n;b"), ";")) != Split("--a\n;b")
  {
    hide *;
    var u := "--a";
    CommentIsClean();
    NewlineCloses(u);
    assert u + "\n" == "--a\n";
    SplitAtDelimiter("--a\n", "b");
    assert "--a\n" + (";" + "b") == "--a\n;b";
    LetterIsClean();
    SplitOne("b");
    BareJoinExactly("--a\n;b");
    LexComment();
    var us := Split("--a\n;b");
    assert us == [u] + ["b"] && us[0] == u && |us| == 2;
    assert End(us[0], Code) != Code;
  }

  lemma CommentIsClean()
    ensures Clean("--a") && Closable("--a")
  {
    LexComment();
    LexHasNoOther("--a", Code, ';');
  }

  lemma LetterIsClean()
    ensures Clean("b")
  {
    LexHasNoOther("b", Code, ';');
  }

  lemma LexComment()
    ensures End("--a", Code) == LineComment
  {
    assert "--a"[2..] == "a" && "a"[1..] == "";
    assert Step("--a", Code).1 == LineComment;
    assert Step("a", LineComment) == (Kept("a"), LineComment);
    assert End("a", LineComment) == End("", LineComment);
  }
}
