/** Python's `str.strip` and joins, as the scanners use them. */
module Strips {

  /** `str.isspace`, code point by code point. */
  predicate IsSpace(c: char) {
    var n := c as int;
    || 0x09 <= n <= 0x0D || 0x1C <= n <= 0x20 || n == 0x85 || n == 0xA0 || n == 0x1680
    || 0x2000 <= n <= 0x200A || n == 0x2028 || n == 0x2029 || n == 0x202F || n == 0x205F || n == 0x3000
  }

  predicate AllSpace(s: string) { forall k :: 0 <= k < |s| ==> IsSpace(s[k]) }

  predicate Stripped(s: string) { s == "" || (!IsSpace(s[0]) && !IsSpace(s[|s| - 1])) }

  function LStrip(s: string): string {
    if s != "" && IsSpace(s[0]) then LStrip(s[1..]) else s
  }

  function RStrip(s: string): string {
    if s != "" && IsSpace(s[|s| - 1]) then RStrip(s[..|s| - 1]) else s
  }

  function Strip(s: string): string { RStrip(LStrip(s)) }

  lemma LStripParts(s: string) returns (w: string)
    ensures s == w + LStrip(s) && AllSpace(w)
    ensures LStrip(s) == "" || !IsSpace(LStrip(s)[0])
  {
    if s != "" && IsSpace(s[0]) {
      var w' := LStripParts(s[1..]);
      w := [s[0]] + w';
    } else {
      w := "";
    }
  }

  lemma RStripParts(s: string) returns (w: string)
    ensures s == RStrip(s) + w && AllSpace(w)
    ensures RStrip(s) == "" || !IsSpace(RStrip(s)[|RStrip(s)| - 1])
  {
    if s != "" && IsSpace(s[|s| - 1]) {
      var w' := RStripParts(s[..|s| - 1]);
      w := w' + [s[|s| - 1]];
    } else {
      w := "";
    }
  }

  /** `strip` removes white space at both ends and nothing else. */
  lemma StripParts(s: string) returns (w1: string, w2: string)
    ensures s == w1 + Strip(s) + w2 && AllSpace(w1) && AllSpace(w2) && Stripped(Strip(s))
  {
    w1 := LStripParts(s);
    w2 := RStripParts(LStrip(s));
    if Strip(s) != "" {
      assert LStrip(s)[0] == Strip(s)[0];
    }
  }

  lemma {:induction false} LStripOver(w: string, u: string)
    requires AllSpace(w) && (u == "" || !IsSpace(u[0]))
    ensures LStrip(w + u) == u
  {
    if w == "" {
      assert w + u == u;
    } else {
      assert (w + u)[1..] == w[1..] + u;
      LStripOver(w[1..], u);
    }
  }

  lemma {:induction false} RStripOver(u: string, w: string)
    requires AllSpace(w) && (u == "" || !IsSpace(u[|u| - 1]))
    ensures RStrip(u + w) == u
  {
    if w == "" {
      assert u + w == u;
    } else {
      assert (u + w)[..|u + w| - 1] == u + w[..|w| - 1];
      RStripOver(u, w[..|w| - 1]);
    }
  }

  /** ... and a stripped core is what `strip` finds, whatever white space surrounds it. */
  lemma StripOver(w1: string, u: string, w2: string)
    requires AllSpace(w1) && AllSpace(w2) && Stripped(u)
    ensures Strip(w1 + u + w2) == u
  {
    if u == "" {
      LStripOver(w1 + w2, "");
      assert w1 + u + w2 == w1 + w2 + "";
    } else {
      assert w1 + u + w2 == w1 + (u + w2);
      LStripOver(w1, u + w2);
      RStripOver(u, w2);
    }
  }

  function Join(parts: seq<string>, separator: string): string {
    if parts == [] then "" else if |parts| == 1 then parts[0]
    else parts[0] + separator + Join(parts[1..], separator)
  }
}

/** `qmark_to_pyformat` and `split_sql_statements` of database.py. */
module SqlScanners {
  import opened Prelude
  import opened SqlLexer
  import opened Strips

  // ----- what the scanners compute -----

  function Rendered(p: Piece): string { if p == Free('?') then "%s" else Text(p) }

  function Render(ps: seq<Piece>): string {
    if ps == [] then "" else Rendered(ps[0]) + Render(ps[1..])
  }

  function Qmark(sql: string): string { Render(Lex(sql, Code)) }

  /** The pieces of the script cut at its free semicolons; always at least one segment. */
  function Segments(ps: seq<Piece>): (gs: seq<seq<Piece>>)
    ensures |gs| > 0
  {
    if ps == [] then [[]]
    else
      var rest := Segments(ps[1..]);
      if ps[0] == Free(';') then [[]] + rest else [[ps[0]] + rest[0]] + rest[1..]
  }

  function Emit(text: string): seq<string> { if Strip(text) != "" then [Strip(text)] else [] }

  function Statements(gs: seq<seq<Piece>>): seq<string> {
    if gs == [] then [] else Emit(Texts(gs[0])) + Statements(gs[1..])
  }

  function Split(sql: string): seq<string> { Statements(Segments(Lex(sql, Code))) }

  function QmarkAll(parts: seq<string>): seq<string> {
    if parts == [] then [] else [Qmark(parts[0])] + QmarkAll(parts[1..])
  }

  // ----- the scanners themselves -----

  /** The flags of a scanner in each mode. */
  predicate Tracks(m: Mode, quote: Option<QuoteChar>, block: bool, line: bool, dollar: Option<Tag>) {
    match m
    case Code => quote.None? && !block && !line && dollar.None?
    case LineComment => quote.None? && !block && line && dollar.None?
    case BlockComment => quote.None? && block && !line && dollar.None?
    case Quoted(q) => quote == Some(q) && !block && !line && dollar.None?
    case Dollar(tag) => quote.None? && !block && !line && dollar == Some(tag)
  }

  /** One iteration of either scanner: the piece read at `index`, the mode after it, and what is left. */
  lemma Advance(sql: string, index: nat, m: Mode) returns (p: Piece, after: Mode, rest: string)
    requires index < |sql|
    ensures (p, after) == Step(sql[index..], m) && index + |Text(p)| <= |sql|
    ensures rest == sql[index + |Text(p)|..]
    ensures Lex(sql[index..], m) == [p] + Lex(rest, after)
  {
    hide Step, Lex, End;
    var r := Step(sql[index..], m);
    p, after := r.0, r.1;
    rest := sql[index..][|Text(p)|..];
    Unfold(sql[index..], m);
  }

  lemma InDollar(sql: string, index: nat, tag: Tag)
    requires index < |sql|
    ensures Step(sql[index..], Dollar(tag)) == if tag <= sql[index..] then (Kept(tag), Code) else (Kept([sql[index]]), Dollar(tag))
  {
  }

  lemma InLineComment(sql: string, index: nat)
    requires index < |sql|
    ensures Step(sql[index..], LineComment) == (Kept([sql[index]]), if sql[index] == '\n' then Code else LineComment)
  {
  }

  /** The next two characters, as one piece. */
  function Two(sql: string, index: nat): Piece
    requires index + 1 < |sql|
  {
    Kept([sql[index], sql[index + 1]])
  }

  predicate Follows(sql: string, index: nat, c: char) { index + 1 < |sql| && sql[index + 1] == c }

  lemma InBlockComment(sql: string, index: nat)
    requires index < |sql|
    ensures Step(sql[index..], BlockComment) ==
            if sql[index] == '*' && Follows(sql, index, '/') then (Two(sql, index), Code) else (Kept([sql[index]]), BlockComment)
  {
  }

  lemma InQuote(sql: string, index: nat, q: QuoteChar)
    requires index < |sql|
    ensures Step(sql[index..], Quoted(q)) ==
            if sql[index] != q then (Kept([sql[index]]), Quoted(q))
            else if Follows(sql, index, q) then (Two(sql, index), Quoted(q)) else (Kept([sql[index]]), Code)
  {
  }

  lemma InCode(sql: string, index: nat)
    requires index < |sql|
    ensures var c := sql[index];
            Step(sql[index..], Code) ==
            if c == '-' && Follows(sql, index, '-') then (Two(sql, index), LineComment)
            else if c == '/' && Follows(sql, index, '*') then (Two(sql, index), BlockComment)
            else if IsQuote(c) then (Kept([c]), Quoted(c))
            else if c == '$' && MatchTag(sql[index..]).Some? then (Kept(MatchTag(sql[index..]).value), Dollar(MatchTag(sql[index..]).value))
            else (Free(c), Code)
  {
    hide MatchTag;
  }

  lemma RenderedKept(p: Piece)
    ensures p.Kept? ==> Rendered(p) == p.text
    ensures p.Free? ==> Rendered(p) == if p.c == '?' then "%s" else [p.c]
  {
  }

  lemma RenderStep(output: string, p: Piece, ps: seq<Piece>)
    ensures output + Render([p] + ps) == output + Rendered(p) + Render(ps)
  {
  }

  lemma RenderNothing(m: Mode)
    ensures Render(Lex("", m)) == ""
  {
  }

  /** Half-way through a script: what is written, and what the rest will add. */
  ghost predicate QmarkGoesOn(sql: string, index: nat, m: Mode, output: string) {
    index <= |sql| && output + Render(Lex(sql[index..], m)) == Qmark(sql)
  }

  lemma QmarkStarts(sql: string)
    ensures QmarkGoesOn(sql, 0, Code, "")
  {
    assert sql[0..] == sql && "" + Qmark(sql) == Qmark(sql);
  }

  lemma QmarkReads(sql: string, index: nat, m: Mode, output: string) returns (p: Piece, after: Mode)
    requires index < |sql| && QmarkGoesOn(sql, index, m, output)
    ensures (p, after) == Step(sql[index..], m) && index + |Text(p)| <= |sql|
    ensures QmarkGoesOn(sql, index + |Text(p)|, after, output + Rendered(p))
  {
    hide Lex, Step, Render, Qmark, Rendered;
    var rest;
    p, after, rest := Advance(sql, index, m);
    RenderStep(output, p, Lex(rest, after));
  }

  lemma QmarkEnds(sql: string, m: Mode, output: string)
    requires QmarkGoesOn(sql, |sql|, m, output)
    ensures output == Qmark(sql)
  {
    hide Lex, Render, Qmark;
    assert sql[|sql|..] == "";
    RenderNothing(m);
  }

  method QmarkToPyformat(sql: string) returns (result: string)
    ensures result == Qmark(sql)
  {
    hide Lex, Render, IsTag, MatchTag, Qmark, Step, IsQuote, Rendered, QmarkGoesOn;
    var output := "";
    var index := 0;
    var quote: Option<QuoteChar> := None;
    var blockComment, lineComment := false, false;
    var dollarQuote: Option<Tag> := None;
    ghost var mode := Code;
    QmarkStarts(sql);
    while index < |sql|
      invariant index <= |sql| && Tracks(mode, quote, blockComment, lineComment, dollarQuote) && QmarkGoesOn(sql, index, mode, output)
    {
      ghost var p;
      p, mode := QmarkReads(sql, index, mode, output);
      RenderedKept(p);
      ghost var longer := output + Rendered(p);
      var current := sql[index];
      var following := if index + 1 < |sql| then Some(sql[index + 1]) else None;
      if dollarQuote.Some? {
        InDollar(sql, index, dollarQuote.value);
        if dollarQuote.value <= sql[index..] {
          output := output + dollarQuote.value;
          index := index + |dollarQuote.value|;
          dollarQuote := None;
          continue;
        }
        output := output + [current];
        index := index + 1;
        continue;
      }
      if lineComment {
        InLineComment(sql, index);
        output := output + [current];
        lineComment := current != '\n';
        index := index + 1;
        continue;
      }
      if blockComment {
        InBlockComment(sql, index);
        output := output + [current];
        if current == '*' && following == Some('/') {
          output := output + [following.value];
          assert output == longer;
          index := index + 2;
          blockComment := false;
        } else {
          index := index + 1;
        }
        continue;
      }
      if quote.Some? {
        InQuote(sql, index, quote.value);
        output := output + [current];
        if current == quote.value {
          if following == Some(quote.value) {
            output := output + [following.value];
            assert output == longer;
            index := index + 2;
            continue;
          }
          quote := None;
        }
        index := index + 1;
        continue;
      }
      InCode(sql, index);
      if current == '-' && following == Some('-') {
        output := output + [current, following.value];
        index := index + 2;
        lineComment := true;
        continue;
      }
      if current == '/' && following == Some('*') {
        output := output + [current, following.value];
        index := index + 2;
        blockComment := true;
        continue;
      }
      if IsQuote(current) {
        output := output + [current];
        quote := Some(current);
        index := index + 1;
        continue;
      }
      if current == '$' {
        var tag := MatchTag(sql[index..]);
        if tag.Some? {
          dollarQuote := Some(tag.value);
          output := output + tag.value;
          index := index + |tag.value|;
          continue;
        }
      }
      output := output + (if current == '?' then "%s" else [current]);
      index := index + 1;
    }
    QmarkEnds(sql, mode, output);
    result := output;
  }

  /** `Split`, started in the middle of a statement whose text so far is `buffer`. */
  function Collect(buffer: string, ps: seq<Piece>): seq<string>
    decreases |ps|
  {
    if ps == [] then Emit(buffer)
    else if ps[0] == Free(';') then Emit(buffer) + Collect("", ps[1..])
    else Collect(buffer + Text(ps[0]), ps[1..])
  }

  lemma {:induction false} CollectIsStatements(buffer: string, ps: seq<Piece>)
    ensures Collect(buffer, ps) == Emit(buffer + Texts(Segments(ps)[0])) + Statements(Segments(ps)[1..])
    decreases |ps|
  {
    if ps == [] {
      assert buffer + Texts([]) == buffer;
    } else {
      var rest := Segments(ps[1..]);
      assert rest == [rest[0]] + rest[1..];
      if ps[0] == Free(';') {
        CollectIsStatements("", ps[1..]);
        assert buffer + Texts([]) == buffer;
        assert "" + Texts(rest[0]) == Texts(rest[0]);
      } else {
        CollectIsStatements(buffer + Text(ps[0]), ps[1..]);
        assert ([ps[0]] + rest[0])[1..] == rest[0];
        assert buffer + Text(ps[0]) + Texts(rest[0]) == buffer + (Text(ps[0]) + Texts(rest[0]));
      }
    }
  }

  lemma CollectFromStart(sql: string)
    ensures Collect("", Lex(sql, Code)) == Split(sql)
  {
    var gs := Segments(Lex(sql, Code));
    CollectIsStatements("", Lex(sql, Code));
    assert "" + Texts(gs[0]) == Texts(gs[0]) && gs == [gs[0]] + gs[1..];
  }

  lemma CollectStep(statements: seq<string>, buffer: string, p: Piece, ps: seq<Piece>)
    ensures statements + Collect(buffer, [p] + ps) ==
            if p == Free(';') then statements + Emit(buffer) + Collect("", ps)
            else statements + Collect(buffer + Text(p), ps)
  {
  }

  lemma CollectNothing(buffer: string, m: Mode)
    ensures Collect(buffer, Lex("", m)) == Emit(buffer)
  {
  }

  lemma EmitAppends(statements: seq<string>, buffer: string)
    ensures statements + Emit(buffer) == if Strip(buffer) != "" then statements + [Strip(buffer)] else statements
  {
  }

  /** Half-way through a script: the statements so far, the text of the one being read, and what the rest will add. */
  ghost predicate SplitGoesOn(sql: string, index: nat, m: Mode, statements: seq<string>, buffer: string) {
    index <= |sql| && statements + Collect(buffer, Lex(sql[index..], m)) == Split(sql)
  }

  lemma SplitStarts(sql: string)
    ensures SplitGoesOn(sql, 0, Code, [], "")
  {
    hide Lex, Split;
    CollectFromStart(sql);
    assert sql[0..] == sql && [] + Split(sql) == Split(sql);
  }

  lemma SplitReads(sql: string, index: nat, m: Mode, statements: seq<string>, buffer: string) returns (p: Piece, after: Mode)
    requires index < |sql| && SplitGoesOn(sql, index, m, statements, buffer)
    ensures (p, after) == Step(sql[index..], m) && index + |Text(p)| <= |sql|
    ensures if p == Free(';') then SplitGoesOn(sql, index + |Text(p)|, after, statements + Emit(buffer), "")
            else SplitGoesOn(sql, index + |Text(p)|, after, statements, buffer + Text(p))
  {
    hide Lex, Step, Collect, Split, Emit;
    var rest;
    p, after, rest := Advance(sql, index, m);
    CollectStep(statements, buffer, p, Lex(rest, after));
  }

  lemma SplitEnds(sql: string, m: Mode, statements: seq<string>, buffer: string)
    requires SplitGoesOn(sql, |sql|, m, statements, buffer)
    ensures statements + Emit(buffer) == Split(sql)
  {
    hide Lex, Collect, Split, Emit;
    assert sql[|sql|..] == "";
    CollectNothing(buffer, m);
  }

  method SplitSqlStatements(sql: string) returns (statements: seq<string>)
    ensures statements == Split(sql)
  {
    hide Lex, Segments, Statements, Texts, Collect, IsTag, MatchTag, Strip, Emit, Split, Step, IsQuote, SplitGoesOn;
    statements := [];
    var buffer := "";
    var index := 0;
    var quote: Option<QuoteChar> := None;
    var blockComment, lineComment := false, false;
    var dollarQuote: Option<Tag> := None;
    ghost var mode := Code;
    SplitStarts(sql);
    while index < |sql|
      invariant index <= |sql| && Tracks(mode, quote, blockComment, lineComment, dollarQuote)
      invariant SplitGoesOn(sql, index, mode, statements, buffer)
    {
      ghost var p;
      p, mode := SplitReads(sql, index, mode, statements, buffer);
      ghost var longer := buffer + Text(p);
      var current := sql[index];
      var following := if index + 1 < |sql| then Some(sql[index + 1]) else None;
      if dollarQuote.Some? {
        InDollar(sql, index, dollarQuote.value);
        if dollarQuote.value <= sql[index..] {
          buffer := buffer + dollarQuote.value;
          index := index + |dollarQuote.value|;
          dollarQuote := None;
          continue;
        }
        buffer := buffer + [current];
        index := index + 1;
        continue;
      }
      if lineComment {
        InLineComment(sql, index);
        buffer := buffer + [current];
        lineComment := current != '\n';
        index := index + 1;
        continue;
      }
      if blockComment {
        InBlockComment(sql, index);
        buffer := buffer + [current];
        if current == '*' && following == Some('/') {
          buffer := buffer + [following.value];
          assert buffer == longer;
          index := index + 2;
          blockComment := false;
        } else {
          index := index + 1;
        }
        continue;
      }
      if quote.Some? {
        InQuote(sql, index, quote.value);
        buffer := buffer + [current];
        if current == quote.value {
          if following == Some(quote.value) {
            buffer := buffer + [following.value];
            assert buffer == longer;
            index := index + 2;
            continue;
          }
          quote := None;
        }
        index := index + 1;
        continue;
      }
      InCode(sql, index);
      if current == '-' && following == Some('-') {
        buffer := buffer + [current, following.value];
        index := index + 2;
        lineComment := true;
        continue;
      }
      if current == '/' && following == Some('*') {
        buffer := buffer + [current, following.value];
        index := index + 2;
        blockComment := true;
        continue;
      }
      if IsQuote(current) {
        buffer := buffer + [current];
        quote := Some(current);
        index := index + 1;
        continue;
      }
      if current == '$' {
        var tag := MatchTag(sql[index..]);
        if tag.Some? {
          dollarQuote := Some(tag.value);
          buffer := buffer + tag.value;
          index := index + |tag.value|;
          continue;
        }
      }
      if current == ';' {
        var statement := Strip(buffer);
        EmitAppends(statements, buffer);
        if statement != "" {
          statements := statements + [statement];
        }
        buffer := "";
        index := index + 1;
        continue;
      }
      buffer := buffer + [current];
      index := index + 1;
    }
    SplitEnds(sql, mode, statements, buffer);
    var statement := Strip(buffer);
    EmitAppends(statements, buffer);
    if statement != "" {
      statements := statements + [statement];
    }
  }
}
