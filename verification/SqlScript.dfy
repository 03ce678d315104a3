/**
 The two SQL scanners of database.py: `QmarkToPyformat` rewrites placeholders and
 `SplitSqlStatements` cuts a script at its delimiters.  Both follow one lexical
 automaton, stated once as `Step`/`Lex`.
 */
module SqlLexer {
  import opened Prelude

  /** What a character belongs to.  Block comments do not nest. */
  datatype Mode = Code | LineComment | BlockComment | Quoted(quote: QuoteChar) | Dollar(tag: Tag)

  /** `Free` is one code-mode character that opens nothing; `Kept` is text both scanners copy. */
  datatype Piece = Free(c: char) | Kept(text: string)

  predicate IsQuote(c: char) { c == '\'' || c == '"' }

  type QuoteChar = c: char | IsQuote(c) witness '"'

  predicate IsIdentStart(c: char) { 'a' <= c <= 'z' || 'A' <= c <= 'Z' || c == '_' }

  predicate IsIdent(c: char) { IsIdentStart(c) || '0' <= c <= '9' }

  /** `$name$` or `$$`. */
  predicate IsTag(t: string) {
    && |t| >= 2 && t[0] == '$' && t[|t| - 1] == '$'
    && forall k :: 1 <= k < |t| - 1 ==> IsIdent(t[k])
  }

  type Tag = t: string | IsTag(t) witness "$$"

  /** Length of the longest run of identifier characters `s` starts with. */
  function IdentRun(s: string): (n: nat)
    ensures n <= |s| && (forall k :: 0 <= k < n ==> IsIdent(s[k])) && (n < |s| ==> !IsIdent(s[n]))
  {
    if s == "" || !IsIdent(s[0]) then 0 else 1 + IdentRun(s[1..])
  }

  /** The regular expression both scanners try at a `$`. */
  function MatchTag(s: string): (t: Option<Tag>)
    requires s != "" && s[0] == '$'
    ensures t.Some? ==> t.value <= s
  {
    var n := IdentRun(s[1..]);
    if 1 + n < |s| && s[1 + n] == '$' && (n == 0 || IsIdentStart(s[1]))
    then Some(s[..n + 2])
    else None
  }

  function Text(p: Piece): (t: string) {
    match p case Free(c) => [c] case Kept(text) => text
  }

  /** One move of the automaton: the next piece of `s` and the mode after it. */
  function Step(s: string, m: Mode): (r: (Piece, Mode))
    requires s != ""
    ensures Text(r.0) != "" && Text(r.0) <= s
    ensures r.0.Free? ==> m == Code && r.1 == Code
  {
    var c := s[0];
    var next := if |s| > 1 then Some(s[1]) else None;
    match m
    case Dollar(tag) => if tag <= s then (Kept(tag), Code) else (Kept([c]), m)
    case LineComment => (Kept([c]), if c == '\n' then Code else LineComment)
    case BlockComment => if c == '*' && next == Some('/') then (Kept([c, s[1]]), Code) else (Kept([c]), m)
    case Quoted(q) =>
      if c == q then (if next == Some(q) then (Kept([c, s[1]]), m) else (Kept([c]), Code)) else (Kept([c]), m)
    case Code =>
      if c == '-' && next == Some('-') then (Kept([c, s[1]]), LineComment)
      else if c == '/' && next == Some('*') then (Kept([c, s[1]]), BlockComment)
      else if IsQuote(c) then (Kept([c]), Quoted(c))
      else if c == '$' && MatchTag(s).Some? then (Kept(MatchTag(s).value), Dollar(MatchTag(s).value))
      else (Free(c), Code)
  }

  function Lex(s: string, m: Mode): (ps: seq<Piece>)
    decreases |s|
  {
    if s == "" then [] else var r := Step(s, m); [r.0] + Lex(s[|Text(r.0)|..], r.1)
  }

  /** The mode the automaton is in after reading `s` from mode `m`. */
  function End(s: string, m: Mode): Mode
    decreases |s|
  {
    if s == "" then m else var r := Step(s, m); End(s[|Text(r.0)|..], r.1)
  }

  lemma Unfold(s: string, m: Mode)
    ensures s == "" ==> Lex(s, m) == [] && End(s, m) == m
    ensures s != "" ==>
              var r := Step(s, m);
              var rest := s[|Text(r.0)|..];
              Lex(s, m) == [r.0] + Lex(rest, r.1) && End(s, m) == End(rest, r.1)
  {
  }

  function Texts(ps: seq<Piece>): string {
    if ps == [] then "" else Text(ps[0]) + Texts(ps[1..])
  }

  lemma TextsConcat(ps: seq<Piece>, qs: seq<Piece>)
    ensures Texts(ps + qs) == Texts(ps) + Texts(qs)
  {
    if ps == [] {
      assert ps + qs == qs;
    } else {
      assert (ps + qs)[1..] == ps[1..] + qs;
    }
  }

  /** Lexing loses nothing: the pieces spell the script. */
  lemma {:induction false} LexSpells(s: string, m: Mode)
    ensures Texts(Lex(s, m)) == s
    decreases |s|
  {
    if s != "" {
      var r := Step(s, m);
      LexSpells(s[|Text(r.0)|..], r.1);
      assert Lex(s, m)[1..] == Lex(s[|Text(r.0)|..], r.1);
    }
  }

  /** Characters that can neither open, close nor extend a lexical element. */
  predicate Neutral(c: char) { c !in "-/*'\"$" && !IsIdent(c) }

  predicate NeutralStart(s: string) { s == "" || Neutral(s[0]) }

  lemma IdentRunUnique(s: string, n: nat)
    requires n <= |s| && (forall k :: 0 <= k < n ==> IsIdent(s[k])) && (n < |s| ==> !IsIdent(s[n]))
    ensures IdentRun(s) == n
  {
  }

  lemma MatchTagExtends(a: string, b: string)
    requires a != "" && a[0] == '$' && NeutralStart(b)
    ensures MatchTag(a + b) == MatchTag(a)
  {
    var n := IdentRun(a[1..]);
    assert (a + b)[1..] == a[1..] + b;
    IdentRunUnique((a + b)[1..], n);
    if 1 + n < |a| {
      assert (a + b)[..n + 2] == a[..n + 2];
    }
  }

  lemma TagDoesNotSpan(tag: Tag, a: string, b: string)
    requires tag <= a + b && NeutralStart(b)
    ensures tag <= a
  {
    assert forall k :: 0 <= k < |tag| ==> tag[k] == (a + b)[k] && !Neutral(tag[k]);
    assert b != "" ==> (a + b)[|a|] == b[0];
  }

  lemma StepExtends(a: string, b: string, m: Mode)
    requires a != "" && NeutralStart(b)
    ensures Step(a + b, m) == Step(a, m)
  {
    match m {
      case Dollar(tag) =>
        if tag <= a + b { TagDoesNotSpan(tag, a, b); }
      case Code =>
        if a[0] == '$' { MatchTagExtends(a, b); }
      case _ =>
    }
  }

  /** A neutral character is a seam: the text on both sides lexes independently. */
  lemma {:induction false} LexConcat(a: string, b: string, m: Mode)
    requires NeutralStart(b)
    ensures Lex(a + b, m) == Lex(a, m) + Lex(b, End(a, m))
    ensures End(a + b, m) == End(b, End(a, m))
    decreases |a|
  {
    hide Step, Lex, End;
    Unfold(a, m);
    if a == "" {
      assert a + b == b;
      assert [] + Lex(b, m) == Lex(b, m);
    } else {
      Unfold(a + b, m);
      StepExtends(a, b, m);
      var r := Step(a, m);
      var n := |Text(r.0)|;
      assert (a + b)[n..] == a[n..] + b;
      LexConcat(a[n..], b, r.1);
      assert [r.0] + (Lex(a[n..], r.1) + Lex(b, End(a, m))) == [r.0] + Lex(a[n..], r.1) + Lex(b, End(a, m));
    }
  }

  /** A first move survives replacing what follows, up to a seam. */
  lemma LexPrepend(t: string, a: string, b: string, m: Mode, r: (Piece, Mode))
    requires t != "" && NeutralStart(b)
    requires Step(t + (a + b), m) == r && Text(r.0) == t
    ensures Lex(t + a, m) == [r.0] + Lex(a, r.1) && End(t + a, m) == End(a, r.1)
  {
    assert t + (a + b) == (t + a) + b;
    StepExtends(t + a, b, m);
    assert (t + a)[|t|..] == a;
  }

  /** A neutral free character cuts the script: what precedes and follows lexes as it did inside. */
  lemma {:induction false} CutAt(s: string, m: Mode, k: nat) returns (a: string, b: string)
    requires k < |Lex(s, m)| && Lex(s, m)[k].Free? && Neutral(Lex(s, m)[k].c)
    ensures s == a + [Lex(s, m)[k].c] + b
    ensures Lex(a, m) == Lex(s, m)[..k] && End(a, m) == Code
    ensures Lex(b, Code) == Lex(s, m)[k + 1..] && End(b, Code) == End(s, m)
    decreases |s|
  {
    hide Step, Lex, End;
    Unfold(s, m);
    var r := Step(s, m);
    var n, c := |Text(r.0)|, Lex(s, m)[k].c;
    if k == 0 {
      a, b := "", s[1..];
      assert s == [c] + b;
      Unfold("", m);
    } else {
      var a', b' := CutAt(s[n..], r.1, k - 1);
      a, b := s[..n] + a', b';
      assert s == s[..n] + (a' + ([c] + b)) == a + [c] + b;
      LexPrepend(s[..n], a', [c] + b, m, r);
    }
  }

  lemma StepNeutral(s: string)
    requires s != "" && Neutral(s[0])
    ensures Step(s, Code) == (Free(s[0]), Code)
  {
  }

  lemma {:induction false} LexSpaces(w: string, x: string)
    requires forall k :: 0 <= k < |w| ==> Neutral(w[k])
    ensures Lex(w + x, Code) == Lex(w, Code) + Lex(x, Code)
    ensures End(w, Code) == Code && forall p :: p in Lex(w, Code) ==> p.Free? && p.c in w
  {
    hide Step, Lex, End;
    Unfold(w, Code);
    Unfold(w + x, Code);
    if w == "" {
      assert w + x == x;
    } else {
      StepNeutral(w);
      StepNeutral(w + x);
      assert (w + x)[1..] == w[1..] + x;
      assert forall k :: 0 <= k < |w[1..]| ==> w[1..][k] == w[k + 1];
      LexSpaces(w[1..], x);
    }
  }
}
