/** The keys under which affected entities are counted: cluster, type and id joined by bars. */
module EntityNames {

  function Key(cluster: string, kind: string, id: string): string { cluster + "|" + kind + "|" + id }

  datatype Entity = Entity(cluster: string, kind: string, id: string)

  function KeyOf(e: Entity): string { Key(e.cluster, e.kind, e.id) }

  /** None of the three names has a bar in it. */
  predicate Plain(e: Entity) { '|' !in e.cluster && '|' !in e.kind && '|' !in e.id }

  function Bars(s: string): nat { if s == [] then 0 else (if s[0] == '|' then 1 else 0) + Bars(s[1..]) }

  lemma {:induction false} BarsAdd(a: string, b: string)
    ensures Bars(a + b) == Bars(a) + Bars(b)
  {
    if a == [] {
      assert a + b == b;
    } else {
      assert (a + b)[1..] == a[1..] + b;
      BarsAdd(a[1..], b);
    }
  }

  lemma {:induction false} NoBars(s: string)
    ensures Bars(s) == 0 <==> '|' !in s
  {
    if s != [] {
      NoBars(s[1..]);
      assert s == [s[0]] + s[1..];
    }
  }

  lemma KeyBars(e: Entity)
    ensures Bars(KeyOf(e)) == 2 + Bars(e.cluster) + Bars(e.kind) + Bars(e.id)
  {
    BarsAdd(e.cluster + "|" + e.kind + "|", e.id);
    BarsAdd(e.cluster + "|" + e.kind, "|");
    BarsAdd(e.cluster + "|", e.kind);
    BarsAdd(e.cluster, "|");
  }

  /** The text before the first bar and the text after it. */
  lemma FirstBar(a: string, b: string, x: string, y: string)
    requires '|' !in a && '|' !in b && a + "|" + x == b + "|" + y
    ensures a == b && x == y
  {
    var s := a + "|" + x;
    assert s == b + "|" + y;
    assert (forall i :: 0 <= i < |a| ==> s[i] == a[i]) && (forall i :: 0 <= i < |b| ==> s[i] == b[i]);
    assert s[|a|] == '|' && s[|b|] == '|';
    assert a == s[..|a|] && b == s[..|b|] && x == s[|a| + 1..] && y == s[|b| + 1..];
  }

  lemma PlainKeysDiffer(a: Entity, b: Entity)
    requires Plain(a) && Plain(b) && KeyOf(a) == KeyOf(b)
    ensures a == b
  {
    assert KeyOf(a) == a.cluster + "|" + (a.kind + "|" + a.id) && KeyOf(b) == b.cluster + "|" + (b.kind + "|" + b.id);
    FirstBar(a.cluster, b.cluster, a.kind + "|" + a.id, b.kind + "|" + b.id);
    FirstBar(a.kind, b.kind, a.id, b.id);
  }

  lemma CutAtBar(s: string) returns (x: string, y: string)
    requires '|' in s
    ensures s == x + "|" + y
  {
    var i :| 0 <= i < |s| && s[i] == '|';
    x, y := s[..i], s[i + 1..];
  }

  lemma Joins(a: string, b: string, c: string)
    ensures a + "|" + b + "|" + c == a + "|" + (b + "|" + c)
  {
  }

  /** Another entity under the key of one with a bar in a name. */
  lemma BarCollides(a: Entity) returns (b: Entity)
    requires !Plain(a)
    ensures b != a && KeyOf(b) == KeyOf(a)
  {
    if '|' in a.cluster {
      var x, y := CutAtBar(a.cluster);
      b := Entity(x, y + "|" + a.kind, a.id);
      Joins(x, y, a.kind);
    } else if '|' in a.kind {
      var x, y := CutAtBar(a.kind);
      b := Entity(a.cluster, x, y + "|" + a.id);
      Joins(a.cluster, x, y);
      Joins(a.cluster + "|" + x, y, a.id);
    } else {
      var x, y := CutAtBar(a.id);
      b := Entity(a.cluster + "|" + a.kind, x, y);
      Joins(a.cluster + "|" + a.kind, x, y);
    }
  }

  /** An entity has its key to itself if and only if none of its names has a bar. */
  lemma KeyIsOwnExactly(a: Entity)
    ensures Plain(a) <==> forall b :: KeyOf(b) == KeyOf(a) ==> b == a
  {
    if Plain(a) {
      forall b | KeyOf(b) == KeyOf(a) ensures b == a {
        KeyBars(a);
        KeyBars(b);
        NoBars(a.cluster);
        NoBars(a.kind);
        NoBars(a.id);
        NoBars(b.cluster);
        NoBars(b.kind);
        NoBars(b.id);
        PlainKeysDiffer(a, b);
      }
    } else {
      var b := BarCollides(a);
      assert KeyOf(b) == KeyOf(a);
    }
  }

  function KeysOf(entities: set<Entity>): set<string> { set e | e in entities :: KeyOf(e) }

  /** So plain entities are counted one by one, and others never more than that. */
  lemma {:induction false} CountedApart(entities: set<Entity>)
    ensures |KeysOf(entities)| <= |entities|
    ensures (forall e :: e in entities ==> Plain(e)) ==> |KeysOf(entities)| == |entities|
    decreases |entities|
  {
    if entities != {} {
      var e :| e in entities;
      var rest := entities - {e};
      CountedApart(rest);
      assert KeysOf(entities) == KeysOf(rest) + {KeyOf(e)};
      if forall x :: x in entities ==> Plain(x) {
        forall x | x in rest ensures KeyOf(x) != KeyOf(e) {
          if KeyOf(x) == KeyOf(e) { PlainKeysDiffer(x, e); }
        }
      }
    }
  }
}
