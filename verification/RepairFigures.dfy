/** What the figures of an approval group say about its members. */
module RepairFigures {
  import opened Prelude
  import opened Ordering
  import opened Keyset
  import opened EntityNames
  import opened Repair

  function Affected(f: Facts): Entity { Entity(f.cluster, f.entityType, f.entityId) }

  function Entities(m: Members): set<Entity> { set c | c in m :: Affected(m[c]) }

  /** The members are listed in order, each once; entities are counted one by one where no name has a bar in it. */
  lemma ListsMembers(m: Members)
    ensures var f := FiguresOf(m);
            && Increasing(f.ids, TextLess) && (forall c :: c in f.ids <==> c in m) && f.candidates == |m|
            && f.affected == |f.entities| <= |Entities(m)|
            && ((forall c :: c in m ==> Plain(Affected(m[c]))) ==> f.affected == |Entities(m)|)
  {
    CountedApart(Entities(m));
    hide Key;
    assert EntityKeys(m) == KeysOf(Entities(m)) by {
      forall c | c in m ensures EntityKey(m[c]) == KeyOf(Affected(m[c])) {}
    }
  }

  lemma NothingCounted()
    ensures FiguresOf(map[]) == NO_FIGURES
  {
    var none: Members := map[];
    assert Occurrences(none) == map[] && Firsts(none) == {} && Lasts(none) == {} && EntityKeys(none) == {} && none.Keys == {};
    BoundsOfNone();
  }

  /** Occurrences add up, member by member. */
  lemma OccurrencesAdd(m: Members, c: string, f: Facts)
    requires c !in m
    ensures FiguresOf(m[c := f]).occurrences == FiguresOf(m).occurrences + f.occurrences
  {
    hide FiguresOf, SumOf;
    OccurrencesSum(m);
    OccurrencesSum(m[c := f]);
    assert Occurrences(m[c := f]) == Occurrences(m)[c := f.occurrences];
    SumWith(Occurrences(m), c, f.occurrences);
  }

  lemma OccurrencesSum(m: Members)
    ensures FiguresOf(m).occurrences == SumOf(Occurrences(m))
  {
  }

  predicate NotBefore(time: string, bound: Option<string>) { time != "" ==> bound.Some? && !TextLess(time, bound.value) }

  predicate NotAfter(time: string, bound: Option<string>) { time != "" ==> bound.Some? && !TextLess(bound.value, time) }

  /** The bounds are times of members, and no member's times lie outside. */
  lemma BoundsEnclose(m: Members, c: string)
    requires c in m
    ensures NotBefore(m[c].first, FiguresOf(m).first) && NotAfter(m[c].last, FiguresOf(m).last)
    ensures FiguresOf(m).first.Some? ==> exists d :: d in m && m[d].first == FiguresOf(m).first.value != ""
    ensures FiguresOf(m).last.Some? ==> exists d :: d in m && m[d].last == FiguresOf(m).last.value != ""
  {
    hide TextLess, MinText, MaxText, SumOf, EntityKeys, Occurrences;
    var firsts, lasts := Firsts(m), Lasts(m);
    BoundsOfNone();
    forall x | x in firsts ensures MinText(firsts).Some? && MinText(firsts).value in firsts && !TextLess(x, MinText(firsts).value) { BoundsAreMet(firsts, x); }
    forall x | x in lasts ensures MaxText(lasts).Some? && MaxText(lasts).value in lasts && !TextLess(MaxText(lasts).value, x) { BoundsAreMet(lasts, x); }
    assert m[c].first != "" ==> m[c].first in firsts;
    assert m[c].last != "" ==> m[c].last in lasts;
    assert firsts == {} || exists x :: x in firsts;
    assert lasts == {} || exists x :: x in lasts;
  }
}
