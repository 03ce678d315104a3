/** What a window of the aggregator holds, told from the events that fall into it. */
module WindowContents {
  import opened Prelude
  import opened Ordering
  import opened IsoTimes
  import opened Aggregation

  // ----- which events share a window -----

  lemma {:induction false} AtLeastOne(n: nat, d: nat)
    requires d >= 1
    ensures n * d >= n
  {
    if d > 1 {
      AtLeastOne(n, d - 1);
      assert n * d == n * (d - 1) + n;
    }
  }

  /** Two multiples of a length less than that length apart are one. */
  lemma ApartByLength(x: int, y: int, n: nat)
    requires n > 0 && -(n as int) < n * x - n * y < n
    ensures x == y
  {
    assert n * x - n * y == n * (x - y) && n * y - n * x == n * (y - x);
    if x > y { AtLeastOne(n, x - y); } else if y > x { AtLeastOne(n, y - x); }
  }

  /** Windows start at multiples of their length. */
  lemma StartsAtMultiple(t: int, seconds: nat)
    requires seconds > 0
    ensures WindowStart(t, seconds) == seconds * (WholeSecond(t) / seconds)
  {
  }

  /** From the epoch on, a time belongs to the window of another exactly when it lies in it. */
  lemma SameStartExactly(a: int, b: int, seconds: nat)
    requires seconds > 0 && a >= 0 && b >= 0
    ensures WindowStart(a, seconds) == WindowStart(b, seconds) <==> InWindow(b, WindowStart(a, seconds), seconds)
  {
    OwnWindow(a, seconds);
    OwnWindow(b, seconds);
    StartsAtMultiple(a, seconds);
    StartsAtMultiple(b, seconds);
    hide WindowStart, WholeSecond;
    var x, y := WindowStart(a, seconds), WindowStart(b, seconds);
    if InWindow(b, x, seconds) {
      assert -(seconds as int) < x - y < seconds;
      ApartByLength(WholeSecond(a) / seconds, WholeSecond(b) / seconds, seconds);
    }
  }

  predicate SameEntity(a: Event, b: Event) {
    if a.node != "" then b.node == a.node
    else b.node == "" && b.pod == a.pod
  }

  /** Two events share a window exactly when their times open the same one, or neither has a time, and they agree on
      cluster, entity, component, template, source, extractor, dictionaries, risk and, for systemd, unit. The entity is the
      node, else the pod, else unknown. */
  lemma ShareWindowExactly(a: Event, b: Event, seconds: nat)
    requires seconds > 0
    ensures KeyOf(a, seconds) == KeyOf(b, seconds) <==>
            && a.time.Some? == b.time.Some?
            && (a.time.Some? && b.time.Some? ==> WindowStart(a.time.value, seconds) == WindowStart(b.time.value, seconds))
            && a.cluster == b.cluster && SameEntity(a, b) && a.component == b.component && a.templateHash == b.templateHash
            && a.sourceType == b.sourceType && a.extractorVersion == b.extractorVersion
            && a.dictionaryVersions == b.dictionaryVersions && a.riskType == b.riskType
            && (a.component == "systemd" ==> a.unit == b.unit)
  {
  }

  // ----- the events of a window -----

  /** The events that fall into a window, in order of arrival. */
  function Of(seconds: nat, events: seq<Event>, key: Key): (es: seq<Event>)
    requires seconds > 0
    ensures forall e :: e in es <==> e in events && KeyOf(e, seconds) == key
  {
    if events == [] then []
    else
      var n := |events| - 1;
      assert events == events[..n] + [events[n]];
      Of(seconds, events[..n], key) + (if KeyOf(events[n], seconds) == key then [events[n]] else [])
  }

  function FiguresFrom(es: seq<Event>): Figures {
    if es == [] then NO_FIGURES else WithEvent(FiguresFrom(es[..|es| - 1]), es[|es| - 1])
  }

  function ArrivalFrom(es: seq<Event>): Arrival
    requires es != []
  {
    Arriving(if |es| == 1 then Arrival(es[0].details, es[0].severity, []) else ArrivalFrom(es[..|es| - 1]), es[|es| - 1])
  }

  lemma OneMore(before: seq<Event>, e: Event)
    ensures FiguresFrom([]) == NO_FIGURES && FiguresFrom(before + [e]) == WithEvent(FiguresFrom(before), e)
    ensures ArrivalFrom(before + [e]) == Arriving(if before == [] then Arrival(e.details, e.severity, []) else ArrivalFrom(before), e)
  {
    hide WithEvent, Arriving;
    var es := before + [e];
    assert es[..|es| - 1] == before && es[|es| - 1] == e && (before == [] ==> es[0] == e);
  }

  /** A window is there exactly when an event falls into it, and holds what its events alone make of it. */
  lemma {:induction false} WindowOf(seconds: nat, events: seq<Event>, key: Key)
    requires seconds > 0
    ensures var ws := Aggregate(seconds, events); var es := Of(seconds, events, key);
            && (key in ws <==> es != [])
            && (es != [] ==> ws[key] == Window(FiguresFrom(es), ArrivalFrom(es)))
  {
    hide KeyOf, WithEvent, Arriving;
    if events != [] {
      var n := |events| - 1;
      var before, e := Of(seconds, events[..n], key), events[n];
      WindowOf(seconds, events[..n], key);
      OneMore(before, e);
      OfGrows(seconds, events, key);
      var ws := Aggregate(seconds, events[..n]);
      assert Aggregate(seconds, events) == Add(seconds, ws, e);
      if KeyOf(e, seconds) == key {
        assert Of(seconds, events, key) == before + [e];
      } else {
        assert Of(seconds, events, key) == before;
      }
    }
  }

  lemma OfGrows(seconds: nat, events: seq<Event>, key: Key)
    requires seconds > 0 && events != []
    ensures var n := |events| - 1;
            Of(seconds, events, key) == Of(seconds, events[..n], key) + (if KeyOf(events[n], seconds) == key then [events[n]] else [])
  {
  }

  // ----- what it counts -----

  function OfSeverity(es: seq<Event>, name: string): nat {
    if es == [] then 0 else OfSeverity(es[..|es| - 1], name) + (if SeverityName(es[|es| - 1]) == name then 1 else 0)
  }

  function WithField(es: seq<Event>, x: (string, string)): nat {
    if es == [] then 0 else WithField(es[..|es| - 1], x) + (if x in es[|es| - 1].fields then 1 else 0)
  }

  function WithParameter(es: seq<Event>, x: (string, string)): nat {
    if es == [] then 0 else WithParameter(es[..|es| - 1], x) + multiset(es[|es| - 1].parameters)[x]
  }

  ghost predicate CountsOf(es: seq<Event>, f: Figures) {
    && f.count == |es|
    && (forall name :: f.severities[name] == OfSeverity(es, name))
    && (forall x :: f.fields[x] == WithField(es, x))
    && (forall x: (string, string) :: f.parameters[x] == if x.0 == "" || x.1 == "" then 0 else WithParameter(es, x))
  }

  lemma {:induction false} TypedHas(parameters: seq<(string, string)>, x: (string, string))
    ensures multiset(Typed(parameters))[x] == if x.0 == "" || x.1 == "" then 0 else multiset(parameters)[x]
  {
    if parameters != [] {
      TypedHas(parameters[1..], x);
      assert parameters == [parameters[0]] + parameters[1..];
      assert multiset(parameters) == multiset{parameters[0]} + multiset(parameters[1..]);
      var kept := if parameters[0].0 != "" && parameters[0].1 != "" then [parameters[0]] else [];
      assert multiset(Typed(parameters)) == multiset(kept) + multiset(Typed(parameters[1..]));
    }
  }

  lemma OneCounted(f: Figures, e: Event, x: (string, string), name: string)
    ensures var now := WithEvent(f, e);
            && now.severities[name] == f.severities[name] + (if SeverityName(e) == name then 1 else 0)
            && now.fields[x] == f.fields[x] + (if x in e.fields then 1 else 0)
            && now.parameters[x] == f.parameters[x] + (if x.0 == "" || x.1 == "" then 0 else multiset(e.parameters)[x])
  {
    hide SeverityName, StampOf;
    TypedHas(e.parameters, x);
  }

  /** A window counts its events, how often each severity came, in each field each value, and each typed parameter; one
      without a field or a mask is not counted. */
  lemma {:induction false} WindowCounts(es: seq<Event>)
    ensures CountsOf(es, FiguresFrom(es))
  {
    hide WithEvent, SeverityName;
    if es != [] {
      var n := |es| - 1;
      var f := FiguresFrom(es[..n]);
      WindowCounts(es[..n]);
      CountsOne(f, es[n]);
      forall name ensures FiguresFrom(es).severities[name] == OfSeverity(es, name) { OneCounted(f, es[n], ("", ""), name); }
      forall x ensures FiguresFrom(es).fields[x] == WithField(es, x) { OneCounted(f, es[n], x, ""); }
      forall x: (string, string)
        ensures FiguresFrom(es).parameters[x] == if x.0 == "" || x.1 == "" then 0 else WithParameter(es, x)
      {
        OneCounted(f, es[n], x, "");
      }
    }
  }

  // ----- what it names -----

  ghost predicate Names(es: seq<Event>, f: Figures) {
    && (forall x :: x in f.namespaces <==> x != "" && exists e :: e in es && e.namespace == x)
    && (forall x :: x in f.pods <==> x != "" && exists e :: e in es && e.pod == x)
  }

  ghost predicate Tells(es: seq<Event>, f: Figures) {
    && (forall x :: x in f.entityKeys <==> x != "" && exists e :: e in es && x in e.entityKeys)
    && (forall x :: x in f.tags <==> x != "" && exists e :: e in es && x in e.tags)
    && (forall x :: x in f.relations <==> x.0 != "" && x.1 != "" && x.2 != "" && exists e :: e in es && x in e.relations)
  }

  /** It names every namespace, pod, entity, tag and whole relation one of its events brings, and no other. */
  lemma {:induction false} WindowNames(es: seq<Event>)
    ensures Names(es, FiguresFrom(es)) && Tells(es, FiguresFrom(es))
  {
    hide WithEvent, Names, Tells;
    if es == [] {
      NothingNamed();
    } else {
      var n := |es| - 1;
      WindowNames(es[..n]);
      assert es == es[..n] + [es[n]];
      OneNamed(es[..n], FiguresFrom(es[..n]), es[n]);
      OneTold(es[..n], FiguresFrom(es[..n]), es[n]);
    }
  }

  lemma NothingNamed()
    ensures Names([], NO_FIGURES) && Tells([], NO_FIGURES) && FiguresFrom([]) == NO_FIGURES
  {
  }

  lemma OneNamed(before: seq<Event>, f: Figures, last: Event)
    requires Names(before, f)
    ensures Names(before + [last], WithEvent(f, last))
  {
    hide SeverityName, StampOf, Typed, Whole;
    assert forall e :: e in before + [last] <==> e in before || e == last;
  }

  lemma OneTold(before: seq<Event>, f: Figures, last: Event)
    requires Tells(before, f)
    ensures Tells(before + [last], WithEvent(f, last))
  {
    hide SeverityName, StampOf, Typed, Named;
    assert forall e :: e in before + [last] <==> e in before || e == last;
  }

  // ----- what it takes from the order of arrival -----

  /** Trace, debug, info, notice, warning, error, critical, fatal; every other text is below. */
  lemma SeverityOrder(other: string)
    ensures SeverityRank("FATAL") > SeverityRank("CRITICAL") > SeverityRank("ERROR") > SeverityRank("WARNING")
    ensures SeverityRank("WARNING") == SeverityRank("WARN")
    ensures SeverityRank("WARN") > SeverityRank("NOTICE") > SeverityRank("INFO") > SeverityRank("DEBUG") > SeverityRank("TRACE")
    ensures UpperText(other) !in {"TRACE", "DEBUG", "INFO", "NOTICE", "WARNING", "WARN", "ERROR", "CRITICAL", "FATAL"} ==>
              SeverityRank("TRACE") > SeverityRank(other)
  {
    hide UpperText;
    UpperStays("FATAL");
    UpperStays("CRITICAL");
    UpperStays("ERROR");
    UpperStays("WARNING");
    UpperStays("WARN");
    UpperStays("NOTICE");
    UpperStays("INFO");
    UpperStays("DEBUG");
    UpperStays("TRACE");
  }

  /** The case of letters does not matter to a severity: neither to its rank nor to the name it is counted under. */
  lemma CaseDoesNotMatter(a: Event, b: Event)
    requires |a.severity| == |b.severity| && forall i :: 0 <= i < |a.severity| ==> Upper(a.severity[i]) == Upper(b.severity[i])
    ensures SeverityRank(a.severity) == SeverityRank(b.severity) && SeverityName(a) == SeverityName(b)
  {
    SameUpper(a.severity, b.severity);
  }

  lemma {:induction false} SameUpper(s: string, t: string)
    requires |s| == |t| && forall i :: 0 <= i < |s| ==> Upper(s[i]) == Upper(t[i])
    ensures UpperText(s) == UpperText(t)
  {
    if s != "" {
      forall i | 0 <= i < |s| - 1 ensures Upper(s[1..][i]) == Upper(t[1..][i]) { assert s[1..][i] == s[i + 1] && t[1..][i] == t[i + 1]; }
      SameUpper(s[1..], t[1..]);
    }
  }

  lemma {:induction false} UpperStays(s: string)
    requires forall c :: c in s ==> !('a' <= c <= 'z')
    ensures UpperText(s) == s
  {
    if s != "" {
      assert s == [s[0]] + s[1..] && s[0] in s && forall c :: c in s[1..] ==> c in s;
      UpperStays(s[1..]);
    }
  }

  function Samples(es: seq<Event>): seq<string> {
    if es == [] then [] else Samples(es[..|es| - 1]) + (if es[|es| - 1].sample != "" then [es[|es| - 1].sample] else [])
  }

  /** The event at `i` is the first of the worst. */
  ghost predicate FirstWorst(es: seq<Event>, i: nat) {
    && i < |es| && (forall e :: e in es ==> SeverityRank(e.severity) <= SeverityRank(es[i].severity))
    && forall j :: 0 <= j < i ==> SeverityRank(es[j].severity) < SeverityRank(es[i].severity)
  }

  /** A window keeps its first event's own fields, the severity text of the first of its worst events, and the first
      three samples that are not empty. */
  lemma {:induction false} WindowArrival(es: seq<Event>)
    requires es != []
    ensures var a := ArrivalFrom(es);
            && a.details == es[0].details
            && (exists i: nat :: i < |es| && FirstWorst(es, i) && a.severity == es[i].severity)
            && a.samples == if |Samples(es)| <= 3 then Samples(es) else Samples(es)[..3]
  {
    hide SeverityRank, FirstWorst;
    var n := |es| - 1;
    assert es == es[..n] + [es[n]];
    if n == 0 {
      assert es[..0] == [] && FirstWorst(es, 0) by { OneIsWorst(es); }
    } else {
      WindowArrival(es[..n]);
      var a := ArrivalFrom(es[..n]);
      var i: nat :| i < n && FirstWorst(es[..n], i) && a.severity == es[..n][i].severity;
      NextWorst(es, i);
    }
  }

  lemma OneIsWorst(es: seq<Event>)
    requires |es| == 1
    ensures FirstWorst(es, 0)
  {
  }

  lemma NextWorst(es: seq<Event>, i: nat)
    requires es != [] && FirstWorst(es[..|es| - 1], i)
    ensures i < |es| - 1
    ensures FirstWorst(es, if SeverityRank(es[|es| - 1].severity) > SeverityRank(es[i].severity) then |es| - 1 else i)
  {
    hide SeverityRank;
    var before := es[..|es| - 1];
    assert es == before + [es[|es| - 1]] && forall j :: 0 <= j < |before| ==> es[j] == before[j] && before[j] in before;
  }
}
