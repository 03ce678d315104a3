/**
 Windowed aggregation of template events: aggregator.py. Times are microseconds since the epoch, in UTC; bounds are
 kept as ISO texts and compared as texts, as the code does.
 */
module Aggregation {
  import opened Prelude
  import opened Ordering
  import opened IsoTimes

  // ----- windows -----

  /** `int(...)`: the whole second, truncated toward zero. */
  function WholeSecond(t: int): int { if t >= 0 then t / MICROS else -((-t) / MICROS) }

  function WindowStart(t: int, seconds: nat): int
    requires seconds > 0
  {
    WholeSecond(t) - WholeSecond(t) % seconds
  }

  predicate InWindow(t: int, start: int, seconds: nat) { start * MICROS <= t < (start + seconds) * MICROS }

  /** A time lies in its own window except before the epoch, with a fraction, where the next whole second opens a window. */
  lemma OwnWindow(t: int, seconds: nat)
    requires seconds > 0
    ensures InWindow(t, WindowStart(t, seconds), seconds) <==>
            t >= 0 || t % MICROS == 0 || WholeSecond(t) % seconds != 0
  {
    var e := WholeSecond(t);
    var m := e % seconds;
    assert 0 <= m < seconds;
  }

  // ----- events -----

  /** Everything a window is keyed by but the time; empty where the event says nothing. */
  datatype Group = Group(cluster: string, entityType: string, entityId: string, component: string, templateHash: string,
                         sourceType: string, extractorVersion: string, dictionaryVersions: string, riskType: string, unit: string)

  /** A template event; `time` is none when no time can be resolved. */
  datatype Event = Event(time: Option<Time>, cluster: string, node: string, pod: string, namespace: string, component: string,
                         templateHash: string, sourceType: string, extractorVersion: string, dictionaryVersions: string,
                         riskType: string, unit: string, severity: string, sample: string, entityKeys: set<string>,
                         relations: set<(string, string, string)>, fields: set<(string, string)>, tags: set<string>,
                         parameters: seq<(string, string)>, details: string)

  datatype Key = Key(start: Option<int>, group: Group)

  function GroupOf(e: Event): Group {
    Group(e.cluster, if e.node != "" then "node" else if e.pod != "" then "pod" else "unknown",
          if e.node != "" then e.node else if e.pod != "" then e.pod else "unknown", e.component, e.templateHash, e.sourceType,
          e.extractorVersion, e.dictionaryVersions, e.riskType, if e.component == "systemd" then e.unit else "")
  }

  function KeyOf(e: Event, seconds: nat): Key
    requires seconds > 0
  {
    Key(if e.time.Some? then Some(WindowStart(e.time.value, seconds)) else None, GroupOf(e))
  }

  function Upper(c: char): char { if 'a' <= c <= 'z' then c - 'a' + 'A' else c }

  function UpperText(s: string): string { if s == "" then "" else [Upper(s[0])] + UpperText(s[1..]) }

  function SeverityName(e: Event): string { UpperText(if e.severity == "" then "unknown" else e.severity) }

  function SeverityRank(severity: string): int {
    match UpperText(severity)
    case "TRACE" => 0 case "DEBUG" => 1 case "INFO" => 2 case "NOTICE" => 3 case "WARNING" => 4 case "WARN" => 4
    case "ERROR" => 5 case "CRITICAL" => 6 case "FATAL" => 7 case _ => -1
  }

  // ----- what a window holds -----

  /** The figures of a window; a dictionary of counts is the multiset it counts. */
  datatype Figures = Figures(count: nat, severities: multiset<string>, first: Option<string>, last: Option<string>,
                             namespaces: set<string>, pods: set<string>, entityKeys: set<string>,
                             relations: set<(string, string, string)>, fields: multiset<(string, string)>, tags: set<string>,
                             parameters: multiset<(string, string)>)

  /** What depends on the order of arrival: the first event's own fields, the samples, the text of the worst severity. */
  datatype Arrival = Arrival(details: string, severity: string, samples: seq<string>)

  datatype Window = Window(figures: Figures, arrival: Arrival)

  const NO_FIGURES := Figures(0, multiset{}, None, None, {}, {}, {}, {}, multiset{}, {}, multiset{})

  function Named(text: string): set<string> { if text == "" then {} else {text} }

  function Whole(relations: set<(string, string, string)>): set<(string, string, string)> {
    set r | r in relations && r.0 != "" && r.1 != "" && r.2 != ""
  }

  function Typed(parameters: seq<(string, string)>): (kept: seq<(string, string)>) {
    if parameters == [] then []
    else (if parameters[0].0 != "" && parameters[0].1 != "" then [parameters[0]] else []) + Typed(parameters[1..])
  }

  function StampOf(e: Event): Option<string> { if e.time.Some? then Some(Iso(e.time.value)) else None }

  function WithEvent(f: Figures, e: Event): Figures {
    Figures(f.count + 1, f.severities + multiset{SeverityName(e)}, LowerOf(f.first, StampOf(e)), UpperOf(f.last, StampOf(e)),
            f.namespaces + Named(e.namespace), f.pods + Named(e.pod), f.entityKeys + (e.entityKeys - {""}),
            f.relations + Whole(e.relations), f.fields + multiset(e.fields), f.tags + (e.tags - {""}),
            f.parameters + multiset(Typed(e.parameters)))
  }

  const SAMPLES: nat := 3

  function Arriving(a: Arrival, e: Event): Arrival {
    Arrival(a.details, if SeverityRank(e.severity) > SeverityRank(a.severity) then e.severity else a.severity,
            if e.sample != "" && |a.samples| < SAMPLES then a.samples + [e.sample] else a.samples)
  }

  type Windows = map<Key, Window>

  function Add(seconds: nat, ws: Windows, e: Event): Windows
    requires seconds > 0
  {
    var key := KeyOf(e, seconds);
    var w := if key in ws then ws[key] else Window(NO_FIGURES, Arrival(e.details, e.severity, []));
    ws[key := Window(WithEvent(w.figures, e), Arriving(w.arrival, e))]
  }

  function Aggregate(seconds: nat, events: seq<Event>): Windows
    requires seconds > 0
  {
    if events == [] then map[] else Add(seconds, Aggregate(seconds, events[..|events| - 1]), events[|events| - 1])
  }

  // ----- order does not matter -----

  type Tally = map<Key, Figures>

  function TallyOf(ws: Windows): Tally { map k | k in ws :: ws[k].figures }

  function FiguresAt(t: Tally, key: Key): Figures { if key in t then t[key] else NO_FIGURES }

  function Count(seconds: nat, t: Tally, e: Event): Tally
    requires seconds > 0
  {
    t[KeyOf(e, seconds) := WithEvent(FiguresAt(t, KeyOf(e, seconds)), e)]
  }

  function CountAll(seconds: nat, events: seq<Event>): Tally
    requires seconds > 0
  {
    if events == [] then map[] else Count(seconds, CountAll(seconds, events[..|events| - 1]), events[|events| - 1])
  }

  lemma {:induction false} TallyIsCounted(seconds: nat, events: seq<Event>)
    requires seconds > 0
    ensures TallyOf(Aggregate(seconds, events)) == CountAll(seconds, events)
  {
    hide WithEvent, Arriving, KeyOf;
    if events != [] {
      TallyIsCounted(seconds, events[..|events| - 1]);
    }
  }

  lemma BoundsCommute(b: Option<string>, x: Option<string>, y: Option<string>)
    ensures LowerOf(LowerOf(b, x), y) == LowerOf(LowerOf(b, y), x)
    ensures UpperOf(UpperOf(b, x), y) == UpperOf(UpperOf(b, y), x)
  {
    hide TextLess;
    TextOrder();
  }

  lemma FiguresCommute(f: Figures, a: Event, b: Event)
    ensures WithEvent(WithEvent(f, a), b) == WithEvent(WithEvent(f, b), a)
  {
    hide StampOf, Named, Whole, Typed, SeverityName;
    BoundsCommute(f.first, StampOf(a), StampOf(b));
    BoundsCommute(f.last, StampOf(a), StampOf(b));
    var x, y := WithEvent(WithEvent(f, a), b), WithEvent(WithEvent(f, b), a);
    assert x.severities == y.severities && x.fields == y.fields && x.parameters == y.parameters;
    assert x.namespaces == y.namespaces && x.pods == y.pods && x.entityKeys == y.entityKeys && x.relations == y.relations && x.tags == y.tags;
  }

  lemma CountCommutes(seconds: nat, t: Tally, a: Event, b: Event)
    requires seconds > 0
    ensures Count(seconds, Count(seconds, t, a), b) == Count(seconds, Count(seconds, t, b), a)
  {
    hide WithEvent, KeyOf;
    FiguresCommute(FiguresAt(t, KeyOf(a, seconds)), a, b);
  }

  /** Any event may be taken to have come last. */
  lemma {:induction false} AnyLast(seconds: nat, events: seq<Event>, i: nat)
    requires seconds > 0 && i < |events|
    ensures CountAll(seconds, events) == Count(seconds, CountAll(seconds, events[..i] + events[i + 1..]), events[i])
    decreases |events|
  {
    hide Count;
    var n := |events| - 1;
    var rest := events[..i] + events[i + 1..];
    if i == n {
      assert rest == events[..n];
    } else {
      var earlier := events[..n];
      AnyLast(seconds, earlier, i);
      assert earlier[..i] + earlier[i + 1..] == rest[..|rest| - 1] && rest[|rest| - 1] == events[n];
      CountCommutes(seconds, CountAll(seconds, rest[..|rest| - 1]), events[i], events[n]);
    }
  }

  lemma LastElsewhere(a: seq<Event>, b: seq<Event>) returns (i: nat)
    requires a != [] && multiset(a) == multiset(b)
    ensures i < |b| && b[i] == a[|a| - 1] && multiset(b[..i] + b[i + 1..]) == multiset(a[..|a| - 1])
  {
    var n := |a| - 1;
    assert a == a[..n] + [a[n]];
    assert a[n] in multiset(a);
    i :| 0 <= i < |b| && b[i] == a[n];
    assert b == b[..i] + [b[i]] + b[i + 1..];
    assert multiset(b) == multiset(b[..i]) + multiset{b[i]} + multiset(b[i + 1..]);
    assert multiset(a) == multiset(a[..n]) + multiset{a[n]};
    assert multiset(b[..i] + b[i + 1..]) == multiset(b[..i]) + multiset(b[i + 1..]) == multiset(b) - multiset{b[i]};
    assert multiset(a[..n]) == multiset(a) - multiset{a[n]};
  }

  lemma {:induction false} CountedSame(seconds: nat, a: seq<Event>, b: seq<Event>)
    requires seconds > 0 && multiset(a) == multiset(b)
    ensures CountAll(seconds, a) == CountAll(seconds, b)
    decreases |a|
  {
    hide Count;
    if a == [] {
      assert |multiset(b)| == 0;
      assert b == [];
    } else {
      var i := LastElsewhere(a, b);
      AnyLast(seconds, b, i);
      CountedSame(seconds, a[..|a| - 1], b[..i] + b[i + 1..]);
    }
  }

  /** The figures of every window are the same for the events in any order. */
  lemma OrderDoesNotMatter(seconds: nat, a: seq<Event>, b: seq<Event>)
    requires seconds > 0 && multiset(a) == multiset(b)
    ensures TallyOf(Aggregate(seconds, a)) == TallyOf(Aggregate(seconds, b))
  {
    hide *;
    TallyIsCounted(seconds, a);
    TallyIsCounted(seconds, b);
    CountedSame(seconds, a, b);
  }

  // ----- nothing is lost -----

  function Counts(t: Tally): map<Key, nat> { map k | k in t :: t[k].count }

  lemma SumBump(counts: map<Key, nat>, key: Key)
    ensures var was := if key in counts then counts[key] else 0; SumOf(counts[key := was + 1]) == SumOf(counts) + 1
  {
    var was := if key in counts then counts[key] else 0;
    var now := counts[key := was + 1];
    SumWithout(now, key);
    assert now - {key} == counts - {key};
    if key in counts { SumWithout(counts, key); } else { assert counts - {key} == counts; }
  }

  lemma CountGrows(seconds: nat, t: Tally, e: Event)
    requires seconds > 0
    ensures SumOf(Counts(Count(seconds, t, e))) == SumOf(Counts(t)) + 1
  {
    hide KeyOf, SeverityName, SumOf, WithEvent;
    var key := KeyOf(e, seconds);
    CountsOne(FiguresAt(t, key), e);
    SumBump(Counts(t), key);
    assert Counts(Count(seconds, t, e)) == Counts(t)[key := FiguresAt(t, key).count + 1];
  }

  lemma CountsOne(f: Figures, e: Event)
    ensures WithEvent(f, e).count == f.count + 1
  {
  }

  /** Each window's severities add up to its count, and the windows to the events. */
  lemma {:induction false} EventsAreConserved(seconds: nat, events: seq<Event>)
    requires seconds > 0
    ensures SumOf(Counts(CountAll(seconds, events))) == |events|
    ensures var t := CountAll(seconds, events); forall k :: k in t ==> |t[k].severities| == t[k].count
  {
    if events == [] {
      assert Counts(map[]) == map[];
    } else {
      hide KeyOf, SeverityName, Counts;
      EventsAreConserved(seconds, events[..|events| - 1]);
      CountGrows(seconds, CountAll(seconds, events[..|events| - 1]), events[|events| - 1]);
    }
  }

  // ----- first and last seen -----

  /** The events of one window. */
  function Inside(seconds: nat, events: seq<Event>, key: Key): set<Time>
    requires seconds > 0
  {
    set i | 0 <= i < |events| && KeyOf(events[i], seconds) == key && events[i].time.Some? :: events[i].time.value
  }

  ghost predicate IsFirst(times: set<Time>, first: Option<string>) {
    if times == {} then first.None? else exists t :: t in times && first == Some(Iso(t)) && forall u :: u in times ==> t <= u
  }

  ghost predicate IsLast(times: set<Time>, last: Option<string>) {
    if times == {} then last.None? else exists t :: t in times && last == Some(Iso(t)) && forall u :: u in times ==> u <= t
  }

  lemma FirstGrows(times: set<Time>, first: Option<string>, t: Time)
    requires IsFirst(times, first)
    ensures IsFirst(times + {t}, LowerOf(first, Some(Iso(t))))
  {
    hide Iso, TextLess;
    if times == {} {
      assert t in times + {t} && forall u :: u in times + {t} ==> t <= u;
    } else {
      var m :| m in times && first == Some(Iso(m)) && forall u :: u in times ==> m <= u;
      IsoIsChronological(t, m);
      var best := if t < m then t else m;
      assert best in times + {t} && LowerOf(first, Some(Iso(t))) == Some(Iso(best));
    }
  }

  lemma LastGrows(times: set<Time>, last: Option<string>, t: Time)
    requires IsLast(times, last)
    ensures IsLast(times + {t}, UpperOf(last, Some(Iso(t))))
  {
    hide Iso, TextLess;
    if times == {} {
      assert t in times + {t} && forall u :: u in times + {t} ==> u <= t;
    } else {
      var m :| m in times && last == Some(Iso(m)) && forall u :: u in times ==> u <= m;
      IsoIsChronological(m, t);
      var best := if m < t then t else m;
      assert best in times + {t} && UpperOf(last, Some(Iso(t))) == Some(Iso(best));
    }
  }

  lemma InsideGrows(seconds: nat, events: seq<Event>, e: Event, key: Key)
    requires seconds > 0
    ensures Inside(seconds, events + [e], key) ==
            Inside(seconds, events, key) + (if KeyOf(e, seconds) == key && e.time.Some? then {e.time.value} else {})
  {
    hide KeyOf;
    var now := events + [e];
    assert now[|events|] == e && forall i :: 0 <= i < |events| ==> now[i] == events[i];
    forall t | t in Inside(seconds, events, key) ensures t in Inside(seconds, now, key) {
      var i :| 0 <= i < |events| && KeyOf(events[i], seconds) == key && events[i].time == Some(t);
      assert now[i].time.value == t;
    }
  }

  /** Compared as texts, first and last seen are the chronological minimum and maximum of the window's times. */
  lemma {:induction false} BoundsAreChronological(seconds: nat, events: seq<Event>, key: Key)
    requires seconds > 0
    ensures var f := FiguresAt(CountAll(seconds, events), key);
            IsFirst(Inside(seconds, events, key), f.first) && IsLast(Inside(seconds, events, key), f.last)
  {
    hide KeyOf, IsFirst, IsLast, Iso;
    if events == [] {
      NoBounds(seconds, key);
    } else {
      var n := |events| - 1;
      assert events == events[..n] + [events[n]];
      BoundsAreChronological(seconds, events[..n], key);
      InsideGrows(seconds, events[..n], events[n], key);
      if KeyOf(events[n], seconds) == key && events[n].time.Some? {
        var f := FiguresAt(CountAll(seconds, events[..n]), key);
        FirstGrows(Inside(seconds, events[..n], key), f.first, events[n].time.value);
        LastGrows(Inside(seconds, events[..n], key), f.last, events[n].time.value);
      }
      assert Inside(seconds, events[..n], key) + {} == Inside(seconds, events[..n], key);
    }
  }

  lemma NoBounds(seconds: nat, key: Key)
    requires seconds > 0
    ensures Inside(seconds, [], key) == {} && IsFirst({}, None) && IsLast({}, None)
  {
  }

  /** First and last seen, once no event of the window is before the epoch, lie inside the window. */
  lemma BoundsLieInside(seconds: nat, events: seq<Event>, key: Key, first: Time, last: Time)
    requires seconds > 0 && first >= 0
    requires var f := FiguresAt(CountAll(seconds, events), key); f.first == Some(Iso(first)) && f.last == Some(Iso(last))
    ensures key.start.Some? && InWindow(first, key.start.value, seconds) && InWindow(last, key.start.value, seconds)
    ensures first <= last && forall t :: t in Inside(seconds, events, key) ==> first <= t <= last
  {
    hide Iso, KeyOf, CountAll, InWindow, Inside;
    BoundsAreChronological(seconds, events, key);
    var a :| a in Inside(seconds, events, key) && Iso(a) == Iso(first) && forall u :: u in Inside(seconds, events, key) ==> a <= u;
    var b :| b in Inside(seconds, events, key) && Iso(b) == Iso(last) && forall u :: u in Inside(seconds, events, key) ==> u <= b;
    IsoIsChronological(a, first);
    IsoIsChronological(b, last);
    TimeLiesInside(seconds, events, key, first);
    TimeLiesInside(seconds, events, key, last);
  }

  lemma TimeLiesInside(seconds: nat, events: seq<Event>, key: Key, t: Time)
    requires seconds > 0 && t in Inside(seconds, events, key) && t >= 0
    ensures key.start.Some? && InWindow(t, key.start.value, seconds)
  {
    OwnWindow(t, seconds);
  }

  /** Half a second before the epoch: the window opens at the epoch, after the event. */
  lemma BeforeTheEpoch()
    ensures WindowStart(-500_000, 300) == 0 && !InWindow(-500_000, 0, 300)
  {
  }

  // ----- the aggregator -----

  class TemplateEventAggregator {
    const seconds: nat
    var windows: Windows
    /** Every event added so far. */
    ghost var added: seq<Event>

    constructor (seconds: nat)
      requires seconds > 0
      ensures Valid() && added == [] && this.seconds == seconds
    {
      this.seconds, windows, added := seconds, map[], [];
    }

    ghost predicate Valid()
      reads this
    {
      seconds > 0 && windows == Aggregate(seconds, added)
    }

    /** One event into one window. */
    method Extend(w: Window, e: Event) returns (extended: Window)
      ensures extended == Window(WithEvent(w.figures, e), Arriving(w.arrival, e))
    {
      hide Iso, SeverityName, SeverityRank, TextLess, Whole, Typed;
      var f, a := w.figures, w.arrival;
      var first, last := f.first, f.last;
      if e.time.Some? {
        var stamp := Iso(e.time.value);
        if first.None? || TextLess(stamp, first.value) {
          first := Some(stamp);
        }
        if last.None? || TextLess(last.value, stamp) {
          last := Some(stamp);
        }
      }
      var severity := a.severity;
      if SeverityRank(e.severity) > SeverityRank(severity) {
        severity := e.severity;
      }
      var samples := a.samples;
      if e.sample != "" && |samples| < SAMPLES {
        samples := samples + [e.sample];
      }
      extended := Window(
        Figures(f.count + 1, f.severities + multiset{SeverityName(e)}, first, last, f.namespaces + Named(e.namespace),
                f.pods + Named(e.pod), f.entityKeys + (e.entityKeys - {""}), f.relations + Whole(e.relations),
                f.fields + multiset(e.fields), f.tags + (e.tags - {""}), f.parameters + multiset(Typed(e.parameters))),
        Arrival(a.details, severity, samples));
    }

    method AddEvent(e: Event)
      requires Valid()
      modifies this
      ensures Valid() && added == old(added) + [e]
    {
      hide KeyOf, WithEvent, Arriving;
      var key := KeyOf(e, seconds);
      if key !in windows {
        var stamp := StampOf(e);
        windows := windows[key := Window(NO_FIGURES.(first := stamp, last := stamp), Arrival(e.details, e.severity, []))];
        StampTwice(e);
      }
      var extended := Extend(windows[key], e);
      windows := windows[key := extended];
      added := added + [e];
      assert added[..|added| - 1] == old(added);
      assert windows == Add(seconds, old(windows), e);
    }
  }

  /** A window opens with the event's own stamp as both bounds. */
  lemma StampTwice(e: Event)
    ensures WithEvent(NO_FIGURES.(first := StampOf(e), last := StampOf(e)), e) == WithEvent(NO_FIGURES, e)
  {
    hide TextLess, StampOf, SeverityName, Named, Whole, Typed;
    BoundsTwice(StampOf(e));
  }

  lemma BoundsTwice(stamp: Option<string>)
    ensures LowerOf(stamp, stamp) == LowerOf(None, stamp) && UpperOf(stamp, stamp) == UpperOf(None, stamp)
  {
    hide TextLess;
    TextOrder();
  }
}
