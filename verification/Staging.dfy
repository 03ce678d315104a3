/**
 Staging of a referenced job's input in feature_jobs.py: pages of bounded size are appended while other threads try
 to run, retry or annotate the job; only a complete input opens it.
 */
module Staging {
  import opened Prelude

  /** An entity record and the bytes of its JSON text. */
  datatype Record = Record(entityId: string, size: nat, payload: string)

  const MAX_RECORDS: nat := 100
  const MAX_BYTES: nat := 1024 * 1024

  /** The pages appended so far, and the page being filled. */
  datatype Stage = Stage(pages: seq<seq<Record>>, page: seq<Record>, bytes: nat)

  function Bytes(page: seq<Record>): nat { if page == [] then 0 else Bytes(page[..|page| - 1]) + page[|page| - 1].size }

  function Flatten(pages: seq<seq<Record>>): seq<Record> {
    if pages == [] then [] else Flatten(pages[..|pages| - 1]) + pages[|pages| - 1]
  }

  function Staged(s: Stage): seq<Record> { Flatten(s.pages) + s.page }

  function Flushed(s: Stage): Stage { if s.page == [] then s else Stage(s.pages + [s.page], [], 0) }

  function Added(s: Stage, r: Record): Stage { s.(page := s.page + [r], bytes := s.bytes + r.size) }

  /** One record of the source; a record over the byte budget is refused. */
  function Feed(s: Stage, r: Record): Option<Stage> {
    if r.size > MAX_BYTES then None
    else
      var roomy := if s.bytes + r.size > MAX_BYTES then Flushed(s) else s;
      var added := Added(roomy, r);
      Some(if |added.page| >= MAX_RECORDS then Flushed(added) else added)
  }

  ghost predicate PageFits(page: seq<Record>) { page != [] && |page| <= MAX_RECORDS && Bytes(page) <= MAX_BYTES }

  ghost predicate Fits(s: Stage) {
    && (forall k :: 0 <= k < |s.pages| ==> PageFits(s.pages[k]))
    && |s.page| < MAX_RECORDS && s.bytes == Bytes(s.page) <= MAX_BYTES
  }

  lemma FlushKeeps(s: Stage)
    requires (forall k :: 0 <= k < |s.pages| ==> PageFits(s.pages[k])) && |s.page| <= MAX_RECORDS && s.bytes == Bytes(s.page) <= MAX_BYTES
    ensures Fits(Flushed(s)) && Staged(Flushed(s)) == Staged(s) && Flushed(s).page == []
  {
    if s.page != [] {
      assert Flushed(s).pages[..|s.pages|] == s.pages;
    }
  }

  lemma AddKeeps(s: Stage, r: Record)
    ensures Bytes(Added(s, r).page) == Bytes(s.page) + r.size && Staged(Added(s, r)) == Staged(s) + [r]
  {
    assert Added(s, r).page[..|s.page|] == s.page;
  }

  /** Feeding keeps every page within its bounds and the source's order, whichever page a record lands on. */
  lemma FeedKeeps(s: Stage, r: Record)
    requires Fits(s)
    ensures Feed(s, r).Some? <==> r.size <= MAX_BYTES
    ensures Feed(s, r).Some? ==> Fits(Feed(s, r).value) && Staged(Feed(s, r).value) == Staged(s) + [r]
  {
    hide Bytes, Staged, Flatten;
    FlushKeeps(s);
    var roomy := if s.bytes + r.size > MAX_BYTES then Flushed(s) else s;
    assert Bytes([]) == 0 by { NoBytes(); }
    AddKeeps(roomy, r);
    if r.size <= MAX_BYTES { FlushKeeps(Added(roomy, r)); }
  }

  lemma NoBytes()
    ensures Bytes([]) == 0
  {
  }

  // ----- the job while it is built -----

  datatype Build = Building | Ready | Failed

  datatype Effect = Started(entity: string) | Retried(entity: string) | Annotated(entity: string)

  /** `position` counts the source items taken; `alive` says the building thread has not died. */
  datatype Job = Job(build: Build, stage: Stage, position: nat, alive: bool, effects: seq<Effect>)

  const FRESH := Job(Building, Stage([], [], 0), 0, true, [])

  /** The regions other threads see: the builder's, with the writes the database accepts or not, and the gated ones. */
  datatype Action = Pull(accepted: bool) | Publish(flushed: bool, committed: bool) | Abandon | Act(effect: Effect)

  /** A source item may be an error of the source itself. */
  type Source = seq<Option<Record>>

  function AfterPull(j: Job, item: Option<Record>, accepted: bool): Job {
    if item.None? then j.(build := Failed)
    else match Feed(j.stage, item.value)
      case None => j.(build := Failed)
      case Some(next) =>
        if !accepted && next.pages != j.stage.pages then j.(build := Failed)
        else j.(stage := next, position := j.position + 1)
  }

  function AfterPublish(j: Job, flushed: bool, committed: bool): Job {
    if !flushed && j.stage.page != [] then j.(build := Failed)
    else if !committed then j.(stage := Flushed(j.stage), build := Failed)
    else j.(stage := Flushed(j.stage), build := Ready)
  }

  /** `_require_complete_input`. */
  predicate Open(j: Job) { j.build.Ready? }

  function Step(source: Source, j: Job, a: Action): Job {
    match a
    case Pull(accepted) =>
      if j.alive && j.build.Building? && j.position < |source| then AfterPull(j, source[j.position], accepted) else j
    case Publish(flushed, committed) =>
      if j.alive && j.build.Building? && j.position == |source| then AfterPublish(j, flushed, committed) else j
    case Abandon => j.(alive := false)
    case Act(effect) => if Open(j) then j.(effects := j.effects + [effect]) else j
  }

  function Run(source: Source, j: Job, actions: seq<Action>): Job
    decreases |actions|
  {
    if actions == [] then j else Run(source, Step(source, j, actions[0]), actions[1..])
  }

  ghost predicate Sound(source: Source, n: nat) { n <= |source| && forall i :: 0 <= i < n ==> source[i].Some? }

  /** The records of the first `n` source items. */
  function Taken(source: Source, n: nat): seq<Record>
    requires Sound(source, n)
  {
    seq(n, i requires 0 <= i < n => source[i].value)
  }

  ghost predicate Inv(source: Source, j: Job) {
    && Sound(source, j.position) && Fits(j.stage) && Staged(j.stage) == Taken(source, j.position)
    && (j.build.Ready? ==> j.position == |source| && j.stage.page == [])
    && (j.effects != [] ==> j.build.Ready?)
  }

  lemma StepKeepsInv(source: Source, j: Job, a: Action)
    requires Inv(source, j)
    ensures Inv(source, Step(source, j, a))
  {
    hide Feed, Fits, Staged, Flushed;
    match a
    case Pull(accepted) =>
      if j.position < |source| && source[j.position].Some? {
        FeedKeeps(j.stage, source[j.position].value);
        assert Sound(source, j.position + 1);
        assert Taken(source, j.position + 1) == Taken(source, j.position) + [source[j.position].value];
      }
    case Publish(_, _) => FitsFlushes(j.stage);
    case _ =>
  }

  lemma FitsFlushes(s: Stage)
    requires Fits(s)
    ensures Fits(Flushed(s)) && Staged(Flushed(s)) == Staged(s) && Flushed(s).page == []
  {
    FlushKeeps(s);
  }

  lemma {:induction false} RunKeepsInv(source: Source, j: Job, actions: seq<Action>)
    requires Inv(source, j)
    ensures Inv(source, Run(source, j, actions))
    decreases |actions|
  {
    hide Inv, Step;
    if actions != [] {
      StepKeepsInv(source, j, actions[0]);
      RunKeepsInv(source, Step(source, j, actions[0]), actions[1..]);
    }
  }

  /** No entity is started, retried or annotated unless the staged pages are the complete source, in order, each
      page within its bounds. */
  lemma NothingBeforeComplete(source: Source, actions: seq<Action>)
    ensures var j := Run(source, FRESH, actions);
            && (forall k :: 0 <= k < |j.stage.pages| ==> PageFits(j.stage.pages[k]))
            && Sound(source, j.position) && Staged(j.stage) == Taken(source, j.position)
            && (j.effects != [] ==> Sound(source, |source|) && Flatten(j.stage.pages) == Taken(source, |source|))
  {
    assert Taken(source, 0) == [];
    RunKeepsInv(source, FRESH, actions);
  }

  /** A build that failed, or whose thread died before publishing, never opens the job. */
  lemma {:induction false} FailedNeverRuns(source: Source, j: Job, actions: seq<Action>)
    requires j.build.Failed? || (j.build.Building? && !j.alive)
    ensures var r := Run(source, j, actions); !r.build.Ready? && r.effects == j.effects
    decreases |actions|
  {
    if actions != [] { FailedNeverRuns(source, Step(source, j, actions[0]), actions[1..]); }
  }

  /** A source that breaks off, or brings a record over the budget, never becomes runnable. */
  lemma {:induction false} BadSourceNeverRuns(source: Source, j: Job, actions: seq<Action>, bad: nat)
    requires bad < |source| && (source[bad].None? || source[bad].value.size > MAX_BYTES)
    requires j.position <= bad && !j.build.Ready?
    ensures var r := Run(source, j, actions); r.position <= bad && !r.build.Ready? && r.effects == j.effects
    decreases |actions|
  {
    if actions != [] { BadSourceNeverRuns(source, Step(source, j, actions[0]), actions[1..], bad); }
  }

  // ----- how full the pages are -----

  /** The next record did not go on the page: it held all it may, or had no room for the record. */
  ghost predicate Closed(page: seq<Record>, next: seq<Record>) {
    |page| == MAX_RECORDS || (next != [] && Bytes(page) + next[0].size > MAX_BYTES)
  }

  ghost predicate AllClosed(pages: seq<seq<Record>>) { forall k :: 0 <= k < |pages| - 1 ==> Closed(pages[k], pages[k + 1]) }

  function AllPages(s: Stage): seq<seq<Record>> { if s.page == [] then s.pages else s.pages + [s.page] }

  /** No page was written early. */
  ghost predicate Packed(s: Stage) {
    && AllClosed(AllPages(s))
    && (s.page == [] && s.pages != [] ==> |s.pages[|s.pages| - 1]| == MAX_RECORDS)
  }

  lemma FeedPacks(s: Stage, r: Record)
    requires Fits(s) && Packed(s) && Feed(s, r).Some?
    ensures Packed(Feed(s, r).value)
  {
    var n := |s.pages|;
    if s.bytes + r.size > MAX_BYTES && s.page != [] {
      assert AllPages(s)[n] == s.page;
      GrowsClosed(AllPages(s), [r]);
    } else if s.page == [] {
      assert s.bytes == 0;
      assert Added(s, r).page == [r];
      GrowsClosed(s.pages, [r]);
    } else {
      GrowsLonger(s.pages, s.page, r);
    }
  }

  lemma GrowsClosed(pages: seq<seq<Record>>, page: seq<Record>)
    requires AllClosed(pages) && (pages != [] ==> Closed(pages[|pages| - 1], page))
    ensures AllClosed(pages + [page])
  {
  }

  lemma GrowsLonger(pages: seq<seq<Record>>, page: seq<Record>, r: Record)
    requires page != [] && AllClosed(pages + [page])
    ensures AllClosed(pages + [page + [r]])
  {
    var was, now := pages + [page], pages + [page + [r]];
    forall k | 0 <= k < |now| - 1 ensures Closed(now[k], now[k + 1]) { assert Closed(was[k], was[k + 1]); }
  }

  ghost predicate PackedJob(j: Job) { if j.build.Building? then Packed(j.stage) else AllClosed(AllPages(j.stage)) }

  lemma StepKeepsPacked(source: Source, j: Job, a: Action)
    requires Inv(source, j) && PackedJob(j)
    ensures PackedJob(Step(source, j, a))
  {
    hide Feed, Closed;
    match a
    case Pull(accepted) =>
      if j.build.Building? && j.position < |source| && source[j.position].Some? && Feed(j.stage, source[j.position].value).Some? {
        FeedPacks(j.stage, source[j.position].value);
      }
    case _ =>
  }

  /** Over every run the pages are as few as the bounds allow in order: each but the last holds a hundred records or had
      no room for the one that follows. */
  lemma {:induction false} PagesAreFull(source: Source, j: Job, actions: seq<Action>)
    requires Inv(source, j) && PackedJob(j)
    ensures AllClosed(Run(source, j, actions).stage.pages)
    decreases |actions|
  {
    hide Inv, Step, PackedJob;
    if actions != [] {
      StepKeepsInv(source, j, actions[0]);
      StepKeepsPacked(source, j, actions[0]);
      PagesAreFull(source, Step(source, j, actions[0]), actions[1..]);
    } else {
      FrontClosed(j);
    }
  }

  lemma FrontClosed(j: Job)
    requires PackedJob(j)
    ensures AllClosed(j.stage.pages)
  {
    var all := AllPages(j.stage);
    assert AllClosed(all) && forall k :: 0 <= k < |j.stage.pages| ==> all[k] == j.stage.pages[k];
  }

  // ----- what each region decides -----

  /** The record would complete or overflow the page, so that taking it writes one. */
  predicate Writes(s: Stage, r: Record) {
    (s.page != [] && s.bytes + r.size > MAX_BYTES) || |s.page| + 1 >= MAX_RECORDS
  }

  /** Taking a source item fails exactly when the source broke off, the record is over the budget, or the page it
      completes is not accepted; otherwise the builder goes on. The input is published exactly when the rest of the last
      page is accepted, if there is one, and the publication commits. A gated action takes effect exactly on a published
      input. Nothing else changes the build. */
  lemma RegionDecides(source: Source, j: Job, a: Action)
    requires Inv(source, j)
    ensures var r := Step(source, j, a);
            match a
            case Pull(accepted) =>
              if j.alive && j.build.Building? && j.position < |source| then
                var item := source[j.position];
                && (r.build.Failed? <==> item.None? || item.value.size > MAX_BYTES || (Writes(j.stage, item.value) && !accepted))
                && (!r.build.Failed? ==> r.build.Building? && r.position == j.position + 1)
              else r == j
            case Publish(flushed, committed) =>
              if j.alive && j.build.Building? && j.position == |source| then
                r.build == if (flushed || j.stage.page == []) && committed then Ready else Failed
              else r == j
            case Abandon => r == j.(alive := false)
            case Act(effect) => r == if j.build.Ready? then j.(effects := j.effects + [effect]) else j
  {
    hide Bytes, Staged;
    if a.Pull? && j.position < |source| && source[j.position].Some? {
      var rec := source[j.position].value;
      if rec.size <= MAX_BYTES { FeedWrites(j.stage, rec); }
      FeedKeeps(j.stage, rec);
    }
  }

  lemma FeedWrites(s: Stage, r: Record)
    requires Fits(s) && r.size <= MAX_BYTES
    ensures Feed(s, r).Some? && (Feed(s, r).value.pages != s.pages <==> Writes(s, r))
  {
    hide Bytes;
    if s.page == [] { NoBytes(); }
    assert s.page == [] ==> s.bytes == 0;
    PagesGrow(s.pages, s.page, r);
  }

  lemma PagesGrow(pages: seq<seq<Record>>, page: seq<Record>, r: Record)
    ensures pages + [page] != pages && pages + [page + [r]] != pages && pages + [page] + [[r]] != pages && pages + [[r]] != pages
  {
    assert |pages + [page]| > |pages| && |pages + [page + [r]]| > |pages| && |pages + [page] + [[r]]| > |pages| && |pages + [[r]]| > |pages|;
  }

  /** The builder's own regions, every write accepted. */
  function Undisturbed(n: nat): seq<Action> { seq(n, i => Pull(true)) + [Publish(true, true)] }

  /** A source that does not break off and brings no record over the budget becomes runnable, whole. */
  lemma CompleteOpens(source: Source, j: Job)
    requires Inv(source, j) && j.alive && j.build.Building?
    requires forall i :: j.position <= i < |source| ==> source[i].Some? && source[i].value.size <= MAX_BYTES
    ensures var r := Run(source, j, Undisturbed(|source| - j.position));
            r.build.Ready? && Flatten(r.stage.pages) == Taken(source, |source|) && Sound(source, |source|)
    decreases |source| - j.position
  {
    hide Bytes, Feed, Fits;
    var n := |source| - j.position;
    var actions := Undisturbed(n);
    RegionDecides(source, j, actions[0]);
    StepKeepsInv(source, j, actions[0]);
    var next := Step(source, j, actions[0]);
    if n == 0 {
      assert actions[1..] == [];
      StagedPages(next.stage);
    } else {
      assert actions[1..] == Undisturbed(n - 1);
      CompleteOpens(source, next);
    }
  }

  // ----- the building thread -----

  class ReferencedBuild {
    var pages: seq<seq<Record>>
    var build: Build

    constructor ()
      ensures pages == [] && build == Building
    {
      pages, build := [], Building;
    }

    /** `_build_referenced_job` run undisturbed, its `n`-th append accepted or not, its publication committed or not. */
    method BuildJob(source: Source, accepts: nat -> bool, committed: bool)
      requires pages == [] && build.Building?
      modifies this
      ensures !build.Building? && forall k :: 0 <= k < |pages| ==> PageFits(pages[k])
      ensures AllClosed(pages) && forall k :: 0 <= k < |pages| ==> accepts(k)
      ensures build.Ready? ==> committed && Sound(source, |source|) && Flatten(pages) == Taken(source, |source|)
      ensures build.Failed? ==>
                || (exists k :: 0 <= k < |source| && (source[k].None? || source[k].value.size > MAX_BYTES))
                || !accepts(|pages|) || !committed
    {
      hide Bytes, Fits, Staged, AllClosed, Packed;
      var page: seq<Record>, bytes: nat := [], 0;
      StartsEmpty(source);
      for i := 0 to |source|
        invariant Fits(Stage(pages, page, bytes)) && Sound(source, i)
        invariant Staged(Stage(pages, page, bytes)) == Taken(source, i) && build.Building?
        invariant Packed(Stage(pages, page, bytes)) && forall k :: 0 <= k < |pages| ==> accepts(k)
      {
        ghost var before := Stage(pages, page, bytes);
        FitsPages(before);
        PackedPages(before);
        if source[i].None? || source[i].value.size > MAX_BYTES {
          build := Failed;
          return;
        }
        var r := source[i].value;
        FeedKeeps(before, r);
        FeedPacks(before, r);
        assert Sound(source, i + 1) && Taken(source, i + 1) == Taken(source, i) + [r];
        if bytes + r.size > MAX_BYTES && page != [] {
          if !accepts(|pages|) {
            build := Failed;
            return;
          }
          pages, page, bytes := pages + [page], [], 0;
        }
        FlushedPages(before);
        page, bytes := page + [r], bytes + r.size;
        if |page| >= MAX_RECORDS {
          if !accepts(|pages|) {
            build := Failed;
            return;
          }
          pages, page, bytes := pages + [page], [], 0;
        }
        assert Feed(before, r) == Some(Stage(pages, page, bytes));
      }
      ghost var last := Stage(pages, page, bytes);
      FitsPages(last);
      PackedPages(last);
      if page != [] {
        if !accepts(|pages|) {
          build := Failed;
          return;
        }
        pages := pages + [page];
      }
      FitsFlushes(last);
      FitsPages(Flushed(last));
      StagedPages(Flushed(last));
      build := if committed then Ready else Failed;
    }
  }

  lemma StartsEmpty(source: Source)
    ensures Fits(Stage([], [], 0)) && Packed(Stage([], [], 0)) && Staged(Stage([], [], 0)) == Taken(source, 0)
  {
  }

  lemma FitsPages(s: Stage)
    requires Fits(s)
    ensures forall k :: 0 <= k < |s.pages| ==> PageFits(s.pages[k])
  {
  }

  lemma PackedPages(s: Stage)
    requires Packed(s)
    ensures AllClosed(s.pages) && AllClosed(Flushed(s).pages)
  {
    hide Closed;
    assert forall k :: 0 <= k < |s.pages| ==> AllPages(s)[k] == s.pages[k];
  }

  lemma FlushedPages(s: Stage)
    requires Fits(s)
    ensures forall k :: 0 <= k < |Flushed(s).pages| ==> PageFits(Flushed(s).pages[k])
  {
    FlushKeeps(s);
  }

  lemma StagedPages(s: Stage)
    requires s.page == []
    ensures Staged(s) == Flatten(s.pages)
  {
  }
}
