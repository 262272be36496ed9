/** What the summary of an import counts, and what the store holds when the import completes. */
module ArxivSummary {
  import opened Wrappers
  import opened Runs
  import opened ArxivImport
  import opened ArxivImportTheorems

  // ---- what one source is counted as --------------------------------------------------------------------

  datatype Counted = AsReady | AsImported | AsFailed | NotCounted

  /** What the loop counted a source as, and the status the store had for it right then. */
  datatype Mark = Mark(counted: Counted, at: SourceStatus)

  function CountedBy(before: Tally, after: Tally): Counted {
    if after.ready > before.ready then AsReady
    else if after.imported > before.imported then AsImported
    else if after.failed > before.failed then AsFailed
    else NotCounted
  }

  predicate Has(w: World, r: ReviewId, i: nat) {
    r in w.reviews && i < |w.reviews[r].sources|
  }

  function StatusAt(w: World, r: ReviewId, i: nat): SourceStatus {
    if Has(w, r, i) then w.reviews[r].sources[i].status else Discovered
  }

  function Add(tally: Tally, counted: Counted): Tally {
    match counted
    case AsReady => tally.(imported := tally.imported + 1, ready := tally.ready + 1)
    case AsImported => tally.(imported := tally.imported + 1)
    case AsFailed => tally.(failed := tally.failed + 1)
    case NotCounted => tally
  }

  /** The counters apart from the bytes. */
  predicate SameCounts(a: Tally, b: Tally) {
    a.imported == b.imported && a.ready == b.ready && a.failed == b.failed
  }

  /** How a mark follows from what the call has read at its start: a final status is counted as it is and stays, an
      import counts as imported whatever has become of it, and an open candidate is counted after it was settled. */
  predicate MarkFits(seen: SourceStatus, m: Mark) {
    match seen
    case Rejected => m == Mark(NotCounted, Rejected)
    case Ready => m == Mark(AsReady, Ready)
    case SourceFailed => m == Mark(AsFailed, SourceFailed)
    case Importing => m.counted.AsImported? && StatusEvolves(Importing, m.at)
    case Discovered => !m.counted.NotCounted? && !m.at.Discovered? && (m.counted.AsReady? ==> m.at.Ready?)
                       && (m.counted.AsImported? ==> !m.at.Ready?)
  }

  lemma EvolvesTo(w: World, w': World, r: ReviewId, i: nat)
    requires Persists(w, w') && Has(w, r, i)
    ensures Has(w', r, i) && StatusEvolves(StatusAt(w, r, i), StatusAt(w', r, i))
  {
  }

  lemma ErrorMark(w: World, r: ReviewId, i: nat, temporary: bool, t: Turn, tally: Tally)
    requires Has(w, r, i)
    ensures var p := OnError(w, r, i, temporary, t, tally);
            p.verdict.Going? ==>
              Has(p.world, r, i) && SameCounts(p.tally, Add(tally, AsFailed)) && !StatusAt(p.world, r, i).Discovered?
  {
    OnErrorPersists(w, r, i, temporary, t, tally);
    hide Persists, Play, ConfirmIfRequested;
    var p := OnError(w, r, i, temporary, t, tally);
    EvolvesTo(w, p.world, r, i);
    if p.verdict.Going? {
      var w2 := ConfirmIfRequested(Play(w, t.afterError), r).0;
      MarkedNotOpen(Play(w2, t.beforeFailure), r, i);
    }
  }

  lemma MarkedNotOpen(w: World, r: ReviewId, i: nat)
    requires Has(MarkFailed(w, r, i), r, i)
    ensures !StatusAt(MarkFailed(w, r, i), r, i).Discovered?
  {
  }

  lemma RegisteredMark(w: World, r: ReviewId, i: nat, hash: Hash, size: nat, ids: Fresh)
    requires Has(w, r, i) && Register(w, r, i, hash, size, ids).reply.Bound?
    ensures var after := Register(w, r, i, hash, size, ids);
            && Has(after.world, r, i) && !StatusAt(after.world, r, i).Discovered?
            && (after.reply.ready <==> StatusAt(after.world, r, i).Ready?)
  {
    hide HasContent, Require;
    if HasContent(w.library, w.reviews[r].owner, hash) { ContentThere(w.library, w.reviews[r].owner, hash); }
    hide ContentOf;
  }

  /** The mark of an open candidate whose content arrived. */
  lemma ContentMark(w: World, r: ReviewId, i: nat, hash: Hash, size: nat, t: Turn, tally: Tally)
    requires Has(w, r, i)
    ensures var p := OnContent(w, r, i, hash, size, t, tally); var counted := CountedBy(tally, p.tally);
            p.verdict.Going? ==>
              && Has(p.world, r, i) && SameCounts(p.tally, Add(tally, counted))
              && MarkFits(Discovered, Mark(counted, StatusAt(p.world, r, i)))
  {
    OnContentPersists(w, r, i, hash, size, t, tally);
    EvolvesTo(w, OnContent(w, r, i, hash, size, t, tally).world, r, i);
    hide Persists, Play, ConfirmIfRequested, Register, OnError, Commit, MarkFits, StatusEvolves;
    PlayPersists(w, t.afterDownload);
    var w1 := Play(w, t.afterDownload);
    EvolvesTo(w, w1, r, i);
    ConfirmPersists(w1, r);
    var (w2, stop) := ConfirmIfRequested(w1, r);
    EvolvesTo(w1, w2, r, i);
    if !stop && t.storageOk {
      var cached := Commit(w2, WriteCache(w2.reviews[r].owner, hash));
      CommitPersists(w2, WriteCache(w2.reviews[r].owner, hash));
      PlayPersists(cached, t.afterWrite);
      EvolvesTo(w2, cached, r, i);
      var w3 := Play(cached, t.afterWrite);
      EvolvesTo(cached, w3, r, i);
      ConfirmPersists(w3, r);
      var (w4, stopped) := ConfirmIfRequested(w3, r);
      EvolvesTo(w3, w4, r, i);
      if !stopped {
        PlayPersists(w4, t.beforeRegister);
        EvolvesTo(w4, Play(w4, t.beforeRegister), r, i);
        RegisterMark(Play(w4, t.beforeRegister), r, i, hash, size, t, tally);
        FailedFits(tally);
      }
    }
  }

  /** What the two ways to settle an open candidate are counted as. */
  lemma FailedFits(tally: Tally)
    ensures forall after: Tally :: SameCounts(after, Add(tally, AsFailed)) ==> CountedBy(tally, after) == AsFailed
    ensures forall at: SourceStatus :: !at.Discovered? ==> MarkFits(Discovered, Mark(AsFailed, at))
    ensures forall counted :: CountedBy(tally, Add(tally, counted)) == counted && SameCounts(Add(tally, counted), Add(tally, counted))
    ensures tally.(imported := tally.imported + 1, ready := tally.ready + 1) == Add(tally, AsReady)
    ensures tally.(imported := tally.imported + 1, ready := tally.ready + 0) == Add(tally, AsImported)
  {
  }

  /** From the registration on. */
  lemma RegisterMark(w: World, r: ReviewId, i: nat, hash: Hash, size: nat, t: Turn, tally: Tally)
    requires Has(w, r, i)
    ensures var out := Register(w, r, i, hash, size, t.ids);
            match out.reply
            case Bound(ready, _) => Has(out.world, r, i) && MarkFits(Discovered, Mark(if ready then AsReady else AsImported, StatusAt(out.world, r, i)))
            case PaperArchived =>
              var p := OnError(out.world, r, i, false, t, tally);
              p.verdict.Going? ==>
                Has(p.world, r, i) && SameCounts(p.tally, Add(tally, AsFailed)) && !StatusAt(p.world, r, i).Discovered?
            case _ => true
  {
    var out := Register(w, r, i, hash, size, t.ids);
    RegisterPersists(w, r, i, hash, size, t.ids);
    EvolvesTo(w, out.world, r, i);
    if out.reply.Bound? { RegisteredMark(w, r, i, hash, size, t.ids); }
    hide Register, OnError, Persists;
    if out.reply.PaperArchived? { ErrorMark(out.world, r, i, false, t, tally); }
  }

  /** One source adds one to the counter its mark names. */
  lemma OneMark(w: World, r: ReviewId, i: nat, source: Source, t: Turn, budget: int, tally: Tally)
    requires Has(w, r, i) && StatusEvolves(source.status, StatusAt(w, r, i))
    ensures var p := ImportOne(w, r, i, source, t, budget, tally); var counted := CountedBy(tally, p.tally);
            p.verdict.Going? ==>
              && Has(p.world, r, i) && SameCounts(p.tally, Add(tally, counted))
              && MarkFits(source.status, Mark(counted, StatusAt(p.world, r, i)))
  {
    hide Persists, Play, ConfirmIfRequested, OnError, OnContent;
    PlayPersists(w, t.before);
    var w0 := Play(w, t.before);
    EvolvesTo(w, w0, r, i);
    ConfirmPersists(w0, r);
    var (w1, stop) := ConfirmIfRequested(w0, r);
    EvolvesTo(w0, w1, r, i);
    if !stop && source.status.Discovered? && source.identified {
      match Fetch(t.download, budget - tally.bytes)
      case TemporaryError => ErrorMark(w1, r, i, true, t, tally); TemporaryEnds(w1, r, i, t, tally);
      case PermanentError => ErrorMark(w1, r, i, false, t, tally);
      case Content(hash, size) => ContentMark(w1, r, i, hash, size, t, tally.(bytes := tally.bytes + size));
    }
  }

  lemma TemporaryEnds(w: World, r: ReviewId, i: nat, t: Turn, tally: Tally)
    ensures !OnError(w, r, i, true, t, tally).verdict.Going?
  {
    hide Play, ConfirmIfRequested;
  }

  // ---- all sources ----------------------------------------------------------------------------------------

  ghost function Marks(w: World, r: ReviewId, sources: seq<Source>, turns: seq<Turn>, budget: int, start: Tally, k: nat): (marks: seq<Mark>)
    requires k <= |sources| == |turns|
    ensures |marks| == k
  {
    if k == 0 then []
    else
      var before := ImportFirst(w, r, sources, turns, budget, start, k - 1);
      var after := ImportFirst(w, r, sources, turns, budget, start, k);
      Marks(w, r, sources, turns, budget, start, k - 1)
      + [Mark(CountedBy(before.tally, after.tally), StatusAt(after.world, r, k - 1))]
  }

  function CountMarks(marks: seq<Mark>, p: Mark -> bool): nat {
    if marks == [] then 0 else CountMarks(marks[..|marks| - 1], p) + if p(marks[|marks| - 1]) then 1 else 0
  }

  predicate CountsImported(m: Mark) {
    m.counted.AsImported? || m.counted.AsReady?
  }

  predicate CountsReady(m: Mark) {
    m.counted.AsReady?
  }

  predicate CountsFailed(m: Mark) {
    m.counted.AsFailed?
  }

  /** The marks fit what was read and have moved on to what the world holds. */
  ghost predicate MarksFit(sources: seq<Source>, marks: seq<Mark>, w: World, r: ReviewId) {
    && |marks| <= |sources| && r in w.reviews && |sources| <= |w.reviews[r].sources|
    && forall i :: 0 <= i < |marks| ==>
         MarkFits(sources[i].status, marks[i]) && StatusEvolves(marks[i].at, w.reviews[r].sources[i].status)
  }

  lemma MarksStay(sources: seq<Source>, marks: seq<Mark>, w: World, w': World, r: ReviewId)
    requires MarksFit(sources, marks, w, r) && Persists(w, w')
    ensures MarksFit(sources, marks, w', r)
  {
    hide MarkFits;
  }

  lemma CountsStep(marks: seq<Mark>, m: Mark, tally: Tally, after: Tally)
    requires tally.imported == CountMarks(marks, CountsImported) && tally.ready == CountMarks(marks, CountsReady)
    requires tally.failed == CountMarks(marks, CountsFailed) && SameCounts(after, Add(tally, m.counted))
    ensures after.imported == CountMarks(marks + [m], CountsImported) && after.ready == CountMarks(marks + [m], CountsReady)
    ensures after.failed == CountMarks(marks + [m], CountsFailed)
  {
    assert (marks + [m])[..|marks|] == marks;
  }

  /** The counters count the marks. */
  lemma {:induction false} LoopMarks(w: World, r: ReviewId, sources: seq<Source>, turns: seq<Turn>, budget: int, bytes: int, k: nat)
    requires k <= |sources| == |turns| && r in w.reviews && SourcesEvolve(sources, w.reviews[r].sources)
    ensures var start := Tally(0, 0, 0, bytes);
            var p := ImportFirst(w, r, sources, turns, budget, start, k); var marks := Marks(w, r, sources, turns, budget, start, k);
            p.verdict.Going? ==>
              && MarksFit(sources, marks, p.world, r)
              && p.tally.imported == CountMarks(marks, CountsImported) && p.tally.ready == CountMarks(marks, CountsReady)
              && p.tally.failed == CountMarks(marks, CountsFailed)
  {
    hide ImportOne, MarkFits, Persists;
    var start := Tally(0, 0, 0, bytes);
    if k > 0 {
      LoopMarks(w, r, sources, turns, budget, bytes, k - 1);
      var before := ImportFirst(w, r, sources, turns, budget, start, k - 1);
      var p := ImportFirst(w, r, sources, turns, budget, start, k);
      if p.verdict.Going? {
        var marks := Marks(w, r, sources, turns, budget, start, k - 1);
        ImportFirstPersists(w, r, sources, turns, budget, start, k - 1);
        SourcesLater(sources, w, before.world, r, k - 1);
        OneMark(before.world, r, k - 1, sources[k - 1], turns[k - 1], budget, before.tally);
        ImportOnePersists(before.world, r, k - 1, sources[k - 1], turns[k - 1], budget, before.tally);
        MarksStay(sources, marks, before.world, p.world, r);
        CountsStep(marks, Mark(CountedBy(before.tally, p.tally), StatusAt(p.world, r, k - 1)), before.tally, p.tally);
      }
    }
  }

  lemma SourcesLater(sources: seq<Source>, w: World, w': World, r: ReviewId, i: nat)
    requires i < |sources| && r in w.reviews && SourcesEvolve(sources, w.reviews[r].sources) && Persists(w, w')
    ensures Has(w', r, i) && StatusEvolves(sources[i].status, StatusAt(w', r, i))
  {
  }

  // ---- the summary against the store ----------------------------------------------------------------------

  /** A source at the end: its mark, and the status in the store. */
  datatype Row = Row(mark: Mark, stored: SourceStatus)

  function Rows(marks: seq<Mark>, sources: seq<Source>): (rows: seq<Row>)
    requires |marks| <= |sources|
    ensures |rows| == |marks| && forall i :: 0 <= i < |marks| ==> rows[i] == Row(marks[i], sources[i].status)
  {
    seq(|marks|, i requires 0 <= i < |marks| => Row(marks[i], sources[i].status))
  }

  function Count(rows: seq<Row>, p: Row -> bool): nat {
    if rows == [] then 0 else Count(rows[..|rows| - 1], p) + if p(rows[|rows| - 1]) then 1 else 0
  }

  predicate RowImported(row: Row) { CountsImported(row.mark) }

  predicate RowReady(row: Row) { CountsReady(row.mark) }

  predicate RowFailed(row: Row) { CountsFailed(row.mark) }

  predicate StoredImported(row: Row) { IsImported(row.stored) }

  predicate StoredReady(row: Row) { row.stored.Ready? }

  predicate StoredFailed(row: Row) { row.stored.SourceFailed? }

  /** Counted as imported, but another execution had failed or rejected it by then, or its ingestion failed since. */
  predicate Lost(row: Row) {
    && CountsImported(row.mark)
    && (row.mark.at.SourceFailed? || row.mark.at.Rejected? || (row.mark.at.Importing? && row.stored.SourceFailed?))
  }

  /** Counted as failed, but another execution had bound it by then and its ingestion has not failed since. */
  predicate Gained(row: Row) {
    CountsFailed(row.mark) && (row.mark.at.Ready? || (row.mark.at.Importing? && !row.stored.SourceFailed?))
  }

  /** Counted as failed, but rejected by then. */
  predicate Dismissed(row: Row) {
    CountsFailed(row.mark) && row.mark.at.Rejected?
  }

  /** Counted as imported, and failed in the store. */
  predicate Broke(row: Row) {
    Lost(row) && row.stored.SourceFailed?
  }

  /** Ready in the store, and not counted so. */
  predicate BecameReady(row: Row) {
    row.stored.Ready? && !CountsReady(row.mark)
  }

  predicate RowFits(row: Row, seen: SourceStatus) {
    MarkFits(seen, row.mark) && StatusEvolves(row.mark.at, row.stored)
  }

  /** Each counter, source by source. */
  lemma RowDecides(row: Row, seen: SourceStatus)
    requires RowFits(row, seen)
    ensures CountsImported(row.mark) && !StoredImported(row) <==> Lost(row)
    ensures !CountsImported(row.mark) && StoredImported(row) <==> Gained(row)
    ensures CountsFailed(row.mark) && !StoredFailed(row) <==> Gained(row) || Dismissed(row)
    ensures !CountsFailed(row.mark) && StoredFailed(row) <==> Broke(row)
    ensures CountsReady(row.mark) ==> StoredReady(row)
    ensures !CountsReady(row.mark) && StoredReady(row) <==> BecameReady(row)
    ensures !(Gained(row) && Dismissed(row))
  {
  }

  /** The counters against the store, as differences. */
  lemma {:induction false} CountersDiffer(rows: seq<Row>, seen: seq<SourceStatus>)
    requires |seen| == |rows| && forall i :: 0 <= i < |rows| ==> RowFits(rows[i], seen[i])
    ensures Count(rows, RowImported) + Count(rows, Gained) == Count(rows, StoredImported) + Count(rows, Lost)
    ensures Count(rows, RowFailed) + Count(rows, Broke)
            == Count(rows, StoredFailed) + Count(rows, Gained) + Count(rows, Dismissed)
    ensures Count(rows, RowReady) + Count(rows, BecameReady) == Count(rows, StoredReady)
  {
    hide RowFits, Lost, Gained, Dismissed, Broke, BecameReady, StoredImported, StoredFailed, StoredReady, CountsImported,
         CountsFailed, CountsReady;
    if rows != [] {
      var n := |rows| - 1;
      CountersDiffer(rows[..n], seen[..n]);
      RowDecides(rows[n], seen[n]);
    }
  }

  lemma {:induction false} MarksOfRows(marks: seq<Mark>, sources: seq<Source>)
    requires |marks| <= |sources|
    ensures var rows := Rows(marks, sources);
            && CountMarks(marks, CountsImported) == Count(rows, RowImported)
            && CountMarks(marks, CountsReady) == Count(rows, RowReady)
            && CountMarks(marks, CountsFailed) == Count(rows, RowFailed)
  {
    hide CountsImported, CountsReady, CountsFailed;
    var rows := Rows(marks, sources);
    if marks != [] {
      var n := |marks| - 1;
      MarksOfRows(marks[..n], sources);
      assert Rows(marks[..n], sources) == rows[..n];
    }
  }

  /** The marks of one call. */
  ghost function MarksOf(w: World, r: ReviewId, budget: int, script: Script): seq<Mark>
    requires r in w.reviews && |script.turns| == |w.reviews[r].sources|
  {
    var sources := w.reviews[r].sources;
    var w1 := Play(w, script.afterRead);
    if r !in w1.reviews then []
    else
      Marks(ConfirmIfRequested(w1, r).0, r, sources, script.turns, budget, Tally(0, 0, 0, ConsumedBytes(w.library, sources)), |sources|)
  }

  lemma {:induction false} NoneCounted(rows: seq<Row>, p: Row -> bool)
    ensures Count(rows, p) == 0 <==> forall i :: 0 <= i < |rows| ==> !p(rows[i])
  {
    if rows != [] {
      NoneCounted(rows[..|rows| - 1], p);
      assert rows == rows[..|rows| - 1] + [rows[|rows| - 1]];
    }
  }

  /** When a call completes, its three counters differ from the store exactly by the sources that are lost, gained,
      dismissed, broke or became ready; so each is right if and only if these make up for each other. */
  lemma SummaryAgainstStore(w: World, r: ReviewId, budget: int, script: Script)
    requires r in w.reviews && |script.turns| == |w.reviews[r].sources|
    requires ImportAll(w, r, budget, script).ending.Completed?
    ensures var out := ImportAll(w, r, budget, script); var sources := w.reviews[r].sources;
            var marks := MarksOf(w, r, budget, script);
            && r in out.world.reviews && |marks| == |sources| <= |out.world.reviews[r].sources|
            && var rows := Rows(marks, out.world.reviews[r].sources);
               && (forall i :: 0 <= i < |rows| ==> RowFits(rows[i], sources[i].status))
               && out.tally.imported + Count(rows, Gained) == Count(rows, StoredImported) + Count(rows, Lost)
               && (out.tally.imported == Count(rows, StoredImported) <==> Count(rows, Lost) == Count(rows, Gained))
               && (out.tally.failed == Count(rows, StoredFailed)
                   <==> Count(rows, Broke) == Count(rows, Gained) + Count(rows, Dismissed))
               && out.tally.ready <= Count(rows, StoredReady)
               && (out.tally.ready == Count(rows, StoredReady) <==> forall i :: 0 <= i < |rows| ==> !BecameReady(rows[i]))
  {
    hide Play, ConfirmIfRequested, ImportFirst, Marks, ConsumedBytes, VersionsOwned, Complete, RowFits, MarkFits, Persists,
         StatusEvolves, MarksFit, Count, CountMarks;
    var sources := w.reviews[r].sources;
    var start := Tally(0, 0, 0, ConsumedBytes(w.library, sources));
    var w1 := Play(w, script.afterRead);
    var w2 := ConfirmIfRequested(w1, r).0;
    var loop := ImportFirst(w2, r, sources, script.turns, budget, start, |sources|);
    var out := ImportAll(w, r, budget, script);
    var marks := MarksOf(w, r, budget, script);
    assert out == AfterLoop(loop, r, script) && loop.verdict.Going?;
    PlayPersists(w, script.afterRead);
    ConfirmPersists(w1, r);
    PersistsOn(w, w1, w2);
    StartsEvolve(w, w2, r);
    LoopMarks(w2, r, sources, script.turns, budget, start.bytes, |sources|);
    AfterLoopPersists(loop, r, script);
    MarksStay(sources, marks, loop.world, out.world, r);
    StoreDecides(sources, marks, out.world, r, out.tally) by { assert out.tally == loop.tally; }
  }

  lemma StartsEvolve(w: World, w': World, r: ReviewId)
    requires r in w.reviews && Persists(w, w')
    ensures r in w'.reviews && SourcesEvolve(w.reviews[r].sources, w'.reviews[r].sources)
  {
  }

  lemma AfterLoopPersists(loop: Progress, r: ReviewId, script: Script)
    ensures Persists(loop.world, AfterLoop(loop, r, script).world)
  {
    hide Persists, Play, ConfirmIfRequested, Complete;
    PlayPersists(loop.world, []);
    assert Play(loop.world, []) == loop.world by { PlayNothing(loop.world); }
    PlayPersists(loop.world, script.beforeEnd);
    var w3 := Play(loop.world, script.beforeEnd);
    if r in w3.reviews {
      ConfirmPersists(w3, r);
      var w4 := ConfirmIfRequested(w3, r).0;
      PersistsOn(loop.world, w3, w4);
      PlayPersists(w4, script.beforeComplete);
      var w5 := Play(w4, script.beforeComplete);
      PersistsOn(loop.world, w4, w5);
      if r in w5.reviews {
        CompletePersists(w5, r, loop.tally.ready);
        PersistsOn(loop.world, w5, Complete(w5, r, loop.tally.ready).0);
      }
    }
  }

  lemma PlayNothing(w: World)
    ensures Play(w, []) == w
  {
  }

  lemma StoreDecides(sources: seq<Source>, marks: seq<Mark>, w: World, r: ReviewId, tally: Tally)
    requires MarksFit(sources, marks, w, r) && |marks| == |sources|
    requires tally.imported == CountMarks(marks, CountsImported) && tally.ready == CountMarks(marks, CountsReady)
    requires tally.failed == CountMarks(marks, CountsFailed)
    ensures r in w.reviews && |sources| <= |w.reviews[r].sources|
    ensures var rows := Rows(marks, w.reviews[r].sources);
            && (forall i :: 0 <= i < |rows| ==> RowFits(rows[i], sources[i].status))
            && tally.imported + Count(rows, Gained) == Count(rows, StoredImported) + Count(rows, Lost)
            && (tally.failed == Count(rows, StoredFailed) <==> Count(rows, Broke) == Count(rows, Gained) + Count(rows, Dismissed))
            && tally.ready <= Count(rows, StoredReady)
            && (tally.ready == Count(rows, StoredReady) <==> forall i :: 0 <= i < |rows| ==> !BecameReady(rows[i]))
  {
    var stored := w.reviews[r].sources;
    var rows := Rows(marks, stored);
    var seen := seq(|sources|, i requires 0 <= i < |sources| => sources[i].status);
    assert forall i :: 0 <= i < |rows| ==> RowFits(rows[i], seen[i]);
    hide MarksFit, RowFits, Count, CountMarks, MarkFits, Lost, Gained, Dismissed, Broke, BecameReady;
    CountersDiffer(rows, seen);
    MarksOfRows(marks, stored);
    NoneCounted(rows, BecameReady);
  }

  /** A source that the call had read as importing is counted as imported without another look; that is wrong if and
      only if its ingestion has failed by the time the call completes. */
  lemma SnapshotIsWrongIff(row: Row)
    requires RowFits(row, Importing)
    ensures CountsImported(row.mark) && (Lost(row) <==> row.stored.SourceFailed?)
  {
  }
}
