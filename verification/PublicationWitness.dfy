/** A daily file off the day grid: published ready by the worker, refused by the reader. */
module PublicationWitness {
  import opened Wrappers
  import opened Bars
  import opened Validation
  import opened Gaps
  import opened Paging
  import opened Reader
  import opened Publication

  // A broker whose whole history is one closed row.
  function OneRow(row: Raw, identity: Identity): nat -> PageTurn {
    (i: nat) => PageTurn(false, false, Page(Some(identity), Some(if i == 0 then [row] else [])))
  }

  function Asked(symbol: string): Settings { Settings(Key(symbol, D1), 1, 0, 500) }

  // What the broker's one row is, and that nothing else goes wrong.
  predicate Usable(row: Raw, source: string, now: int) {
    && Complete(row) && Closed(ToBar(row, source), D1, now)
    && PricesAgree(row.open.value, row.high.value, row.low.value, row.close.value) && row.volume.value >= 0.0
  }

  lemma PagesOfOneRow(row: Raw, identity: Identity)
    ensures Continue([], 2, 500, OneRow(row, identity))
         == Ok(Paged([Request(identity, 0, 2, [row]), Request(identity, 1, 1, [])], true))
  {
    var turns := OneRow(row, identity);
    var first, second := Request(identity, 0, 2, [row]), Request(identity, 1, 1, []);
    assert turns(0) == PageTurn(false, false, Page(Some(identity), Some([row])));
    assert turns(1) == PageTurn(false, false, Page(Some(identity), Some([])));
    ContinueUnfolds([], 2, 500, turns);
    RowsAppend([], first);
    assert [] + [first] == [first];
    assert Rows([]) == [] && Rows([first]) == [row];
    ContinueUnfolds([first], 2, 500, turns);
    assert [first] + [second] == [first, second];
  }

  lemma FrameOfOneRow(row: Raw, source: string, now: int)
    requires Usable(row, source, now)
    ensures AllComplete([row]) && Fault([row], true, D1).None?
    ensures Frame(None, [row], source, D1, 1, now) == [ToBar(row, source)]
    ensures |KeepClosed(ToBars([row], ""), D1, now)| == 1
  {
    assert PricesComplete(row);
    var bar := ToBar(row, source);
    assert [row][1..] == [];
    assert ToBars([row], source) == [bar];
    assert [] + [bar] == [bar] && [bar][..0] == [] && [bar][1..] == [];
    assert KeepClosed([bar], D1, now) == [bar];
    assert SortByTime(DropDuplicates([bar])) == [bar];
    var unnamed := ToBar(row, "");
    assert ToBars([row], "") == [unnamed] && [unnamed][..0] == [];
  }

  lemma OneRowIsPublished(row: Raw, identity: Identity, gaps: Clock, now: int, gapTurns: nat -> Turn)
    requires Usable(row, identity.symbol, now)
    ensures var watch := Watch(identity.generation, identity.generation, identity.generation);
            Attempted(None, Memory(None, None), [], Asked(identity.symbol), OneRow(row, identity), watch,
                      Moments(now, now, gaps), gapTurns)
              == Attempt(Ready, Disk(Some([ToBar(row, identity.symbol)]), Some(identity.symbol)))
  {
    var bar := ToBar(row, identity.symbol);
    var requests := [Request(identity, 0, 2, [row]), Request(identity, 1, 1, [])];
    PagesOfOneRow(row, identity);
    FrameOfOneRow(row, identity.symbol, now);
    RowsAppend([], requests[0]);
    RowsAppend([requests[0]], requests[1]);
    assert [] + [requests[0]] == [requests[0]] && [requests[0]] + [requests[1]] == requests;
    assert Rows(requests) == [row];
    NothingToVerify(bar, identity, gaps, now, gapTurns);
    assert Tail([bar], 1) == [bar];
  }

  lemma NothingToVerify(bar: Bar, identity: Identity, gaps: Clock, now: int, gapTurns: nat -> Turn)
    ensures Refresh(Memory(None, None), [bar], D1, identity, 1, gaps, gapTurns, now, []).outcome == Ok([bar])
  {}

  /** Given any usable daily row that lies off the day grid, a refresh from nothing publishes it as ready, and the
      reader refuses it then and ever after. */
  lemma OffGridDayIsRefused(row: Raw, identity: Identity, gaps: Clock, now: int, gapTurns: nat -> Turn, later: int)
    requires Usable(row, identity.symbol, now) && Remainder(row.time.value, D1) != 0 && now <= later
    ensures var watch := Watch(identity.generation, identity.generation, identity.generation);
            var disk := Disk(Some([ToBar(row, identity.symbol)]), Some(identity.symbol));
            && Attempted(None, Memory(None, None), [], Asked(identity.symbol), OneRow(row, identity), watch,
                         Moments(now, now, gaps), gapTurns) == Attempt(Ready, disk)
            && Read(disk, true, D1, later).Err?
  {
    OneRowIsPublished(row, identity, gaps, now, gapTurns);
    var bar := ToBar(row, identity.symbol);
    assert bar in [bar];
  }

  /** Such a row exists: a day that the broker's server opens at 22:00 UTC. */
  lemma ServerDayIsUsable(source: string)
    ensures var row := Raw(Some(79200), Some(1.0), Some(1.0), Some(1.0), Some(1.0), Some(0.0));
            Usable(row, source, 200000) && Remainder(row.time.value, D1) != 0
  {}
}
