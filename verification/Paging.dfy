/** Reading positional history page by page, newest first, under one account session. */
module Paging {
  import opened Wrappers
  import opened Validation
  import opened Gaps

  datatype PageError = OutOfTime | PreviousStillRunning | PageFailed | SessionMoved | PageIsNone | PageTooLong
    | NoIdentity

  /** How one page read goes; a read that fails or comes late may still have resolved the symbol. */
  datatype PageReply = LatePage(current: Option<Identity>) | FailedPage(current: Option<Identity>)
    | Page(current: Option<Identity>, rates: Option<seq<Raw>>)

  datatype PageTurn = PageTurn(expired: bool, busy: bool, reply: PageReply)

  datatype Request = Request(identity: Identity, position: nat, count: nat, rows: seq<Raw>)

  datatype Paged = Paged(requests: seq<Request>, exhausted: bool)

  function Rows(requests: seq<Request>): seq<Raw> {
    if requests == [] then [] else Rows(requests[..|requests| - 1]) + requests[|requests| - 1].rows
  }

  function Min(a: nat, b: nat): nat { if a <= b then a else b }

  // The callback may run at all only under the identity of the pages before it.
  predicate Permitted(expected: Option<Identity>, current: Option<Identity>) {
    current.Some? && (expected.None? || expected == current)
  }

  function ReadPage(requests: seq<Request>, requested: nat, turn: PageTurn): Result<Request, PageError> {
    var expected := if requests == [] then None else Some(requests[|requests| - 1].identity);
    if turn.expired then Err(OutOfTime)
    else if turn.busy then Err(PreviousStillRunning)
    else if turn.reply.LatePage? then Err(OutOfTime)
    else if turn.reply.FailedPage? || turn.reply.current.None? then Err(PageFailed)
    else if !Permitted(expected, turn.reply.current) then Err(SessionMoved)
    else if turn.reply.rates.None? then Err(PageIsNone)
    else if |turn.reply.rates.value| > requested then Err(PageTooLong)
    else Ok(Request(turn.reply.current.value, |Rows(requests)|, requested, turn.reply.rates.value))
  }

  function Continue(requests: seq<Request>, target: nat, size: nat, turns: nat -> PageTurn): Result<Paged, PageError>
    requires size > 0
    decreases target - |Rows(requests)|
  {
    var offset := |Rows(requests)|;
    if offset >= target then Ok(Paged(requests, false))
    else
      match ReadPage(requests, Min(size, target - offset), turns(|requests|))
      case Err(e) => Err(e)
      case Ok(r) =>
        var longer := requests + [r];
        assert longer[..|longer| - 1] == requests;
        if r.rows == [] then Ok(Paged(longer, true)) else Continue(longer, target, size, turns)
  }

  /** One page of a read: it begins where the pages before it end, is no longer than asked for, stays within the
      target and has the identity of the first. */
  predicate CoherentPage(requests: seq<Request>, k: nat, target: nat, size: nat)
    requires k < |requests|
  {
    var r := requests[k];
    && r.position == |Rows(requests[..k])| && |r.rows| <= r.count && 0 < r.count <= size
    && r.position + r.count <= target && r.identity == requests[0].identity
  }

  ghost predicate Coherent(requests: seq<Request>, target: nat, size: nat) {
    forall k | 0 <= k < |requests| :: CoherentPage(requests, k, target, size)
  }

  lemma RowsAppend(requests: seq<Request>, r: Request)
    ensures Rows(requests + [r]) == Rows(requests) + r.rows
  {
    assert (requests + [r])[..|requests|] == requests;
  }

  lemma CoherentAppend(requests: seq<Request>, r: Request, target: nat, size: nat)
    requires Coherent(requests, target, size)
    requires r.position == |Rows(requests)| && |r.rows| <= r.count && 0 < r.count <= size
    requires r.position + r.count <= target
    requires requests == [] || r.identity == requests[0].identity
    ensures Coherent(requests + [r], target, size)
  {
    var longer := requests + [r];
    assert longer[..|requests|] == requests;
    forall k | 0 <= k < |longer| ensures CoherentPage(longer, k, target, size) {
      if k < |requests| {
        assert CoherentPage(requests, k, target, size);
        assert longer[..k] == requests[..k] && longer[k] == requests[k];
      }
    }
  }

  lemma CoherentPrefix(requests: seq<Request>, n: nat, target: nat, size: nat)
    requires Coherent(requests, target, size) && n <= |requests|
    ensures Coherent(requests[..n], target, size)
  {
    forall k | 0 <= k < n ensures CoherentPage(requests[..n], k, target, size) {
      assert CoherentPage(requests, k, target, size);
      assert requests[..n][..k] == requests[..k];
    }
  }

  lemma ContinueUnfolds(requests: seq<Request>, target: nat, size: nat, turns: nat -> PageTurn)
    requires size > 0 && |Rows(requests)| < target
    ensures var page := ReadPage(requests, Min(size, target - |Rows(requests)|), turns(|requests|));
            Continue(requests, target, size, turns) ==
              if page.Err? then Err(page.error)
              else if page.value.rows == [] then Ok(Paged(requests + [page.value], true))
              else Continue(requests + [page.value], target, size, turns)
  {}

  lemma Step(requests: seq<Request>, target: nat, size: nat, turns: nat -> PageTurn) returns (r: Request)
    requires size > 0 && |Rows(requests)| < target && Continue(requests, target, size, turns).Ok?
    ensures var offset := |Rows(requests)|;
            && r.position == offset && |r.rows| <= r.count && 0 < r.count <= size && offset + r.count <= target
            && (requests != [] ==> r.identity == requests[|requests| - 1].identity)
            && (r.rows == [] ==> Continue(requests, target, size, turns) == Ok(Paged(requests + [r], true)))
            && (r.rows != []
                ==> Continue(requests, target, size, turns) == Continue(requests + [r], target, size, turns))
    ensures |Rows(requests + [r])| == |Rows(requests)| + |r.rows|
  {
    r := ReadPage(requests, Min(size, target - |Rows(requests)|), turns(|requests|)).value;
    RowsAppend(requests, r);
  }

  /** Every finished read of pages has one identity and pages that adjoin without gap or overlap. */
  lemma {:induction false} PagesAreCoherent(requests: seq<Request>, target: nat, size: nat, turns: nat -> PageTurn)
    requires size > 0 && Coherent(requests, target, size) && Continue(requests, target, size, turns).Ok?
    ensures Coherent(Continue(requests, target, size, turns).value.requests, target, size)
    decreases target - |Rows(requests)|
  {
    if |Rows(requests)| < target {
      var r := Step(requests, target, size, turns);
      if requests != [] {
        assert CoherentPage(requests, |requests| - 1, target, size);
      }
      CoherentAppend(requests, r, target, size);
      if r.rows != [] {
        PagesAreCoherent(requests + [r], target, size, turns);
      }
    }
  }

  /** The source counts as exhausted exactly when the last page came back empty, and then the target was not reached. */
  lemma {:induction false} ExhaustedMeaning(requests: seq<Request>, target: nat, size: nat, turns: nat -> PageTurn)
    requires size > 0 && |Rows(requests)| <= target && Continue(requests, target, size, turns).Ok?
    requires requests != [] ==> requests[|requests| - 1].rows != []
    ensures var p := Continue(requests, target, size, turns).value;
            && |Rows(p.requests)| <= target
            && (p.exhausted <==> |Rows(p.requests)| < target)
            && (p.exhausted <==> p.requests != [] && p.requests[|p.requests| - 1].rows == [])
    decreases target - |Rows(requests)|
  {
    if |Rows(requests)| < target {
      var r := Step(requests, target, size, turns);
      if r.rows != [] {
        ExhaustedMeaning(requests + [r], target, size, turns);
      }
    }
  }

  // ---- Against a broker whose history stands still ----

  function Slice(history: seq<Raw>, position: nat, count: nat): seq<Raw> {
    history[Min(position, |history|)..Min(position + count, |history|)]
  }

  /** Bars are numbered from the newest; a page holds those asked for, in whatever order. */
  ghost predicate Serves(requests: seq<Request>, history: seq<Raw>) {
    forall r | r in requests :: multiset(r.rows) == multiset(Slice(history, r.position, r.count))
  }

  lemma SameSize(a: seq<Raw>, b: seq<Raw>)
    requires multiset(a) == multiset(b)
    ensures |a| == |b|
  {
    assert |multiset(a)| == |a| && |multiset(b)| == |b|;
  }

  lemma OnePage(r: Request, history: seq<Raw>)
    requires |r.rows| <= r.count && r.position <= |history|
    requires multiset(r.rows) == multiset(Slice(history, r.position, r.count))
    ensures r.position + |r.rows| <= |history|
    ensures multiset(history[..r.position]) + multiset(r.rows) == multiset(history[..r.position + |r.rows|])
    ensures |r.rows| == r.count || r.position + |r.rows| == |history|
  {
    var p, n := r.position, |r.rows|;
    SameSize(r.rows, Slice(history, p, r.count));
    assert Slice(history, p, r.count) == history[p..p + n];
    assert history[..p + n] == history[..p] + history[p..p + n];
  }

  lemma {:induction false} RowsSoFar(requests: seq<Request>, history: seq<Raw>, target: nat, size: nat)
    requires Coherent(requests, target, size) && Serves(requests, history)
    ensures |Rows(requests)| <= |history|
    ensures multiset(Rows(requests)) == multiset(history[..|Rows(requests)|])
  {
    if requests != [] {
      var last := |requests| - 1;
      var most, r := requests[..last], requests[last];
      assert requests == most + [r];
      CoherentPrefix(requests, last, target, size);
      RowsSoFar(most, history, target, size);
      assert CoherentPage(requests, last, target, size);
      OnePage(r, history);
    }
  }

  /** Read from an unchanged history, the pages hold its newest bars, each once: the target number of them, or all
      of them if there are fewer, and only then is the source called exhausted. */
  lemma PagesHoldTheNewest(target: nat, size: nat, turns: nat -> PageTurn, history: seq<Raw>)
    requires size > 0 && Continue([], target, size, turns).Ok?
    requires Serves(Continue([], target, size, turns).value.requests, history)
    ensures var p := Continue([], target, size, turns).value;
            && multiset(Rows(p.requests)) == multiset(history[..Min(target, |history|)])
            && (p.exhausted <==> |history| < target)
  {
    PagesAreCoherent([], target, size, turns);
    ExhaustedMeaning([], target, size, turns);
    var p := Continue([], target, size, turns).value;
    RowsSoFar(p.requests, history, target, size);
    if p.exhausted {
      LastPageEnds(p.requests, history, target, size);
    }
  }

  lemma LastPageEnds(requests: seq<Request>, history: seq<Raw>, target: nat, size: nat)
    requires Coherent(requests, target, size) && Serves(requests, history)
    requires requests != [] && requests[|requests| - 1].rows == []
    ensures |Rows(requests)| == |history|
  {
    var last := |requests| - 1;
    assert CoherentPage(requests, last, target, size);
    CoherentPrefix(requests, last, target, size);
    RowsSoFar(requests[..last], history, target, size);
    OnePage(requests[last], history);
  }
}
