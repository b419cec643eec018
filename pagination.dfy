/**
 * The command line's pagination loop (src/util.rs `get_vminfo_from_remote`)
 * over the expiry-gated REST client.
 *
 * The first fetch uses the default paging options; its `total_results`
 * decides how many more pages are fetched, each with `skip = page * 1000`,
 * and the records are concatenated in fetch order. The remote is an oracle
 * given the fetch number (0 for the first fetch), the command's arguments
 * and the paging options, so a changing clock or catalogue can be expressed.
 */
module Pagination {
  import opened Wrappers
  import opened Text
  import Query
  import opened LegacyClient

  type VirtualMachine = Query.VirtualMachine

  /** The parts of the command line the loop passes on. */
  datatype Args = Args(vmOperand: seq<string>, matchRegexp: bool, showExtensions: bool)

  /** `client.vminfo(&args.vm_operand, args.match_regexp, args.show_extensions, skip, top)` as fetch number `n`. */
  type Remote = (nat, Args, Option<U64>, Option<U16>) -> Result<Query.QueryResponse, LegacyError>

  const PAGE_SIZE: nat := 1000

  /** `total_results / 1000`. */
  function PageCount(total: U64): nat {
    total / PAGE_SIZE
  }

  /** The last page fetched after the first: `page_count` when it exceeds 1, otherwise none. */
  function LastPage(total: U64): (last: nat)
    ensures last * PAGE_SIZE <= total
    ensures last == 0 || last > 1
  {
    if PageCount(total) > 1 then PageCount(total) else 0
  }

  /**
   * Pages `1..=p`, each fetched as fetch number `page` with
   * `skip = page * 1000`, concatenated; the first failing fetch is the result.
   */
  function PagesUpTo(remote: Remote, args: Args, p: nat): (r: Result<seq<VirtualMachine>, LegacyError>)
    requires p * PAGE_SIZE < U64_BOUND
    ensures r.Success? <==> forall k :: 1 <= k <= p ==> remote(k, args, Some(k * PAGE_SIZE), None).Success?
    ensures r.Failure? ==> exists k :: 1 <= k <= p && remote(k, args, Some(k * PAGE_SIZE), None) == Failure(r.error)
  {
    if p == 0 then Success([])
    else
      match PagesUpTo(remote, args, p - 1)
      case Failure(e) => Failure(e)
      case Success(before) =>
        match remote(p, args, Some(p * PAGE_SIZE), None)
        case Failure(e) => Failure(e)
        case Success(next) => Success(before + next.data)
  }

  /** Of pages `1..=p`, how many are fetched: all up to and including the first failure. */
  function Attempted(remote: Remote, args: Args, p: nat): (n: nat)
    requires p * PAGE_SIZE < U64_BOUND
    ensures n <= p
    ensures PagesUpTo(remote, args, p).Success? ==> n == p
  {
    if p == 0 then 0
    else if PagesUpTo(remote, args, p - 1).Failure? then Attempted(remote, args, p - 1)
    else p
  }

  /** The records `get_vminfo_from_remote` returns, or the error it stops with. */
  function Collected(remote: Remote, args: Args): (r: Result<seq<VirtualMachine>, LegacyError>)
    ensures remote(0, args, None, None).Failure? ==> r == Failure(remote(0, args, None, None).error)
    ensures r.Success? ==> var first := remote(0, args, None, None).value.data;
      |first| <= |r.value| && r.value[..|first|] == first
  {
    match remote(0, args, None, None)
    case Failure(e) => Failure(e)
    case Success(first) =>
      match PagesUpTo(remote, args, LastPage(first.totalResults))
      case Failure(e) => Failure(e)
      case Success(more) => Success(first.data + more)
  }

  /** The `skip` of each later page in order, as the loop plans them. */
  function PlannedSkips(total: U64): (skips: seq<Option<U64>>)
    ensures |skips| == LastPage(total)
  {
    seq(LastPage(total), k requires 0 <= k < LastPage(total) => Some((k + 1) * PAGE_SIZE))
  }

  /** The `skip` of every fetch made, in order. */
  function FetchedSkips(remote: Remote, args: Args): (skips: seq<Option<U64>>)
    ensures |skips| >= 1 && skips[0] == None
    ensures forall i :: 1 <= i < |skips| ==> skips[i] == Some(i * PAGE_SIZE)
  {
    match remote(0, args, None, None)
    case Failure(_) => [None]
    case Success(first) =>
      [None] + PlannedSkips(first.totalResults)[..Attempted(remote, args, LastPage(first.totalResults))]
  }

  /** `get_vminfo_from_remote`, returning also the `skip` of every fetch it made. */
  method GetVminfoFromRemote(remote: Remote, args: Args)
    returns (r: Result<seq<VirtualMachine>, LegacyError>, skips: seq<Option<U64>>)
    ensures r == Collected(remote, args)
    ensures skips == FetchedSkips(remote, args)
  {
    skips := [None];
    var resp := remote(0, args, None, None);
    if resp.Failure? {
      return Failure(resp.error), skips;
    }
    var vminfo := resp.value.data;
    ghost var more: seq<VirtualMachine> := [];
    assert vminfo == resp.value.data + more;
    var pageCount := resp.value.totalResults / PAGE_SIZE;
    if pageCount > 1 {
      var page := 1;
      while page <= pageCount
        invariant 1 <= page <= pageCount + 1
        invariant PagesUpTo(remote, args, page - 1) == Success(more)
        invariant vminfo == resp.value.data + more
        invariant Attempted(remote, args, page - 1) == page - 1
        invariant skips == [None] + PlannedSkips(resp.value.totalResults)[..page - 1]
      {
        var skipCount := page * PAGE_SIZE;
        var rnext := remote(page, args, Some(skipCount), None);
        assert PlannedSkips(resp.value.totalResults)[..page] == PlannedSkips(resp.value.totalResults)[..page - 1] + [Some(skipCount)];
        skips := skips + [Some(skipCount)];
        if rnext.Failure? {
          PagesAbort(remote, args, page, pageCount);
          return Failure(rnext.error), skips;
        }
        vminfo := vminfo + rnext.value.data;
        more := more + rnext.value.data;
        page := page + 1;
      }
    } else {
      assert PlannedSkips(resp.value.totalResults)[..0] == [];
      assert vminfo == resp.value.data + [];
    }
    r := Success(vminfo);
  }

  /** Once page `p` fails, every longer run of pages fails with that error and fetches nothing more. */
  lemma {:induction false} PagesAbort(remote: Remote, args: Args, p: nat, q: nat)
    requires 1 <= p <= q && q * PAGE_SIZE < U64_BOUND
    requires PagesUpTo(remote, args, p - 1).Success? && remote(p, args, Some(p * PAGE_SIZE), None).Failure?
    ensures PagesUpTo(remote, args, q) == Failure(remote(p, args, Some(p * PAGE_SIZE), None).error)
    ensures Attempted(remote, args, q) == p
    decreases q
  {
    if q > p {
      PagesAbort(remote, args, p, q - 1);
    }
  }

  // ---------------------------------------------------------------------
  // Properties of the loop
  // ---------------------------------------------------------------------

  /** A first page reporting fewer than 2000 results is the only fetch. */
  lemma SinglePageBelowTwoThousand(remote: Remote, args: Args)
    requires remote(0, args, None, None).Success?
    requires remote(0, args, None, None).value.totalResults < 2 * PAGE_SIZE
    ensures Collected(remote, args) == Success(remote(0, args, None, None).value.data)
    ensures FetchedSkips(remote, args) == [None]
  {
    var first := remote(0, args, None, None).value;
    assert first.data + [] == first.data;
  }

  /** Later pages are planned in ascending order at multiples of 1000; there are `page_count` of them. */
  lemma PlannedSkipsAscending(total: U64)
    ensures |PlannedSkips(total)| == (if total / PAGE_SIZE > 1 then total / PAGE_SIZE else 0)
    ensures forall k :: 0 <= k < |PlannedSkips(total)| ==> PlannedSkips(total)[k] == Some((k + 1) * PAGE_SIZE)
  {
  }

  /** For a total of 2500 the fetches skip nothing, then 1000, then 2000. */
  lemma TwoThousandFiveHundred(remote: Remote, args: Args)
    requires remote(0, args, None, None).Success? && remote(0, args, None, None).value.totalResults == 2500
    requires Collected(remote, args).Success?
    ensures FetchedSkips(remote, args) == [None, Some(1000), Some(2000)]
  {
    assert LastPage(2500) == 2;
    assert PlannedSkips(2500) == [Some(1000), Some(2000)];
  }

  /** When every fetch succeeds, there are `page_count + 1` of them if `page_count > 1`, else one. */
  lemma FetchCount(remote: Remote, args: Args)
    requires Collected(remote, args).Success?
    ensures var total := remote(0, args, None, None).value.totalResults;
      |FetchedSkips(remote, args)| == (if total / PAGE_SIZE > 1 then total / PAGE_SIZE + 1 else 1)
  {
  }

  /** When every later page succeeds, the run holds as many records as those pages together. */
  lemma {:induction false} PagesInOrder(remote: Remote, args: Args, p: nat)
    requires p * PAGE_SIZE < U64_BOUND
    requires forall k :: 1 <= k <= p ==> remote(k, args, Some(k * PAGE_SIZE), None).Success?
    ensures PagesUpTo(remote, args, p).Success?
    ensures |PagesUpTo(remote, args, p).value| == Sum(remote, args, p)
    decreases p
  {
    if p > 0 {
      PagesInOrder(remote, args, p - 1);
    }
  }

  /** The number of records on pages `1..=p`. */
  function Sum(remote: Remote, args: Args, p: nat): nat
    requires p * PAGE_SIZE < U64_BOUND
    requires forall k :: 1 <= k <= p ==> remote(k, args, Some(k * PAGE_SIZE), None).Success?
  {
    if p == 0 then 0 else Sum(remote, args, p - 1) + |remote(p, args, Some(p * PAGE_SIZE), None).value.data|
  }

  /** A failing fetch is the result, and nothing after it is fetched. */
  lemma FirstFailureReturned(remote: Remote, args: Args, p: nat)
    requires remote(0, args, None, None).Success?
    requires 1 <= p <= LastPage(remote(0, args, None, None).value.totalResults)
    requires PagesUpTo(remote, args, p - 1).Success? && remote(p, args, Some(p * PAGE_SIZE), None).Failure?
    ensures Collected(remote, args) == Failure(remote(p, args, Some(p * PAGE_SIZE), None).error)
    ensures |FetchedSkips(remote, args)| == p + 1
  {
    PagesAbort(remote, args, p, LastPage(remote(0, args, None, None).value.totalResults));
  }

  // ---------------------------------------------------------------------
  // Against a fixed catalogue
  // ---------------------------------------------------------------------

  function Min(a: nat, b: nat): nat {
    if a <= b then a else b
  }

  /**
   * A Resource Graph holding the records `xs`, behind `vminfo`: a page is
   * `top` records (default 1000) from `skip` (default 0), the total is the
   * catalogue's size, and an empty page is `VMNotFound`.
   */
  function Serve(xs: seq<VirtualMachine>, skip: Option<U64>, top: Option<U16>): (r: Result<Query.QueryResponse, LegacyError>)
    requires |xs| < U64_BOUND
    ensures r.Failure? <==> UnwrapOr(skip, 0) >= |xs| || UnwrapOr(top, PAGE_SIZE) == 0
    ensures r.Failure? ==> r.error == LegacyError(VMNotFound, NO_RESULTS)
    ensures r.Success? ==> r.value.totalResults == |xs| && |r.value.data| <= UnwrapOr(top, PAGE_SIZE)
    ensures r.Success? ==> (UnwrapOr(skip, 0) + |r.value.data| <= |xs|
                            && r.value.data == xs[UnwrapOr(skip, 0)..UnwrapOr(skip, 0) + |r.value.data|])
  {
    var from := Min(UnwrapOr(skip, 0), |xs|);
    var to := Min(from + UnwrapOr(top, PAGE_SIZE), |xs|);
    if from == to then Failure(LegacyError(VMNotFound, NO_RESULTS))
    else Success(Query.QueryResponse(|xs|, xs[from..to]))
  }

  ghost predicate Serves(remote: Remote, xs: seq<VirtualMachine>) {
    |xs| < U64_BOUND && forall n, a, s, t :: remote(n, a, s, t) == Serve(xs, s, t)
  }

  /** Pages `1..=p` of a catalogue whose page `p` is not empty are the records from 1000 on. */
  lemma {:induction false} ServedPages(remote: Remote, args: Args, xs: seq<VirtualMachine>, p: nat)
    requires Serves(remote, xs)
    requires |xs| >= PAGE_SIZE && p * PAGE_SIZE < |xs|
    ensures PagesUpTo(remote, args, p) == Success(xs[PAGE_SIZE..Min((p + 1) * PAGE_SIZE, |xs|)])
    decreases p
  {
    if p > 0 {
      ServedPages(remote, args, xs, p - 1);
      assert Min(p * PAGE_SIZE, |xs|) == p * PAGE_SIZE;
      var to := Min((p + 1) * PAGE_SIZE, |xs|);
      var page := remote(p, args, Some(p * PAGE_SIZE), None);
      assert page == Serve(xs, Some(p * PAGE_SIZE), None);
      assert page == Success(Query.QueryResponse(|xs|, xs[p * PAGE_SIZE..to]));
      assert PagesUpTo(remote, args, p) == Success(xs[PAGE_SIZE..p * PAGE_SIZE] + xs[p * PAGE_SIZE..to]);
      assert xs[PAGE_SIZE..p * PAGE_SIZE] + xs[p * PAGE_SIZE..to] == xs[PAGE_SIZE..to];
    } else {
      assert xs[PAGE_SIZE..Min(PAGE_SIZE, |xs|)] == [];
    }
  }

  /** Up to 1000 records, and above 2000 when not a multiple of 1000, every record is returned. */
  lemma CollectsAllOtherwise(remote: Remote, args: Args, xs: seq<VirtualMachine>)
    requires Serves(remote, xs) && |xs| > 0
    requires |xs| <= PAGE_SIZE || (|xs| > 2 * PAGE_SIZE && |xs| % PAGE_SIZE != 0)
    ensures Collected(remote, args) == Success(xs)
  {
    var first := remote(0, args, None, None);
    assert first == Serve(xs, None, None);
    if |xs| > PAGE_SIZE {
      assert first == Success(Query.QueryResponse(|xs|, xs[0..PAGE_SIZE]));
      var last := LastPage(|xs|);
      assert last == |xs| / PAGE_SIZE && last * PAGE_SIZE < |xs| <= (last + 1) * PAGE_SIZE;
      ServedPages(remote, args, xs, last);
      assert xs[0..PAGE_SIZE] + xs[PAGE_SIZE..|xs|] == xs;
    } else {
      assert xs[0..|xs|] + [] == xs;
    }
  }

  /** An empty catalogue answers the first fetch with `VMNotFound`, and that is the result. */
  lemma EmptyCatalogueFails(remote: Remote, args: Args)
    requires Serves(remote, [])
    ensures Collected(remote, args) == Failure(LegacyError(VMNotFound, NO_RESULTS))
    ensures FetchedSkips(remote, args) == [None]
  {
    assert remote(0, args, None, None) == Serve([], None, None);
  }

  /** Between 1000 and 2000 records, only the first 1000 are returned. */
  lemma PartialSecondPageDropped(remote: Remote, args: Args, xs: seq<VirtualMachine>)
    requires Serves(remote, xs)
    requires PAGE_SIZE < |xs| < 2 * PAGE_SIZE
    ensures Collected(remote, args) == Success(xs[..PAGE_SIZE])
    ensures Collected(remote, args) != Success(xs)
  {
    assert remote(0, args, None, None) == Serve(xs, None, None);
    assert xs[0..PAGE_SIZE] + [] == xs[..PAGE_SIZE];
    assert |xs[..PAGE_SIZE]| != |xs|;
  }

  /** With a multiple of 1000 records, at least 2000, the last fetch finds an empty page and the whole call fails. */
  lemma EmptyLastPageFails(remote: Remote, args: Args, xs: seq<VirtualMachine>)
    requires Serves(remote, xs)
    requires |xs| >= 2 * PAGE_SIZE && |xs| % PAGE_SIZE == 0
    ensures Collected(remote, args) == Failure(LegacyError(VMNotFound, NO_RESULTS))
  {
    var first := remote(0, args, None, None);
    assert first == Serve(xs, None, None);
    var last := LastPage(|xs|);
    assert last * PAGE_SIZE == |xs|;
    ServedPages(remote, args, xs, last - 1);
    assert remote(last, args, Some(last * PAGE_SIZE), None) == Serve(xs, Some(last * PAGE_SIZE), None);
    PagesAbort(remote, args, last, last);
  }

  // ---------------------------------------------------------------------
  // The evidently intended page plan
  // ---------------------------------------------------------------------

  /** The last page index needed to cover `total` records in pages of 1000: one less than their number. */
  function IntendedLastPage(total: U64): (last: nat)
    ensures last * PAGE_SIZE < total || total == 0
    ensures total <= (last + 1) * PAGE_SIZE
  {
    if total == 0 then 0 else (total - 1) / PAGE_SIZE
  }

  /** The loop with every page that holds records fetched, and no empty one. */
  function IntendedCollected(remote: Remote, args: Args): Result<seq<VirtualMachine>, LegacyError> {
    match remote(0, args, None, None)
    case Failure(e) => Failure(e)
    case Success(first) =>
      match PagesUpTo(remote, args, IntendedLastPage(first.totalResults))
      case Failure(e) => Failure(e)
      case Success(more) => Success(first.data + more)
  }

  /** With the intended plan, any non-empty catalogue is returned whole. */
  lemma IntendedCollectsAll(remote: Remote, args: Args, xs: seq<VirtualMachine>)
    requires Serves(remote, xs) && |xs| > 0
    ensures IntendedCollected(remote, args) == Success(xs)
  {
    var first := remote(0, args, None, None);
    assert first == Serve(xs, None, None);
    if |xs| > PAGE_SIZE {
      assert first == Success(Query.QueryResponse(|xs|, xs[0..PAGE_SIZE]));
      var last := IntendedLastPage(|xs|);
      ServedPages(remote, args, xs, last);
      assert Min((last + 1) * PAGE_SIZE, |xs|) == |xs|;
      assert xs[0..PAGE_SIZE] + xs[PAGE_SIZE..|xs|] == xs;
    } else {
      assert xs[0..|xs|] + [] == xs;
    }
  }

  /** The two plans agree exactly where the written one already fetches everything. */
  lemma PlansAgree(total: U64)
    requires total <= PAGE_SIZE || (total > 2 * PAGE_SIZE && total % PAGE_SIZE != 0)
    ensures LastPage(total) == IntendedLastPage(total)
  {
  }
}
