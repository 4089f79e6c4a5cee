/** The query helpers published with the schema: a user's newest swaps,
    the admin totals, a token's swaps over a number of days, and the swaps
    of the last minutes still pending or completed. Each takes the stored
    documents and, where the helper reads the clock, the current time. */
module SchemaQueries {
  import opened SwapModel
  import opened Seqs
  import opened Ledger

  const MinuteMs: int := 60000
  const DefaultUserLimit: int := 10
  const DefaultRecentMinutes: int := 5
  const RecentLimit: nat := 100

  /** The fields `select` keeps. */
  datatype SwapSummary = SwapSummary(
    txhash: string,
    status: Status,
    fromTokenSymbol: string,
    toTokenSymbol: string,
    fromTokenAmount: real,
    toTokenAmount: real,
    timestamp: int,
    fee: real)

  function Summarize(r: SwapRecord): SwapSummary {
    SwapSummary(r.txhash, r.status, r.fromTokenSymbol, r.toTokenSymbol, r.fromTokenAmount, r.toTokenAmount, r.timestamp, r.fee)
  }

  function OfWallet(docs: seq<SwapRecord>, wallet: string): (r: seq<SwapRecord>)
    ensures forall x :: x in r <==> x in docs && x.walletAddress == wallet
  {
    Filter(docs, (x: SwapRecord) => x.walletAddress == wallet)
  }

  function SummaryTime(s: SwapSummary): int {
    s.timestamp
  }

  /** `getUserSwaps`: the user's newest swaps, at most `limit` of them
      (none dropped when the limit is 0, and a negative limit counts as its
      absolute value), each cut down to the selected fields. The selection
      keeps the timestamp, so projecting before the sort picks the same
      documents. */
  function GetUserSwaps(docs: seq<SwapRecord>, wallet: string, limit: int): (r: seq<SwapSummary>)
    ensures IsTop(r, Map(OfWallet(docs, wallet), Summarize), Abs(limit), SummaryTime)
    ensures forall x :: x in r ==> x in Map(OfWallet(docs, wallet), Summarize)
  {
    var mine := Map(OfWallet(docs, wallet), Summarize);
    var r := Take(SortDesc(mine, SummaryTime), Abs(limit));
    TakeSortedIsTop(mine, Abs(limit), SummaryTime);
    TopMembers(r, mine, Abs(limit), SummaryTime);
    r
  }

  datatype AdminStats = AdminStats(totalSwaps: nat, totalVolume: real, totalFees: real, avgSlippage: real)

  function SlippageOf(r: SwapRecord): real {
    r.slippage
  }

  /** `getAdminStats`: one `$group` over the documents the filter selects,
      which yields no document at all when nothing is selected. */
  function GetAdminStats(docs: seq<SwapRecord>, filter: SwapRecord -> bool): (r: seq<AdminStats>)
    ensures |r| <= 1
    ensures r == [] <==> forall x :: x in docs ==> !filter(x)
    ensures r != [] ==>
              && r[0].totalSwaps == Count(docs, filter) > 0
              && r[0].totalVolume == Sum(Filter(docs, filter), FromAmountOf)
              && r[0].totalFees == Sum(Filter(docs, filter), FeeOf)
              && r[0].avgSlippage == Average(Sum(Filter(docs, filter), SlippageOf), r[0].totalSwaps)
  {
    var selected := Filter(docs, filter);
    if selected == [] then []
    else
      [AdminStats(|selected|, Sum(selected, FromAmountOf), Sum(selected, FeeOf), Average(Sum(selected, SlippageOf), |selected|))]
  }

  /** The admin totals under a filter split along any further condition:
      the volume of the selection is the volume of the part that meets the
      condition plus the volume of the part that does not. */
  lemma AdminVolumeSplits(docs: seq<SwapRecord>, filter: SwapRecord -> bool, cond: SwapRecord -> bool)
    ensures Sum(Filter(docs, filter), FromAmountOf) ==
            Sum(Filter(Filter(docs, filter), cond), FromAmountOf)
            + Sum(Filter(Filter(docs, filter), Not(cond)), FromAmountOf)
  {
    SumPartition(Filter(docs, filter), FromAmountOf, cond);
  }

  predicate MentionsToken(r: SwapRecord, symbol: string) {
    r.fromTokenSymbol == symbol || r.toTokenSymbol == symbol
  }

  /** `getTokenStats`: the swaps from or to the token in the last
      `timeFrame` days, newest first. */
  function GetTokenStats(docs: seq<SwapRecord>, symbol: string, timeFrame: int, now: int): (r: seq<SwapRecord>)
    ensures forall x :: x in r <==> x in docs && MentionsToken(x, symbol) && x.timestamp >= now - timeFrame * DayMs
    ensures SortedDesc(r, TimestampOf)
    ensures multiset(r) == multiset(Filter(docs, (x: SwapRecord) => MentionsToken(x, symbol) && x.timestamp >= now - timeFrame * DayMs))
  {
    var matches := Filter(docs, (x: SwapRecord) => MentionsToken(x, symbol) && x.timestamp >= now - timeFrame * DayMs);
    var r := SortDesc(matches, TimestampOf);
    assert forall x :: x in r <==> x in multiset(matches);
    r
  }

  predicate StillLive(r: SwapRecord) {
    r.status == Pending || r.status == Completed
  }

  /** The pending and completed documents of the last `minutes` minutes. */
  function LiveSince(docs: seq<SwapRecord>, minutes: int, now: int): (r: seq<SwapRecord>)
    ensures forall x :: x in r <==> x in docs && StillLive(x) && x.timestamp >= now - minutes * MinuteMs
  {
    Filter(docs, (x: SwapRecord) => StillLive(x) && x.timestamp >= now - minutes * MinuteMs)
  }

  /** `getRecentSwaps`: the newest 100 of the pending and completed swaps
      of the last `minutes` minutes, newest first. */
  function GetRecentSwaps(docs: seq<SwapRecord>, minutes: int, now: int): (r: seq<SwapRecord>)
    ensures IsTop(r, LiveSince(docs, minutes, now), RecentLimit, TimestampOf)
    ensures forall x :: x in r ==> x in docs && StillLive(x) && x.timestamp >= now - minutes * MinuteMs
  {
    var matches := LiveSince(docs, minutes, now);
    var r := Take(SortDesc(matches, TimestampOf), RecentLimit);
    TakeSortedIsTop(matches, RecentLimit, TimestampOf);
    TopMembers(r, matches, RecentLimit, TimestampOf);
    r
  }
}
