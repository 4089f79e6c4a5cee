/** The query examples: a user's paged history, a user's recent swaps, a
    token's aggregate statistics, and the most popular token pairs. */
module ExampleQueries {
  import opened Wrappers
  import opened SwapModel
  import opened Seqs
  import opened Ledger
  import opened SchemaQueries

  const HourMs: int := 3600000
  const DefaultHistoryLimit: int := 10
  const DefaultRecentHours: int := 24
  const UserRecentLimit: nat := 50
  const DefaultTokenStatsDays: int := 30
  const DefaultPairLimit: int := 10

  /** `Math.ceil(total / limit)` for a non-zero limit. */
  function CeilDiv(total: nat, limit: int): (pages: int)
    requires limit != 0
    ensures limit > 0 ==> (pages - 1) * limit < total <= pages * limit
    ensures limit < 0 ==> pages * limit <= total < (pages - 1) * limit
  {
    if limit > 0 then
      var q := (total + limit - 1) / limit;
      assert q * limit <= total + limit - 1 < q * limit + limit;
      q
    else
      var q := total / (-limit);
      assert q * (-limit) <= total < q * (-limit) + (-limit);
      -q
  }

  datatype Pagination = Pagination(page: int, limit: int, totalCount: nat, totalPages: Option<int>)

  datatype HistoryResult = History(swaps: seq<SwapSummary>, pagination: Pagination) | HistoryFailed

  /** `getUserSwapHistory`: one page of the user's swaps, newest first, with
      the user's total and the page count. A negative skip makes the query
      fail; a limit of 0 makes the page count infinite or undefined, which
      is `None` here. */
  function GetUserSwapHistory(docs: seq<SwapRecord>, wallet: string, page: int, limit: int): (r: HistoryResult)
    ensures r.HistoryFailed? <==> Skip(page, limit) < 0
    ensures r.History? ==>
              && r.pagination.page == page && r.pagination.limit == limit
              && r.pagination.totalCount == |OfWallet(docs, wallet)|
              && r.pagination.totalPages == (if limit == 0 then None else Some(CeilDiv(r.pagination.totalCount, limit)))
              && (limit != 0 ==> |r.swaps| <= Abs(limit))
              && r.swaps == Map(Page(SortDesc(OfWallet(docs, wallet), TimestampOf), Skip(page, limit), Abs(limit)), Summarize)
  {
    var skip := Skip(page, limit);
    if skip < 0 then HistoryFailed
    else
      var mine := OfWallet(docs, wallet);
      var swaps := Map(Page(SortDesc(mine, TimestampOf), skip, Abs(limit)), Summarize);
      var totalPages := if limit == 0 then None else Some(CeilDiv(|mine|, limit));
      History(swaps, Pagination(page, limit, |mine|, totalPages))
  }

  /** With a positive limit, the pages of the history together hold every
      swap of the user exactly once: the last page is the one that reaches
      the total. */
  lemma HistoryPagesCoverAll(docs: seq<SwapRecord>, wallet: string, limit: int)
    requires limit > 0
    ensures var n := CeilDiv(|OfWallet(docs, wallet)|, limit);
            && GetUserSwapHistory(docs, wallet, 1, limit).pagination.totalPages == Some(n)
            && n >= 0
            && Skip(n + 1, limit) >= |OfWallet(docs, wallet)|
            && GetUserSwapHistory(docs, wallet, n + 1, limit).History?
            && GetUserSwapHistory(docs, wallet, n + 1, limit).swaps == []
  {
    var total := |OfWallet(docs, wallet)|;
    var n := CeilDiv(total, limit);
    LastPageReachesTotal(total, limit);
    assert Page(SortDesc(OfWallet(docs, wallet), TimestampOf), Skip(n + 1, limit), Abs(limit)) == [];
  }

  /** The page count of a positive limit is not negative, and the page
      after the last starts at or beyond the total. */
  lemma LastPageReachesTotal(total: nat, limit: int)
    requires limit > 0
    ensures CeilDiv(total, limit) >= 0
    ensures Skip(CeilDiv(total, limit) + 1, limit) >= total
  {
    var n := CeilDiv(total, limit);
    assert Skip(n + 1, limit) == n * limit;
  }

  /** The user's documents of the last `hours` hours. */
  function RecentOfWallet(docs: seq<SwapRecord>, wallet: string, hours: int, now: int): (r: seq<SwapRecord>)
    ensures forall x :: x in r <==> x in docs && x.walletAddress == wallet && x.timestamp >= now - hours * HourMs
  {
    Filter(docs, (x: SwapRecord) => x.walletAddress == wallet && x.timestamp >= now - hours * HourMs)
  }

  /** `getRecentSwaps` of the examples: the newest 50 of the user's swaps
      of the last `hours` hours, newest first. */
  function GetRecentSwapsOf(docs: seq<SwapRecord>, wallet: string, hours: int, now: int): (r: seq<SwapRecord>)
    ensures IsTop(r, RecentOfWallet(docs, wallet, hours, now), UserRecentLimit, TimestampOf)
    ensures forall x :: x in r ==> x in docs && x.walletAddress == wallet && x.timestamp >= now - hours * HourMs
  {
    var matches := RecentOfWallet(docs, wallet, hours, now);
    var r := Take(SortDesc(matches, TimestampOf), UserRecentLimit);
    TakeSortedIsTop(matches, UserRecentLimit, TimestampOf);
    TopMembers(r, matches, UserRecentLimit, TimestampOf);
    r
  }

  datatype TokenStats = TokenStats(totalSwaps: nat, totalVolume: real, totalFees: real, avgSlippage: real, successRate: real)

  predicate IsCompleted(r: SwapRecord) {
    r.status == Completed
  }

  function CompletedShare(r: SwapRecord): real {
    if r.status == Completed then 1.0 else 0.0
  }

  function TokenMatches(docs: seq<SwapRecord>, symbol: string, timeFrame: int, now: int): (r: seq<SwapRecord>)
    ensures forall x :: x in r <==> x in docs && MentionsToken(x, symbol) && x.timestamp >= now - timeFrame * DayMs
  {
    Filter(docs, (x: SwapRecord) => MentionsToken(x, symbol) && x.timestamp >= now - timeFrame * DayMs)
  }

  /** The share of completed swaps lies between 0 and the count. */
  lemma {:induction false} CompletedShareBounds(s: seq<SwapRecord>)
    ensures 0.0 <= Sum(s, CompletedShare) <= |s| as real
    decreases |s|
  {
    if s != [] {
      CompletedShareBounds(s[1..]);
    }
  }

  /** The share of completed swaps is the number of completed swaps. */
  lemma {:induction false} CompletedShareCounts(s: seq<SwapRecord>)
    ensures Sum(s, CompletedShare) == Count(s, IsCompleted) as real
    decreases |s|
  {
    if s != [] {
      CompletedShareCounts(s[1..]);
    }
  }

  /** The mean of values between 0 and 1 lies between 0 and 1. */
  lemma ShareBounds(total: real, n: nat)
    requires n > 0
    requires 0.0 <= total <= n as real
    ensures 0.0 <= Average(total, n) <= 1.0
  {
    var a := Average(total, n);
    assert a == total / (n as real);
  }

  /** `getTokenStats` of the examples: the aggregate of the token's swaps in
      the last `timeFrame` days, or all zeros when there is none. */
  function GetTokenStatsSummary(docs: seq<SwapRecord>, symbol: string, timeFrame: int, now: int): (r: TokenStats)
    ensures TokenMatches(docs, symbol, timeFrame, now) == [] <==> r.totalSwaps == 0
    ensures r.totalSwaps == 0 ==> r == TokenStats(0, 0.0, 0.0, 0.0, 0.0)
    ensures r.totalSwaps == |TokenMatches(docs, symbol, timeFrame, now)|
    ensures r.totalVolume == Sum(TokenMatches(docs, symbol, timeFrame, now), FromAmountOf)
    ensures r.totalFees == Sum(TokenMatches(docs, symbol, timeFrame, now), FeeOf)
    ensures r.totalSwaps > 0 ==> r.avgSlippage == Average(Sum(TokenMatches(docs, symbol, timeFrame, now), SlippageOf), r.totalSwaps)
    ensures 0.0 <= r.successRate <= 1.0
    ensures r.totalSwaps > 0 ==>
              r.successRate == Average(Count(TokenMatches(docs, symbol, timeFrame, now), IsCompleted) as real, r.totalSwaps)
  {
    var matches := TokenMatches(docs, symbol, timeFrame, now);
    if matches == [] then TokenStats(0, 0.0, 0.0, 0.0, 0.0)
    else
      var n := |matches|;
      CompletedShareBounds(matches);
      CompletedShareCounts(matches);
      var rate := Average(Sum(matches, CompletedShare), n);
      ShareBounds(Sum(matches, CompletedShare), n);
      TokenStats(n, Sum(matches, FromAmountOf), Sum(matches, FeeOf), Average(Sum(matches, SlippageOf), n), rate)
  }

  // ---------------------------------------------------------------------
  // Popular pairs

  datatype TokenPair = TokenPair(fromSymbol: string, toSymbol: string)

  datatype PairStat = PairStat(pair: TokenPair, count: nat, totalVolume: real)

  function PairOf(r: SwapRecord): TokenPair {
    TokenPair(r.fromTokenSymbol, r.toTokenSymbol)
  }

  function OfPair(docs: seq<SwapRecord>, pair: TokenPair): (r: seq<SwapRecord>)
    ensures forall x :: x in r <==> x in docs && PairOf(x) == pair
  {
    Filter(docs, (x: SwapRecord) => PairOf(x) == pair)
  }

  /** One `$group` document: the pair, its number of swaps and its volume. */
  function StatOf(docs: seq<SwapRecord>, pair: TokenPair): PairStat {
    PairStat(pair, |OfPair(docs, pair)|, Sum(OfPair(docs, pair), FromAmountOf))
  }

  function CountOf(p: PairStat): int {
    p.count
  }

  /** The group documents of the given pairs. */
  function StatsOf(docs: seq<SwapRecord>, pairs: seq<TokenPair>): (r: seq<PairStat>)
    ensures |r| == |pairs|
    ensures forall i :: 0 <= i < |pairs| ==> r[i] == StatOf(docs, pairs[i])
  {
    Map(pairs, (p: TokenPair) => StatOf(docs, p))
  }

  /** Every pair that occurs has at least one swap. */
  lemma OccurringPairCounted(docs: seq<SwapRecord>, pair: TokenPair)
    requires pair in Map(docs, PairOf)
    ensures StatOf(docs, pair).count >= 1
  {
    var k :| 0 <= k < |docs| && Map(docs, PairOf)[k] == pair;
    assert docs[k] in OfPair(docs, pair);
  }

  lemma GroupsCounted(docs: seq<SwapRecord>, pairs: seq<TokenPair>)
    requires pairs == Distinct(Map(docs, PairOf))
    ensures forall i :: 0 <= i < |pairs| ==> StatsOf(docs, pairs)[i].count >= 1
  {
    forall i | 0 <= i < |pairs| ensures StatsOf(docs, pairs)[i].count >= 1 {
      OccurringPairCounted(docs, pairs[i]);
    }
  }

  lemma GroupsCover(docs: seq<SwapRecord>, pairs: seq<TokenPair>)
    requires pairs == Distinct(Map(docs, PairOf))
    ensures forall x :: x in docs ==> StatOf(docs, PairOf(x)) in StatsOf(docs, pairs)
  {
    forall x | x in docs ensures StatOf(docs, PairOf(x)) in StatsOf(docs, pairs) {
      var k :| 0 <= k < |docs| && docs[k] == x;
      assert Map(docs, PairOf)[k] == PairOf(x);
      var j :| 0 <= j < |pairs| && pairs[j] == PairOf(x);
      assert StatsOf(docs, pairs)[j] == StatOf(docs, PairOf(x));
    }
  }

  /** `g` is the group document of its pair, and the pair occurs. */
  predicate IsGroupOf(docs: seq<SwapRecord>, g: PairStat) {
    g == StatOf(docs, g.pair) && g.count >= 1
  }

  /** The groups of the pipeline, one per distinct pair, in order of first
      occurrence. */
  function PairGroups(docs: seq<SwapRecord>): (r: seq<PairStat>)
    ensures forall g :: g in r ==> IsGroupOf(docs, g)
    ensures forall x :: x in docs ==> StatOf(docs, PairOf(x)) in r
    ensures forall i, j :: 0 <= i < j < |r| ==> r[i].pair != r[j].pair
  {
    var pairs := Distinct(Map(docs, PairOf));
    GroupsCounted(docs, pairs);
    GroupsCover(docs, pairs);
    StatsOf(docs, pairs)
  }

  /** A top selection of the groups reports each pair at most once. */
  lemma TopPairsDistinct(docs: seq<SwapRecord>, top: seq<PairStat>, limit: nat)
    requires IsTop(top, PairGroups(docs), limit, CountOf)
    ensures forall i, j :: 0 <= i < j < |top| ==> top[i].pair != top[j].pair
  {
    var groups := PairGroups(docs);
    assert NoRepeats(groups);
    SubNoRepeats(top, groups);
    forall i, j | 0 <= i < j < |top| ensures top[i].pair != top[j].pair {
      assert top[i] in multiset(groups) && top[j] in multiset(groups);
      assert top[i] == StatOf(docs, top[i].pair) && top[j] == StatOf(docs, top[j].pair);
    }
  }

  /** A prefix of the sorted groups is sorted and holds only groups. */
  lemma SortedGroups(docs: seq<SwapRecord>, groups: seq<PairStat>, limit: nat)
    requires forall g :: g in groups ==> IsGroupOf(docs, g)
    ensures SortedDesc(Take(SortDesc(groups, CountOf), limit), CountOf)
    ensures forall g :: g in Take(SortDesc(groups, CountOf), limit) ==> IsGroupOf(docs, g)
  {
    var sorted := SortDesc(groups, CountOf);
    PageSorted(sorted, 0, limit, CountOf);
    forall g | g in Take(sorted, limit) ensures IsGroupOf(docs, g) {
      SortDescMembers(groups, CountOf, g);
    }
  }

  /** `getPopularPairs`: the pair groups, most swaps first, at most `limit`
      of them. The aggregation's `$limit` accepts only a positive number, so
      any other limit makes the pipeline fail, which is `None` here. Which of
      several pairs with equal counts comes first is not fixed by the
      aggregation; this model keeps first-occurrence order. */
  function GetPopularPairs(docs: seq<SwapRecord>, limit: int): (r: Option<seq<PairStat>>)
    ensures r.None? <==> limit <= 0
    ensures r.Some? ==> IsTop(r.value, PairGroups(docs), limit as nat, CountOf)
    ensures r.Some? ==> forall g :: g in r.value ==> IsGroupOf(docs, g)
    ensures r.Some? ==> forall i, j :: 0 <= i < j < |r.value| ==> r.value[i].pair != r.value[j].pair
  {
    if limit <= 0 then None
    else
      SortedGroups(docs, PairGroups(docs), limit);
      TakeSortedIsTop(PairGroups(docs), limit, CountOf);
      TopPairsDistinct(docs, Take(SortDesc(PairGroups(docs), CountOf), limit), limit);
      Some(Take(SortDesc(PairGroups(docs), CountOf), limit))
  }

  /** When there are no more distinct pairs than the limit, every pair that
      occurs is reported with its full count. */
  lemma PopularPairsComplete(docs: seq<SwapRecord>, limit: int, x: SwapRecord)
    requires limit > 0
    requires |PairGroups(docs)| <= limit
    requires x in docs
    ensures StatOf(docs, PairOf(x)) in GetPopularPairs(docs, limit).value
  {
    var groups := PairGroups(docs);
    SortDescMembers(groups, CountOf, StatOf(docs, PairOf(x)));
  }
}
