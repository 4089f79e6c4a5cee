/** The swap store: a collection of swap documents whose transaction
    hashes are unique, the operations that insert into it, and the admin
    listing `getSwapList` with its filters, 30-day windows, percentage
    changes, most-used token and paging. Times are milliseconds since the
    epoch. */
module Ledger {
  import opened Wrappers
  import opened SwapModel
  import opened Validation
  import opened Seqs

  const DayMs: int := 86400000

  /** What the unique index on `txhash` guarantees. */
  predicate UniqueTxHashes(docs: seq<SwapRecord>) {
    forall i, j :: 0 <= i < j < |docs| ==> docs[i].txhash != docs[j].txhash
  }

  predicate HasTxHash(docs: seq<SwapRecord>, txhash: string) {
    exists i :: 0 <= i < |docs| && docs[i].txhash == txhash
  }

  /** Why `save()` rejects a document: the schema check fails, or the
      unique index already holds its transaction hash. */
  datatype SaveError = SchemaViolation | DuplicateKey

  datatype InsertOutcome = Inserted(docs: seq<SwapRecord>, saved: SwapRecord) | Rejected(error: SaveError)

  /** `new Swap(body).save()` against the stored documents. */
  function Insert(docs: seq<SwapRecord>, schema: Schema, body: SwapData, now: int): (o: InsertOutcome)
    ensures o == Rejected(SchemaViolation) <==> ToRecord(schema, body, now).None?
    ensures o == Rejected(DuplicateKey) <==>
              ToRecord(schema, body, now).Some? && HasTxHash(docs, ToRecord(schema, body, now).value.txhash)
    ensures o.Inserted? ==> o.saved == ToRecord(schema, body, now).value && o.docs == docs + [o.saved]
    ensures o.Inserted? && UniqueTxHashes(docs) ==> UniqueTxHashes(o.docs)
  {
    match ToRecord(schema, body, now)
    case None => Rejected(SchemaViolation)
    case Some(record) =>
      if HasTxHash(docs, record.txhash) then Rejected(DuplicateKey)
      else Inserted(docs + [record], record)
  }

  /** Once a document is stored, any later payload with the same
      transaction hash that passes the schema is rejected by the index, and
      the stored document stays as it was. */
  lemma SecondInsertRejected(docs: seq<SwapRecord>, schema: Schema, first: SwapData, second: SwapData, t1: int, t2: int)
    requires Insert(docs, schema, first, t1).Inserted?
    requires ToRecord(schema, second, t2).Some?
    requires second.txhash == first.txhash
    ensures var stored := Insert(docs, schema, first, t1);
            && Insert(stored.docs, schema, second, t2) == Rejected(DuplicateKey)
            && stored.docs[|docs|] == stored.saved
  {
    var stored := Insert(docs, schema, first, t1);
    assert stored.docs[|docs|].txhash == ToRecord(schema, second, t2).value.txhash;
  }

  datatype SaveResult = Saved(record: SwapRecord) | SaveFailed(error: SaveError)

  /** The outcome of `createSwap`: status 201 with the saved document, or
      status 500 with the error. */
  datatype CreateResponse = Created(swap: SwapRecord) | CreationFailed(error: SaveError)

  /** The outcome of either `createValidatedSwap`. */
  datatype ValidatedResponse =
    | ValidatedSaved(swap: SwapRecord)
    | BasicCheckFailed(basicError: BasicError)
    | ValidationFailed(details: seq<ValidationError>)
    | ValidatedSaveFailed(error: SaveError)

  class SwapStore {
    var docs: seq<SwapRecord>

    ghost predicate Valid()
      reads this
    {
      UniqueTxHashes(docs)
    }

    constructor ()
      ensures docs == [] && Valid()
    {
      docs := [];
    }

    /** `save()`: validate against the schema, apply the defaults, and
        insert unless the transaction hash is taken. A rejected document
        leaves the store as it was. */
    method Save(schema: Schema, body: SwapData, now: int) returns (result: SaveResult)
      requires Valid()
      modifies this
      ensures Valid()
      ensures var o := Insert(old(docs), schema, body, now);
              && (o.Inserted? ==> docs == o.docs && result == Saved(o.saved))
              && (o.Rejected? ==> docs == old(docs) && result == SaveFailed(o.error))
    {
      var record := ToRecord(schema, body, now);
      if record.None? {
        return SaveFailed(SchemaViolation);
      }
      if HasTxHash(docs, record.value.txhash) {
        return SaveFailed(DuplicateKey);
      }
      docs := docs + [record.value];
      result := Saved(record.value);
    }

    /** `createSwap`, against the backend's schema. */
    method CreateSwap(body: SwapData, now: int) returns (response: CreateResponse)
      requires Valid()
      modifies this
      ensures Valid()
      ensures var o := Insert(old(docs), BackendSchema, body, now);
              && (o.Inserted? ==> docs == o.docs && response == Created(o.saved))
              && (o.Rejected? ==> docs == old(docs) && response == CreationFailed(o.error))
    {
      var result := Save(BackendSchema, body, now);
      match result
      case Saved(record) => response := Created(record);
      case SaveFailed(error) => response := CreationFailed(error);
    }

    /** The first `createValidatedSwap`: the simple checks, which throw at
        the first failure, then `save()`. */
    method CreateValidatedSwapBasic(schema: Schema, body: SwapData, now: int) returns (response: ValidatedResponse)
      requires Valid()
      modifies this
      ensures Valid()
      ensures BasicCheck(body).Some? ==> docs == old(docs) && response == BasicCheckFailed(BasicCheck(body).value)
      ensures BasicCheck(body).None? ==>
                var o := Insert(old(docs), schema, body, now);
                && (o.Inserted? ==> docs == o.docs && response == ValidatedSaved(o.saved))
                && (o.Rejected? ==> docs == old(docs) && response == ValidatedSaveFailed(o.error))
    {
      var check := BasicCheck(body);
      if check.Some? {
        return BasicCheckFailed(check.value);
      }
      var result := Save(schema, body, now);
      match result
      case Saved(record) => response := ValidatedSaved(record);
      case SaveFailed(error) => response := ValidatedSaveFailed(error);
    }

    /** The second `createValidatedSwap`: `validateSwapData`, then `save()`. */
    method CreateValidatedSwap(schema: Schema, body: SwapData, now: int) returns (response: ValidatedResponse)
      requires Valid()
      modifies this
      ensures Valid()
      ensures ValidationErrors(body) != [] ==> docs == old(docs) && response == ValidationFailed(ValidationErrors(body))
      ensures ValidationErrors(body) == [] ==>
                var o := Insert(old(docs), schema, body, now);
                && (o.Inserted? ==> docs == o.docs && response == ValidatedSaved(o.saved))
                && (o.Rejected? ==> docs == old(docs) && response == ValidatedSaveFailed(o.error))
    {
      var isValid, errors := ValidateSwapData(body);
      if !isValid {
        return ValidationFailed(errors);
      }
      var result := Save(schema, body, now);
      match result
      case Saved(record) => response := ValidatedSaved(record);
      case SaveFailed(error) => response := ValidatedSaveFailed(error);
    }

    /** `getSwapList`. `page` and `limit` are the parsed query parameters,
        `None` when absent; `address` and `timeFrame` are "" when absent.
        The listing fails, as the cursor's skip does, when the computed
        skip is negative; a negative limit keeps at most its absolute value,
        and a limit of 0 keeps all. */
    method GetSwapList(address: string, timeFrame: string, page: Option<int>, limit: Option<int>, now: int, cal: Calendar)
      returns (res: ListResult)
      ensures var skip := Skip(page.GetOr(DefaultPage), limit.GetOr(DefaultLimit));
              res.ListFailed? <==> skip < 0
      ensures res.Listed? ==>
                var q := ListQuery(address, timeFrame, now, cal);
                var skip := Skip(page.GetOr(DefaultPage), limit.GetOr(DefaultLimit));
                var r := res.response;
                && skip >= 0
                && r.totalCount == |MatchesOf(docs, q)|
                && r.swaps == Page(SortDesc(MatchesOf(docs, q), TimestampOf), skip, Abs(limit.GetOr(DefaultLimit)))
                && r.percentageChangeTotalValue ==
                   Report(PercentageChange(Totals(docs, LastWindow(q, now)).value, Totals(docs, PrevWindow(q, now)).value))
                && r.percentageChangeTotalFee ==
                   Report(PercentageChange(Totals(docs, LastWindow(q, now)).fee, Totals(docs, PrevWindow(q, now)).fee))
                && r.mostUsedToken == MostUsed(MatchesOf(docs, q))
    {
      var query := BuildQuery(address, timeFrame, now, cal);

      var last := Totals(docs, LastWindow(query, now));
      var prev := Totals(docs, PrevWindow(query, now));
      var valueChange := PercentageChange(last.value, prev.value);
      var feeChange := PercentageChange(last.fee, prev.fee);

      var matches := MatchesOf(docs, query);
      var mostUsed := MostUsed(matches);

      var pageNumber := page.GetOr(DefaultPage);
      var take := limit.GetOr(DefaultLimit);
      var skip := Skip(pageNumber, take);
      var totalCount := |matches|;
      if skip < 0 {
        return ListFailed;
      }
      var swaps := Page(SortDesc(matches, TimestampOf), skip, Abs(take));
      res := Listed(SwapListResponse(swaps, totalCount, Report(valueChange), Report(feeChange), mostUsed));
    }
  }

  // ---------------------------------------------------------------------
  // The listing query

  const DefaultPage: int := 1
  const DefaultLimit: int := 10

  /** The number of documents before page `page` of size `limit`. */
  function Skip(page: int, limit: int): int {
    (page - 1) * limit
  }

  /** The skip is negative, and the listing fails, exactly when a page
      before the first is asked for with a positive limit, or a page after
      the first with a negative one. */
  lemma SkipNegative(page: int, limit: int)
    ensures Skip(page, limit) < 0 <==> (page < 1 && limit > 0) || (page > 1 && limit < 0)
  {
    if page < 1 && limit > 0 {
      assert (page - 1) * limit <= -1 * limit;
    } else if page > 1 && limit < 0 {
      assert (page - 1) * limit <= limit;
    } else if page >= 1 && limit >= 0 {
      assert (page - 1) * limit >= 0;
    } else if page <= 1 && limit <= 0 {
      assert (page - 1) * limit >= 0;
    }
  }

  function Abs(x: int): nat {
    if x < 0 then -x else x
  }

  /** A find filter on the wallet address and a half-open time range. */
  datatype Query = Query(walletAddress: Option<string>, since: Option<int>, before: Option<int>)

  predicate Matches(q: Query, r: SwapRecord) {
    && (q.walletAddress.Some? ==> r.walletAddress == q.walletAddress.value)
    && (q.since.Some? ==> r.timestamp >= q.since.value)
    && (q.before.Some? ==> r.timestamp < q.before.value)
  }

  function MatchesOf(docs: seq<SwapRecord>, q: Query): (r: seq<SwapRecord>)
    ensures forall x :: x in r <==> x in docs && Matches(q, x)
  {
    Filter(docs, x => Matches(q, x))
  }

  function TimestampOf(r: SwapRecord): int {
    r.timestamp
  }

  /** The instants three months and one year before now. Calendar months
      and years are not a fixed number of milliseconds, so they are given
      rather than computed. */
  datatype Calendar = Calendar(threeMonthsAgo: int, oneYearAgo: int)

  /** The `startDate` of a non-empty `timeFrame`: seven or thirty days back,
      three months or one year back, and the current instant for any other
      value. */
  function StartDate(timeFrame: string, now: int, cal: Calendar): int {
    if timeFrame == "7d" then now - 7 * DayMs
    else if timeFrame == "30d" then now - 30 * DayMs
    else if timeFrame == "3m" then cal.threeMonthsAgo
    else if timeFrame == "1y" then cal.oneYearAgo
    else now
  }

  /** The listing's `query`: an exact wallet address when one is given, and
      a lower time bound when a time frame is given. */
  function ListQuery(address: string, timeFrame: string, now: int, cal: Calendar): (q: Query)
    ensures forall r :: Matches(q, r) <==>
              && (address != "" ==> r.walletAddress == address)
              && (timeFrame != "" ==> r.timestamp >= StartDate(timeFrame, now, cal))
  {
    Query(if address == "" then None else Some(address),
          if timeFrame == "" then None else Some(StartDate(timeFrame, now, cal)),
          None)
  }

  /** The query of `getSwapList`, built field by field. */
  method BuildQuery(address: string, timeFrame: string, now: int, cal: Calendar) returns (q: Query)
    ensures q == ListQuery(address, timeFrame, now, cal)
  {
    q := Query(None, None, None);
    if address != "" {
      q := q.(walletAddress := Some(address));
    }
    if timeFrame != "" {
      var startDate := now;
      if timeFrame == "7d" {
        startDate := startDate - 7 * DayMs;
      } else if timeFrame == "30d" {
        startDate := startDate - 30 * DayMs;
      } else if timeFrame == "3m" {
        startDate := cal.threeMonthsAgo;
      } else if timeFrame == "1y" {
        startDate := cal.oneYearAgo;
      }
      q := q.(since := Some(startDate));
    }
  }

  /** The week filter keeps a subset of the month filter, and a time frame
      the listing does not know keeps only records stamped now or later. */
  lemma TimeFrameFilters(docs: seq<SwapRecord>, address: string, now: int, cal: Calendar, other: string)
    requires other !in ["", "7d", "30d", "3m", "1y"]
    ensures forall r :: r in MatchesOf(docs, ListQuery(address, "7d", now, cal)) ==>
                          r in MatchesOf(docs, ListQuery(address, "30d", now, cal))
    ensures forall r :: r in MatchesOf(docs, ListQuery(address, other, now, cal)) ==> r.timestamp >= now
  {
  }

  // ---------------------------------------------------------------------
  // The 30-day windows

  /** The last 30 days: the query with its time bound replaced. */
  function LastWindow(q: Query, now: int): Query {
    q.(since := Some(now - 30 * DayMs), before := None)
  }

  /** The 30 days before those. */
  function PrevWindow(q: Query, now: int): Query {
    q.(since := Some(now - 60 * DayMs), before := Some(now - 30 * DayMs))
  }

  /** The two windows never share a record; together they hold exactly the
      records of the query's wallet filter from the last 60 days, whatever
      time frame the listing itself was asked for. */
  lemma WindowsDisjoint(q: Query, now: int, r: SwapRecord)
    ensures !(Matches(LastWindow(q, now), r) && Matches(PrevWindow(q, now), r))
    ensures Matches(LastWindow(q, now), r) || Matches(PrevWindow(q, now), r) <==>
              && (q.walletAddress.Some? ==> r.walletAddress == q.walletAddress.value)
              && r.timestamp >= now - 60 * DayMs
  {
  }

  datatype WindowTotals = WindowTotals(value: real, fee: real)

  function FromAmountOf(r: SwapRecord): real {
    r.fromTokenAmount
  }

  function FeeOf(r: SwapRecord): real {
    r.fee
  }

  /** `$group` with `$sum` over a window; no matching record gives 0. */
  function Totals(docs: seq<SwapRecord>, q: Query): (t: WindowTotals)
    ensures MatchesOf(docs, q) == [] ==> t == WindowTotals(0.0, 0.0)
  {
    var matches := MatchesOf(docs, q);
    WindowTotals(Sum(matches, FromAmountOf), Sum(matches, FeeOf))
  }

  /** The two windows' totals add up to the total of the last 60 days. */
  lemma {:induction false} WindowTotalsSplit(docs: seq<SwapRecord>, q: Query, now: int)
    ensures var sixty := q.(since := Some(now - 60 * DayMs), before := None);
            && Totals(docs, sixty).value == Totals(docs, LastWindow(q, now)).value + Totals(docs, PrevWindow(q, now)).value
            && Totals(docs, sixty).fee == Totals(docs, LastWindow(q, now)).fee + Totals(docs, PrevWindow(q, now)).fee
    decreases |docs|
  {
    if docs != [] {
      WindowTotalsSplit(docs[1..], q, now);
      WindowsDisjoint(q, now, docs[0]);
    }
  }

  // ---------------------------------------------------------------------
  // Percentage change

  /** `calculatePercentageChange`: growth from `previous` to `current` in
      percent, with 100 for any growth from zero and 0 for none. */
  function PercentageChange(current: real, previous: real): (pct: real)
    ensures previous == 0.0 ==> pct == (if current > 0.0 then 100.0 else 0.0)
    ensures previous != 0.0 ==> previous + previous * pct / 100.0 == current
  {
    if previous == 0.0 then
      (if current > 0.0 then 100.0 else 0.0)
    else
      var pct := (current - previous) / previous * 100.0;
      assert previous * pct / 100.0 == current - previous;
      pct
  }

  /** The reported `{ change, isPositive }`: the magnitude, and whether the
      change is not negative. */
  function Report(pct: real): (p: PercentChange)
    ensures p.change >= 0.0 && (p.change == pct || p.change == -pct)
    ensures p.isPositive <==> pct >= 0.0
  {
    PercentChange(if pct < 0.0 then -pct else pct, pct >= 0.0)
  }

  /** Against a positive previous total, the change is reported as positive
      exactly when the current total did not fall, and its magnitude is the
      relative difference in percent. */
  lemma ReportAgainstPositive(current: real, previous: real)
    requires previous > 0.0
    ensures Report(PercentageChange(current, previous)).isPositive <==> current >= previous
    ensures Report(PercentageChange(current, previous)).change * previous / 100.0 ==
            (if current >= previous then current - previous else previous - current)
  {
    var pct := PercentageChange(current, previous);
    assert pct == (current - previous) / previous * 100.0;
  }

  // ---------------------------------------------------------------------
  // The most used from-token

  function CountSymbol(s: seq<SwapRecord>, symbol: string): nat {
    if s == [] then 0
    else (if s[0].fromTokenSymbol == symbol then 1 else 0) + CountSymbol(s[1..], symbol)
  }

  /** The candidate of `cands` with the largest count in `all`; on a tie the
      earlier candidate. */
  function Leader(all: seq<SwapRecord>, cands: seq<SwapRecord>): (best: SymbolCount)
    requires cands != []
    ensures exists i :: 0 <= i < |cands| && cands[i].fromTokenSymbol == best.symbol
    ensures best.count == CountSymbol(all, best.symbol)
    ensures forall i :: 0 <= i < |cands| ==> CountSymbol(all, cands[i].fromTokenSymbol) <= best.count
  {
    var here := SymbolCount(cands[0].fromTokenSymbol, CountSymbol(all, cands[0].fromTokenSymbol));
    if |cands| == 1 then here
    else
      var rest := Leader(all, cands[1..]);
      if here.count >= rest.count then here else rest
  }

  /** `mostUsedToken`: grouping the matches by from-symbol, a symbol with
      the largest count, or `null` when nothing matches. Which of several
      tied symbols comes first is not fixed by the aggregation; this model
      takes the earliest stored. */
  function MostUsed(matches: seq<SwapRecord>): (r: Option<SymbolCount>)
    ensures r.None? <==> matches == []
    ensures r.Some? ==>
              && (exists i :: 0 <= i < |matches| && matches[i].fromTokenSymbol == r.value.symbol)
              && r.value.count == CountSymbol(matches, r.value.symbol)
              && forall i :: 0 <= i < |matches| ==> CountSymbol(matches, matches[i].fromTokenSymbol) <= r.value.count
  {
    if matches == [] then None else Some(Leader(matches, matches))
  }

  /** A symbol that occurs is counted at least once. */
  lemma {:induction false} CountSymbolPositive(s: seq<SwapRecord>, i: nat)
    requires i < |s|
    ensures CountSymbol(s, s[i].fromTokenSymbol) >= 1
    decreases i
  {
    if i > 0 {
      CountSymbolPositive(s[1..], i - 1);
    }
  }

  lemma MostUsedCounted(matches: seq<SwapRecord>)
    requires matches != []
    ensures MostUsed(matches).value.count >= 1
  {
    CountSymbolPositive(matches, 0);
  }

  datatype ListResult = Listed(response: SwapListResponse) | ListFailed

  /** What a listed page holds: matches of the query only, newest first, no
      more than the limit, and with default paging the ten newest. */
  lemma ListedPage(docs: seq<SwapRecord>, q: Query, skip: nat, limit: nat)
    ensures var swaps := Page(SortDesc(MatchesOf(docs, q), TimestampOf), skip, limit);
            && SortedDesc(swaps, TimestampOf)
            && (forall r :: r in swaps ==> r in docs && Matches(q, r))
            && (limit > 0 ==> |swaps| <= limit)
  {
    var sorted := SortDesc(MatchesOf(docs, q), TimestampOf);
    PageSorted(sorted, skip, limit, TimestampOf);
    forall r | r in sorted ensures r in MatchesOf(docs, q) {
      SortDescMembers(MatchesOf(docs, q), TimestampOf, r);
    }
  }
}
