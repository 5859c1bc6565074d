/** The position ledger: trades folded into open and closed episodes with average-cost results. */
module Ledger {
  import opened Options

  /** One newly inserted trade whose quote has a value in SOL.  Amounts come from a validated event:
      tokens are positive and the quote is not negative. */
  datatype Fill = Fill(wallet: string, token: string, buy: bool, tokens: real, sol: real, time: int)

  predicate FillOk(f: Fill) { f.tokens > 0.0 && f.sol >= 0.0 }

  datatype Status = Open | Closed

  datatype Episode = Episode(
    wallet: string, token: string, status: Status, openedAt: int, closedAt: Option<int>,
    boughtTokens: real, soldTokens: real, boughtSol: real, soldSol: real, remaining: real,
    avgEntry: Option<real>, avgExit: Option<real>, realizedPnl: real, roi: Option<real>,
    holdSeconds: Option<int>, tradeCount: nat, lastTradeAt: int)

  /** A remainder at or below this fraction of everything bought closes the episode. */
  const DUST_FRACTION: real := 0.005

  function Blank(f: Fill): Episode {
    Episode(f.wallet, f.token, Open, f.time, None, 0.0, 0.0, 0.0, 0.0, 0.0, None, None, 0.0, None, None, 0, f.time)
  }

  function EntryPrice(e: Episode): real {
    if e.avgEntry.Some? then e.avgEntry.value else 0.0
  }

  function PriceOf(sol: real, tokens: real): Option<real> {
    if tokens != 0.0 then Some(sol / tokens) else None
  }

  function Cost(price: real, tokens: real): real { price * tokens }

  /** The buy or sell half of a fold. */
  function Traded(e: Episode, f: Fill): Episode {
    var base := e.(tradeCount := e.tradeCount + 1, lastTradeAt := f.time);
    if f.buy then
      var tokens, sol := e.boughtTokens + f.tokens, e.boughtSol + f.sol;
      base.(boughtTokens := tokens, boughtSol := sol, avgEntry := PriceOf(sol, tokens),
            remaining := tokens - e.soldTokens)
    else
      var tokens, sol := e.soldTokens + f.tokens, e.soldSol + f.sol;
      base.(soldTokens := tokens, soldSol := sol, avgExit := PriceOf(sol, tokens),
            realizedPnl := e.realizedPnl + f.sol - Cost(EntryPrice(e), f.tokens),
            remaining := e.boughtTokens - tokens)
  }

  /** The closing rule: dust left of something bought, or a sale of tokens never seen bought. */
  function Settled(e: Episode, time: int): Episode {
    if e.boughtTokens > 0.0 && e.remaining <= e.boughtTokens * DUST_FRACTION then
      e.(status := Closed, closedAt := Some(time), holdSeconds := Some(time - e.openedAt),
         roi := if e.boughtSol > 0.0 then Some(e.realizedPnl / e.boughtSol) else e.roi)
    else if e.boughtTokens == 0.0 && e.soldTokens > 0.0 then
      e.(status := Closed, closedAt := Some(time), holdSeconds := Some(0))
    else e
  }

  function Fold(e: Episode, f: Fill): Episode { Settled(Traded(e, f), f.time) }

  /** The row object the writer loads, updates field by field and flushes. */
  class PositionRow {
    const wallet: string
    const token: string
    var status: Status
    const openedAt: int
    var closedAt: Option<int>
    var boughtTokens: real
    var soldTokens: real
    var boughtSol: real
    var soldSol: real
    var remaining: real
    var avgEntry: Option<real>
    var avgExit: Option<real>
    var realizedPnl: real
    var roi: Option<real>
    var holdSeconds: Option<int>
    var tradeCount: nat
    var lastTradeAt: int

    constructor (e: Episode)
      ensures Value() == e
    {
      wallet, token, status, openedAt, closedAt := e.wallet, e.token, e.status, e.openedAt, e.closedAt;
      boughtTokens, soldTokens, boughtSol, soldSol := e.boughtTokens, e.soldTokens, e.boughtSol, e.soldSol;
      remaining, avgEntry, avgExit, realizedPnl := e.remaining, e.avgEntry, e.avgExit, e.realizedPnl;
      roi, holdSeconds, tradeCount, lastTradeAt := e.roi, e.holdSeconds, e.tradeCount, e.lastTradeAt;
    }

    function Value(): Episode
      reads this
    {
      Episode(wallet, token, status, openedAt, closedAt, boughtTokens, soldTokens, boughtSol, soldSol, remaining,
              avgEntry, avgExit, realizedPnl, roi, holdSeconds, tradeCount, lastTradeAt)
    }

    method RecordBuy(f: Fill)
      requires f.buy
      modifies this
      ensures Value() == Traded(old(Value()), f)
    {
      hide PriceOf, Cost;
      tradeCount, lastTradeAt := tradeCount + 1, f.time;
      boughtTokens, boughtSol := boughtTokens + f.tokens, boughtSol + f.sol;
      avgEntry := PriceOf(boughtSol, boughtTokens);
      remaining := boughtTokens - soldTokens;
    }

    method RecordSell(f: Fill)
      requires !f.buy
      modifies this
      ensures Value() == Traded(old(Value()), f)
    {
      hide PriceOf, Cost;
      tradeCount, lastTradeAt := tradeCount + 1, f.time;
      soldTokens, soldSol := soldTokens + f.tokens, soldSol + f.sol;
      avgExit := PriceOf(soldSol, soldTokens);
      var entry := if avgEntry.Some? then avgEntry.value else 0.0;
      realizedPnl := realizedPnl + f.sol - Cost(entry, f.tokens);
      remaining := boughtTokens - soldTokens;
    }

    /** Buy and sell bookkeeping. */
    method Record(f: Fill)
      modifies this
      ensures Value() == Traded(old(Value()), f)
    {
      hide Traded;
      if f.buy {
        RecordBuy(f);
      } else {
        RecordSell(f);
      }
    }

    /** Closes the row when only dust is left, or when nothing was ever seen bought. */
    method Settle(time: int)
      modifies this
      ensures Value() == Settled(old(Value()), time)
    {
      var dustLevel := boughtTokens * DUST_FRACTION;
      if boughtTokens > 0.0 && remaining <= dustLevel {
        status, closedAt, holdSeconds := Closed, Some(time), Some(time - openedAt);
        if boughtSol > 0.0 {
          roi := Some(realizedPnl / boughtSol);
        }
      } else if boughtTokens == 0.0 && soldTokens > 0.0 {
        status, closedAt, holdSeconds := Closed, Some(time), Some(0);
      }
    }

    method Update(f: Fill)
      modifies this
      ensures Value() == Fold(old(Value()), f)
    {
      Record(f);
      Settle(f.time);
    }
  }

  // --- the table ----------------------------------------------------------

  type Table = seq<Episode>

  predicate Matches(e: Episode, wallet: string, token: string) {
    e.status.Open? && e.wallet == wallet && e.token == token
  }

  function OpenIndex(t: Table, wallet: string, token: string): (r: int)
    ensures -1 <= r < |t|
    ensures r >= 0 ==> Matches(t[r], wallet, token)
    ensures r < 0 ==> forall i :: 0 <= i < |t| ==> !Matches(t[i], wallet, token)
  {
    if t == [] then -1
    else if Matches(t[|t| - 1], wallet, token) then |t| - 1
    else OpenIndex(t[..|t| - 1], wallet, token)
  }

  /** Folds one trade into the open episode of its pair, or into a new one. */
  function Post(t: Table, f: Fill): Table {
    var i := OpenIndex(t, f.wallet, f.token);
    if i >= 0 then t[i := Fold(t[i], f)] else t + [Fold(Blank(f), f)]
  }

  function PostAll(fills: seq<Fill>): Table {
    if fills == [] then [] else Post(PostAll(fills[..|fills| - 1]), fills[|fills| - 1])
  }

  ghost predicate AllOk(fills: seq<Fill>) {
    forall i :: 0 <= i < |fills| ==> FillOk(fills[i])
  }

  /** What every episode of a reachable table satisfies. */
  predicate EpisodeOk(e: Episode) {
    && e.boughtTokens >= 0.0 && e.soldTokens >= 0.0 && e.boughtSol >= 0.0 && e.soldSol >= 0.0
    && e.remaining == e.boughtTokens - e.soldTokens
    && e.tradeCount >= 1
    && (e.boughtTokens > 0.0 ==> e.avgEntry == PriceOf(e.boughtSol, e.boughtTokens))
    && (e.status.Open? ==> e.boughtTokens > 0.0 && e.remaining > e.boughtTokens * DUST_FRACTION)
    && (e.status.Closed? ==>
          || (e.boughtTokens > 0.0 && e.remaining <= e.boughtTokens * DUST_FRACTION)
          || (e.boughtTokens == 0.0 && e.tradeCount == 1 && e.realizedPnl == e.soldSol))
  }

  ghost predicate TableOk(t: Table) {
    && (forall i :: 0 <= i < |t| ==> EpisodeOk(t[i]))
    && (forall i, j :: 0 <= i < j < |t| && t[i].status.Open? && t[j].status.Open?
          ==> t[i].wallet != t[j].wallet || t[i].token != t[j].token)
  }

  lemma FoldOpenOk(e: Episode, f: Fill)
    requires EpisodeOk(e) && e.status.Open? && FillOk(f)
    ensures EpisodeOk(Fold(e, f))
  {
  }

  lemma FoldBlankOk(f: Fill)
    requires FillOk(f)
    ensures EpisodeOk(Fold(Blank(f), f))
  {
  }

  lemma PostKeepsOk(t: Table, f: Fill)
    requires TableOk(t) && FillOk(f)
    ensures TableOk(Post(t, f))
  {
    var i := OpenIndex(t, f.wallet, f.token);
    if i >= 0 {
      FoldOpenOk(t[i], f);
    } else {
      FoldBlankOk(f);
    }
  }

  /** Over any trade sequence: at most one open episode per pair, and every open one holds more than
      dust of what it bought. */
  lemma {:induction false} LedgerIsSound(fills: seq<Fill>)
    requires AllOk(fills)
    ensures TableOk(PostAll(fills))
  {
    if fills != [] {
      LedgerIsSound(fills[..|fills| - 1]);
      PostKeepsOk(PostAll(fills[..|fills| - 1]), fills[|fills| - 1]);
    }
  }

  // --- conservation -------------------------------------------------------

  /** Tokens bought, tokens sold, SOL paid, SOL received. */
  datatype Totals = Totals(tokensIn: real, tokensOut: real, solIn: real, solOut: real)

  function Plus(a: Totals, b: Totals): Totals {
    Totals(a.tokensIn + b.tokensIn, a.tokensOut + b.tokensOut, a.solIn + b.solIn, a.solOut + b.solOut)
  }

  const ZERO := Totals(0.0, 0.0, 0.0, 0.0)

  function EpisodeTotals(e: Episode, wallet: string, token: string): Totals {
    if e.wallet == wallet && e.token == token
    then Totals(e.boughtTokens, e.soldTokens, e.boughtSol, e.soldSol) else ZERO
  }

  function TableTotals(t: Table, wallet: string, token: string): Totals {
    if t == [] then ZERO
    else Plus(TableTotals(t[..|t| - 1], wallet, token), EpisodeTotals(t[|t| - 1], wallet, token))
  }

  function FillTotals(f: Fill, wallet: string, token: string): Totals {
    if f.wallet != wallet || f.token != token then ZERO
    else if f.buy then Totals(f.tokens, 0.0, f.sol, 0.0)
    else Totals(0.0, f.tokens, 0.0, f.sol)
  }

  function TradeTotals(fills: seq<Fill>, wallet: string, token: string): Totals {
    if fills == [] then ZERO
    else Plus(TradeTotals(fills[..|fills| - 1], wallet, token), FillTotals(fills[|fills| - 1], wallet, token))
  }

  lemma {:induction false} UpdateTotals(t: Table, i: nat, e: Episode, wallet: string, token: string, delta: Totals)
    requires i < |t|
    requires EpisodeTotals(e, wallet, token) == Plus(EpisodeTotals(t[i], wallet, token), delta)
    ensures TableTotals(t[i := e], wallet, token) == Plus(TableTotals(t, wallet, token), delta)
  {
    var n := |t| - 1;
    if i == n {
      assert t[i := e][..n] == t[..n];
    } else {
      UpdateTotals(t[..n], i, e, wallet, token, delta);
      assert t[i := e][..n] == t[..n][i := e];
    }
  }

  lemma FoldTotals(e: Episode, f: Fill, wallet: string, token: string)
    requires e.wallet == f.wallet && e.token == f.token
    ensures EpisodeTotals(Fold(e, f), wallet, token)
         == Plus(EpisodeTotals(e, wallet, token), FillTotals(f, wallet, token))
  {
  }

  lemma PostTotals(t: Table, f: Fill, wallet: string, token: string)
    ensures TableTotals(Post(t, f), wallet, token)
         == Plus(TableTotals(t, wallet, token), FillTotals(f, wallet, token))
  {
    var i := OpenIndex(t, f.wallet, f.token);
    if i >= 0 {
      FoldTotals(t[i], f, wallet, token);
      UpdateTotals(t, i, Fold(t[i], f), wallet, token, FillTotals(f, wallet, token));
    } else {
      var e := Fold(Blank(f), f);
      FoldTotals(Blank(f), f, wallet, token);
      assert (t + [e])[..|t|] == t;
    }
  }

  /** Conservation, pair by pair: the episodes of a wallet and token together hold exactly the tokens
      and the SOL of its trades. */
  lemma {:induction false} TotalsAreConserved(fills: seq<Fill>, wallet: string, token: string)
    ensures TableTotals(PostAll(fills), wallet, token) == TradeTotals(fills, wallet, token)
  {
    if fills != [] {
      var n := |fills| - 1;
      TotalsAreConserved(fills[..n], wallet, token);
      PostTotals(PostAll(fills[..n]), fills[n], wallet, token);
    }
  }

  // --- episodes and their histories ---------------------------------------

  /** The fills behind each episode, kept in step with the table. */
  function Histories(fills: seq<Fill>): (h: seq<seq<Fill>>)
    ensures |h| == |PostAll(fills)|
  {
    if fills == [] then []
    else
      var n := |fills| - 1;
      var h, f := Histories(fills[..n]), fills[n];
      var i := OpenIndex(PostAll(fills[..n]), f.wallet, f.token);
      if i >= 0 then h[i := h[i] + [f]] else h + [[f]]
  }

  function Replay(h: seq<Fill>): Episode
    requires h != []
  {
    Fold(if |h| == 1 then Blank(h[0]) else Replay(h[..|h| - 1]), h[|h| - 1])
  }

  /** Each episode is the replay of its history, which holds only fills of its pair, and an episode
      that contains a buy starts with one. */
  ghost predicate HistoryOk(e: Episode, h: seq<Fill>) {
    && h != []
    && e == Replay(h)
    && (forall k :: 0 <= k < |h| ==> FillOk(h[k]) && h[k].wallet == e.wallet && h[k].token == e.token)
    && (h[0].buy || (|h| == 1 && e.status.Closed?))
  }

  lemma HistoryGrows(e: Episode, h: seq<Fill>, f: Fill)
    requires HistoryOk(e, h) && e.status.Open? && FillOk(f) && f.wallet == e.wallet && f.token == e.token
    ensures HistoryOk(Fold(e, f), h + [f])
  {
    assert (h + [f])[..|h|] == h;
  }

  lemma HistoryStarts(f: Fill)
    requires FillOk(f)
    ensures HistoryOk(Fold(Blank(f), f), [f])
  {
  }

  lemma {:induction false} HistoriesFit(fills: seq<Fill>)
    requires AllOk(fills)
    ensures forall i :: 0 <= i < |PostAll(fills)| ==> HistoryOk(PostAll(fills)[i], Histories(fills)[i])
  {
    if fills != [] {
      var n := |fills| - 1;
      var t, h, f := PostAll(fills[..n]), Histories(fills[..n]), fills[n];
      HistoriesFit(fills[..n]);
      LedgerIsSound(fills[..n]);
      var i := OpenIndex(t, f.wallet, f.token);
      if i >= 0 {
        HistoryGrows(t[i], h[i], f);
      } else {
        HistoryStarts(f);
      }
    }
  }

  // --- the realised result ------------------------------------------------

  /** The amount `sol` for `tokens` is a price in [low, high]. */
  predicate Within(low: real, high: real, tokens: real, sol: real) {
    low * tokens <= sol <= high * tokens
  }

  lemma WithinAdds(low: real, high: real, t1: real, s1: real, t2: real, s2: real)
    requires Within(low, high, t1, s1) && Within(low, high, t2, s2)
    ensures Within(low, high, t1 + t2, s1 + s2)
  {
    assert low * (t1 + t2) == low * t1 + low * t2;
    assert high * (t1 + t2) == high * t1 + high * t2;
  }

  lemma CostWithin(low: real, high: real, tokens: real, sol: real, t: real)
    requires tokens > 0.0 && Within(low, high, tokens, sol) && t >= 0.0
    ensures PriceOf(sol, tokens).Some?
    ensures Within(low, high, t, Cost(PriceOf(sol, tokens).value, t))
  {
    var x := sol / tokens;
    assert x * tokens == sol;
    PriceBetween(low, x, tokens);
    PriceBetween(x, high, tokens);
    Scale(low, x, t);
    Scale(x, high, t);
  }

  lemma PriceBetween(x: real, y: real, tokens: real)
    requires tokens > 0.0 && x * tokens <= y * tokens
    ensures x <= y
  {
  }

  lemma Scale(x: real, y: real, t: real)
    requires x <= y && t >= 0.0
    ensures x * t <= y * t
  {
  }

  /** What has been sold so far, and the cost basis charged for it. */
  function Basis(e: Episode): real { e.soldSol - e.realizedPnl }

  ghost predicate InBand(e: Episode, low: real, high: real) {
    && e.boughtTokens > 0.0
    && e.avgEntry == PriceOf(e.boughtSol, e.boughtTokens)
    && Within(low, high, e.boughtTokens, e.boughtSol)
    && Within(low, high, e.soldTokens, Basis(e))
  }

  lemma FoldInBand(p: Episode, f: Fill, low: real, high: real)
    requires InBand(p, low, high) && FillOk(f)
    requires f.buy ==> Within(low, high, f.tokens, f.sol)
    ensures InBand(Fold(p, f), low, high)
  {
    var e := Fold(p, f);
    if f.buy {
      WithinAdds(low, high, p.boughtTokens, p.boughtSol, f.tokens, f.sol);
      assert Basis(e) == Basis(p);
    } else {
      CostWithin(low, high, p.boughtTokens, p.boughtSol, f.tokens);
      var cost := Cost(EntryPrice(p), f.tokens);
      WithinAdds(low, high, p.soldTokens, Basis(p), f.tokens, cost);
      assert Basis(e) == Basis(p) + cost;
    }
  }

  /** Every buy of the history was made at a price in [low, high]. */
  ghost predicate PricesWithin(h: seq<Fill>, low: real, high: real) {
    forall k :: 0 <= k < |h| && h[k].buy ==> Within(low, high, h[k].tokens, h[k].sol)
  }

  lemma FirstBuyInBand(f: Fill, low: real, high: real)
    requires f.buy && FillOk(f) && Within(low, high, f.tokens, f.sol)
    ensures InBand(Fold(Blank(f), f), low, high)
  {
    var e := Fold(Blank(f), f);
    assert e.boughtTokens == f.tokens && e.boughtSol == f.sol;
    assert e.soldTokens == 0.0 && Basis(e) == 0.0;
    assert low * 0.0 == 0.0 && high * 0.0 == 0.0;
  }

  /** The cost basis charged stays inside the price band of the buys. */
  lemma {:induction false} ReplayInBand(h: seq<Fill>, low: real, high: real)
    requires h != [] && h[0].buy && PricesWithin(h, low, high)
    requires forall k :: 0 <= k < |h| ==> FillOk(h[k])
    ensures InBand(Replay(h), low, high)
  {
    var n := |h| - 1;
    if n == 0 {
      FirstBuyInBand(h[0], low, high);
    } else {
      ReplayInBand(h[..n], low, high);
      FoldInBand(Replay(h[..n]), h[n], low, high);
    }
  }

  lemma EpisodeInBand(e: Episode, h: seq<Fill>, low: real, high: real)
    requires HistoryOk(e, h) && e.boughtTokens > 0.0 && PricesWithin(h, low, high)
    ensures InBand(e, low, high)
  {
    StartsWithBuy(e, h);
    ReplayInBand(h, low, high);
  }

  /** In every reachable table, an episode with a buy was charged for its sales a cost between the
      tokens sold at its cheapest buy and the same at its dearest: its realised result lies between
      soldSol - high * soldTokens and soldSol - low * soldTokens. */
  lemma {:induction false} ResultWithinBand(fills: seq<Fill>, i: nat, low: real, high: real)
    requires AllOk(fills) && i < |PostAll(fills)|
    requires PostAll(fills)[i].boughtTokens > 0.0
    requires PricesWithin(Histories(fills)[i], low, high)
    ensures var e := PostAll(fills)[i];
      Within(low, high, e.soldTokens, e.soldSol - e.realizedPnl)
  {
    HistoryFits(fills, i);
    EpisodeInBand(PostAll(fills)[i], Histories(fills)[i], low, high);
  }

  lemma HistoryFits(fills: seq<Fill>, i: nat)
    requires AllOk(fills) && i < |PostAll(fills)|
    ensures HistoryOk(PostAll(fills)[i], Histories(fills)[i])
  {
    HistoriesFit(fills);
  }

  lemma StartsWithBuy(e: Episode, h: seq<Fill>)
    requires HistoryOk(e, h) && e.boughtTokens > 0.0
    ensures h[0].buy
  {
  }

  /** All buys come before all sells. */
  ghost predicate BuysFirst(h: seq<Fill>) {
    forall i, j :: 0 <= i < j < |h| && h[j].buy ==> h[i].buy
  }

  /** The basis is the tokens sold at the average entry price. */
  ghost predicate AtAverage(e: Episode) {
    e.avgEntry.Some? && Basis(e) == Cost(e.avgEntry.value, e.soldTokens)
  }

  lemma SellAtAverage(p: Episode, f: Fill)
    requires AtAverage(p) && !f.buy
    ensures AtAverage(Fold(p, f))
  {
    var a := p.avgEntry.value;
    assert Cost(a, p.soldTokens + f.tokens) == Cost(a, p.soldTokens) + Cost(a, f.tokens);
    assert Basis(Fold(p, f)) == Basis(p) + Cost(a, f.tokens);
  }

  /** Only buys so far. */
  ghost predicate Unsold(e: Episode) {
    e.boughtTokens > 0.0 && e.soldTokens == 0.0 && e.soldSol == 0.0 && e.realizedPnl == 0.0
  }

  lemma BuyUnsold(p: Episode, f: Fill)
    requires f.buy && FillOk(f) && p.boughtTokens >= 0.0
    requires p.soldTokens == 0.0 && p.soldSol == 0.0 && p.realizedPnl == 0.0
    ensures Unsold(Fold(p, f)) && AtAverage(Fold(p, f))
  {
    var e := Fold(p, f);
    assert e.soldTokens == 0.0 && Basis(e) == 0.0 && e.avgEntry.Some?;
    assert Cost(e.avgEntry.value, 0.0) == 0.0;
  }

  /** When an episode buys first and sells afterwards, its result is exact average cost. */
  lemma {:induction false} ReplayAtAverage(h: seq<Fill>)
    requires h != [] && h[0].buy && BuysFirst(h)
    requires forall k :: 0 <= k < |h| ==> FillOk(h[k])
    ensures AtAverage(Replay(h))
    ensures h[|h| - 1].buy ==> Unsold(Replay(h))
  {
    var n := |h| - 1;
    if n == 0 {
      BuyUnsold(Blank(h[0]), h[0]);
    } else {
      ReplayAtAverage(h[..n]);
      if h[n].buy {
        assert h[n - 1].buy && h[..n][n - 1].buy;
        BuyUnsold(Replay(h[..n]), h[n]);
      } else {
        SellAtAverage(Replay(h[..n]), h[n]);
      }
    }
  }

  lemma EpisodeAtAverage(e: Episode, h: seq<Fill>)
    requires HistoryOk(e, h) && e.boughtTokens > 0.0 && BuysFirst(h)
    ensures AtAverage(e)
  {
    StartsWithBuy(e, h);
    ReplayAtAverage(h);
  }

  /** The same for the episodes of every reachable table: soldSol - realizedPnl == avgEntry * soldTokens. */
  lemma {:induction false} ResultAtAverageCost(fills: seq<Fill>, i: nat)
    requires AllOk(fills) && i < |PostAll(fills)|
    requires PostAll(fills)[i].boughtTokens > 0.0 && BuysFirst(Histories(fills)[i])
    ensures AtAverage(PostAll(fills)[i])
  {
    HistoryFits(fills, i);
    EpisodeAtAverage(PostAll(fills)[i], Histories(fills)[i]);
  }

  // --- what the columns of an episode mean --------------------------------

  /** The columns of an episode, from the fills behind it.  The sums are those of the fills, an average
      price times its tokens is the SOL traded for them, and the opening and last trade are the first
      and the last fill.  An episode with a buy is closed exactly when a two-hundredth or less of what
      it bought is left; a closed one spans its first to its last fill, and its ROI is the result per
      SOL spent. */
  ghost predicate Measured(e: Episode, h: seq<Fill>) {
    && h != []
    && EpisodeTotals(e, e.wallet, e.token) == TradeTotals(h, e.wallet, e.token)
    && e.remaining == e.boughtTokens - e.soldTokens
    && e.openedAt == h[0].time && e.lastTradeAt == h[|h| - 1].time && e.tradeCount == |h|
    && (e.boughtTokens > 0.0 <==> e.avgEntry.Some?)
    && (e.avgEntry.Some? ==> e.avgEntry.value * e.boughtTokens == e.boughtSol)
    && (e.soldTokens > 0.0 <==> e.avgExit.Some?)
    && (e.avgExit.Some? ==> e.avgExit.value * e.soldTokens == e.soldSol)
    && (e.status.Closed? <==> e.boughtTokens == 0.0 || 200.0 * e.remaining <= e.boughtTokens)
    && (e.status.Open? ==> e.closedAt.None? && e.holdSeconds.None? && e.roi.None?)
    && (e.status.Closed? ==>
          && e.closedAt == Some(e.lastTradeAt) && e.holdSeconds == Some(e.lastTradeAt - e.openedAt)
          && (e.roi.Some? <==> e.boughtTokens > 0.0 && e.boughtSol > 0.0)
          && (e.roi.Some? ==> e.roi.value * e.boughtSol == e.realizedPnl))
  }

  lemma PriceTimes(sol: real, tokens: real)
    requires tokens != 0.0
    ensures PriceOf(sol, tokens).Some? && PriceOf(sol, tokens).value * tokens == sol
  {
  }

  lemma FoldMeasured(e: Episode, h: seq<Fill>, f: Fill)
    requires EpisodeOk(e) && e.status.Open? && Measured(e, h)
    requires FillOk(f) && f.wallet == e.wallet && f.token == e.token
    ensures Measured(Fold(e, f), h + [f])
  {
    hide PriceOf;
    assert (h + [f])[..|h|] == h;
    FoldTotals(e, f, e.wallet, e.token);
    PriceTimes(e.boughtSol + f.sol, e.boughtTokens + f.tokens);
    PriceTimes(e.soldSol + f.sol, e.soldTokens + f.tokens);
  }

  lemma BlankMeasured(f: Fill)
    requires FillOk(f)
    ensures Measured(Fold(Blank(f), f), [f])
  {
    hide PriceOf;
    FoldTotals(Blank(f), f, f.wallet, f.token);
    assert TradeTotals([f][..0], f.wallet, f.token) == ZERO;
    assert TradeTotals([f], f.wallet, f.token) == FillTotals(f, f.wallet, f.token);
    PriceTimes(f.sol, f.tokens);
  }

  /** Every row of every reachable table shows what its fills were. */
  lemma {:induction false} EpisodesAreMeasured(fills: seq<Fill>)
    requires AllOk(fills)
    ensures forall i :: 0 <= i < |PostAll(fills)| ==> Measured(PostAll(fills)[i], Histories(fills)[i])
  {
    hide Measured, Fold;
    if fills != [] {
      var n := |fills| - 1;
      var t, h, f := PostAll(fills[..n]), Histories(fills[..n]), fills[n];
      EpisodesAreMeasured(fills[..n]);
      LedgerIsSound(fills[..n]);
      var i := OpenIndex(t, f.wallet, f.token);
      if i >= 0 {
        FoldMeasured(t[i], h[i], f);
      } else {
        BlankMeasured(f);
      }
    }
  }

  /** The sums so far, and the average price of what was bought. */
  ghost predicate Summed(e: Episode, sums: Totals, wallet: string, token: string) {
    && e.wallet == wallet && e.token == token
    && EpisodeTotals(e, wallet, token) == sums
    && (e.boughtTokens > 0.0 ==> e.avgEntry == PriceOf(e.boughtSol, e.boughtTokens))
  }

  lemma FoldSummed(p: Episode, sums: Totals, f: Fill)
    requires Summed(p, sums, f.wallet, f.token) && FillOk(f)
    ensures Summed(Fold(p, f), Plus(sums, FillTotals(f, f.wallet, f.token)), f.wallet, f.token)
  {
    hide PriceOf, Cost;
  }

  lemma {:induction false} ReplaySums(h: seq<Fill>, wallet: string, token: string)
    requires h != []
    requires forall k :: 0 <= k < |h| ==> FillOk(h[k]) && h[k].wallet == wallet && h[k].token == token
    ensures Summed(Replay(h), TradeTotals(h, wallet, token), wallet, token)
  {
    hide Summed, Fold, FillTotals, Plus;
    var n := |h| - 1;
    if n == 0 {
      BlankSums(h[0]);
      FoldSummed(Blank(h[0]), ZERO, h[0]);
      assert h[..0] == [];
    } else {
      ReplaySums(h[..n], wallet, token);
      FoldSummed(Replay(h[..n]), TradeTotals(h[..n], wallet, token), h[n]);
    }
  }

  lemma BlankSums(f: Fill)
    ensures Summed(Blank(f), ZERO, f.wallet, f.token)
  {
  }

  lemma {:induction false} BoughtFirst(h: seq<Fill>, wallet: string, token: string)
    requires h != [] && h[0].buy
    requires forall k :: 0 <= k < |h| ==> FillOk(h[k]) && h[k].wallet == wallet && h[k].token == token
    ensures TradeTotals(h, wallet, token).tokensIn > 0.0
  {
    var n := |h| - 1;
    if n == 0 {
      assert TradeTotals(h[..0], wallet, token) == ZERO;
    } else {
      BoughtFirst(h[..n], wallet, token);
    }
  }

  /** What one trade books: nothing for a buy, and for a sale its SOL less `x`, its tokens at the
      average price of everything bought before it. */
  lemma BooksAverageCost(p: Episode, sums: Totals, f: Fill)
    requires Summed(p, sums, f.wallet, f.token) && sums.tokensIn > 0.0
    ensures var booked := Fold(p, f).realizedPnl - p.realizedPnl;
      && (f.buy ==> booked == 0.0)
      && (!f.buy ==> (f.sol - booked) * sums.tokensIn == f.tokens * sums.solIn)
  {
    hide PriceOf, Cost;
    PriceTimes(p.boughtSol, p.boughtTokens);
    ShareOf(EntryPrice(p), p.boughtTokens, f.tokens);
    assert !f.buy ==> f.sol - (Fold(p, f).realizedPnl - p.realizedPnl) == Cost(EntryPrice(p), f.tokens);
  }

  /** Sale by sale: a buy books no result, and a sale books its SOL less its tokens at the average price
      of everything its episode bought before it. */
  lemma {:induction false} SaleBooksAverageCost(h: seq<Fill>, wallet: string, token: string)
    requires |h| > 1 && h[0].buy
    requires forall k :: 0 <= k < |h| ==> FillOk(h[k]) && h[k].wallet == wallet && h[k].token == token
    ensures var n := |h| - 1;
      var booked, before := Replay(h).realizedPnl - Replay(h[..n]).realizedPnl, TradeTotals(h[..n], wallet, token);
      && before.tokensIn > 0.0
      && (h[n].buy ==> booked == 0.0)
      && (!h[n].buy ==> (h[n].sol - booked) * before.tokensIn == h[n].tokens * before.solIn)
  {
    hide Fold, Summed, FillTotals, Plus;
    var n := |h| - 1;
    ReplaySums(h[..n], wallet, token);
    BoughtFirst(h[..n], wallet, token);
    BooksAverageCost(Replay(h[..n]), TradeTotals(h[..n], wallet, token), h[n]);
  }

  lemma ShareOf(price: real, held: real, tokens: real)
    ensures Cost(price, tokens) * held == tokens * (price * held)
  {
  }

  lemma CountLast(fills: seq<Fill>, f: Fill)
    requires fills != []
    ensures multiset(fills)[f] == multiset(fills[..|fills| - 1])[f] + (if f == fills[|fills| - 1] then 1 else 0)
  {
    assert fills == fills[..|fills| - 1] + [fills[|fills| - 1]];
  }

  /** The histories account for every trade: together they hold each fill of a pair exactly once. */
  lemma {:induction false} HistoriesPartition(fills: seq<Fill>, f: Fill)
    ensures CountAll(Histories(fills), f) == multiset(fills)[f]
  {
    if fills != [] {
      var n := |fills| - 1;
      var h, g := Histories(fills[..n]), fills[n];
      HistoriesPartition(fills[..n], f);
      CountLast(fills, f);
      var i := OpenIndex(PostAll(fills[..n]), g.wallet, g.token);
      if i >= 0 {
        CountUpdate(h, i, g, f);
      } else {
        CountOfOneMore(h, [g], f);
      }
    }
  }

  lemma CountOfOneMore(h: seq<seq<Fill>>, x: seq<Fill>, f: Fill)
    ensures CountAll(h + [x], f) == CountAll(h, f) + multiset(x)[f]
  {
    assert (h + [x])[..|h|] == h;
  }

  function CountAll(h: seq<seq<Fill>>, f: Fill): nat {
    if h == [] then 0 else CountAll(h[..|h| - 1], f) + multiset(h[|h| - 1])[f]
  }

  lemma {:induction false} CountUpdate(h: seq<seq<Fill>>, i: nat, g: Fill, f: Fill)
    requires i < |h|
    ensures CountAll(h[i := h[i] + [g]], f) == CountAll(h, f) + (if f == g then 1 else 0)
  {
    var n := |h| - 1;
    if i == n {
      assert h[i := h[i] + [g]][..n] == h[..n];
    } else {
      CountUpdate(h[..n], i, g, f);
      assert h[i := h[i] + [g]][..n] == h[..n][i := h[i] + [g]];
    }
  }
}
