/** The ingestion pipeline end to end: what the parsers infer is what the writer stores, and what the
    delivery protocol writes, however often, is in the tables once. */
module Pipeline {
  import opened Options
  import opened Sorting
  import Delivery
  import Ledger
  import Swaps
  import Writer

  // --- from parsed legs to stored events -----------------------------------

  function MintText(m: Swaps.Mint): string {
    match m
    case Wsol => Writer.WSOL_MINT
    case Usdc => Writer.USDC_MINT
    case Usdt => Writer.USDT_MINT
    case Token(address) => address
  }

  /** The event of a leg, as a venue's parser attributes it. */
  function EventOf(leg: Swaps.Leg, index: nat, dex: string, pool: string): Writer.Event {
    Writer.Event(index, leg.wallet, dex, leg.side.Buy?, leg.token, MintText(leg.quote),
                 leg.tokenAmount, leg.quoteAmount, leg.price, pool)
  }

  function EventsOf(legs: seq<Swaps.Leg>, dex: string, pool: string): seq<Writer.Event> {
    seq(|legs|, i requires 0 <= i < |legs| => EventOf(legs[i], i, dex, pool))
  }

  /** A transaction as fetched, with the venue that matches it and the pool that venue identifies. */
  datatype Fetched = Fetched(
    signature: string, slot: int, blockTime: Option<int>, createLog: bool, swaps: Swaps.Transaction,
    dex: string, pool: string)

  /** What the writer is given: the events inferred for the fee payer, numbered. */
  ghost function Parsed(f: Fetched, stables: seq<Swaps.Mint>): Writer.Tx {
    var payer := Swaps.FeePayer(f.swaps);
    Writer.Tx(f.signature, f.slot, f.blockTime, payer, f.swaps.success, f.createLog,
              EventsOf(Swaps.Infer(f.swaps, payer, stables), f.dex, f.pool))
  }

  /** Inferred events are valid: some tokens moved, the quote is positive, and the indices, hence the
      trade keys, are distinct. */
  lemma ParsedEventsAreValid(f: Fetched, stables: seq<Swaps.Mint>)
    requires Swaps.StableOrder(stables)
    ensures var events := Parsed(f, stables).events;
      && Writer.EventsOk(events)
      && (forall i :: 0 <= i < |events| ==> events[i].index == i && events[i].quote > 0.0)
  {
    var payer := Swaps.FeePayer(f.swaps);
    var legs := Swaps.Infer(f.swaps, payer, stables);
    Swaps.LegsReportNetChanges(f.swaps, payer, stables);
    forall i | 0 <= i < |legs| ensures legs[i].tokenAmount > 0.0 && legs[i].quoteAmount > 0.0 {
      assert legs[i] in legs;
    }
  }

  /** The event is a trade of the fee payer, a buy exactly when its balance of the token rose, for the amount
      by which it changed; its quote is the opposite flow of the mint it names, and its price times the tokens
      is the quote. */
  ghost predicate ReportsBalances(f: Fetched, e: Writer.Event) {
    var payer := Swaps.FeePayer(f.swaps);
    var net := Swaps.Net(f.swaps, (payer, Swaps.Token(e.token)));
    && e.wallet == payer && e.dex == f.dex && e.pool == f.pool
    && net != 0.0 && (e.buy <==> net > 0.0) && e.tokens == (if net > 0.0 then net else -net)
    && e.quote > 0.0 && e.price.Some? && IsPriceOf(e.price.value, e.tokens, e.quote)
    && exists m :: Swaps.QuoteMatches(f.swaps, payer, net, m, e.quote) && Names(e.quoteMint, m)
  }

  /** From balances to events: every stored event reports them. */
  lemma {:induction false} StoredEventsReportBalances(f: Fetched, stables: seq<Swaps.Mint>)
    requires Swaps.StableOrder(stables)
    ensures forall e :: e in Parsed(f, stables).events ==> ReportsBalances(f, e)
  {
    var payer := Swaps.FeePayer(f.swaps);
    var legs, events := Swaps.Infer(f.swaps, payer, stables), Parsed(f, stables).events;
    Swaps.LegsReportNetChanges(f.swaps, payer, stables);
    hide Swaps.Infer, Swaps.FeePayer, Swaps.Reports, ReportsBalances;
    forall e | e in events ensures ReportsBalances(f, e) {
      var i :| 0 <= i < |events| && events[i] == e;
      assert legs[i] in legs;
      LegReportsBalances(f, legs[i], i);
    }
  }

  lemma LegReportsBalances(f: Fetched, leg: Swaps.Leg, i: nat)
    requires Swaps.Reports(f.swaps, Swaps.FeePayer(f.swaps), leg)
    ensures ReportsBalances(f, EventOf(leg, i, f.dex, f.pool))
  {
    hide Swaps.Net, Swaps.FeePayer, Swaps.QuoteMatches;
    RatioIsPrice(leg.quoteAmount, leg.tokenAmount);
    hide IsPriceOf, Swaps.Ratio;
    assert Names(MintText(leg.quote), leg.quote);
  }

  /** The address of a quote mint. */
  predicate Names(text: string, m: Swaps.Mint) {
    && (m == Swaps.Wsol ==> text == "So11111111111111111111111111111111111111112")
    && (m == Swaps.Usdc ==> text == "EPjFWdd5AufqSSqeM2qN1xzybapC8G4wEGGkZwyTDt1v")
    && (m == Swaps.Usdt ==> text == "Es9vMFrzaCERmJfrF4H2FYD4KCoNkY11McCe8BenwNYB")
    && (m.Token? ==> text == m.address)
  }

  lemma OneLeg(f: Fetched, stables: seq<Swaps.Mint>)
    requires |Swaps.Infer(f.swaps, Swaps.FeePayer(f.swaps), stables)| == 1
    ensures Parsed(f, stables).events == [EventOf(Swaps.Infer(f.swaps, Swaps.FeePayer(f.swaps), stables)[0], 0, f.dex, f.pool)]
  {
    hide Swaps.Infer, Swaps.FeePayer, EventOf;
  }

  predicate IsPriceOf(price: real, tokens: real, quote: real) { price * tokens == quote }

  lemma RatioIsPrice(quote: real, tokens: real)
    requires tokens != 0.0
    ensures IsPriceOf(Swaps.Ratio(quote, tokens), tokens, quote)
  {
  }

  /** From lamports to the ledger: when a payer in one account slot pays or receives at least 500,000
      lamports beyond fee and tips for a single token, and moves no wrapped SOL, storing the transaction for
      the first time moves the totals of that pair by exactly the token change and those lamports: bought for
      them when they were paid, sold for them when they were received. */
  lemma {:induction false} NativeTradeReachesTheLedger(
    f: Fetched, stables: seq<Swaps.Mint>, i: nat, flow: int, t: string, db: Writer.Db, clock: int, price: Option<real>)
    returns (sol: real)
    requires Swaps.StableOrder(stables) && (flow >= 500_000 || flow <= -500_000)
    requires var (tx, keys) := (f.swaps, Swaps.Keys(f.swaps));
      && tx.success && i < |keys| && i < |tx.preLamports| && i < |tx.postLamports|
      && keys[i] == Swaps.FeePayer(tx) && (forall j :: 0 <= j < |keys| && j != i ==> keys[j] != Swaps.FeePayer(tx))
      && tx.postLamports[i] - tx.preLamports[i] == flow - tx.fee - Swaps.TipsPaid(keys, tx.preLamports, tx.postLamports)
    requires var (tx, payer) := (f.swaps, Swaps.FeePayer(f.swaps));
      && Swaps.Changed(tx, payer, {t}) && Swaps.Net(tx, (payer, Swaps.Wsol)) == 0.0
      && (Swaps.Net(tx, (payer, Swaps.Token(t))) > 0.0) == (flow < 0)
    requires Writer.TradeKey(f.signature, 0, if f.blockTime.Some? then f.blockTime.value else clock) !in db.trades
    ensures sol * 1_000_000_000.0 == (if flow > 0 then flow else -flow) as real
    ensures var (tx, payer) := (f.swaps, Swaps.FeePayer(f.swaps));
      var net := Swaps.Net(tx, (payer, Swaps.Token(t)));
      Ledger.TableTotals(Writer.Persist(db, Parsed(f, stables), clock, price).0.positions, payer, t)
        == Ledger.Plus(Ledger.TableTotals(db.positions, payer, t),
                       if flow < 0 then Ledger.Totals(net, 0.0, sol, 0.0) else Ledger.Totals(0.0, -net, 0.0, sol))
  {
    var payer := Swaps.FeePayer(f.swaps);
    Swaps.NativeTradeIsFound(f.swaps, payer, stables, i, flow, t);
    var legs, tx := Swaps.Infer(f.swaps, payer, stables), Parsed(f, stables);
    sol := legs[0].quoteAmount;
    OneLeg(f, stables);
    hide Swaps.Infer, Swaps.FeePayer, Swaps.Net, Swaps.Keys, Swaps.TipsPaid, Swaps.Changed, Swaps.StableOrder;
    hide EventsOf, Writer.Persist, Ledger.TableTotals, Ledger.Plus;
    Writer.OneNewSwap(db, tx, clock, price);
  }

  // --- from delivered messages to table rows -------------------------------

  /** The signature is that of some commit. */
  ghost predicate IsCommitted(commits: seq<Delivery.Commit>, s: string) {
    exists i :: 0 <= i < |commits| && commits[i].signature == s
  }

  /** The persisted signatures are those of some commit. */
  lemma {:induction false} PersistedIsCommitted(max: int, steps: seq<Delivery.Step>, s: string)
    ensures s in Delivery.RunFrom(max, Delivery.INITIAL, steps).persisted
      <==> IsCommitted(Delivery.Commits(max, Delivery.INITIAL, steps), s)
  {
    if steps != [] {
      var n := |steps| - 1;
      var d := Delivery.RunFrom(max, Delivery.INITIAL, steps[..n]);
      PersistedIsCommitted(max, steps[..n], s);
      CommittedByEither(Delivery.Commits(max, Delivery.INITIAL, steps[..n]), Delivery.CommitOf(d, steps[n]), s);
      PersistedByStep(max, d, steps[n], s);
    }
  }

  lemma CommittedByEither(a: seq<Delivery.Commit>, b: seq<Delivery.Commit>, s: string)
    ensures IsCommitted(a + b, s) <==> IsCommitted(a, s) || IsCommitted(b, s)
  {
    if i :| 0 <= i < |a| && a[i].signature == s { assert (a + b)[i].signature == s; }
    if i :| 0 <= i < |b| && b[i].signature == s { assert (a + b)[|a| + i].signature == s; }
  }

  lemma PersistedByStep(max: int, d: Delivery.State, step: Delivery.Step, s: string)
    ensures s in Delivery.Next(max, d, step).persisted
      <==> s in d.persisted || IsCommitted(Delivery.CommitOf(d, step), s)
  {
    var commit := Delivery.CommitOf(d, step);
    if commit != [] && commit[0].signature == s { assert IsCommitted(commit, s); }
  }

  function Indices(events: seq<Writer.Event>): seq<nat> {
    seq(|events|, i requires 0 <= i < |events| => events[i].index)
  }

  /** The events that delivery number i of the feed reports as new. */
  function Reported(feed: seq<Writer.Delivery>, i: nat): seq<Writer.Event>
    requires i < |feed|
  {
    Writer.Persist(Writer.Feed(Writer.EMPTY, feed[..i]).0, feed[i].tx, feed[i].clock, feed[i].solPrice).1
  }

  /** The feed of a run: each commit persists the transaction its signature fetches, at its own moment
      and SOL price, and has the new trades of that transaction to announce. */
  ghost predicate FeedsRun(feed: seq<Writer.Delivery>, commits: seq<Delivery.Commit>, fetch: string -> Writer.Tx) {
    && |feed| == |commits|
    && forall i :: 0 <= i < |feed| ==>
         feed[i].tx == fetch(commits[i].signature) && commits[i].news == Indices(Reported(feed, i))
  }

  /** Every transaction on chain carries its block time. */
  ghost predicate AllTimed(fetch: string -> Writer.Tx) {
    forall s :: fetch(s).blockTime.Some?
  }

  /** At-least-once delivery ends as exactly-once storage.  For every run of listener, writers and
      crashes: the tables and the reported events are those of the first write of each transaction, and
      everything a persisted signature's transaction could write is there. */
  lemma {:induction false} DeliveredOnceInTheTables(
    max: int, steps: seq<Delivery.Step>, fetch: string -> Writer.Tx, feed: seq<Writer.Delivery>)
    requires AllTimed(fetch) && FeedsRun(feed, Delivery.Commits(max, Delivery.INITIAL, steps), fetch)
    ensures Writer.Feed(Writer.EMPTY, feed) == Writer.Feed(Writer.EMPTY, Writer.FirstOccurrences(feed))
    ensures forall s :: s in Delivery.RunFrom(max, Delivery.INITIAL, steps).persisted ==> InTables(feed, fetch(s))
  {
    forall i | 0 <= i < |feed| ensures feed[i].tx.blockTime.Some? {
      assert feed[i].tx == fetch(Delivery.Commits(max, Delivery.INITIAL, steps)[i].signature);
    }
    Writer.ReplayIsIdempotent(Writer.EMPTY, feed);
    forall s | s in Delivery.RunFrom(max, Delivery.INITIAL, steps).persisted ensures InTables(feed, fetch(s)) {
      PersistedIsCommitted(max, steps, s);
      var commits := Delivery.Commits(max, Delivery.INITIAL, steps);
      var i :| 0 <= i < |commits| && commits[i].signature == s;
      Writer.DeliveredIsAbsorbed(Writer.EMPTY, feed, i);
    }
  }

  /** Everything the transaction could write is in the tables after the feed. */
  ghost predicate InTables(feed: seq<Writer.Delivery>, tx: Writer.Tx) {
    tx.blockTime.Some? && Writer.Absorbed(Writer.Feed(Writer.EMPTY, feed).0, tx, tx.blockTime.value)
  }

  /** Nothing is lost on the way to the tables: of every signature ever put on a stream, the
      transaction is in the tables, or it was dropped at the last attempt, or an entry of it is still
      un-acknowledged. */
  lemma {:induction false} StreamedIsStored(
    max: int, steps: seq<Delivery.Step>, fetch: string -> Writer.Tx, feed: seq<Writer.Delivery>, id: nat)
    requires AllTimed(fetch) && FeedsRun(feed, Delivery.Commits(max, Delivery.INITIAL, steps), fetch)
    requires id < |Delivery.RunFrom(max, Delivery.INITIAL, steps).entries|
    ensures var d := Delivery.RunFrom(max, Delivery.INITIAL, steps);
      var s := d.entries[id].signature;
      InTables(feed, fetch(s)) || s in d.dropped || exists k :: Delivery.Unacked(d, k, s)
  {
    Delivery.NothingIsLost(max, steps, id);
    DeliveredOnceInTheTables(max, steps, fetch, feed);
  }

  /** The writer's transaction holds what the parsers infer from some fetched transaction. */
  ghost predicate Inferred(tx: Writer.Tx, stables: seq<Swaps.Mint>) {
    exists f :: tx == Parsed(f, stables)
  }

  lemma InferredIsValid(tx: Writer.Tx, stables: seq<Swaps.Mint>)
    requires Swaps.StableOrder(stables) && Inferred(tx, stables)
    ensures Writer.EventsOk(tx.events)
  {
    var f :| tx == Parsed(f, stables);
    ParsedEventsAreValid(f, stables);
  }

  lemma InferredFeedIsOk(feed: seq<Writer.Delivery>, stables: seq<Swaps.Mint>)
    requires Swaps.StableOrder(stables)
    requires forall i :: 0 <= i < |feed| ==> Inferred(feed[i].tx, stables)
    ensures Writer.FeedOk(feed)
  {
    hide Inferred;
    forall i | 0 <= i < |feed| ensures Writer.EventsOk(feed[i].tx.events) {
      InferredIsValid(feed[i].tx, stables);
    }
  }

  /** What the parsers infer and the protocol delivers keeps the positions table sound. */
  lemma {:induction false} InferredLedgerIsSound(feed: seq<Writer.Delivery>, stables: seq<Swaps.Mint>)
    requires Swaps.StableOrder(stables)
    requires forall i :: 0 <= i < |feed| ==> Inferred(feed[i].tx, stables)
    ensures Ledger.TableOk(Writer.Feed(Writer.EMPTY, feed).0.positions)
  {
    hide Inferred, Writer.Feed, Ledger.TableOk;
    InferredFeedIsOk(feed, stables);
    Writer.DeliveredLedgerIsSound(feed);
  }

  // --- the order of the ledger ----------------------------------------------

  /** The messages of a batch are those of their entries, with the slots of what they fetch. */
  ghost predicate FetchedFrom(d: Delivery.State, batch: seq<Delivery.Fetched>, fetch: string -> Writer.Tx) {
    && Delivery.DistinctIds(batch)
    && forall x :: x in batch ==>
         && x.id < |d.entries| && d.entries[x.id].signature == x.signature && x.slot == fetch(x.signature).slot
  }

  /** One round of the consumer loop feeds its transactions to the tables, and so its fills to the ledger,
      in ascending slot order, signatures breaking ties. */
  lemma BatchIsFedInSlotOrder(
    max: int, steps: seq<Delivery.Step>, batch: seq<Delivery.Fetched>, fetch: string -> Writer.Tx,
    feed: seq<Writer.Delivery>, a: nat, b: nat)
    requires FetchedFrom(Delivery.RunFrom(max, Delivery.INITIAL, steps), batch, fetch)
    requires FeedsRun(feed, Delivery.Commits(max, Delivery.INITIAL, steps + Delivery.BatchSteps(batch)), fetch)
    requires |Delivery.Commits(max, Delivery.INITIAL, steps)| <= a < b < |feed|
    ensures var commits := Delivery.Commits(max, Delivery.INITIAL, steps + Delivery.BatchSteps(batch));
      || feed[a].tx.slot < feed[b].tx.slot
      || (feed[a].tx.slot == feed[b].tx.slot && TextLe(commits[a].signature, commits[b].signature))
  {
    var more := Delivery.BatchSteps(batch);
    var p, q := Delivery.CommitsFollowWrites(max, steps, more, a, b);
    var x := CommittedMessage(max, steps, batch, fetch, a, p);
    var y := CommittedMessage(max, steps, batch, fetch, b, q);
    Delivery.WritesGoUpInSlots(batch, p, q, x, y);
    hide Delivery.BatchSteps, Delivery.Commits, Delivery.RunFrom;
  }

  /** The message behind a commit of the batch. */
  lemma CommittedMessage(
    max: int, steps: seq<Delivery.Step>, batch: seq<Delivery.Fetched>, fetch: string -> Writer.Tx, a: nat, p: nat)
    returns (x: Delivery.Fetched)
    requires FetchedFrom(Delivery.RunFrom(max, Delivery.INITIAL, steps), batch, fetch)
    requires a < |Delivery.Commits(max, Delivery.INITIAL, steps + Delivery.BatchSteps(batch))|
    requires p < |Delivery.BatchSteps(batch)| && Delivery.BatchSteps(batch)[p].Write?
    requires Delivery.BatchSteps(batch)[p].id == Delivery.Commits(max, Delivery.INITIAL, steps + Delivery.BatchSteps(batch))[a].id
    ensures x in batch && x.id == Delivery.BatchSteps(batch)[p].id
    ensures Delivery.Commits(max, Delivery.INITIAL, steps + Delivery.BatchSteps(batch))[a].signature == x.signature
  {
    var ordered := Sort(Delivery.SlotOrder, batch);
    var more := Delivery.BatchSteps(batch);
    Delivery.WriteIsStored(batch, p);
    Delivery.SortDistinct(batch);
    var d := Delivery.RunFrom(max, Delivery.INITIAL, steps);
    hide Delivery.BatchSteps, Delivery.Commits, Delivery.RunFrom, Delivery.WriteSteps, Sort;
    var i := Delivery.WriteIsOfBatch(ordered, p);
    x := ordered[i];
    Delivery.RunSplits(max, Delivery.INITIAL, steps, more);
    Delivery.EntriesStay(max, d, more);
    EntryOfCommit(max, steps + more, a);
    assert Delivery.RunFrom(max, Delivery.INITIAL, steps + more).entries[x.id] == d.entries[x.id];
  }

  /** A commit carries the signature of its entry. */
  lemma EntryOfCommit(max: int, steps: seq<Delivery.Step>, a: nat)
    requires a < |Delivery.Commits(max, Delivery.INITIAL, steps)|
    ensures var c, e := Delivery.Commits(max, Delivery.INITIAL, steps)[a], Delivery.RunFrom(max, Delivery.INITIAL, steps);
      c.id < |e.entries| && e.entries[c.id].signature == c.signature
  {
    Delivery.CommitsInOrder(max, steps);
    var c := Delivery.Commits(max, Delivery.INITIAL, steps)[a];
    hide Delivery.Commits, Delivery.RunFrom, Delivery.WrittenFits;
    assert Delivery.CommitOk(
      Delivery.RunFrom(max, Delivery.INITIAL, steps), c, Delivery.Published(max, Delivery.INITIAL, steps, c.id));
  }

  // --- what is announced ----------------------------------------------------

  /** No earlier commit of the run has the same signature. */
  ghost predicate FirstCommit(commits: seq<Delivery.Commit>, j: int) {
    0 <= j < |commits| && forall i :: 0 <= i < j ==> commits[i].signature != commits[j].signature
  }

  /** Only the first commit of a transaction has anything to announce, and each trade once. */
  lemma OnlyFirstsReport(feed: seq<Writer.Delivery>, commits: seq<Delivery.Commit>, fetch: string -> Writer.Tx, j: nat)
    requires AllTimed(fetch) && FeedsRun(feed, commits, fetch) && j < |commits|
    ensures commits[j].news != [] ==> FirstCommit(commits, j)
    ensures forall a, b :: 0 <= a < b < |commits[j].news| ==> commits[j].news[a] != commits[j].news[b]
  {
    var db := Writer.Feed(Writer.EMPTY, feed[..j]).0;
    var x := feed[j];
    Writer.ReportedAreDistinct(db, x.tx, x.clock, x.solPrice);
    hide Writer.Persist, Writer.Feed, Writer.Absorbed;
    if i :| 0 <= i < j && commits[i].signature == commits[j].signature {
      assert feed[..j][i].tx == x.tx;
      Writer.DeliveredIsAbsorbed(Writer.EMPTY, feed[..j], i);
      Writer.AbsorbedIsNoop(db, x.tx, x.clock, x.solPrice);
      assert Reported(feed, j) == [];
    }
  }

  /** A trade is announced if and only if the entry of the first commit of its transaction gets to publish
      it: a trade that commit reports as its k-th needs more than k announcements of its entry. */
  lemma TradeIsAnnouncedExactly(
    max: int, steps: seq<Delivery.Step>, fetch: string -> Writer.Tx, feed: seq<Writer.Delivery>, t: Delivery.Trade)
    requires AllTimed(fetch) && FeedsRun(feed, Delivery.Commits(max, Delivery.INITIAL, steps), fetch)
    ensures t in Delivery.RunFrom(max, Delivery.INITIAL, steps).announced
      <==> exists j, k ::
        FirstCommit(Delivery.Commits(max, Delivery.INITIAL, steps), j) && Delivery.AnnouncedFor(max, steps, j, k, t)
  {
    Delivery.AnnouncedExactly(max, steps, t);
    var commits := Delivery.Commits(max, Delivery.INITIAL, steps);
    if j, k :| Delivery.AnnouncedFor(max, steps, j, k, t) {
      OnlyFirstsReport(feed, commits, fetch, j);
      assert FirstCommit(commits, j) && Delivery.AnnouncedFor(max, steps, j, k, t);
    }
  }

  /** The same for one reported trade. */
  lemma ReportedIsAnnouncedExactly(
    max: int, steps: seq<Delivery.Step>, fetch: string -> Writer.Tx, feed: seq<Writer.Delivery>, j: nat, k: nat)
    requires AllTimed(fetch) && FeedsRun(feed, Delivery.Commits(max, Delivery.INITIAL, steps), fetch)
    requires var commits := Delivery.Commits(max, Delivery.INITIAL, steps); j < |commits| && k < |commits[j].news|
    ensures var c := Delivery.Commits(max, Delivery.INITIAL, steps)[j];
      var t := Delivery.Trade(c.signature, c.news[k]);
      var published := Delivery.Published(max, Delivery.INITIAL, steps, c.id);
      t in Delivery.RunFrom(max, Delivery.INITIAL, steps).announced <==> k < published
  {
    var commits := Delivery.Commits(max, Delivery.INITIAL, steps);
    var c := commits[j];
    var t := Delivery.Trade(c.signature, c.news[k]);
    OnlyFirstsReport(feed, commits, fetch, j);
    TradeIsAnnouncedExactly(max, steps, fetch, feed, t);
    if k < Delivery.Published(max, Delivery.INITIAL, steps, c.id) {
      assert FirstCommit(commits, j) && Delivery.AnnouncedFor(max, steps, j, k, t);
    }
    if j', k' :| FirstCommit(commits, j') && Delivery.AnnouncedFor(max, steps, j', k', t) {
      assert j' == j && k' == k;
    }
  }

  /** Some continuation of the run, with whatever it fetches, announces the trade. */
  ghost predicate CanBeAnnounced(max: int, steps: seq<Delivery.Step>, fetch: string -> Writer.Tx, t: Delivery.Trade) {
    exists more, feed :: AnnouncesLater(max, steps, more, fetch, feed, t)
  }

  ghost predicate AnnouncesLater(
    max: int, steps: seq<Delivery.Step>, more: seq<Delivery.Step>, fetch: string -> Writer.Tx,
    feed: seq<Writer.Delivery>, t: Delivery.Trade)
  {
    && FeedsRun(feed, Delivery.Commits(max, Delivery.INITIAL, steps + more), fetch)
    && t in Delivery.RunFrom(max, Delivery.INITIAL, steps + more).announced
  }

  /** A reported trade can still be announced if and only if it was, or the entry of its commit is still
      written and not acknowledged, failed or dead: afterwards every retry reports nothing new. */
  lemma CanBeAnnouncedExactly(
    max: int, steps: seq<Delivery.Step>, fetch: string -> Writer.Tx, feed: seq<Writer.Delivery>, j: nat, k: nat)
    requires AllTimed(fetch) && FeedsRun(feed, Delivery.Commits(max, Delivery.INITIAL, steps), fetch)
    requires var commits := Delivery.Commits(max, Delivery.INITIAL, steps); j < |commits| && k < |commits[j].news|
    ensures var c := Delivery.Commits(max, Delivery.INITIAL, steps)[j];
      var d := Delivery.RunFrom(max, Delivery.INITIAL, steps);
      var t := Delivery.Trade(c.signature, c.news[k]);
      && c.id < |d.stages|
      && (CanBeAnnounced(max, steps, fetch, t) <==> t in d.announced || d.stages[c.id].Written?)
  {
    var commits := Delivery.Commits(max, Delivery.INITIAL, steps);
    var c := commits[j];
    var t := Delivery.Trade(c.signature, c.news[k]);
    var d := Delivery.RunFrom(max, Delivery.INITIAL, steps);
    Delivery.AnnounceableExactly(max, steps, j, k);
    ReportedIsAnnouncedExactly(max, steps, fetch, feed, j, k);
    if more, feed' :| AnnouncesLater(max, steps, more, fetch, feed', t) {
      Delivery.CommitsGrow(max, steps, more);
      ReportedIsAnnouncedExactly(max, steps + more, fetch, feed', j, k);
    }
    if t in d.announced {
      assert steps + [] == steps;
      assert AnnouncesLater(max, steps, [], fetch, feed, t);
    } else if d.stages[c.id].Written? {
      PublishesTheRest(max, steps, fetch, feed, j, k);
    }
  }

  lemma PublishesTheRest(
    max: int, steps: seq<Delivery.Step>, fetch: string -> Writer.Tx, feed: seq<Writer.Delivery>, j: nat, k: nat)
    requires AllTimed(fetch) && FeedsRun(feed, Delivery.Commits(max, Delivery.INITIAL, steps), fetch)
    requires var commits := Delivery.Commits(max, Delivery.INITIAL, steps); j < |commits| && k < |commits[j].news|
    requires var d := Delivery.RunFrom(max, Delivery.INITIAL, steps);
      var c := Delivery.Commits(max, Delivery.INITIAL, steps)[j];
      c.id < |d.stages| && d.stages[c.id].Written?
    ensures var c := Delivery.Commits(max, Delivery.INITIAL, steps)[j];
      CanBeAnnounced(max, steps, fetch, Delivery.Trade(c.signature, c.news[k]))
  {
    var c := Delivery.Commits(max, Delivery.INITIAL, steps)[j];
    var d := Delivery.RunFrom(max, Delivery.INITIAL, steps);
    var published := Delivery.Published(max, Delivery.INITIAL, steps, c.id);
    Delivery.CommitsInOrder(max, steps);
    assert Delivery.CommitOk(d, c, published);
    var rest: nat := |c.news| - published;
    var more := Delivery.Publishes(c.id, rest);
    assert |d.stages[c.id].left| == rest;
    hide Delivery.RunFrom, Delivery.Commits, Delivery.Published, Delivery.CommitsOk, FeedsRun;
    Delivery.PublishedRun(max, steps, c.id, rest);
    Delivery.CommitsGrow(max, steps, more);
    ReportedIsAnnouncedExactly(max, steps + more, fetch, feed, j, k);
    assert AnnouncesLater(max, steps, more, fetch, feed, Delivery.Trade(c.signature, c.news[k]));
  }

  /** A concrete loss, for any transaction with one trade.  Its announcement fails after the commit, the
      entry is requeued, and the retry finds the trade row: everything is stored and acknowledged, and
      the trade is never announced.  A death between commit and announcement loses it as well. */
  lemma AnnouncementCanBeLost(tx: Writer.Tx, clock: int, price: Option<real>, later: int, laterPrice: Option<real>)
    requires tx.blockTime.Some? && tx.success && |tx.events| == 1
    ensures var steps := Delivery.RetriedSteps(tx.events[0].index, tx.signature);
      var d := Delivery.RunFrom(3, Delivery.INITIAL, steps);
      && FeedsRun([Writer.Delivery(tx, clock, price), Writer.Delivery(tx, later, laterPrice)],
                  Delivery.Commits(3, Delivery.INITIAL, steps), _ => tx)
      && d.persisted == {tx.signature} && d.announced == {}
      && (forall i :: 0 <= i < |d.stages| ==> d.stages[i].Acked?)
      && !CanBeAnnounced(3, steps, _ => tx, Delivery.Trade(tx.signature, tx.events[0].index))
    ensures var steps := Delivery.CommittedSteps(tx.events[0].index, tx.signature) + [Delivery.Abandon(0)];
      !CanBeAnnounced(3, steps, _ => tx, Delivery.Trade(tx.signature, tx.events[0].index))
  {
    var s, news := tx.signature, tx.events[0].index;
    var fetch := _ => tx;
    var one := [Writer.Delivery(tx, clock, price)];
    var both := [Writer.Delivery(tx, clock, price), Writer.Delivery(tx, later, laterPrice)];
    Delivery.RetriedSilently(s, news);
    Delivery.DiedSilently(s, news);
    OneFeeds(tx, clock, price, later, laterPrice);
    assert AllTimed(fetch);
    hide FeedsRun, CanBeAnnounced, AllTimed, Delivery.RetriedSteps, Delivery.CommittedSteps, Delivery.RunFrom, Delivery.Commits;
    CanBeAnnouncedExactly(3, Delivery.RetriedSteps(news, s), fetch, both, 0, 0);
    CanBeAnnouncedExactly(3, Delivery.CommittedSteps(news, s) + [Delivery.Abandon(0)], fetch, one, 0, 0);
  }

  /** What those two runs commit is what the transaction reports, on the first and on the second try. */
  lemma OneFeeds(tx: Writer.Tx, clock: int, price: Option<real>, later: int, laterPrice: Option<real>)
    requires tx.blockTime.Some? && tx.success && |tx.events| == 1
    ensures var s, news := tx.signature, tx.events[0].index;
      && FeedsRun([Writer.Delivery(tx, clock, price)], [Delivery.Commit(0, s, [news])], _ => tx)
      && FeedsRun([Writer.Delivery(tx, clock, price), Writer.Delivery(tx, later, laterPrice)],
                  [Delivery.Commit(0, s, [news]), Delivery.Commit(1, s, [])], _ => tx)
  {
    var one := [Writer.Delivery(tx, clock, price)];
    var both := [Writer.Delivery(tx, clock, price), Writer.Delivery(tx, later, laterPrice)];
    OneIsReported(tx, clock, price);
    Writer.ReplaySafeExactly(Writer.EMPTY, tx, clock, price);
    assert one[..0] == [] && both[..0] == [] && both[..1] == one;
    assert Writer.ReplaySafe(Writer.EMPTY, tx, clock, price);
    hide Writer.Persist, Writer.ReplaySafe;
    assert Reported(one, 0) == tx.events && Reported(both, 0) == tx.events;
    assert Reported(both, 1) == [];
  }

  /** The first delivery of a transaction with one trade reports it. */
  lemma OneIsReported(tx: Writer.Tx, clock: int, price: Option<real>)
    requires tx.success && |tx.events| == 1
    ensures Writer.Persist(Writer.EMPTY, tx, clock, price).1 == tx.events
  {
    var seen := Writer.SeenAt(tx, clock);
    var d := Writer.Header(Writer.EMPTY, tx, seen);
    assert d.trades == map[];
    hide Writer.WithEvent, Writer.Header;
    assert Writer.WithEvents(d, tx, 0, seen, price) == (d, []);
    assert tx.events == [tx.events[0]];
  }
}
