/** Idempotent persistence of parsed transactions. */
module Writer {
  import opened Numbers
  import opened Options
  import opened Ledger

  const WSOL_MINT := "So11111111111111111111111111111111111111112"
  const USDC_MINT := "EPjFWdd5AufqSSqeM2qN1xzybapC8G4wEGGkZwyTDt1v"
  const USDT_MINT := "Es9vMFrzaCERmJfrF4H2FYD4KCoNkY11McCe8BenwNYB"

  predicate IsStable(mint: string) { mint == USDC_MINT || mint == USDT_MINT }

  /** A parsed swap.  Its block time is the transaction's and is supplied when it is persisted. */
  datatype Event = Event(
    index: nat, wallet: string, dex: string, buy: bool, token: string, quoteMint: string,
    tokens: real, quote: real, price: Option<real>, pool: string)

  const PUMPFUN := "pumpfun"

  /** A fetched transaction with the events the parsers find in it.  `createLog` says that its log holds
      the launch program's create line; an absent payer is the empty string. */
  datatype Tx = Tx(
    signature: string, slot: int, blockTime: Option<int>, payer: string, success: bool,
    createLog: bool, events: seq<Event>)

  datatype WalletRow = WalletRow(firstSeen: int, lastSeen: int)
  datatype TokenRow = TokenRow(firstSeen: int, dex: string, creator: Option<string>)
  datatype PoolRow = PoolRow(dex: string, token: string, quoteMint: string, firstSeen: int)
  datatype TxRow = TxRow(slot: int, payer: string, success: bool)
  datatype TradeKey = TradeKey(signature: string, index: nat, time: int)
  datatype TradeRow = TradeRow(
    slot: int, event: Event, priceQuote: Option<real>, priceUsd: Option<real>, solPriceUsd: Option<real>)

  /** The database. */
  datatype Db = Db(
    wallets: map<string, WalletRow>, tokens: map<string, TokenRow>, pools: map<string, PoolRow>,
    transactions: map<(string, int), TxRow>, failed: map<(string, int), TxRow>,
    trades: map<TradeKey, TradeRow>, positions: Table)

  const EMPTY := Db(map[], map[], map[], map[], map[], map[], [])

  // --- the upserts --------------------------------------------------------

  function WithWallet(db: Db, address: string, seen: int): Db {
    var row := if address in db.wallets
               then WalletRow(Min(db.wallets[address].firstSeen, seen), Max(db.wallets[address].lastSeen, seen))
               else WalletRow(seen, seen);
    db.(wallets := db.wallets[address := row])
  }

  function WithToken(db: Db, mint: string, seen: int, dex: string): Db {
    var row := if mint in db.tokens
               then db.tokens[mint].(firstSeen := Min(db.tokens[mint].firstSeen, seen))
               else TokenRow(seen, dex, None);
    db.(tokens := db.tokens[mint := row])
  }

  /** The first creator recorded stays. */
  function WithCreator(db: Db, mint: string, creator: string): Db {
    if mint in db.tokens && db.tokens[mint].creator.None?
    then db.(tokens := db.tokens[mint := db.tokens[mint].(creator := Some(creator))]) else db
  }

  function WithPool(db: Db, e: Event, seen: int): Db {
    if e.pool == "" || e.pool in db.pools then db
    else db.(pools := db.pools[e.pool := PoolRow(e.dex, e.token, e.quoteMint, seen)])
  }

  function WithTransaction(db: Db, tx: Tx, seen: int): Db {
    if (tx.signature, seen) in db.transactions then db
    else db.(transactions := db.transactions[(tx.signature, seen) := TxRow(tx.slot, tx.payer, tx.success)])
  }

  function WithFailed(db: Db, tx: Tx, seen: int): Db {
    if (tx.signature, seen) in db.failed then db
    else db.(failed := db.failed[(tx.signature, seen) := TxRow(tx.slot, tx.payer, tx.success)])
  }

  /** Only SOL and stable quotes are prices. */
  function TradeRowOf(tx: Tx, e: Event, solPrice: Option<real>): TradeRow {
    var usd :=
      if e.price.None? || solPrice.None? then None
      else if e.quoteMint == WSOL_MINT then Some(e.price.value * solPrice.value)
      else if IsStable(e.quoteMint) then e.price
      else None;
    var quote := if e.quoteMint == WSOL_MINT || IsStable(e.quoteMint) then e.price else None;
    TradeRow(tx.slot, e, quote, usd, solPrice)
  }

  function QuoteInSol(e: Event, solPrice: Option<real>): Option<real> {
    if e.quoteMint == WSOL_MINT then Some(e.quote)
    else if IsStable(e.quoteMint) && solPrice.Some? && solPrice.value > 0.0 then Some(e.quote / solPrice.value)
    else None
  }

  function Posted(t: Table, e: Event, seen: int, solPrice: Option<real>): Table {
    var sol := QuoteInSol(e, solPrice);
    if sol.None? then t else Post(t, Fill(e.wallet, e.token, e.buy, e.tokens, sol.value, seen))
  }

  function WithTrade(db: Db, tx: Tx, e: Event, seen: int, solPrice: Option<real>): Db {
    var key := TradeKey(tx.signature, e.index, seen);
    if key in db.trades then db
    else db.(trades := db.trades[key := TradeRowOf(tx, e, solPrice)],
             positions := Posted(db.positions, e, seen, solPrice))
  }

  function IsNew(db: Db, tx: Tx, e: Event, seen: int): bool {
    TradeKey(tx.signature, e.index, seen) !in db.trades
  }

  /** Everything but the trade that one event records. */
  function WithEntities(db: Db, tx: Tx, e: Event, seen: int): Db {
    var d1 := if e.wallet == tx.payer && tx.payer != "" then db else WithWallet(db, e.wallet, seen);
    var d2 := WithToken(d1, e.token, seen, e.dex);
    var d3 := if e.dex == PUMPFUN && tx.createLog && tx.payer != "" then WithCreator(d2, e.token, tx.payer) else d2;
    WithPool(d3, e, seen)
  }

  function WithEvent(db: Db, tx: Tx, e: Event, seen: int, solPrice: Option<real>): Db {
    WithTrade(WithEntities(db, tx, e, seen), tx, e, seen, solPrice)
  }

  /** The database and the new events after the first n events of the transaction. */
  function WithEvents(db: Db, tx: Tx, n: nat, seen: int, solPrice: Option<real>): (Db, seq<Event>)
    requires n <= |tx.events|
  {
    if n == 0 then (db, [])
    else
      var (d, added) := WithEvents(db, tx, n - 1, seen, solPrice);
      var e := tx.events[n - 1];
      (WithEvent(d, tx, e, seen, solPrice), if IsNew(d, tx, e, seen) then added + [e] else added)
  }

  /** A transaction without a block time is stamped with the clock. */
  function SeenAt(tx: Tx, clock: int): int {
    if tx.blockTime.Some? then tx.blockTime.value else clock
  }

  function Header(db: Db, tx: Tx, seen: int): Db {
    var d1 := if tx.payer != "" then WithWallet(db, tx.payer, seen) else db;
    var d2 := if tx.success then d1 else WithFailed(d1, tx, seen);
    WithTransaction(d2, tx, seen)
  }

  function Persist(db: Db, tx: Tx, clock: int, solPrice: Option<real>): (Db, seq<Event>) {
    var seen := SeenAt(tx, clock);
    var d := Header(db, tx, seen);
    if tx.success then WithEvents(d, tx, |tx.events|, seen, solPrice) else (d, [])
  }

  // --- the writer itself --------------------------------------------------

  class TransactionWriter {
    var wallets: map<string, WalletRow>
    var tokens: map<string, TokenRow>
    var pools: map<string, PoolRow>
    var transactions: map<(string, int), TxRow>
    var failed: map<(string, int), TxRow>
    var trades: map<TradeKey, TradeRow>
    var positions: Table

    ghost function Abstract(): Db
      reads this
    {
      Db(wallets, tokens, pools, transactions, failed, trades, positions)
    }

    constructor ()
      ensures Abstract() == EMPTY
    {
      wallets, tokens, pools, transactions, failed, trades := map[], map[], map[], map[], map[], map[];
      positions := [];
    }

    method UpsertWallet(address: string, seen: int)
      modifies this
      ensures Abstract() == WithWallet(old(Abstract()), address, seen)
    {
      if address !in wallets {
        wallets := wallets[address := WalletRow(seen, seen)];
      } else {
        var row := wallets[address];
        wallets := wallets[address := WalletRow(Min(row.firstSeen, seen), Max(row.lastSeen, seen))];
      }
    }

    method UpsertToken(mint: string, seen: int, dex: string)
      modifies this
      ensures Abstract() == WithToken(old(Abstract()), mint, seen, dex)
    {
      if mint !in tokens {
        tokens := tokens[mint := TokenRow(seen, dex, None)];
      } else {
        tokens := tokens[mint := tokens[mint].(firstSeen := Min(tokens[mint].firstSeen, seen))];
      }
    }

    method SetCreatorIfUnset(mint: string, creator: string)
      modifies this
      ensures Abstract() == WithCreator(old(Abstract()), mint, creator)
    {
      if mint in tokens && tokens[mint].creator.None? {
        tokens := tokens[mint := tokens[mint].(creator := Some(creator))];
      }
    }

    method GetOrCreatePool(e: Event, seen: int)
      modifies this
      ensures Abstract() == WithPool(old(Abstract()), e, seen)
    {
      if e.pool != "" && e.pool !in pools {
        pools := pools[e.pool := PoolRow(e.dex, e.token, e.quoteMint, seen)];
      }
    }

    method InsertTrade(tx: Tx, e: Event, seen: int, solPrice: Option<real>) returns (inserted: bool)
      modifies this
      ensures inserted == IsNew(old(Abstract()), tx, e, seen)
      ensures Abstract() == (if inserted
        then old(Abstract()).(trades := old(trades)[TradeKey(tx.signature, e.index, seen) := TradeRowOf(tx, e, solPrice)])
        else old(Abstract()))
    {
      var key := TradeKey(tx.signature, e.index, seen);
      if key in trades {
        return false;
      }
      trades := trades[key := TradeRowOf(tx, e, solPrice)];
      return true;
    }

    /** Loads the open row of the pair, or a new one, updates it and flushes it. */
    method UpdatePosition(e: Event, seen: int, solPrice: Option<real>)
      modifies this
      ensures Abstract() == old(Abstract()).(positions := Posted(old(positions), e, seen, solPrice))
    {
      var sol := QuoteInSol(e, solPrice);
      if sol.None? {
        return;
      }
      var fill := Fill(e.wallet, e.token, e.buy, e.tokens, sol.value, seen);
      var i := OpenIndex(positions, e.wallet, e.token);
      if i < 0 {
        var row := new PositionRow(Blank(fill));
        row.Update(fill);
        positions := positions + [row.Value()];
      } else {
        var row := new PositionRow(positions[i]);
        row.Update(fill);
        positions := positions[i := row.Value()];
      }
    }

    /** Persist one transaction; returns the events that made new trade rows. */
    method PersistParsedTransaction(tx: Tx, clock: int, solPrice: Option<real>) returns (added: seq<Event>)
      modifies this
      ensures (Abstract(), added) == Persist(old(Abstract()), tx, clock, solPrice)
    {
      hide WithWallet, WithEvent, IsNew;
      var seen := SeenAt(tx, clock);
      if tx.payer != "" {
        UpsertWallet(tx.payer, seen);
      }
      added := [];
      if !tx.success {
        if (tx.signature, seen) !in failed {
          failed := failed[(tx.signature, seen) := TxRow(tx.slot, tx.payer, tx.success)];
        }
      }
      if (tx.signature, seen) !in transactions {
        transactions := transactions[(tx.signature, seen) := TxRow(tx.slot, tx.payer, tx.success)];
      }
      if !tx.success {
        return;
      }
      ghost var header := Abstract();
      assert header == Header(old(Abstract()), tx, seen);
      var k := 0;
      while k < |tx.events|
        invariant 0 <= k <= |tx.events|
        invariant (Abstract(), added) == WithEvents(header, tx, k, seen, solPrice)
      {
        var isNew := PersistEvent(tx, tx.events[k], seen, solPrice);
        if isNew {
          added := added + [tx.events[k]];
        }
        k := k + 1;
      }
    }

    method PersistEvent(tx: Tx, e: Event, seen: int, solPrice: Option<real>) returns (isNew: bool)
      modifies this
      ensures Abstract() == WithEvent(old(Abstract()), tx, e, seen, solPrice)
      ensures isNew == IsNew(old(Abstract()), tx, e, seen)
    {
      EntitiesKeepBooks(Abstract(), tx, e, seen);
      hide WithWallet, WithToken, WithCreator, WithPool, Posted;
      if !(e.wallet == tx.payer && tx.payer != "") {
        UpsertWallet(e.wallet, seen);
      }
      UpsertToken(e.token, seen, e.dex);
      if e.dex == PUMPFUN && tx.createLog && tx.payer != "" {
        SetCreatorIfUnset(e.token, tx.payer);
      }
      GetOrCreatePool(e, seen);
      isNew := InsertTrade(tx, e, seen, solPrice);
      if isNew {
        UpdatePosition(e, seen, solPrice);
      }
    }
  }

  // --- growth -------------------------------------------------------------

  ghost predicate WalletsGrow(m: map<string, WalletRow>, m': map<string, WalletRow>) {
    forall a :: a in m ==>
      a in m' && m'[a].firstSeen <= m[a].firstSeen && m[a].lastSeen <= m'[a].lastSeen
  }

  ghost predicate TokensGrow(m: map<string, TokenRow>, m': map<string, TokenRow>) {
    forall t :: t in m ==>
      && t in m' && m'[t].firstSeen <= m[t].firstSeen && m'[t].dex == m[t].dex
      && (m[t].creator.Some? ==> m'[t].creator == m[t].creator)
  }

  ghost predicate RowsStay<K, V>(m: map<K, V>, m': map<K, V>) {
    forall k :: k in m ==> k in m' && m'[k] == m[k]
  }

  /** d' knows at least what d knows: rows stay, first sightings only move back, last ones forward, and
      a recorded creator never changes. */
  ghost predicate Grows(d: Db, d': Db) {
    && WalletsGrow(d.wallets, d'.wallets)
    && TokensGrow(d.tokens, d'.tokens)
    && RowsStay(d.pools, d'.pools)
    && RowsStay(d.transactions, d'.transactions)
    && RowsStay(d.failed, d'.failed)
    && RowsStay(d.trades, d'.trades)
  }

  lemma GrowsTransitive(a: Db, b: Db, c: Db)
    requires Grows(a, b) && Grows(b, c)
    ensures Grows(a, c)
  {
  }

  lemma WalletGrows(db: Db, address: string, seen: int)
    ensures Grows(db, WithWallet(db, address, seen))
    ensures WalletKnown(WithWallet(db, address, seen), address, seen)
  {
  }

  lemma TokenGrows(db: Db, mint: string, seen: int, dex: string)
    ensures Grows(db, WithToken(db, mint, seen, dex))
    ensures var d := WithToken(db, mint, seen, dex); mint in d.tokens && d.tokens[mint].firstSeen <= seen
  {
  }

  lemma CreatorGrows(db: Db, mint: string, creator: string)
    ensures Grows(db, WithCreator(db, mint, creator))
    ensures mint in db.tokens ==> WithCreator(db, mint, creator).tokens[mint].creator.Some?
  {
  }

  lemma PoolGrows(db: Db, e: Event, seen: int)
    ensures Grows(db, WithPool(db, e, seen))
    ensures e.pool == "" || e.pool in WithPool(db, e, seen).pools
  {
  }

  lemma TradeGrows(db: Db, tx: Tx, e: Event, seen: int, solPrice: Option<real>)
    ensures Grows(db, WithTrade(db, tx, e, seen, solPrice))
    ensures !IsNew(WithTrade(db, tx, e, seen, solPrice), tx, e, seen)
  {
  }

  lemma FailedGrows(db: Db, tx: Tx, seen: int)
    ensures Grows(db, WithFailed(db, tx, seen)) && (tx.signature, seen) in WithFailed(db, tx, seen).failed
  {
  }

  lemma TransactionGrows(db: Db, tx: Tx, seen: int)
    ensures Grows(db, WithTransaction(db, tx, seen))
    ensures (tx.signature, seen) in WithTransaction(db, tx, seen).transactions
  {
  }

  lemma HeaderGrows(db: Db, tx: Tx, seen: int)
    ensures Grows(db, Header(db, tx, seen))
    ensures tx.payer != "" ==> WalletKnown(Header(db, tx, seen), tx.payer, seen)
    ensures (tx.signature, seen) in Header(db, tx, seen).transactions
    ensures !tx.success ==> (tx.signature, seen) in Header(db, tx, seen).failed
  {
    var d1 := if tx.payer != "" then WithWallet(db, tx.payer, seen) else db;
    WalletGrows(db, tx.payer, seen);
    if tx.success {
      TransactionGrows(d1, tx, seen);
      GrowsTransitive(db, d1, WithTransaction(d1, tx, seen));
    } else {
      var d2 := WithFailed(d1, tx, seen);
      FailedGrows(d1, tx, seen);
      TransactionGrows(d2, tx, seen);
      GrowsTransitive(db, d1, d2);
      GrowsTransitive(db, d2, WithTransaction(d2, tx, seen));
    }
  }

  lemma EntitiesGrow(db: Db, tx: Tx, e: Event, seen: int)
    requires tx.payer != "" ==> WalletKnown(db, tx.payer, seen)
    ensures Grows(db, WithEntities(db, tx, e, seen))
    ensures EntitiesKnown(WithEntities(db, tx, e, seen), tx, e, seen)
  {
    hide WithWallet, WithToken, WithCreator, WithPool;
    var d1 := if e.wallet == tx.payer && tx.payer != "" then db else WithWallet(db, e.wallet, seen);
    var d2 := WithToken(d1, e.token, seen, e.dex);
    var d3 := if e.dex == PUMPFUN && tx.createLog && tx.payer != "" then WithCreator(d2, e.token, tx.payer) else d2;
    WalletGrows(db, e.wallet, seen);
    TokenGrows(d1, e.token, seen, e.dex);
    CreatorGrows(d2, e.token, tx.payer);
    PoolGrows(d3, e, seen);
    GrowsTransitive(db, d1, d2);
    GrowsTransitive(db, d2, d3);
    GrowsTransitive(db, d3, WithPool(d3, e, seen));
  }

  lemma EventGrows(db: Db, tx: Tx, e: Event, seen: int, solPrice: Option<real>)
    requires tx.payer != "" ==> WalletKnown(db, tx.payer, seen)
    ensures var d := WithEvent(db, tx, e, seen, solPrice);
      Grows(db, d) && EntitiesKnown(d, tx, e, seen) && !IsNew(d, tx, e, seen)
  {
    var w := WithEntities(db, tx, e, seen);
    EntitiesGrow(db, tx, e, seen);
    TradeGrows(w, tx, e, seen, solPrice);
    GrowsTransitive(db, w, WithEvent(db, tx, e, seen, solPrice));
  }

  lemma KnownStays(d: Db, d': Db, tx: Tx, e: Event, seen: int)
    requires Grows(d, d')
    ensures EntitiesKnown(d, tx, e, seen) ==> EntitiesKnown(d', tx, e, seen)
    ensures !IsNew(d, tx, e, seen) ==> !IsNew(d', tx, e, seen)
    ensures forall a :: WalletKnown(d, a, seen) ==> WalletKnown(d', a, seen)
  {
  }

  ghost predicate EventKnown(d: Db, tx: Tx, k: nat, seen: int)
    requires k < |tx.events|
  {
    EntitiesKnown(d, tx, tx.events[k], seen) && !IsNew(d, tx, tx.events[k], seen)
  }

  lemma GrowsReflexive(db: Db)
    ensures Grows(db, db)
  {
  }

  /** The events grow the database and leave everything they could write in it. */
  lemma {:induction false} EventsGrow(db: Db, tx: Tx, n: nat, seen: int, solPrice: Option<real>)
    requires n <= |tx.events|
    requires tx.payer != "" ==> WalletKnown(db, tx.payer, seen)
    ensures Grows(db, WithEvents(db, tx, n, seen, solPrice).0)
    ensures forall k: nat :: k < n ==> EventKnown(WithEvents(db, tx, n, seen, solPrice).0, tx, k, seen)
  {
    hide Grows, WalletKnown, EventKnown, WithEvent, IsNew;
    if n > 0 {
      var d, e := WithEvents(db, tx, n - 1, seen, solPrice).0, tx.events[n - 1];
      EventsGrow(db, tx, n - 1, seen, solPrice);
      KnownStays(db, d, tx, e, seen);
      NextEventGrows(db, d, tx, n, seen, solPrice);
    } else {
      GrowsReflexive(db);
    }
  }

  lemma NextEventGrows(db: Db, d: Db, tx: Tx, n: nat, seen: int, solPrice: Option<real>)
    requires 0 < n <= |tx.events| && Grows(db, d)
    requires tx.payer != "" ==> WalletKnown(d, tx.payer, seen)
    requires forall k: nat :: k < n - 1 ==> EventKnown(d, tx, k, seen)
    ensures var d' := WithEvent(d, tx, tx.events[n - 1], seen, solPrice);
      Grows(db, d') && forall k: nat :: k < n ==> EventKnown(d', tx, k, seen)
  {
    var e := tx.events[n - 1];
    var d' := WithEvent(d, tx, e, seen, solPrice);
    EventGrows(d, tx, e, seen, solPrice);
    GrowsTransitive(db, d, d');
    forall k: nat | k < n ensures EventKnown(d', tx, k, seen) {
      assert k < n - 1 ==> EventKnown(d, tx, k, seen);
      KnownStays(d, d', tx, tx.events[k], seen);
    }
  }

  /** Persisting a transaction loses nothing, and afterwards everything it could write is there. */
  lemma {:induction false} PersistAbsorbs(db: Db, tx: Tx, clock: int, solPrice: Option<real>)
    ensures Grows(db, Persist(db, tx, clock, solPrice).0)
    ensures Absorbed(Persist(db, tx, clock, solPrice).0, tx, SeenAt(tx, clock))
  {
    var seen := SeenAt(tx, clock);
    var h := Header(db, tx, seen);
    HeaderGrows(db, tx, seen);
    if tx.success {
      EventsGrow(h, tx, |tx.events|, seen, solPrice);
      GrowsTransitive(db, h, WithEvents(h, tx, |tx.events|, seen, solPrice).0);
    }
  }

  // --- absorption ---------------------------------------------------------

  predicate WalletKnown(db: Db, address: string, seen: int) {
    address in db.wallets && db.wallets[address].firstSeen <= seen <= db.wallets[address].lastSeen
  }

  predicate EntitiesKnown(db: Db, tx: Tx, e: Event, seen: int) {
    && WalletKnown(db, e.wallet, seen)
    && e.token in db.tokens && db.tokens[e.token].firstSeen <= seen
    && (e.dex == PUMPFUN && tx.createLog && tx.payer != "" ==> db.tokens[e.token].creator.Some?)
    && (e.pool == "" || e.pool in db.pools)
  }

  /** Everything the transaction could still write is there. */
  ghost predicate Absorbed(db: Db, tx: Tx, seen: int) {
    && (tx.payer != "" ==> WalletKnown(db, tx.payer, seen))
    && (tx.signature, seen) in db.transactions
    && (!tx.success ==> (tx.signature, seen) in db.failed)
    && (tx.success ==> forall k: nat :: k < |tx.events| ==> EventKnown(db, tx, k, seen))
  }

  lemma AbsorbedStays(d: Db, d': Db, tx: Tx, seen: int)
    requires Absorbed(d, tx, seen) && Grows(d, d')
    ensures Absorbed(d', tx, seen)
  {
    forall k: nat | tx.success && k < |tx.events| ensures EventKnown(d', tx, k, seen) {
      assert EventKnown(d, tx, k, seen);
      KnownStays(d, d', tx, tx.events[k], seen);
    }
  }

  lemma KnownEntitiesAreNoop(db: Db, tx: Tx, e: Event, seen: int)
    requires EntitiesKnown(db, tx, e, seen) && !IsNew(db, tx, e, seen)
    ensures forall solPrice :: WithEvent(db, tx, e, seen, solPrice) == db
  {
    assert WithWallet(db, e.wallet, seen).wallets == db.wallets;
    assert WithToken(db, e.token, seen, e.dex).tokens == db.tokens;
  }

  lemma {:induction false} AbsorbedEventsAreNoop(db: Db, tx: Tx, n: nat, seen: int, solPrice: Option<real>)
    requires n <= |tx.events|
    requires forall k: nat :: k < |tx.events| ==> EventKnown(db, tx, k, seen)
    ensures WithEvents(db, tx, n, seen, solPrice) == (db, [])
  {
    if n > 0 {
      AbsorbedEventsAreNoop(db, tx, n - 1, seen, solPrice);
      assert EventKnown(db, tx, n - 1, seen);
      KnownEntitiesAreNoop(db, tx, tx.events[n - 1], seen);
    }
  }

  lemma AbsorbedIsNoop(db: Db, tx: Tx, clock: int, solPrice: Option<real>)
    requires Absorbed(db, tx, SeenAt(tx, clock))
    ensures Persist(db, tx, clock, solPrice) == (db, [])
  {
    var seen := SeenAt(tx, clock);
    assert tx.payer != "" ==> WithWallet(db, tx.payer, seen).wallets == db.wallets;
    assert Header(db, tx, seen) == db;
    if tx.success {
      AbsorbedEventsAreNoop(db, tx, |tx.events|, seen, solPrice);
    }
  }

  // --- replay -------------------------------------------------------------

  /** One delivery of a transaction: when it was processed, and the SOL price cached at that moment. */
  datatype Delivery = Delivery(tx: Tx, clock: int, solPrice: Option<real>)

  function Feed(db: Db, feed: seq<Delivery>): (Db, seq<Event>) {
    if feed == [] then (db, [])
    else
      var n := |feed| - 1;
      var (d, added) := Feed(db, feed[..n]);
      var (d', more) := Persist(d, feed[n].tx, feed[n].clock, feed[n].solPrice);
      (d', added + more)
  }

  predicate Delivered(feed: seq<Delivery>, tx: Tx) {
    exists i :: 0 <= i < |feed| && feed[i].tx == tx
  }

  /** The deliveries whose transaction was not delivered before. */
  function FirstOccurrences(feed: seq<Delivery>): seq<Delivery> {
    if feed == [] then []
    else
      var n := |feed| - 1;
      FirstOccurrences(feed[..n]) + (if Delivered(feed[..n], feed[n].tx) then [] else [feed[n]])
  }

  /** Every delivered transaction is there, and there once. */
  lemma {:induction false} FirstOccurrencesMean(feed: seq<Delivery>)
    ensures var firsts := FirstOccurrences(feed);
      && (forall i, j :: 0 <= i < j < |firsts| ==> firsts[i].tx != firsts[j].tx)
      && (forall x :: x in firsts ==> x in feed)
      && forall tx :: Delivered(firsts, tx) <==> Delivered(feed, tx)
  {
    if feed != [] {
      var n := |feed| - 1;
      var front, firsts := FirstOccurrences(feed[..n]), FirstOccurrences(feed);
      FirstOccurrencesMean(feed[..n]);
      assert feed == feed[..n] + [feed[n]] && front + [] == front;
      forall tx ensures Delivered(firsts, tx) <==> Delivered(feed, tx) {
        DeliveredMore(feed[..n], feed[n], tx);
        DeliveredMore(front, feed[n], tx);
      }
      forall i, j | 0 <= i < j < |firsts| ensures firsts[i].tx != firsts[j].tx {
        if j == |front| { assert front[i].tx == firsts[i].tx; }
      }
    }
  }

  lemma DeliveredMore(feed: seq<Delivery>, x: Delivery, tx: Tx)
    ensures Delivered(feed + [x], tx) <==> Delivered(feed, tx) || x.tx == tx
  {
    if i :| 0 <= i < |feed| && feed[i].tx == tx { assert (feed + [x])[i].tx == tx; }
    if x.tx == tx { assert (feed + [x])[|feed|].tx == tx; }
  }

  ghost predicate Timed(feed: seq<Delivery>) {
    forall i :: 0 <= i < |feed| ==> feed[i].tx.blockTime.Some?
  }

  lemma {:induction false} DeliveredIsAbsorbed(db: Db, feed: seq<Delivery>, i: nat)
    requires i < |feed|
    ensures Absorbed(Feed(db, feed).0, feed[i].tx, SeenAt(feed[i].tx, feed[i].clock))
  {
    var n := |feed| - 1;
    var d := Feed(db, feed[..n]).0;
    if i == n {
      PersistAbsorbs(d, feed[n].tx, feed[n].clock, feed[n].solPrice);
    } else {
      DeliveredIsAbsorbed(db, feed[..n], i);
      PersistAbsorbs(d, feed[n].tx, feed[n].clock, feed[n].solPrice);
      AbsorbedStays(d, Feed(db, feed).0, feed[i].tx, SeenAt(feed[i].tx, feed[i].clock));
    }
  }

  lemma RepeatIsNoop(db: Db, feed: seq<Delivery>)
    requires feed != [] && Timed(feed) && Delivered(feed[..|feed| - 1], feed[|feed| - 1].tx)
    ensures Feed(db, feed) == Feed(db, feed[..|feed| - 1])
  {
    var n := |feed| - 1;
    var (d, added) := Feed(db, feed[..n]);
    var i :| 0 <= i < n && feed[..n][i].tx == feed[n].tx;
    DeliveredIsAbsorbed(db, feed[..n], i);
    AbsorbedIsNoop(d, feed[n].tx, feed[n].clock, feed[n].solPrice);
    assert added + [] == added;
  }

  lemma FeedCons(db: Db, feed: seq<Delivery>, x: Delivery)
    ensures var (d, added) := Feed(db, feed);
      var (d', more) := Persist(d, x.tx, x.clock, x.solPrice);
      Feed(db, feed + [x]) == (d', added + more)
  {
    assert (feed + [x])[..|feed|] == feed;
  }

  /** Replay safety: deliver any transactions any number of times, in any interleaving and under any
      SOL prices; every table, the ledger included, and the reported events are those of the first
      occurrences alone. */
  lemma {:induction false} ReplayIsIdempotent(db: Db, feed: seq<Delivery>)
    requires Timed(feed)
    ensures Feed(db, feed) == Feed(db, FirstOccurrences(feed))
  {
    if feed != [] {
      var n := |feed| - 1;
      ReplayIsIdempotent(db, feed[..n]);
      if Delivered(feed[..n], feed[n].tx) {
        RepeatIsNoop(db, feed);
        assert FirstOccurrences(feed) == FirstOccurrences(feed[..n]);
      } else {
        assert feed[..n] + [feed[n]] == feed;
        FeedCons(db, feed[..n], feed[n]);
        FeedCons(db, FirstOccurrences(feed[..n]), feed[n]);
      }
    }
  }

  /** Without a block time, a replay at a moment at which the signature has no row yet adds one. */
  lemma {:induction false} UntimedReplayAddsARow(
    db: Db, tx: Tx, clock: int, later: int, price: Option<real>, laterPrice: Option<real>)
    requires tx.blockTime.None? && later != clock && (tx.signature, later) !in db.transactions
    ensures var d := Persist(db, tx, clock, price).0;
      (tx.signature, later) !in d.transactions
      && (tx.signature, later) in Persist(d, tx, later, laterPrice).0.transactions
  {
    var d := Persist(db, tx, clock, price).0;
    TransactionsOfPersist(db, tx, clock, price);
    PersistAbsorbs(d, tx, later, laterPrice);
  }

  /** Persisting adds at most the one row of the transaction table. */
  lemma TransactionsOfPersist(db: Db, tx: Tx, clock: int, solPrice: Option<real>)
    ensures Persist(db, tx, clock, solPrice).0.transactions.Keys == db.transactions.Keys + {(tx.signature, SeenAt(tx, clock))}
  {
    var seen := SeenAt(tx, clock);
    TransactionsOfHeader(db, tx, seen);
    hide Header, WithEvents;
    if tx.success { TransactionsOfEvents(Header(db, tx, seen), tx, |tx.events|, seen, solPrice); }
  }

  lemma TransactionsOfHeader(db: Db, tx: Tx, seen: int)
    ensures Header(db, tx, seen).transactions.Keys == db.transactions.Keys + {(tx.signature, seen)}
  {
    var d1 := if tx.payer != "" then WithWallet(db, tx.payer, seen) else db;
    assert d1.transactions == db.transactions;
    var d2 := if tx.success then d1 else WithFailed(d1, tx, seen);
    assert d2.transactions == d1.transactions;
    hide WithWallet, WithFailed;
  }

  lemma {:induction false} TransactionsOfEvents(db: Db, tx: Tx, n: nat, seen: int, solPrice: Option<real>)
    requires n <= |tx.events|
    ensures WithEvents(db, tx, n, seen, solPrice).0.transactions == db.transactions
  {
    if n > 0 {
      TransactionsOfEvents(db, tx, n - 1, seen, solPrice);
      TransactionsOfEvent(WithEvents(db, tx, n - 1, seen, solPrice).0, tx, tx.events[n - 1], seen, solPrice);
    }
  }

  /** The same positions, trades and transaction rows. */
  predicate SameBooks(d: Db, e: Db) {
    e.positions == d.positions && e.trades == d.trades && e.transactions == d.transactions
  }

  lemma WalletKeepsBooks(db: Db, address: string, seen: int)
    ensures SameBooks(db, WithWallet(db, address, seen))
  {
  }

  lemma TokenKeepsBooks(db: Db, mint: string, seen: int, dex: string)
    ensures SameBooks(db, WithToken(db, mint, seen, dex))
  {
  }

  lemma CreatorKeepsBooks(db: Db, mint: string, creator: string)
    ensures SameBooks(db, WithCreator(db, mint, creator))
  {
  }

  lemma PoolKeepsBooks(db: Db, e: Event, seen: int)
    ensures SameBooks(db, WithPool(db, e, seen))
  {
  }

  lemma EntitiesKeepBooks(db: Db, tx: Tx, e: Event, seen: int)
    ensures SameBooks(db, WithEntities(db, tx, e, seen))
  {
    hide WithWallet, WithToken, WithCreator, WithPool;
    var d1 := if e.wallet == tx.payer && tx.payer != "" then db else WithWallet(db, e.wallet, seen);
    WalletKeepsBooks(db, e.wallet, seen);
    var d2 := WithToken(d1, e.token, seen, e.dex);
    TokenKeepsBooks(d1, e.token, seen, e.dex);
    var d3 := if e.dex == PUMPFUN && tx.createLog && tx.payer != "" then WithCreator(d2, e.token, tx.payer) else d2;
    CreatorKeepsBooks(d2, e.token, tx.payer);
    PoolKeepsBooks(d3, e, seen);
  }

  lemma TransactionsOfEvent(db: Db, tx: Tx, e: Event, seen: int, solPrice: Option<real>)
    ensures WithEvent(db, tx, e, seen, solPrice).transactions == db.transactions
  {
    EntitiesKeepBooks(db, tx, e, seen);
    hide WithEntities;
    var d := WithEntities(db, tx, e, seen);
    assert WithTrade(d, tx, e, seen, solPrice).transactions == d.transactions;
  }

  /** Some moment is later than every row of the table. */
  lemma {:induction false} FreshMoment(rows: set<(string, int)>) returns (moment: int)
    ensures forall r :: r in rows ==> r.1 < moment
    decreases |rows|
  {
    if rows == {} {
      moment := 0;
    } else {
      var r :| r in rows;
      var rest := FreshMoment(rows - {r});
      moment := Max(rest, r.1 + 1);
      forall q | q in rows ensures q.1 < moment {
        if q != r { assert q in rows - {r}; }
      }
    }
  }

  ghost predicate ReplaySafe(db: Db, tx: Tx, clock: int, price: Option<real>) {
    var d := Persist(db, tx, clock, price).0;
    forall later, laterPrice :: Persist(d, tx, later, laterPrice) == (d, [])
  }

  /** Persisting a transaction again changes nothing and reports nothing, whenever and at whatever SOL
      price it happens, if and only if the transaction carries its own block time. */
  lemma ReplaySafeExactly(db: Db, tx: Tx, clock: int, price: Option<real>)
    ensures ReplaySafe(db, tx, clock, price) <==> tx.blockTime.Some?
  {
    var d := Persist(db, tx, clock, price).0;
    if tx.blockTime.Some? {
      PersistAbsorbs(db, tx, clock, price);
      forall later, laterPrice ensures Persist(d, tx, later, laterPrice) == (d, []) {
        AbsorbedIsNoop(d, tx, later, laterPrice);
      }
    } else {
      var rows := db.transactions.Keys + {(tx.signature, clock)};
      var later := FreshMoment(rows);
      assert (tx.signature, clock) in rows && (tx.signature, later) !in rows;
      UntimedReplayAddsARow(db, tx, clock, later, price, None);
      assert Persist(d, tx, later, None) != (d, []);
    }
  }

  lemma TradesOfEvent(db: Db, tx: Tx, e: Event, seen: int, solPrice: Option<real>)
    ensures WithEvent(db, tx, e, seen, solPrice).trades.Keys == db.trades.Keys + {TradeKey(tx.signature, e.index, seen)}
  {
    EntitiesKeepBooks(db, tx, e, seen);
    hide WithEntities, Posted;
  }

  /** Different trades, each of them in the table. */
  ghost predicate DistinctRows(db: Db, tx: Tx, added: seq<Event>, seen: int) {
    && (forall i :: 0 <= i < |added| ==> TradeKey(tx.signature, added[i].index, seen) in db.trades.Keys)
    && (forall i, j :: 0 <= i < j < |added| ==> added[i].index != added[j].index)
  }

  /** The events of a transaction are recorded one after the other. */
  lemma OneMoreEvent(db: Db, tx: Tx, n: nat, seen: int, solPrice: Option<real>)
    requires n < |tx.events|
    ensures var r, e := WithEvents(db, tx, n, seen, solPrice), tx.events[n];
      WithEvents(db, tx, n + 1, seen, solPrice)
        == (WithEvent(r.0, tx, e, seen, solPrice), if IsNew(r.0, tx, e, seen) then r.1 + [e] else r.1)
  {
    hide WithEvent, IsNew;
  }

  lemma {:induction false} EventsAreDistinct(db: Db, tx: Tx, n: nat, seen: int, solPrice: Option<real>)
    requires n <= |tx.events|
    ensures DistinctRows(WithEvents(db, tx, n, seen, solPrice).0, tx, WithEvents(db, tx, n, seen, solPrice).1, seen)
  {
    if n > 0 {
      hide *;
      var m := n - 1;
      EventsAreDistinct(db, tx, m, seen, solPrice);
      OneMoreEvent(db, tx, m, seen, solPrice);
      var r, e := WithEvents(db, tx, m, seen, solPrice), tx.events[m];
      TradesOfEvent(r.0, tx, e, seen, solPrice);
      DistinctMore(r.0, WithEvent(r.0, tx, e, seen, solPrice), tx, r.1, e, seen);
    }
  }

  lemma DistinctMore(d: Db, d': Db, tx: Tx, added: seq<Event>, e: Event, seen: int)
    requires DistinctRows(d, tx, added, seen)
    requires d'.trades.Keys == d.trades.Keys + {TradeKey(tx.signature, e.index, seen)}
    ensures DistinctRows(d', tx, if IsNew(d, tx, e, seen) then added + [e] else added, seen)
  {
  }

  /** The events a transaction reports as new are different trades. */
  lemma ReportedAreDistinct(db: Db, tx: Tx, clock: int, solPrice: Option<real>)
    ensures var added := Persist(db, tx, clock, solPrice).1;
      forall i, j :: 0 <= i < j < |added| ==> added[i].index != added[j].index
  {
    var seen := SeenAt(tx, clock);
    EventsAreDistinct(Header(db, tx, seen), tx, |tx.events|, seen, solPrice);
  }

  // --- the positions table is the ledger of the new trades -----------------

  function FillOf(e: Event, seen: int, solPrice: Option<real>): seq<Fill> {
    var sol := QuoteInSol(e, solPrice);
    if sol.None? then [] else [Fill(e.wallet, e.token, e.buy, e.tokens, sol.value, seen)]
  }

  function FillsOf(added: seq<Event>, seen: int, solPrice: Option<real>): seq<Fill> {
    if added == [] then []
    else FillsOf(added[..|added| - 1], seen, solPrice) + FillOf(added[|added| - 1], seen, solPrice)
  }

  /** The SOL-valued fills of the trades a feed inserts, in order. */
  function FillsFed(db: Db, feed: seq<Delivery>): seq<Fill> {
    if feed == [] then []
    else
      var n := |feed| - 1;
      var (d, _) := Feed(db, feed[..n]);
      var (_, more) := Persist(d, feed[n].tx, feed[n].clock, feed[n].solPrice);
      FillsFed(db, feed[..n]) + FillsOf(more, SeenAt(feed[n].tx, feed[n].clock), feed[n].solPrice)
  }

  lemma PostMore(fills: seq<Fill>, e: Event, seen: int, solPrice: Option<real>)
    ensures PostAll(fills + FillOf(e, seen, solPrice)) == Posted(PostAll(fills), e, seen, solPrice)
  {
    var more := FillOf(e, seen, solPrice);
    if more == [] {
      assert fills + more == fills;
    } else {
      assert (fills + more)[..|fills|] == fills;
    }
  }

  lemma FillsMore(added: seq<Event>, e: Event, seen: int, solPrice: Option<real>, before: seq<Fill>)
    ensures before + FillsOf(added + [e], seen, solPrice)
         == (before + FillsOf(added, seen, solPrice)) + FillOf(e, seen, solPrice)
  {
    assert (added + [e])[..|added|] == added;
  }

  ghost predicate LedgerIs(r: (Db, seq<Event>), before: seq<Fill>, seen: int, solPrice: Option<real>) {
    r.0.positions == PostAll(before + FillsOf(r.1, seen, solPrice))
  }

  lemma {:induction false} EventsPost(db: Db, tx: Tx, n: nat, seen: int, solPrice: Option<real>, before: seq<Fill>)
    requires n <= |tx.events| && db.positions == PostAll(before)
    ensures LedgerIs(WithEvents(db, tx, n, seen, solPrice), before, seen, solPrice)
  {
    if n == 0 {
      assert before + FillsOf([], seen, solPrice) == before;
    } else {
      var m := n - 1;
      EventsPost(db, tx, m, seen, solPrice, before);
      OneMoreEvent(db, tx, m, seen, solPrice);
      hide WithEvents, WithEvent, IsNew, PostAll, FillsOf;
      var r := WithEvents(db, tx, m, seen, solPrice);
      NextEventPosts(r.0, r.1, tx, tx.events[m], seen, solPrice, before);
    }
  }

  lemma NextEventPosts(
    d: Db, added: seq<Event>, tx: Tx, e: Event, seen: int, solPrice: Option<real>, before: seq<Fill>)
    requires d.positions == PostAll(before + FillsOf(added, seen, solPrice))
    ensures WithEvent(d, tx, e, seen, solPrice).positions
         == PostAll(before + FillsOf(if IsNew(d, tx, e, seen) then added + [e] else added, seen, solPrice))
  {
    EventPosts(d, tx, e, seen, solPrice);
    PostMore(before + FillsOf(added, seen, solPrice), e, seen, solPrice);
    FillsMore(added, e, seen, solPrice, before);
  }

  lemma EventPosts(d: Db, tx: Tx, e: Event, seen: int, solPrice: Option<real>)
    ensures WithEvent(d, tx, e, seen, solPrice).positions
         == if IsNew(d, tx, e, seen) then Posted(d.positions, e, seen, solPrice) else d.positions
  {
    EntitiesKeepBooks(d, tx, e, seen);
    hide WithEntities, Posted;
  }

  /** Whatever was delivered, the positions table is the ledger of the inserted trades, each folded
      once: the ledger's theorems hold of it. */
  lemma {:induction false} PositionsAreTheLedger(feed: seq<Delivery>)
    ensures Feed(EMPTY, feed).0.positions == PostAll(FillsFed(EMPTY, feed))
  {
    if feed != [] {
      var n := |feed| - 1;
      PositionsAreTheLedger(feed[..n]);
      var (d, added) := Feed(EMPTY, feed[..n]);
      var x := feed[n];
      var before := FillsFed(EMPTY, feed[..n]);
      var h := Header(d, x.tx, SeenAt(x.tx, x.clock));
      assert h.positions == d.positions;
      if x.tx.success {
        EventsPost(h, x.tx, |x.tx.events|, SeenAt(x.tx, x.clock), x.solPrice, before);
      } else {
        assert before + [] == before;
      }
    }
  }

  // --- what a trade is worth ------------------------------------------------

  /** The quote of the event has a value in SOL: it is wrapped SOL, or a stable coin at a known price. */
  ghost predicate HasWorth(e: Event, solPrice: Option<real>) {
    || e.quoteMint == WSOL_MINT
    || ((e.quoteMint == USDC_MINT || e.quoteMint == USDT_MINT) && solPrice.Some? && solPrice.value > 0.0)
  }

  /** x SOL at the price are worth the quote. */
  ghost predicate IsWorth(e: Event, solPrice: Option<real>, x: real) {
    if e.quoteMint == WSOL_MINT then x == e.quote else solPrice.Some? && x * solPrice.value == e.quote
  }

  /** What a trade for x SOL adds to a pair. */
  function Moved(e: Event, x: real, wallet: string, token: string): Totals {
    if e.wallet != wallet || e.token != token then ZERO
    else if e.buy then Totals(e.tokens, 0.0, x, 0.0) else Totals(0.0, e.tokens, 0.0, x)
  }

  /** What trades for these SOL amounts add to a pair, those without a value nothing. */
  ghost function AllMoved(added: seq<Event>, worth: seq<real>, solPrice: Option<real>, wallet: string, token: string): Totals
    requires |added| == |worth|
  {
    if added == [] then ZERO
    else
      var n := |added| - 1;
      Plus(AllMoved(added[..n], worth[..n], solPrice, wallet, token),
           if HasWorth(added[n], solPrice) then Moved(added[n], worth[n], wallet, token) else ZERO)
  }

  /** One new trade moves its pair by its tokens and its value in SOL, or leaves the positions alone. */
  lemma PostedMoves(t: Table, e: Event, seen: int, solPrice: Option<real>, wallet: string, token: string) returns (x: real)
    ensures var posted := Posted(t, e, seen, solPrice);
      if HasWorth(e, solPrice) then
        && IsWorth(e, solPrice, x)
        && TableTotals(posted, wallet, token) == Plus(TableTotals(t, wallet, token), Moved(e, x, wallet, token))
      else posted == t
  {
    hide Post, TableTotals;
    x := 0.0;
    if e.quoteMint == WSOL_MINT {
      x := e.quote;
      PostTotals(t, Fill(e.wallet, e.token, e.buy, e.tokens, x, seen), wallet, token);
    } else if HasWorth(e, solPrice) {
      x := e.quote / solPrice.value;
      QuotientTimes(e.quote, solPrice.value);
      PostTotals(t, Fill(e.wallet, e.token, e.buy, e.tokens, x, seen), wallet, token);
    }
  }

  lemma {:induction false} AllMovedMore(
    added: seq<Event>, worth: seq<real>, e: Event, x: real, solPrice: Option<real>, wallet: string, token: string)
    requires |added| == |worth|
    ensures AllMoved(added + [e], worth + [x], solPrice, wallet, token)
      == Plus(AllMoved(added, worth, solPrice, wallet, token), if HasWorth(e, solPrice) then Moved(e, x, wallet, token) else ZERO)
  {
    hide HasWorth, Moved;
    assert (added + [e])[..|added|] == added && (worth + [x])[..|worth|] == worth;
  }

  lemma {:induction false} EventsMove(
    db: Db, tx: Tx, n: nat, seen: int, solPrice: Option<real>, wallet: string, token: string) returns (worth: seq<real>)
    requires n <= |tx.events|
    ensures MovesBy(db, WithEvents(db, tx, n, seen, solPrice), worth, solPrice, wallet, token)
  {
    worth := [];
    if n > 0 {
      hide WithEvent, WithEvents, IsNew, Posted, TableTotals, AllMoved;
      var m := n - 1;
      worth := EventsMove(db, tx, m, seen, solPrice, wallet, token);
      OneMoreEvent(db, tx, m, seen, solPrice);
      var r, e := WithEvents(db, tx, m, seen, solPrice), tx.events[m];
      EventPosts(r.0, tx, e, seen, solPrice);
      var next := WithEvent(r.0, tx, e, seen, solPrice);
      if IsNew(r.0, tx, e, seen) { worth := OneMoreMoves(db, r.0, r.1, next, e, seen, worth, solPrice, wallet, token); }
    }
  }

  lemma {:induction false} OneMoreMoves(
    db: Db, d: Db, added: seq<Event>, next: Db, e: Event, seen: int, before: seq<real>,
    solPrice: Option<real>, wallet: string, token: string) returns (worth: seq<real>)
    requires MovesBy(db, (d, added), before, solPrice, wallet, token)
    requires next.positions == Posted(d.positions, e, seen, solPrice)
    ensures MovesBy(db, (next, added + [e]), worth, solPrice, wallet, token)
  {
    var x := PostedMoves(d.positions, e, seen, solPrice, wallet, token);
    worth := before + [x];
    AllMovedMore(added, before, e, x, solPrice, wallet, token);
    hide Posted, TableTotals, AllMoved, IsWorth, Moved;
    var y := if HasWorth(e, solPrice) then Moved(e, x, wallet, token) else ZERO;
    hide HasWorth;
    PlusIsAssociative(TableTotals(db.positions, wallet, token), AllMoved(added, before, solPrice, wallet, token), y);
    assert TableTotals(next.positions, wallet, token) == Plus(TableTotals(d.positions, wallet, token), y);
    forall i | 0 <= i < |added| + 1 && HasWorth((added + [e])[i], solPrice)
      ensures IsWorth((added + [e])[i], solPrice, worth[i])
    {
      assert i < |added| ==> (added + [e])[i] == added[i] && worth[i] == before[i];
    }
  }

  lemma PlusIsAssociative(a: Totals, b: Totals, c: Totals)
    ensures Plus(Plus(a, b), c) == Plus(a, Plus(b, c)) && Plus(a, ZERO) == a
  {
  }

  /** The result of persisting moved the pair by what the reported trades are worth. */
  ghost predicate MovesBy(
    db: Db, r: (Db, seq<Event>), worth: seq<real>, solPrice: Option<real>, wallet: string, token: string)
  {
    && |worth| == |r.1|
    && (forall i :: 0 <= i < |r.1| && HasWorth(r.1[i], solPrice) ==> IsWorth(r.1[i], solPrice, worth[i]))
    && TableTotals(r.0.positions, wallet, token)
         == Plus(TableTotals(db.positions, wallet, token), AllMoved(r.1, worth, solPrice, wallet, token))
  }

  lemma HeaderKeepsPositions(db: Db, tx: Tx, seen: int)
    ensures Header(db, tx, seen).positions == db.positions
  {
  }

  /** Persisting a transaction moves every pair's token and SOL totals by exactly its new trades: one quoted
      in wrapped SOL by its quote, one quoted in a stable coin by the SOL that is worth the quote at the
      price, any other, or a stable one without a positive price, by nothing. */
  lemma PersistMovesTotals(
    db: Db, tx: Tx, clock: int, solPrice: Option<real>, wallet: string, token: string) returns (worth: seq<real>)
    ensures MovesBy(db, Persist(db, tx, clock, solPrice), worth, solPrice, wallet, token)
  {
    var seen := SeenAt(tx, clock);
    var header := Header(db, tx, seen);
    HeaderKeepsPositions(db, tx, seen);
    PlusIsAssociative(TableTotals(db.positions, wallet, token), ZERO, ZERO);
    assert AllMoved([], [], solPrice, wallet, token) == ZERO;
    hide Header, TableTotals, AllMoved, HasWorth, IsWorth, WithEvents;
    if tx.success {
      worth := EventsMove(header, tx, |tx.events|, seen, solPrice, wallet, token);
    } else {
      worth := [];
    }
  }

  /** A transaction whose one trade is new reports exactly it. */
  lemma OneNewTrade(db: Db, tx: Tx, clock: int, solPrice: Option<real>)
    requires tx.success && |tx.events| == 1 && IsNew(db, tx, tx.events[0], SeenAt(tx, clock))
    ensures Persist(db, tx, clock, solPrice).1 == [tx.events[0]]
  {
    var seen := SeenAt(tx, clock);
    HeaderTables(db, tx, seen);
    hide Header, WithEvent, TransactionsSay;
    assert WithEvents(Header(db, tx, seen), tx, 0, seen, solPrice) == (Header(db, tx, seen), []);
    OneMoreEvent(Header(db, tx, seen), tx, 0, seen, solPrice);
  }

  /** Such a trade, quoted in wrapped SOL, moves its pair by its tokens and its quote. */
  lemma OneNewSwap(db: Db, tx: Tx, clock: int, solPrice: Option<real>)
    requires tx.success && |tx.events| == 1 && IsNew(db, tx, tx.events[0], SeenAt(tx, clock))
    requires tx.events[0].quoteMint == WSOL_MINT
    ensures var e := tx.events[0];
      TableTotals(Persist(db, tx, clock, solPrice).0.positions, e.wallet, e.token)
        == Plus(TableTotals(db.positions, e.wallet, e.token),
                if e.buy then Totals(e.tokens, 0.0, e.quote, 0.0) else Totals(0.0, e.tokens, 0.0, e.quote))
  {
    var e := tx.events[0];
    OneNewTrade(db, tx, clock, solPrice);
    var worth := PersistMovesTotals(db, tx, clock, solPrice, e.wallet, e.token);
    assert |worth| == 1 && [e][0] == e && worth[0] == e.quote;
    hide Persist, TableTotals;
    MovedByOne(e, worth, solPrice);
  }

  lemma MovedByOne(e: Event, worth: seq<real>, solPrice: Option<real>)
    requires |worth| == 1 && worth[0] == e.quote && e.quoteMint == WSOL_MINT
    ensures AllMoved([e], worth, solPrice, e.wallet, e.token)
      == if e.buy then Totals(e.tokens, 0.0, e.quote, 0.0) else Totals(0.0, e.tokens, 0.0, e.quote)
  {
    assert HasWorth(e, solPrice);
    assert AllMoved([], [], solPrice, e.wallet, e.token) == ZERO;
    hide HasWorth, AllMoved;
    AllMovedMore([], [], e, e.quote, solPrice, e.wallet, e.token);
    assert [] + [e] == [e] && [] + [e.quote] == worth;
  }

  /** New trades without a value in SOL leave the positions as they are. */
  lemma {:induction false} UnvaluedLeavesPositions(db: Db, tx: Tx, clock: int, solPrice: Option<real>)
    requires forall i :: 0 <= i < |tx.events| ==> !HasWorth(tx.events[i], solPrice)
    ensures Persist(db, tx, clock, solPrice).0.positions == db.positions
  {
    var seen := SeenAt(tx, clock);
    var header := Header(db, tx, seen);
    HeaderKeepsPositions(db, tx, seen);
    hide Header, HasWorth, WithEvents;
    if tx.success { UnvaluedEvents(header, tx, |tx.events|, seen, solPrice); }
  }

  lemma {:induction false} UnvaluedEvents(db: Db, tx: Tx, n: nat, seen: int, solPrice: Option<real>)
    requires n <= |tx.events| && forall i :: 0 <= i < |tx.events| ==> !HasWorth(tx.events[i], solPrice)
    ensures WithEvents(db, tx, n, seen, solPrice).0.positions == db.positions
  {
    if n > 0 {
      UnvaluedEvents(db, tx, n - 1, seen, solPrice);
      var d := WithEvents(db, tx, n - 1, seen, solPrice).0;
      EventPosts(d, tx, tx.events[n - 1], seen, solPrice);
      var _ := PostedMoves(d.positions, tx.events[n - 1], seen, solPrice, "", "");
    }
  }

  // --- the delivered ledger is sound ---------------------------------------

  /** What a validated event promises: some tokens moved, for a quote that is not negative. */
  predicate EventOk(e: Event) { e.tokens > 0.0 && e.quote >= 0.0 }

  ghost predicate EventsOk(events: seq<Event>) {
    forall i :: 0 <= i < |events| ==> EventOk(events[i])
  }

  ghost predicate FeedOk(feed: seq<Delivery>) {
    forall i :: 0 <= i < |feed| ==> EventsOk(feed[i].tx.events)
  }

  lemma FillOfIsOk(e: Event, seen: int, solPrice: Option<real>)
    requires EventOk(e)
    ensures AllOk(FillOf(e, seen, solPrice))
  {
    if IsStable(e.quoteMint) && solPrice.Some? && solPrice.value > 0.0 {
      QuotientNotNegative(e.quote, solPrice.value);
    }
  }

  lemma QuotientNotNegative(x: real, y: real)
    requires x >= 0.0 && y > 0.0
    ensures x / y >= 0.0
  {
  }

  lemma {:induction false} FillsOfAreOk(added: seq<Event>, seen: int, solPrice: Option<real>)
    requires EventsOk(added)
    ensures AllOk(FillsOf(added, seen, solPrice))
  {
    if added != [] {
      FillsOfAreOk(added[..|added| - 1], seen, solPrice);
      FillOfIsOk(added[|added| - 1], seen, solPrice);
    }
  }

  lemma {:induction false} AddedAreOk(db: Db, tx: Tx, n: nat, seen: int, solPrice: Option<real>)
    requires n <= |tx.events| && EventsOk(tx.events)
    ensures EventsOk(WithEvents(db, tx, n, seen, solPrice).1)
  {
    if n > 0 { AddedAreOk(db, tx, n - 1, seen, solPrice); }
  }

  lemma {:induction false} FillsFedAreOk(db: Db, feed: seq<Delivery>)
    requires FeedOk(feed)
    ensures AllOk(FillsFed(db, feed))
  {
    if feed != [] {
      var n := |feed| - 1;
      var x := feed[n];
      FillsFedAreOk(db, feed[..n]);
      var d := Feed(db, feed[..n]).0;
      var seen := SeenAt(x.tx, x.clock);
      AddedAreOk(Header(d, x.tx, seen), x.tx, |x.tx.events|, seen, x.solPrice);
      FillsOfAreOk(Persist(d, x.tx, x.clock, x.solPrice).1, seen, x.solPrice);
    }
  }

  /** Whatever validated transactions are delivered, however often and in whatever order, the positions
      table has at most one open episode per wallet and token, and every open one holds more than dust
      of what it bought. */
  lemma DeliveredLedgerIsSound(feed: seq<Delivery>)
    requires FeedOk(feed)
    ensures TableOk(Feed(EMPTY, feed).0.positions)
  {
    PositionsAreTheLedger(feed);
    FillsFedAreOk(EMPTY, feed);
    LedgerIsSound(FillsFed(EMPTY, feed));
  }

  // --- what every table says afterwards --------------------------------------

  /** The row of a wallet: untouched unless sighted, otherwise its span stretched to the moment. */
  ghost predicate WalletSays(
    before: map<string, WalletRow>, after: map<string, WalletRow>, a: string, sighted: set<string>, seen: int)
  {
    if a !in sighted then (a in after <==> a in before) && (a in before ==> after[a] == before[a])
    else
      && a in after
      && (a !in before ==> after[a].firstSeen == seen == after[a].lastSeen)
      && (a in before ==>
            && after[a].firstSeen == (if seen < before[a].firstSeen then seen else before[a].firstSeen)
            && after[a].lastSeen == (if seen > before[a].lastSeen then seen else before[a].lastSeen))
  }

  /** One of the first n events trades the token. */
  ghost predicate Trades(tx: Tx, n: nat, token: string)
    requires n <= |tx.events|
  {
    exists k :: 0 <= k < n && tx.events[k].token == token
  }

  /** One of them is a launch-program event of a transaction that creates it. */
  ghost predicate Creates(tx: Tx, n: nat, token: string)
    requires n <= |tx.events|
  {
    tx.createLog && tx.payer != "" && exists k :: 0 <= k < n && tx.events[k].token == token && tx.events[k].dex == PUMPFUN
  }

  ghost predicate FirstToken(tx: Tx, n: nat, token: string, k: int)
    requires n <= |tx.events|
  {
    0 <= k < n && tx.events[k].token == token && !Trades(tx, k, token)
  }

  /** The row of a token: untouched unless traded.  A traded one was first seen at the moment or earlier,
      keeps its venue or takes that of its first event, and keeps its creator or, if it has none and is
      created here, takes the payer. */
  ghost predicate TokenSays(
    before: map<string, TokenRow>, after: map<string, TokenRow>, m: string, tx: Tx, n: nat, seen: int)
    requires n <= |tx.events|
  {
    if !Trades(tx, n, m) then (m in after <==> m in before) && (m in before ==> after[m] == before[m])
    else
      && m in after
      && (m in before ==>
            && after[m].firstSeen == (if seen < before[m].firstSeen then seen else before[m].firstSeen)
            && after[m].dex == before[m].dex)
      && (m !in before ==>
            after[m].firstSeen == seen && exists k :: FirstToken(tx, n, m, k) && after[m].dex == tx.events[k].dex)
      && after[m].creator
         == (if m in before && before[m].creator.Some? then before[m].creator
             else if Creates(tx, n, m) then Some(tx.payer) else None)
  }

  /** One of the first n events names the pool. */
  ghost predicate Names(tx: Tx, n: nat, pool: string)
    requires n <= |tx.events|
  {
    pool != "" && exists k :: 0 <= k < n && tx.events[k].pool == pool
  }

  ghost predicate FirstPool(tx: Tx, n: nat, pool: string, k: int)
    requires n <= |tx.events|
  {
    0 <= k < n && tx.events[k].pool == pool && !Names(tx, k, pool)
  }

  predicate PoolRowSays(row: PoolRow, e: Event, seen: int) {
    row.dex == e.dex && row.token == e.token && row.quoteMint == e.quoteMint && row.firstSeen == seen
  }

  /** A pool keeps its row; a new one is described by the first event that names it. */
  ghost predicate PoolSays(
    before: map<string, PoolRow>, after: map<string, PoolRow>, p: string, tx: Tx, n: nat, seen: int)
    requires n <= |tx.events|
  {
    && (p in after <==> p in before || Names(tx, n, p))
    && (p in before ==> after[p] == before[p])
    && (p in after && p !in before ==> exists k :: FirstPool(tx, n, p, k) && PoolRowSays(after[p], tx.events[k], seen))
  }

  /** One of the first n events has the index. */
  ghost predicate Indexed(tx: Tx, n: nat, index: nat)
    requires n <= |tx.events|
  {
    exists k :: 0 <= k < n && tx.events[k].index == index
  }

  ghost predicate FirstIndex(tx: Tx, n: nat, index: nat, k: int)
    requires n <= |tx.events|
  {
    0 <= k < n && tx.events[k].index == index && !Indexed(tx, k, index)
  }

  /** The row of a trade: a price is kept for SOL and stable quotes only, and its dollar price is the
      price at the SOL price, or the price itself for a stable quote, when both are known. */
  predicate RowSays(row: TradeRow, slot: int, e: Event, solPrice: Option<real>) {
    var stable := e.quoteMint == USDC_MINT || e.quoteMint == USDT_MINT;
    && row.slot == slot && row.event == e && row.solPriceUsd == solPrice
    && row.priceQuote == (if stable || e.quoteMint == WSOL_MINT then e.price else None)
    && (row.priceUsd.Some? <==> e.price.Some? && solPrice.Some? && (stable || e.quoteMint == WSOL_MINT))
    && (row.priceUsd.Some? && stable ==> row.priceUsd == e.price)
    && (row.priceUsd.Some? && !stable ==> row.priceUsd.value == e.price.value * solPrice.value)
  }

  /** A trade keeps its row; a new one is described by the first event of its index. */
  ghost predicate TradeSays(
    before: map<TradeKey, TradeRow>, after: map<TradeKey, TradeRow>, t: TradeKey, tx: Tx, n: nat, seen: int,
    solPrice: Option<real>)
    requires n <= |tx.events|
  {
    && (t in after <==> t in before || (t.signature == tx.signature && t.time == seen && Indexed(tx, n, t.index)))
    && (t in before ==> after[t] == before[t])
    && (t in after && t !in before ==>
          exists k :: FirstIndex(tx, n, t.index, k) && RowSays(after[t], tx.slot, tx.events[k], solPrice))
  }

  /** The payer and the wallets of the first n events. */
  ghost function Sighted(tx: Tx, n: nat): set<string>
    requires n <= |tx.events|
  {
    (if tx.payer != "" then {tx.payer} else {}) + set k | 0 <= k < n :: tx.events[k].wallet
  }

  ghost predicate WalletsSay(before: Db, after: Db, sighted: set<string>, seen: int) {
    forall a :: WalletSays(before.wallets, after.wallets, a, sighted, seen)
  }

  ghost predicate TokensSay(before: Db, after: Db, tx: Tx, n: nat, seen: int)
    requires n <= |tx.events|
  {
    forall m :: TokenSays(before.tokens, after.tokens, m, tx, n, seen)
  }

  ghost predicate PoolsSay(before: Db, after: Db, tx: Tx, n: nat, seen: int)
    requires n <= |tx.events|
  {
    forall p :: PoolSays(before.pools, after.pools, p, tx, n, seen)
  }

  ghost predicate TradesSay(before: Db, after: Db, tx: Tx, n: nat, seen: int, solPrice: Option<real>)
    requires n <= |tx.events|
  {
    forall t :: TradeSays(before.trades, after.trades, t, tx, n, seen, solPrice)
  }

  ghost predicate EventTablesSay(before: Db, after: Db, tx: Tx, n: nat, seen: int, solPrice: Option<real>)
    requires n <= |tx.events|
  {
    && WalletsSay(before, after, Sighted(tx, n), seen)
    && TokensSay(before, after, tx, n, seen)
    && PoolsSay(before, after, tx, n, seen)
    && TradesSay(before, after, tx, n, seen, solPrice)
  }

  /** A table says the same of a database that shares it. */
  lemma SharedTables(before: Db, d: Db, d': Db, tx: Tx, n: nat, seen: int, solPrice: Option<real>)
    requires n <= |tx.events|
    ensures d.wallets == d'.wallets ==>
      WalletsSay(before, d, Sighted(tx, n), seen) == WalletsSay(before, d', Sighted(tx, n), seen)
    ensures d.tokens == d'.tokens ==> TokensSay(before, d, tx, n, seen) == TokensSay(before, d', tx, n, seen)
    ensures d.pools == d'.pools ==> PoolsSay(before, d, tx, n, seen) == PoolsSay(before, d', tx, n, seen)
    ensures d.trades == d'.trades ==> TradesSay(before, d, tx, n, seen, solPrice) == TradesSay(before, d', tx, n, seen, solPrice)
  {
    hide WalletSays, TokenSays, PoolSays, TradeSays, Sighted;
  }

  lemma SightingSays(before: map<string, WalletRow>, db: Db, a: string, sighted: set<string>, address: string, seen: int)
    requires WalletSays(before, db.wallets, a, sighted, seen)
    ensures WalletSays(before, WithWallet(db, address, seen).wallets, a, sighted + {address}, seen)
  {
  }

  /** What one event does to the tokens. */
  function TokenStep(db: Db, tx: Tx, e: Event, seen: int): Db {
    var d := WithToken(db, e.token, seen, e.dex);
    if e.dex == PUMPFUN && tx.createLog && tx.payer != "" then WithCreator(d, e.token, tx.payer) else d
  }

  lemma OneMoreTraded(tx: Tx, n: nat, m: string)
    requires n < |tx.events|
    ensures Trades(tx, n + 1, m) <==> Trades(tx, n, m) || tx.events[n].token == m
    ensures Creates(tx, n + 1, m) <==>
      Creates(tx, n, m) || (tx.createLog && tx.payer != "" && tx.events[n].token == m && tx.events[n].dex == PUMPFUN)
    ensures Creates(tx, n, m) ==> Trades(tx, n, m)
  {
  }

  lemma TokenRowSays(db: Db, mint: string, seen: int, dex: string, m: string)
    ensures var t := WithToken(db, mint, seen, dex).tokens;
      if m != mint then (m in t <==> m in db.tokens) && (m in t ==> t[m] == db.tokens[m])
      else
        && m in t
        && (m in db.tokens ==>
              && t[m].firstSeen == (if seen < db.tokens[m].firstSeen then seen else db.tokens[m].firstSeen)
              && t[m].dex == db.tokens[m].dex && t[m].creator == db.tokens[m].creator)
        && (m !in db.tokens ==> t[m].firstSeen == seen && t[m].dex == dex && t[m].creator.None?)
  {
  }

  lemma CreatorRowSays(db: Db, mint: string, creator: string, m: string)
    requires mint in db.tokens
    ensures var t := WithCreator(db, mint, creator).tokens;
      && (m in t <==> m in db.tokens)
      && (m in t && m != mint ==> t[m] == db.tokens[m])
      && t[mint].firstSeen == db.tokens[mint].firstSeen && t[mint].dex == db.tokens[mint].dex
      && t[mint].creator == if db.tokens[mint].creator.Some? then db.tokens[mint].creator else Some(creator)
  {
  }

  lemma TokenStepRow(db: Db, tx: Tx, e: Event, seen: int, m: string)
    ensures var t := TokenStep(db, tx, e, seen).tokens;
      if m != e.token then (m in t <==> m in db.tokens) && (m in t ==> t[m] == db.tokens[m])
      else
        && m in t
        && (m in db.tokens ==>
              && t[m].firstSeen == (if seen < db.tokens[m].firstSeen then seen else db.tokens[m].firstSeen)
              && t[m].dex == db.tokens[m].dex)
        && (m !in db.tokens ==> t[m].firstSeen == seen && t[m].dex == e.dex)
        && t[m].creator
           == (if m in db.tokens && db.tokens[m].creator.Some? then db.tokens[m].creator
               else if e.dex == PUMPFUN && tx.createLog && tx.payer != "" then Some(tx.payer) else None)
  {
    TokenRowSays(db, e.token, seen, e.dex, m);
    TokenRowSays(db, e.token, seen, e.dex, e.token);
    CreatorRowSays(WithToken(db, e.token, seen, e.dex), e.token, tx.payer, m);
    hide WithToken, WithCreator;
  }

  lemma TokenStepSays(before: map<string, TokenRow>, db: Db, m: string, tx: Tx, n: nat, seen: int)
    requires n < |tx.events| && TokenSays(before, db.tokens, m, tx, n, seen)
    ensures TokenSays(before, TokenStep(db, tx, tx.events[n], seen).tokens, m, tx, n + 1, seen)
  {
    OneMoreTraded(tx, n, m);
    TokenStepRow(db, tx, tx.events[n], seen, m);
    hide Trades, Creates, TokenStep;
    if m !in before && Trades(tx, n, m) {
      var k :| FirstToken(tx, n, m, k) && db.tokens[m].dex == tx.events[k].dex;
      assert FirstToken(tx, n + 1, m, k);
    } else if m !in before && tx.events[n].token == m {
      assert FirstToken(tx, n + 1, m, n);
    }
  }

  lemma OneMoreNamed(tx: Tx, n: nat, p: string)
    requires n < |tx.events|
    ensures Names(tx, n + 1, p) <==> Names(tx, n, p) || (p != "" && tx.events[n].pool == p)
  {
  }

  lemma PoolStepRow(db: Db, e: Event, seen: int, p: string)
    ensures var t := WithPool(db, e, seen).pools;
      && (p in t <==> p in db.pools || p == e.pool != "")
      && (p in db.pools ==> t[p] == db.pools[p])
      && (p in t && p !in db.pools ==> PoolRowSays(t[p], e, seen))
  {
  }

  lemma PoolStepSays(before: map<string, PoolRow>, db: Db, p: string, tx: Tx, n: nat, seen: int)
    requires n < |tx.events| && PoolSays(before, db.pools, p, tx, n, seen)
    ensures PoolSays(before, WithPool(db, tx.events[n], seen).pools, p, tx, n + 1, seen)
  {
    OneMoreNamed(tx, n, p);
    PoolStepRow(db, tx.events[n], seen, p);
    hide Names, PoolRowSays, WithPool;
    if p !in before && Names(tx, n, p) {
      var k :| FirstPool(tx, n, p, k) && PoolRowSays(db.pools[p], tx.events[k], seen);
      assert FirstPool(tx, n + 1, p, k);
    } else if p !in before && p == tx.events[n].pool != "" {
      assert FirstPool(tx, n + 1, p, n);
    }
  }

  lemma OneMoreIndexed(tx: Tx, n: nat, index: nat)
    requires n < |tx.events|
    ensures Indexed(tx, n + 1, index) <==> Indexed(tx, n, index) || tx.events[n].index == index
  {
  }

  lemma RowOfEvent(tx: Tx, e: Event, solPrice: Option<real>)
    ensures RowSays(TradeRowOf(tx, e, solPrice), tx.slot, e, solPrice)
  {
  }

  lemma TradeStepRow(db: Db, tx: Tx, e: Event, seen: int, solPrice: Option<real>, t: TradeKey)
    ensures var d := WithTrade(db, tx, e, seen, solPrice).trades;
      && (t in d <==> t in db.trades || t == TradeKey(tx.signature, e.index, seen))
      && (t in db.trades ==> d[t] == db.trades[t])
      && (t in d && t !in db.trades ==> RowSays(d[t], tx.slot, e, solPrice))
  {
    RowOfEvent(tx, e, solPrice);
    hide RowSays, TradeRowOf, Posted;
  }

  lemma TradeStepSays(
    before: map<TradeKey, TradeRow>, db: Db, t: TradeKey, tx: Tx, n: nat, seen: int, solPrice: Option<real>)
    requires n < |tx.events| && TradeSays(before, db.trades, t, tx, n, seen, solPrice)
    ensures TradeSays(before, WithTrade(db, tx, tx.events[n], seen, solPrice).trades, t, tx, n + 1, seen, solPrice)
  {
    OneMoreIndexed(tx, n, t.index);
    TradeStepRow(db, tx, tx.events[n], seen, solPrice, t);
    hide Indexed, RowSays, WithTrade;
    if t !in before && t in db.trades {
      var k :| FirstIndex(tx, n, t.index, k) && RowSays(db.trades[t], tx.slot, tx.events[k], solPrice);
      assert FirstIndex(tx, n + 1, t.index, k);
    } else if t !in before && t == TradeKey(tx.signature, tx.events[n].index, seen) {
      assert FirstIndex(tx, n + 1, t.index, n);
    }
  }

  /** Each part of an event's recording leaves the other tables alone. */
  predicate SameRows(d: Db, after: Db) { after.transactions == d.transactions && after.failed == d.failed }

  lemma SightingKeeps(d: Db, address: string, seen: int)
    ensures var after := WithWallet(d, address, seen);
      after.tokens == d.tokens && after.pools == d.pools && after.trades == d.trades && SameRows(d, after)
  {
  }

  lemma TokenStepKeeps(d: Db, tx: Tx, e: Event, seen: int)
    ensures var after := TokenStep(d, tx, e, seen);
      after.wallets == d.wallets && after.pools == d.pools && after.trades == d.trades && SameRows(d, after)
  {
  }

  lemma PoolStepKeeps(d: Db, e: Event, seen: int)
    ensures var after := WithPool(d, e, seen);
      after.wallets == d.wallets && after.tokens == d.tokens && after.trades == d.trades && SameRows(d, after)
  {
  }

  lemma TradeStepKeeps(d: Db, tx: Tx, e: Event, seen: int, solPrice: Option<real>)
    ensures var after := WithTrade(d, tx, e, seen, solPrice);
      after.wallets == d.wallets && after.tokens == d.tokens && after.pools == d.pools && SameRows(d, after)
  {
    hide TradeRowOf, Posted;
  }

  lemma EventInSteps(d: Db, tx: Tx, e: Event, seen: int, solPrice: Option<real>)
    ensures var d1 := if e.wallet == tx.payer && tx.payer != "" then d else WithWallet(d, e.wallet, seen);
      WithEvent(d, tx, e, seen, solPrice) == WithTrade(WithPool(TokenStep(d1, tx, e, seen), e, seen), tx, e, seen, solPrice)
  {
    hide WithWallet, WithToken, WithCreator, WithPool, WithTrade;
  }

  lemma NextEventSays(before: Db, d: Db, tx: Tx, n: nat, seen: int, solPrice: Option<real>)
    requires n < |tx.events| && EventTablesSay(before, d, tx, n, seen, solPrice)
    ensures EventTablesSay(before, WithEvent(d, tx, tx.events[n], seen, solPrice), tx, n + 1, seen, solPrice)
  {
    hide WithEvent, WalletsSay, TokensSay, PoolsSay, TradesSay, Sighted, TokenStep, WithWallet, WithPool, WithTrade;
    var e := tx.events[n];
    EventInSteps(d, tx, e, seen, solPrice);
    var d1 := if e.wallet == tx.payer && tx.payer != "" then d else WithWallet(d, e.wallet, seen);
    var d3 := WithPool(TokenStep(d1, tx, e, seen), e, seen);
    TablesAfterSighting(before, d, d1, tx, n, seen, solPrice);
    TokenStepKeeps(d1, tx, e, seen);
    TokensNext(before, d1, tx, n, seen);
    PoolStepKeeps(TokenStep(d1, tx, e, seen), e, seen);
    TablesAfterTokens(before, d1, TokenStep(d1, tx, e, seen), d3, tx, n, seen, solPrice);
    TablesAfterTrade(before, d3, WithTrade(d3, tx, e, seen, solPrice), tx, n, seen, solPrice);
  }

  lemma TablesAfterSighting(before: Db, d: Db, d1: Db, tx: Tx, n: nat, seen: int, solPrice: Option<real>)
    requires n < |tx.events| && WalletsSay(before, d, Sighted(tx, n), seen) && TokensSay(before, d, tx, n, seen)
    requires PoolsSay(before, d, tx, n, seen) && TradesSay(before, d, tx, n, seen, solPrice)
    requires var e := tx.events[n]; d1 == if e.wallet == tx.payer && tx.payer != "" then d else WithWallet(d, e.wallet, seen)
    ensures WalletsSay(before, d1, Sighted(tx, n + 1), seen) && TokensSay(before, d1, tx, n, seen)
    ensures PoolsSay(before, d1, tx, n, seen) && TradesSay(before, d1, tx, n, seen, solPrice)
  {
    hide *;
    SightingKeeps(d, tx.events[n].wallet, seen);
    WalletsNext(before, d, tx, n, seen);
    SharedTables(before, d, d1, tx, n, seen, solPrice);
  }

  lemma TablesAfterTrade(before: Db, d3: Db, d4: Db, tx: Tx, n: nat, seen: int, solPrice: Option<real>)
    requires n < |tx.events| && WalletsSay(before, d3, Sighted(tx, n + 1), seen) && TokensSay(before, d3, tx, n + 1, seen)
    requires PoolsSay(before, d3, tx, n + 1, seen) && TradesSay(before, d3, tx, n, seen, solPrice)
    requires d4 == WithTrade(d3, tx, tx.events[n], seen, solPrice)
    ensures EventTablesSay(before, d4, tx, n + 1, seen, solPrice)
  {
    hide WalletsSay, TokensSay, PoolsSay, TradesSay, Sighted, WithTrade;
    TradeStepKeeps(d3, tx, tx.events[n], seen, solPrice);
    TradesNext(before, d3, tx, n, seen, solPrice);
    SharedTables(before, d3, d4, tx, n + 1, seen, solPrice);
  }

  /** From the tokens of an event to its pool. */
  lemma TablesAfterTokens(before: Db, d1: Db, d2: Db, d3: Db, tx: Tx, n: nat, seen: int, solPrice: Option<real>)
    requires n < |tx.events|
    requires d2.wallets == d1.wallets && d2.pools == d1.pools && d2.trades == d1.trades
    requires d3.wallets == d2.wallets && d3.tokens == d2.tokens && d3.trades == d2.trades
    requires d3 == WithPool(d2, tx.events[n], seen)
    requires WalletsSay(before, d1, Sighted(tx, n + 1), seen) && TokensSay(before, d2, tx, n + 1, seen)
    requires PoolsSay(before, d1, tx, n, seen) && TradesSay(before, d1, tx, n, seen, solPrice)
    ensures WalletsSay(before, d3, Sighted(tx, n + 1), seen) && TokensSay(before, d3, tx, n + 1, seen)
    ensures PoolsSay(before, d3, tx, n + 1, seen) && TradesSay(before, d3, tx, n, seen, solPrice)
  {
    hide WalletsSay, TokensSay, PoolsSay, TradesSay, Sighted, WithPool;
    SharedTables(before, d1, d2, tx, n, seen, solPrice);
    PoolsNext(before, d2, tx, n, seen);
    SharedTables(before, d1, d3, tx, n, seen, solPrice);
    SharedTables(before, d1, d3, tx, n + 1, seen, solPrice);
    SharedTables(before, d2, d3, tx, n + 1, seen, solPrice);
  }

  lemma WalletsNext(before: Db, d: Db, tx: Tx, n: nat, seen: int)
    requires n < |tx.events| && WalletsSay(before, d, Sighted(tx, n), seen)
    ensures var e := tx.events[n];
      var after := if e.wallet == tx.payer && tx.payer != "" then d else WithWallet(d, e.wallet, seen);
      WalletsSay(before, after, Sighted(tx, n + 1), seen)
  {
    var e, was, sighted := tx.events[n], Sighted(tx, n), Sighted(tx, n + 1);
    assert sighted == was + {e.wallet};
    assert e.wallet == tx.payer && tx.payer != "" ==> was + {e.wallet} == was;
    hide WalletSays, Sighted, WithWallet;
    var after := WithWallet(d, e.wallet, seen);
    forall a ensures WalletSays(before.wallets, after.wallets, a, sighted, seen) {
      SightingSays(before.wallets, d, a, was, e.wallet, seen);
    }
  }

  lemma TokensNext(before: Db, d: Db, tx: Tx, n: nat, seen: int)
    requires n < |tx.events| && TokensSay(before, d, tx, n, seen)
    ensures TokensSay(before, TokenStep(d, tx, tx.events[n], seen), tx, n + 1, seen)
  {
    hide TokenSays, TokenStep;
    var after, next := TokenStep(d, tx, tx.events[n], seen).tokens, n + 1;
    forall m ensures TokenSays(before.tokens, after, m, tx, next, seen) {
      TokenStepSays(before.tokens, d, m, tx, n, seen);
    }
  }

  lemma PoolsNext(before: Db, d: Db, tx: Tx, n: nat, seen: int)
    requires n < |tx.events| && PoolsSay(before, d, tx, n, seen)
    ensures PoolsSay(before, WithPool(d, tx.events[n], seen), tx, n + 1, seen)
  {
    hide PoolSays, WithPool;
    var after, next := WithPool(d, tx.events[n], seen).pools, n + 1;
    forall p ensures PoolSays(before.pools, after, p, tx, next, seen) {
      PoolStepSays(before.pools, d, p, tx, n, seen);
    }
  }

  lemma TradesNext(before: Db, d: Db, tx: Tx, n: nat, seen: int, solPrice: Option<real>)
    requires n < |tx.events| && TradesSay(before, d, tx, n, seen, solPrice)
    ensures TradesSay(before, WithTrade(d, tx, tx.events[n], seen, solPrice), tx, n + 1, seen, solPrice)
  {
    hide TradeSays, WithTrade;
    var after, next := WithTrade(d, tx, tx.events[n], seen, solPrice).trades, n + 1;
    forall t ensures TradeSays(before.trades, after, t, tx, next, seen, solPrice) {
      TradeStepSays(before.trades, d, t, tx, n, seen, solPrice);
    }
  }

  lemma {:induction false} EventsSay(db: Db, before: Db, tx: Tx, n: nat, seen: int, solPrice: Option<real>)
    requires n <= |tx.events| && EventTablesSay(before, db, tx, 0, seen, solPrice)
    ensures EventTablesSay(before, WithEvents(db, tx, n, seen, solPrice).0, tx, n, seen, solPrice)
    ensures WithEvents(db, tx, n, seen, solPrice).0.failed == db.failed
    ensures WithEvents(db, tx, n, seen, solPrice).0.transactions == db.transactions
  {
    hide WithEvent, EventTablesSay;
    if n > 0 {
      var d, e := WithEvents(db, tx, n - 1, seen, solPrice).0, tx.events[n - 1];
      EventsSay(db, before, tx, n - 1, seen, solPrice);
      NextEventSays(before, d, tx, n - 1, seen, solPrice);
      EventKeepsRows(d, tx, e, seen, solPrice);
    }
  }

  lemma EventKeepsRows(d: Db, tx: Tx, e: Event, seen: int, solPrice: Option<real>)
    ensures WithEvent(d, tx, e, seen, solPrice).failed == d.failed
    ensures WithEvent(d, tx, e, seen, solPrice).transactions == d.transactions
  {
    EventInSteps(d, tx, e, seen, solPrice);
    hide WithEvent, TokenStep, WithWallet, WithPool, WithTrade;
    var d1 := if e.wallet == tx.payer && tx.payer != "" then d else WithWallet(d, e.wallet, seen);
    var d2 := TokenStep(d1, tx, e, seen);
    SightingKeeps(d, e.wallet, seen);
    TokenStepKeeps(d1, tx, e, seen);
    PoolStepKeeps(d2, e, seen);
    TradeStepKeeps(WithPool(d2, e, seen), tx, e, seen, solPrice);
  }

  /** The row of a transaction is written once. */
  ghost predicate TransactionsSay(
    before: map<(string, int), TxRow>, after: map<(string, int), TxRow>, written: bool, tx: Tx, seen: int)
  {
    && after.Keys == before.Keys + (if written then {(tx.signature, seen)} else {})
    && (forall t :: t in before ==> after[t] == before[t])
    && forall t :: t in after && t !in before ==>
         after[t].slot == tx.slot && after[t].payer == tx.payer && after[t].success == tx.success
  }

  /** What the tables say after a transaction, row by row.  Everything is stamped with its block time, or
      with the clock if it has none; a failed one leaves no more than its payer and its own two rows. */
  lemma {:induction false} PersistSays(db: Db, tx: Tx, clock: int, solPrice: Option<real>) returns (seen: int)
    ensures match tx.blockTime
      case Some(time) => seen == time
      case None => seen == clock
    ensures var d, n := Persist(db, tx, clock, solPrice).0, if tx.success then |tx.events| else 0;
      && EventTablesSay(db, d, tx, n, seen, solPrice)
      && TransactionsSay(db.transactions, d.transactions, true, tx, seen)
      && TransactionsSay(db.failed, d.failed, !tx.success, tx, seen)
  {
    seen := SeenAt(tx, clock);
    HeaderSays(db, tx, seen, solPrice);
    hide Header, WithEvents, EventTablesSay, TransactionsSay;
    if tx.success {
      EventsSay(Header(db, tx, seen), db, tx, |tx.events|, seen, solPrice);
    }
  }

  lemma HeaderTables(db: Db, tx: Tx, seen: int)
    ensures var d := Header(db, tx, seen);
      && d.tokens == db.tokens && d.pools == db.pools && d.trades == db.trades
      && d.wallets == (if tx.payer != "" then WithWallet(db, tx.payer, seen).wallets else db.wallets)
      && TransactionsSay(db.transactions, d.transactions, true, tx, seen)
      && TransactionsSay(db.failed, d.failed, !tx.success, tx, seen)
  {
    var d1 := if tx.payer != "" then WithWallet(db, tx.payer, seen) else db;
    var d2 := if tx.success then d1 else WithFailed(d1, tx, seen);
    WalletKeepsOthers(db, tx.payer, seen);
    FailedSays(d1, tx, seen);
    TransactionSays(d2, tx, seen);
    hide WithWallet, WithFailed, WithTransaction, TransactionsSay;
  }

  lemma FailedSays(db: Db, tx: Tx, seen: int)
    ensures WithFailed(db, tx, seen) == db.(failed := WithFailed(db, tx, seen).failed)
    ensures TransactionsSay(db.failed, WithFailed(db, tx, seen).failed, true, tx, seen)
    ensures TransactionsSay(db.failed, db.failed, false, tx, seen)
  {
  }

  lemma TransactionSays(db: Db, tx: Tx, seen: int)
    ensures WithTransaction(db, tx, seen) == db.(transactions := WithTransaction(db, tx, seen).transactions)
    ensures TransactionsSay(db.transactions, WithTransaction(db, tx, seen).transactions, true, tx, seen)
  {
  }

  lemma WalletKeepsOthers(db: Db, address: string, seen: int)
    ensures WithWallet(db, address, seen) == db.(wallets := WithWallet(db, address, seen).wallets)
  {
  }

  lemma HeaderSays(db: Db, tx: Tx, seen: int, solPrice: Option<real>)
    ensures var d := Header(db, tx, seen);
      && EventTablesSay(db, d, tx, 0, seen, solPrice)
      && TransactionsSay(db.transactions, d.transactions, true, tx, seen)
      && TransactionsSay(db.failed, d.failed, !tx.success, tx, seen)
  {
    HeaderTables(db, tx, seen);
    hide Header, TransactionsSay;
    forall a ensures WalletSays(db.wallets, Header(db, tx, seen).wallets, a, Sighted(tx, 0), seen) {
      assert WalletSays(db.wallets, db.wallets, a, {}, seen);
      SightingSays(db.wallets, db, a, {}, tx.payer, seen);
      assert Sighted(tx, 0) == if tx.payer != "" then {} + {tx.payer} else {};
    }
  }
}
