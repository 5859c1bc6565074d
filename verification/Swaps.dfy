/** Swap inference from balance changes (ingestion/parsers/util.py). */
module Swaps {
  import opened Numbers
  import opened Options
  import opened Sorting

  /** The three quote mints by name, any other token by its address. */
  datatype Mint = Wsol | Usdc | Usdt | Token(address: string)

  /** One row of a token-balance list; a missing owner is the empty text. */
  datatype Balance = Balance(owner: string, mint: Option<Mint>, amount: Option<int>, decimals: nat)

  datatype AccountKey = AccountKey(pubkey: string, signer: bool)

  datatype Transaction = Transaction(
    success: bool, pre: seq<Balance>, post: seq<Balance>,
    statics: seq<AccountKey>, loaded: seq<string>,
    preLamports: seq<int>, postLamports: seq<int>, fee: int)

  type Holding = (string, Mint)

  // --- token balances ------------------------------------------------------

  function Pow10(n: nat): real
    ensures Pow10(n) > 0.0
  {
    if n == 0 then 1.0 else 10.0 * Pow10(n - 1)
  }

  predicate Counted(e: Balance) { e.owner != "" && e.mint.Some? && e.amount.Some? }

  function HoldingOf(e: Balance): Holding
    requires Counted(e)
  {
    (e.owner, e.mint.value)
  }

  function UiAmount(e: Balance): real
    requires Counted(e)
  {
    e.amount.value as real / Pow10(e.decimals)
  }

  /** What one row adds to a holding. */
  function Part(e: Balance, h: Holding): real {
    if Counted(e) && HoldingOf(e) == h then UiAmount(e) else 0.0
  }

  /** The total of a holding over all token accounts listed. */
  function Held(entries: seq<Balance>, h: Holding): real {
    if entries == [] then 0.0 else Held(entries[..|entries| - 1], h) + Part(entries[|entries| - 1], h)
  }

  /** The net change of a holding. */
  function Net(tx: Transaction, h: Holding): real { Held(tx.post, h) - Held(tx.pre, h) }

  function Lookup(m: map<Holding, real>, h: Holding): real { if h in m then m[h] else 0.0 }

  function Signed(add: bool, x: real): real { if add then x else -x }

  /** The dictionary after one row. */
  function AddOne(m: map<Holding, real>, e: Balance, add: bool): map<Holding, real> {
    if !Counted(e) then m else m[HoldingOf(e) := Lookup(m, HoldingOf(e)) + Signed(add, UiAmount(e))]
  }

  function AddAll(m: map<Holding, real>, entries: seq<Balance>, add: bool): map<Holding, real> {
    if entries == [] then m else AddOne(AddAll(m, entries[..|entries| - 1], add), entries[|entries| - 1], add)
  }

  function NonZero(m: map<Holding, real>): map<Holding, real> { map h | h in m && m[h] != 0.0 :: m[h] }

  function Deltas(tx: Transaction): map<Holding, real> {
    NonZero(AddAll(AddAll(map[], tx.post, true), tx.pre, false))
  }

  method Accumulate(deltas: map<Holding, real>, entries: seq<Balance>, add: bool) returns (m: map<Holding, real>)
    ensures m == AddAll(deltas, entries, add)
  {
    m := deltas;
    var i := 0;
    while i < |entries|
      invariant 0 <= i <= |entries|
      invariant m == AddAll(deltas, entries[..i], add)
    {
      assert entries[..i + 1][..i] == entries[..i];
      var e := entries[i];
      i := i + 1;
      if !Counted(e) {
        continue;
      }
      m := m[HoldingOf(e) := Lookup(m, HoldingOf(e)) + Signed(add, UiAmount(e))];
    }
    assert entries[..i] == entries;
  }

  lemma {:induction false} AddAllMeans(m: map<Holding, real>, entries: seq<Balance>, add: bool, h: Holding)
    ensures Lookup(AddAll(m, entries, add), h) == Lookup(m, h) + Signed(add, Held(entries, h))
  {
    if entries != [] {
      AddAllMeans(m, entries[..|entries| - 1], add, h);
    }
  }

  /** The dictionary holds exactly the holdings whose net change is not zero, with that change. */
  lemma DeltasAreNets(tx: Transaction, h: Holding)
    ensures h in Deltas(tx) <==> Net(tx, h) != 0.0
    ensures h in Deltas(tx) ==> Deltas(tx)[h] == Net(tx, h)
    ensures Lookup(Deltas(tx), h) == Net(tx, h)
  {
    AddAllMeans(map[], tx.post, true, h);
    AddAllMeans(AddAll(map[], tx.post, true), tx.pre, false, h);
  }

  method TokenBalanceDeltas(tx: Transaction) returns (deltas: map<Holding, real>)
    ensures deltas == Deltas(tx)
    ensures forall h :: h in deltas <==> Net(tx, h) != 0.0
    ensures forall h :: h in deltas ==> deltas[h] == Net(tx, h)
  {
    deltas := Accumulate(map[], tx.post, true);
    deltas := Accumulate(deltas, tx.pre, false);
    deltas := NonZero(deltas);
    forall h ensures (h in deltas <==> Net(tx, h) != 0.0) && (h in deltas ==> deltas[h] == Net(tx, h)) {
      DeltasAreNets(tx, h);
    }
  }

  lemma HeldOfOneMore(entries: seq<Balance>, e: Balance, h: Holding)
    ensures Held(entries + [e], h) == Held(entries, h) + Part(e, h)
  {
    assert (entries + [e])[..|entries|] == entries;
  }

  lemma {:induction false} HeldWithout(entries: seq<Balance>, i: nat, h: Holding)
    requires i < |entries|
    ensures Held(entries, h) == Held(entries[..i] + entries[i + 1..], h) + Part(entries[i], h)
  {
    hide Part;
    var n := |entries| - 1;
    if i == n {
      assert entries[..i] + entries[i + 1..] == entries[..n];
    } else {
      HeldWithout(entries[..n], i, h);
      var front := entries[..n][..i] + entries[..n][i + 1..];
      HeldOfOneMore(front, entries[n], h);
      assert front + [entries[n]] == entries[..i] + entries[i + 1..];
    }
  }

  /** The order in which token accounts are listed does not matter. */
  lemma {:induction false} HeldOfPermutation(a: seq<Balance>, b: seq<Balance>, h: Holding)
    requires multiset(a) == multiset(b)
    ensures Held(a, h) == Held(b, h)
  {
    hide Part;
    if a == [] {
      assert |multiset(b)| == |multiset(a)|;
    } else {
      var n := |a| - 1;
      assert a[n] in multiset(b);
      var i :| 0 <= i < |b| && b[i] == a[n];
      HeldWithout(b, i, h);
      Without(a, n);
      Without(b, i);
      assert a[..n] + a[n + 1..] == a[..n];
      Cancel(multiset(a[..n]), multiset(b[..i] + b[i + 1..]), a[n]);
      HeldOfPermutation(a[..n], b[..i] + b[i + 1..], h);
    }
  }

  lemma TenthOf(x: real, p: real)
    requires p > 0.0
    ensures 10.0 * (x / (10.0 * p)) == x / p
  {
    QuotientTimes(x, 10.0 * p);
    QuotientTimes(x, p);
    var u, v := x / (10.0 * p), x / p;
    assert (10.0 * u - v) * p == 0.0;
  }

  /** The amount of a row is its raw amount with the decimal point moved left once for each decimal. */
  lemma AmountMeans(e: Balance)
    requires Counted(e)
    ensures e.decimals == 0 ==> UiAmount(e) == e.amount.value as real
    ensures e.decimals > 0 ==> 10.0 * UiAmount(e) == UiAmount(e.(decimals := e.decimals - 1))
  {
    if e.decimals > 0 { TenthOf(e.amount.value as real, Pow10(e.decimals - 1)); }
  }

  /** What one more row adds to the total of a holding: its amount if it is the holding's, and nothing when
      its owner, mint or amount is missing. */
  lemma RowCounts(entries: seq<Balance>, e: Balance, h: Holding)
    ensures Held([], h) == 0.0
    ensures e.owner == "" || e.mint.None? || e.amount.None? ==> Held(entries + [e], h) == Held(entries, h)
    ensures e.owner != "" && e.mint.Some? && e.amount.Some? ==>
      && Counted(e)
      && Held(entries + [e], h) - Held(entries, h) == if e.owner == h.0 && e.mint.value == h.1 then UiAmount(e) else 0.0
  {
    hide UiAmount;
    assert (entries + [e])[..|entries|] == entries;
  }

  // --- native lamports -----------------------------------------------------

  const JITO_TIP_ACCOUNTS: set<string> := {
    "96gYZGLnJYVFmbjzopPSU6QiEV5fGqZNyN9nmNhvrZU5",
    "HFqU5x63VTqvQss8hp11i4wVV8bD44PvwucfZ2bU7gRe",
    "Cw8CFyM9FkoMi7K7Crf6HNQqf4uEMzpKw6QNghXLvLkY",
    "ADaUMid9yfUytqMBgopwjb2DTLSokTSzL1zt6iGPaS49",
    "DfXygSm4jCyNCybVYYK6DwvWqjKee8pbDmJGcLWNDXjh",
    "ADuUkR4vqLUMWXxW9gh6D6L8pMSawimctcNZ5pGwDcEt",
    "DttWaMuVvTiduZRnguLF7jNxTgiMBZ1hyAumKUiL2KRL",
    "3AVi9Tg9Uo68tJfuvoKvqKNWKkC5wPdSSdeBnizKZ6jT"
  }

  function Pubkeys(keys: seq<AccountKey>): seq<string> {
    seq(|keys|, i requires 0 <= i < |keys| => keys[i].pubkey)
  }

  function Keys(tx: Transaction): seq<string> { Pubkeys(tx.statics) + tx.loaded }

  function FirstSigner(keys: seq<AccountKey>): Option<string> {
    if keys == [] then None else if keys[0].signer then Some(keys[0].pubkey) else FirstSigner(keys[1..])
  }

  function FeePayer(tx: Transaction): string {
    match FirstSigner(tx.statics)
    case Some(key) => key
    case None => if Keys(tx) != [] then Keys(tx)[0] else ""
  }

  /** The fee payer is the first signer among the static keys, and without one the first key of all. */
  lemma {:induction false} PayerIsFirstSigner(tx: Transaction, k: nat)
    requires k <= |tx.statics| && forall j :: 0 <= j < k ==> !tx.statics[j].signer
    requires k < |tx.statics| ==> tx.statics[k].signer
    ensures k < |tx.statics| ==> FeePayer(tx) == tx.statics[k].pubkey
    ensures k == |tx.statics| > 0 ==> FeePayer(tx) == tx.statics[0].pubkey
    ensures k == |tx.statics| == 0 < |tx.loaded| ==> FeePayer(tx) == tx.loaded[0]
    ensures k == |tx.statics| == |tx.loaded| == 0 ==> FeePayer(tx) == ""
  {
    SignerAt(tx.statics, k);
  }

  lemma {:induction false} SignerAt(keys: seq<AccountKey>, k: nat)
    requires k <= |keys| && forall j :: 0 <= j < k ==> !keys[j].signer
    requires k < |keys| ==> keys[k].signer
    ensures FirstSigner(keys) == if k < |keys| then Some(keys[k].pubkey) else None
  {
    if k > 0 { SignerAt(keys[1..], k - 1); }
  }

  function Bound(tx: Transaction): nat {
    if |tx.preLamports| < |tx.postLamports| then |tx.preLamports| else |tx.postLamports|
  }

  function Change(tx: Transaction, i: nat): int
    requires i < Bound(tx)
  {
    tx.postLamports[i] - tx.preLamports[i]
  }

  /** The lamport change of an owner over its first n account slots. */
  function Own(tx: Transaction, owner: string, n: nat): int
    requires n <= |Keys(tx)|
  {
    if n == 0 then 0
    else Own(tx, owner, n - 1) + (if Keys(tx)[n - 1] == owner && n - 1 < Bound(tx) then Change(tx, n - 1) else 0)
  }

  /** What the tip accounts among the first n slots gained. */
  function Tips(tx: Transaction, n: nat): int
    requires n <= |Keys(tx)|
  {
    if n == 0 then 0
    else
      Tips(tx, n - 1)
      + (if Keys(tx)[n - 1] in JITO_TIP_ACCOUNTS && n - 1 < Bound(tx) && Change(tx, n - 1) > 0 then Change(tx, n - 1) else 0)
  }

  function NativeLamports(tx: Transaction, owner: string): int {
    Own(tx, owner, |Keys(tx)|) + (if owner == FeePayer(tx) then tx.fee + Tips(tx, |Keys(tx)|) else 0)
  }

  function Native(tx: Transaction, owner: string): real { NativeLamports(tx, owner) as real / 1_000_000_000.0 }

  method NativeSolDelta(tx: Transaction, owner: string) returns (sol: real)
    ensures sol == Native(tx, owner)
  {
    var keys := Keys(tx);
    var lamports := 0;
    var i := 0;
    while i < |keys|
      invariant 0 <= i <= |keys|
      invariant lamports == Own(tx, owner, i)
    {
      if keys[i] == owner && i < Bound(tx) {
        lamports := lamports + tx.postLamports[i] - tx.preLamports[i];
      }
      i := i + 1;
    }
    if owner == FeePayer(tx) {
      lamports := lamports + tx.fee;
      i := 0;
      while i < |keys|
        invariant 0 <= i <= |keys|
        invariant lamports == Own(tx, owner, |keys|) + tx.fee + Tips(tx, i)
      {
        if keys[i] in JITO_TIP_ACCOUNTS && i < Bound(tx) && tx.postLamports[i] > tx.preLamports[i] {
          lamports := lamports + tx.postLamports[i] - tx.preLamports[i];
        }
        i := i + 1;
      }
    }
    sol := lamports as real / 1_000_000_000.0;
  }

  /** What an owner's account slots gained, paired off from the front. */
  function GainOf(owner: string, keys: seq<string>, pre: seq<int>, post: seq<int>): int {
    if keys == [] || pre == [] || post == [] then 0
    else (if keys[0] == owner then post[0] - pre[0] else 0) + GainOf(owner, keys[1..], pre[1..], post[1..])
  }

  /** What the tip accounts gained, those that lost lamports not counted. */
  function TipsPaid(keys: seq<string>, pre: seq<int>, post: seq<int>): int {
    if keys == [] || pre == [] || post == [] then 0
    else
      (if keys[0] in JITO_TIP_ACCOUNTS && post[0] > pre[0] then post[0] - pre[0] else 0)
      + TipsPaid(keys[1..], pre[1..], post[1..])
  }

  /** Gains over a prefix of the slots grow slot by slot. */
  lemma {:induction false} GainsOfOneMore(owner: string, keys: seq<string>, pre: seq<int>, post: seq<int>, n: nat)
    requires n < |keys|
    ensures GainOf(owner, keys[..n + 1], pre, post) == GainOf(owner, keys[..n], pre, post)
      + (if keys[n] == owner && n < |pre| && n < |post| then post[n] - pre[n] else 0)
    ensures TipsPaid(keys[..n + 1], pre, post) == TipsPaid(keys[..n], pre, post)
      + (if keys[n] in JITO_TIP_ACCOUNTS && n < |pre| && n < |post| && post[n] > pre[n] then post[n] - pre[n] else 0)
  {
    if n > 0 && pre != [] && post != [] {
      GainsOfOneMore(owner, keys[1..], pre[1..], post[1..], n - 1);
      assert keys[..n + 1][1..] == keys[1..][..n] && keys[..n][1..] == keys[1..][..n - 1];
    }
  }

  lemma {:induction false} LoopSums(tx: Transaction, owner: string, n: nat)
    requires n <= |Keys(tx)|
    ensures Own(tx, owner, n) == GainOf(owner, Keys(tx)[..n], tx.preLamports, tx.postLamports)
    ensures Tips(tx, n) == TipsPaid(Keys(tx)[..n], tx.preLamports, tx.postLamports)
  {
    if n > 0 {
      LoopSums(tx, owner, n - 1);
      GainsOfOneMore(owner, Keys(tx), tx.preLamports, tx.postLamports, n - 1);
      hide GainOf, TipsPaid, Keys;
    }
  }

  /** The native flow in lamports: what the owner's slots gained, the fee payer's with the fee and the tips
      paid added back. */
  lemma NativeMeans(tx: Transaction, owner: string)
    ensures Native(tx, owner) * 1_000_000_000.0
      == (GainOf(owner, Keys(tx), tx.preLamports, tx.postLamports)
          + (if owner == FeePayer(tx) then tx.fee + TipsPaid(Keys(tx), tx.preLamports, tx.postLamports) else 0)) as real
  {
    LoopSums(tx, owner, |Keys(tx)|);
    assert Keys(tx)[..|Keys(tx)|] == Keys(tx);
    hide Own, Tips, GainOf, TipsPaid;
  }

  /** An owner in a single slot gained what that slot did; a slot past the shorter list counts nothing. */
  lemma {:induction false} GainOfOneSlot(owner: string, keys: seq<string>, pre: seq<int>, post: seq<int>, i: nat)
    requires i < |keys| && keys[i] == owner && forall j :: 0 <= j < |keys| && j != i ==> keys[j] != owner
    ensures GainOf(owner, keys, pre, post) == if i < |pre| && i < |post| then post[i] - pre[i] else 0
  {
    if pre != [] && post != [] {
      if i > 0 {
        GainOfOneSlot(owner, keys[1..], pre[1..], post[1..], i - 1);
      } else {
        NoGain(owner, keys[1..], pre[1..], post[1..]);
      }
    }
  }

  lemma {:induction false} NoGain(owner: string, keys: seq<string>, pre: seq<int>, post: seq<int>)
    requires owner !in keys
    ensures GainOf(owner, keys, pre, post) == 0
  {
    if keys != [] && pre != [] && post != [] { NoGain(owner, keys[1..], pre[1..], post[1..]); }
  }

  /** The native flow of an owner in one account slot. */
  lemma NativeOfOneSlot(tx: Transaction, owner: string, i: nat)
    requires i < |Keys(tx)| && i < |tx.preLamports| && i < |tx.postLamports|
    requires Keys(tx)[i] == owner && forall j :: 0 <= j < |Keys(tx)| && j != i ==> Keys(tx)[j] != owner
    ensures owner != FeePayer(tx) ==> Native(tx, owner) * 1_000_000_000.0 == (tx.postLamports[i] - tx.preLamports[i]) as real
    ensures owner == FeePayer(tx) ==>
      Native(tx, owner) * 1_000_000_000.0
        == (tx.postLamports[i] - tx.preLamports[i] + tx.fee + TipsPaid(Keys(tx), tx.preLamports, tx.postLamports)) as real
  {
    NativeMeans(tx, owner);
    GainOfOneSlot(owner, Keys(tx), tx.preLamports, tx.postLamports, i);
    hide Native, GainOf, TipsPaid, Keys, FeePayer;
  }

  /** An owner in no account slot, who does not pay the fee, has no native flow. */
  lemma NativeOfNoSlot(tx: Transaction, owner: string)
    requires owner !in Keys(tx) && owner != FeePayer(tx)
    ensures Native(tx, owner) == 0.0
  {
    NativeMeans(tx, owner);
    NoGain(owner, Keys(tx), tx.preLamports, tx.postLamports);
  }

  /** The same transaction with the payer in slot i charged f more in fees and d more in a tip to the
      account in slot j. */
  function PaidMore(tx: Transaction, i: nat, j: nat, f: nat, d: nat): Transaction
    requires i < Bound(tx) && j < Bound(tx) && i != j
  {
    tx.(fee := tx.fee + f,
        postLamports := tx.postLamports[i := tx.postLamports[i] - f - d][j := tx.postLamports[j] + d])
  }

  lemma {:induction false} OwnAfterPaying(tx: Transaction, i: nat, j: nat, f: nat, d: nat, owner: string, n: nat)
    requires i < Bound(tx) && j < Bound(tx) && i != j && n <= |Keys(tx)|
    requires i < |Keys(tx)| && j < |Keys(tx)| && Keys(tx)[i] == owner && Keys(tx)[j] != owner
    ensures Own(PaidMore(tx, i, j, f, d), owner, n) == Own(tx, owner, n) - (if i < n then f + d else 0)
  {
    if n > 0 { OwnAfterPaying(tx, i, j, f, d, owner, n - 1); }
  }

  lemma {:induction false} TipsAfterPaying(tx: Transaction, i: nat, j: nat, f: nat, d: nat, n: nat)
    requires i < Bound(tx) && j < Bound(tx) && i != j && n <= |Keys(tx)|
    requires i < |Keys(tx)| && j < |Keys(tx)|
    requires Keys(tx)[i] !in JITO_TIP_ACCOUNTS && Keys(tx)[j] in JITO_TIP_ACCOUNTS && Change(tx, j) >= 0
    ensures Tips(PaidMore(tx, i, j, f, d), n) == Tips(tx, n) + (if j < n then d else 0)
  {
    if n > 0 { TipsAfterPaying(tx, i, j, f, d, n - 1); }
  }

  /** What the fee payer pays to land a transaction, as fee or as Jito tip, never shows in its native
      flow. */
  lemma LandingCostIsInvisible(tx: Transaction, i: nat, j: nat, f: nat, d: nat)
    requires i < Bound(tx) && j < Bound(tx) && i != j && i < |Keys(tx)| && j < |Keys(tx)|
    requires Keys(tx)[i] == FeePayer(tx) && FeePayer(tx) !in JITO_TIP_ACCOUNTS
    requires Keys(tx)[j] in JITO_TIP_ACCOUNTS && Change(tx, j) >= 0
    ensures Native(PaidMore(tx, i, j, f, d), FeePayer(tx)) == Native(tx, FeePayer(tx))
  {
    OwnAfterPaying(tx, i, j, f, d, FeePayer(tx), |Keys(tx)|);
    TipsAfterPaying(tx, i, j, f, d, |Keys(tx)|);
  }

  // --- inference -----------------------------------------------------------

  datatype Side = Buy | Sell

  datatype Leg = Leg(
    wallet: string, side: Side, token: string, quote: Mint,
    tokenAmount: real, quoteAmount: real, price: Option<real>)

  const MIN_SOL_FLOW := 0.0005

  function Abs(x: real): real { if x < 0.0 then -x else x }

  function Ratio(x: real, y: real): real
    requires y != 0.0
  {
    x / y
  }

  function Build(owner: string, token: string, delta: real, quote: Mint, amount: real): Leg {
    Leg(owner, if delta > 0.0 then Buy else Sell, token, quote, Abs(delta), amount,
        if Abs(delta) != 0.0 && amount != 0.0 then Some(Ratio(amount, Abs(delta))) else None)
  }

  /** A flow that can be the other side of a token change. */
  predicate Opposite(flow: real, delta: real) { flow != 0.0 && (flow > 0.0) != (delta > 0.0) }

  /** Native flows below the threshold are rent and tips. */
  function NativeFlow(native: real): real { if Abs(native) >= MIN_SOL_FLOW then native else 0.0 }

  /** The larger of the SOL flows opposite to the token, the wrapped one on a tie. */
  function SolLeg(wsol: real, native: real, delta: real): Option<real> {
    var flow := NativeFlow(native);
    if Opposite(wsol, delta) && Opposite(flow, delta) then Some(if Abs(flow) > Abs(wsol) then flow else wsol)
    else if Opposite(wsol, delta) then Some(wsol)
    else if Opposite(flow, delta) then Some(flow)
    else None
  }

  /** The first stable flow opposite to the token, in the order the set of stable mints is iterated. */
  function StableLeg(deltas: map<Holding, real>, owner: string, delta: real, stables: seq<Mint>): Option<Mint> {
    if stables == [] then None
    else if Opposite(Lookup(deltas, (owner, stables[0])), delta) then Some(stables[0])
    else StableLeg(deltas, owner, delta, stables[1..])
  }

  /** The owner's changes in tokens that are no quote mint, by address. */
  function NonQuote(deltas: map<Holding, real>, owner: string): map<string, real> {
    map h | h in deltas && h.0 == owner && h.1.Token? :: h.1.address := deltas[h]
  }

  predicate IsPair(m: map<string, real>, a: string, b: string) {
    a in m && b in m && a != b && m.Keys == {a, b} && TextLe(a, b)
  }

  lemma SingleKey(m: map<string, real>)
    requires |m| == 1
    ensures exists k :: k in m && m.Keys == {k}
  {
    var k :| k in m.Keys;
    assert |m.Keys - {k}| == 0;
    assert m.Keys == {k};
    assert k in m;
  }

  lemma PairOfKeys(m: map<string, real>)
    requires |m| == 2
    ensures exists a, b :: IsPair(m, a, b)
  {
    var a :| a in m.Keys;
    assert |m.Keys - {a}| == 1;
    var b :| b in m.Keys - {a};
    assert |m.Keys - {a} - {b}| == 0;
    assert m.Keys == {a, b};
    TextTotal(a, b);
    assert IsPair(m, a, b) || IsPair(m, b, a);
  }

  lemma PairIsUnique(m: map<string, real>, a: string, b: string, c: string, d: string)
    requires IsPair(m, a, b) && IsPair(m, c, d)
    ensures a == c && b == d
  {
    assert c in m.Keys && d in m.Keys;
    if a != c {
      TextAntisymmetric(a, b);
    }
  }

  /** A single token against its SOL leg, else its stable leg, else nothing. */
  function Single(
    deltas: map<Holding, real>, owner: string, native: real, stables: seq<Mint>, token: string, delta: real): seq<Leg>
  {
    match SolLeg(Lookup(deltas, (owner, Wsol)), native, delta)
    case Some(flow) => [Build(owner, token, delta, Wsol, Abs(flow))]
    case None =>
      match StableLeg(deltas, owner, delta, stables)
      case Some(mint) => [Build(owner, token, delta, mint, Abs(Lookup(deltas, (owner, mint))))]
      case None => []
  }

  /** Two tokens traded for each other, seen from both. */
  function Pair(owner: string, a: string, deltaA: real, b: string, deltaB: real): seq<Leg> {
    if (deltaA > 0.0) == (deltaB > 0.0) then []
    else [Build(owner, a, deltaA, Token(b), Abs(deltaB)), Build(owner, b, deltaB, Token(a), Abs(deltaA))]
  }

  ghost function InferFrom(deltas: map<Holding, real>, owner: string, native: real, stables: seq<Mint>): seq<Leg> {
    var m := NonQuote(deltas, owner);
    if |m| == 1 then
      SingleKey(m);
      var k :| k in m && m.Keys == {k};
      Single(deltas, owner, native, stables, k, m[k])
    else if |m| == 2 then
      PairOfKeys(m);
      var a, b :| IsPair(m, a, b);
      Pair(owner, a, m[a], b, m[b])
    else []
  }

  ghost function Infer(tx: Transaction, owner: string, stables: seq<Mint>): seq<Leg> {
    if !tx.success then [] else InferFrom(Deltas(tx), owner, Native(tx, owner), stables)
  }

  /** Looks through the stable mints for a flow opposite to the token. */
  method FirstStable(deltas: map<Holding, real>, owner: string, delta: real, stables: seq<Mint>)
    returns (stable: Option<Mint>)
    ensures stable == StableLeg(deltas, owner, delta, stables)
  {
    var i := 0;
    while i < |stables|
      invariant 0 <= i <= |stables|
      invariant StableLeg(deltas, owner, delta, stables) == StableLeg(deltas, owner, delta, stables[i..])
    {
      var change := Lookup(deltas, (owner, stables[i]));
      if change != 0.0 && (change > 0.0) != (delta > 0.0) {
        return Some(stables[i]);
      }
      i := i + 1;
    }
    return None;
  }

  method InferSwapEvents(tx: Transaction, owner: string, stables: seq<Mint>) returns (legs: seq<Leg>)
    ensures legs == Infer(tx, owner, stables)
  {
    if !tx.success {
      return [];
    }
    var deltas := TokenBalanceDeltas(tx);
    var nonQuote := NonQuote(deltas, owner);
    var wsol := Lookup(deltas, (owner, Wsol));
    var native := NativeSolDelta(tx, owner);
    if |nonQuote| == 1 {
      SingleKey(nonQuote);
      var token :| token in nonQuote && nonQuote.Keys == {token};
      var delta := nonQuote[token];
      var flow := SolLeg(wsol, native, delta);
      if flow.Some? {
        return [Build(owner, token, delta, Wsol, Abs(flow.value))];
      }
      var stable := FirstStable(deltas, owner, delta, stables);
      if stable.None? {
        return [];
      }
      return [Build(owner, token, delta, stable.value, Abs(Lookup(deltas, (owner, stable.value))))];
    }
    if |nonQuote| == 2 {
      PairOfKeys(nonQuote);
      var a, b :| a in nonQuote && b in nonQuote && IsPair(nonQuote, a, b);
      forall c, d | IsPair(nonQuote, c, d) ensures a == c && b == d { PairIsUnique(nonQuote, a, b, c, d); }
      return Pair(owner, a, nonQuote[a], b, nonQuote[b]);
    }
    return [];
  }

  // --- what an inferred leg means ------------------------------------------

  /** The tokens, quote mints aside, in which the owner's balance changed. */
  ghost predicate Changed(tx: Transaction, owner: string, tokens: set<string>) {
    forall t :: t in tokens <==> Net(tx, (owner, Token(t))) != 0.0
  }

  lemma NonQuoteIsChanged(tx: Transaction, owner: string)
    ensures Changed(tx, owner, NonQuote(Deltas(tx), owner).Keys)
    ensures forall t :: t in NonQuote(Deltas(tx), owner) ==> NonQuote(Deltas(tx), owner)[t] == Net(tx, (owner, Token(t)))
  {
    var m := NonQuote(Deltas(tx), owner);
    forall t
      ensures t in m.Keys <==> Net(tx, (owner, Token(t))) != 0.0
      ensures t in m ==> m[t] == Net(tx, (owner, Token(t)))
    {
      DeltasAreNets(tx, (owner, Token(t)));
    }
  }

  /** The SOL flow is opposite to the token change. */
  ghost predicate SolOpposes(tx: Transaction, owner: string, delta: real) {
    Opposite(Net(tx, (owner, Wsol)), delta) || Opposite(NativeFlow(Native(tx, owner)), delta)
  }

  /** x is the size of the largest SOL flow, wrapped or native, opposite to the token change. */
  ghost predicate IsLargestSolFlow(tx: Transaction, owner: string, delta: real, x: real) {
    var wsol, native := Net(tx, (owner, Wsol)), NativeFlow(Native(tx, owner));
    && ((Opposite(wsol, delta) && x == Abs(wsol)) || (Opposite(native, delta) && x == Abs(native)))
    && (Opposite(wsol, delta) ==> Abs(wsol) <= x)
    && (Opposite(native, delta) ==> Abs(native) <= x)
  }

  /** The quote side of a leg: a SOL leg where there is one, else a balance change of the quote mint;
      in either case a flow opposite to the token. */
  ghost predicate QuoteMatches(tx: Transaction, owner: string, delta: real, quote: Mint, x: real) {
    match quote
    case Wsol => IsLargestSolFlow(tx, owner, delta, x)
    case Token(_) => Opposite(Net(tx, (owner, quote)), delta) && x == Abs(Net(tx, (owner, quote)))
    case _ =>
      !SolOpposes(tx, owner, delta) && Opposite(Net(tx, (owner, quote)), delta) && x == Abs(Net(tx, (owner, quote)))
  }

  /** A leg reports the wallet's net change in the token, its direction, and what flowed the other way. */
  ghost predicate Reports(tx: Transaction, owner: string, leg: Leg) {
    var delta := Net(tx, (owner, Token(leg.token)));
    && leg.wallet == owner && delta != 0.0 && leg.tokenAmount == Abs(delta)
    && (leg.side == Buy <==> delta > 0.0)
    && leg.quoteAmount > 0.0 && leg.price == Some(Ratio(leg.quoteAmount, leg.tokenAmount))
    && QuoteMatches(tx, owner, delta, leg.quote, leg.quoteAmount)
  }

  /** The set of stable mints has two iteration orders. */
  predicate StableOrder(stables: seq<Mint>) { stables == [Usdc, Usdt] || stables == [Usdt, Usdc] }

  lemma StableLegOfTwo(deltas: map<Holding, real>, owner: string, delta: real, x: Mint, y: Mint)
    ensures StableLeg(deltas, owner, delta, [x, y])
      == (if Opposite(Lookup(deltas, (owner, x)), delta) then Some(x)
          else if Opposite(Lookup(deltas, (owner, y)), delta) then Some(y) else None)
  {
    assert [x, y][1..] == [y] && [y][1..] == [];
    assert StableLeg(deltas, owner, delta, []) == None;
  }

  lemma SingleReports(tx: Transaction, owner: string, stables: seq<Mint>, token: string)
    requires StableOrder(stables) && Net(tx, (owner, Token(token))) != 0.0
    ensures var legs := Single(Deltas(tx), owner, Native(tx, owner), stables, token, Net(tx, (owner, Token(token))));
      |legs| <= 1 && forall e :: e in legs ==> Reports(tx, owner, e)
  {
    var delta := Net(tx, (owner, Token(token)));
    DeltasAreNets(tx, (owner, Wsol));
    DeltasAreNets(tx, (owner, Usdc));
    DeltasAreNets(tx, (owner, Usdt));
    StableLegOfTwo(Deltas(tx), owner, delta, stables[0], stables[1]);
    SolLegMeans(tx, owner, delta);
    BuildReports(tx, owner, token);
    hide Net, Deltas, Lookup, Native, Ratio, StableLeg, SolLeg, SolOpposes, IsLargestSolFlow, Build, Reports;
  }

  /** The chosen SOL leg is the largest opposite flow, and there is one exactly when a flow opposes. */
  lemma SolLegMeans(tx: Transaction, owner: string, delta: real)
    ensures var leg := SolLeg(Net(tx, (owner, Wsol)), Native(tx, owner), delta);
      && (leg.Some? <==> SolOpposes(tx, owner, delta))
      && (leg.Some? ==> leg.value != 0.0 && IsLargestSolFlow(tx, owner, delta, Abs(leg.value)))
  {
    hide Net, Native;
  }

  /** A built leg reports the change of its token, whatever quote flow it is given. */
  lemma BuildReports(tx: Transaction, owner: string, token: string)
    requires Net(tx, (owner, Token(token))) != 0.0
    ensures var delta := Net(tx, (owner, Token(token)));
      forall quote, x :: (x > 0.0 && QuoteMatches(tx, owner, delta, quote, x) ==>
        Reports(tx, owner, Build(owner, token, delta, quote, x)))
  {
    hide Net, Native, QuoteMatches, Ratio;
  }

  lemma PairReports(tx: Transaction, owner: string, a: string, b: string)
    requires Net(tx, (owner, Token(a))) != 0.0 && Net(tx, (owner, Token(b))) != 0.0
    ensures forall e :: e in Pair(owner, a, Net(tx, (owner, Token(a))), b, Net(tx, (owner, Token(b)))) ==> Reports(tx, owner, e)
  {
  }

  /** How the result arises: from the one changed token or the two changed tokens, or not at all. */
  lemma InferCases(tx: Transaction, owner: string, stables: seq<Mint>)
    ensures var m := NonQuote(Deltas(tx), owner);
      || (Infer(tx, owner, stables) == [] && (!tx.success || (|m| != 1 && |m| != 2)))
      || (tx.success && exists t :: Changed(tx, owner, {t}) && SingleCase(tx, owner, stables, t))
      || (tx.success && exists a, b :: a != b && Changed(tx, owner, {a, b}) && PairCase(tx, owner, stables, a, b))
  {
    NonQuoteIsChanged(tx, owner);
    var m := NonQuote(Deltas(tx), owner);
    if tx.success && |m| == 1 {
      SingleKey(m);
      var k :| k in m && m.Keys == {k};
      assert Changed(tx, owner, {k}) && SingleCase(tx, owner, stables, k);
    } else if tx.success && |m| == 2 {
      PairOfKeys(m);
      var a, b :| IsPair(m, a, b);
      forall c, d | IsPair(m, c, d) ensures a == c && b == d { PairIsUnique(m, a, b, c, d); }
      assert Changed(tx, owner, {a, b}) && PairCase(tx, owner, stables, a, b);
    }
  }

  ghost predicate SingleCase(tx: Transaction, owner: string, stables: seq<Mint>, t: string) {
    Infer(tx, owner, stables) == Single(Deltas(tx), owner, Native(tx, owner), stables, t, Net(tx, (owner, Token(t))))
  }

  ghost predicate PairCase(tx: Transaction, owner: string, stables: seq<Mint>, a: string, b: string) {
    TextLe(a, b)
    && Infer(tx, owner, stables) == Pair(owner, a, Net(tx, (owner, Token(a))), b, Net(tx, (owner, Token(b))))
  }

  /** Every inferred leg reports what really moved. */
  lemma LegsReportNetChanges(tx: Transaction, owner: string, stables: seq<Mint>)
    requires StableOrder(stables)
    ensures |Infer(tx, owner, stables)| <= 2
    ensures forall e :: e in Infer(tx, owner, stables) ==> Reports(tx, owner, e)
  {
    InferCases(tx, owner, stables);
    if tx.success {
      if t :| Changed(tx, owner, {t}) && SingleCase(tx, owner, stables, t) {
        assert t in {t};
        SingleReports(tx, owner, stables, t);
      } else if a, b :| a != b && Changed(tx, owner, {a, b}) && PairCase(tx, owner, stables, a, b) {
        assert a in {a, b} && b in {a, b};
        PairReports(tx, owner, a, b);
      }
    }
  }

  /** A payer in one account slot who gives at least 500 000 lamports beyond fee and tips, gains a single token
      and moves no wrapped SOL has bought that token for exactly those lamports. */
  lemma NativeBuyIsFound(tx: Transaction, stables: seq<Mint>, i: nat, q: int, t: string)
    requires tx.success && StableOrder(stables) && q >= 500_000
    requires i < |Keys(tx)| && i < |tx.preLamports| && i < |tx.postLamports|
    requires Keys(tx)[i] == FeePayer(tx) && forall j :: 0 <= j < |Keys(tx)| && j != i ==> Keys(tx)[j] != FeePayer(tx)
    requires tx.postLamports[i] - tx.preLamports[i]
      == -q - tx.fee - TipsPaid(Keys(tx), tx.preLamports, tx.postLamports)
    requires Changed(tx, FeePayer(tx), {t}) && Net(tx, (FeePayer(tx), Token(t))) > 0.0
    requires Net(tx, (FeePayer(tx), Wsol)) == 0.0
    ensures var legs := Infer(tx, FeePayer(tx), stables);
      && |legs| == 1 && legs[0].wallet == FeePayer(tx) && legs[0].side == Buy
      && legs[0].token == t && legs[0].quote == Wsol
      && legs[0].tokenAmount == Net(tx, (FeePayer(tx), Token(t)))
      && legs[0].quoteAmount * 1_000_000_000.0 == q as real
      && legs[0].price.Some? && legs[0].price.value * legs[0].tokenAmount == legs[0].quoteAmount
  {
    NativeTradeIsFound(tx, FeePayer(tx), stables, i, -q, t);
  }

  /** Likewise for a sale: the payer gains lamports and gives the token. */
  lemma NativeSellIsFound(tx: Transaction, stables: seq<Mint>, i: nat, q: int, t: string)
    requires tx.success && StableOrder(stables) && q >= 500_000
    requires i < |Keys(tx)| && i < |tx.preLamports| && i < |tx.postLamports|
    requires Keys(tx)[i] == FeePayer(tx) && forall j :: 0 <= j < |Keys(tx)| && j != i ==> Keys(tx)[j] != FeePayer(tx)
    requires tx.postLamports[i] - tx.preLamports[i]
      == q - tx.fee - TipsPaid(Keys(tx), tx.preLamports, tx.postLamports)
    requires Changed(tx, FeePayer(tx), {t}) && Net(tx, (FeePayer(tx), Token(t))) < 0.0
    requires Net(tx, (FeePayer(tx), Wsol)) == 0.0
    ensures var legs := Infer(tx, FeePayer(tx), stables);
      && |legs| == 1 && legs[0].wallet == FeePayer(tx) && legs[0].side == Sell
      && legs[0].token == t && legs[0].quote == Wsol
      && legs[0].tokenAmount == -Net(tx, (FeePayer(tx), Token(t)))
      && legs[0].quoteAmount * 1_000_000_000.0 == q as real
      && legs[0].price.Some? && legs[0].price.value * legs[0].tokenAmount == legs[0].quoteAmount
  {
    NativeTradeIsFound(tx, FeePayer(tx), stables, i, q, t);
  }

  lemma NativeTradeIsFound(tx: Transaction, owner: string, stables: seq<Mint>, i: nat, flow: int, t: string)
    requires tx.success && StableOrder(stables) && (flow >= 500_000 || flow <= -500_000)
    requires i < |Keys(tx)| && i < |tx.preLamports| && i < |tx.postLamports| && owner == FeePayer(tx)
    requires Keys(tx)[i] == owner && forall j :: 0 <= j < |Keys(tx)| && j != i ==> Keys(tx)[j] != owner
    requires tx.postLamports[i] - tx.preLamports[i] == flow - tx.fee - TipsPaid(Keys(tx), tx.preLamports, tx.postLamports)
    requires Changed(tx, owner, {t}) && (Net(tx, (owner, Token(t))) > 0.0) == (flow < 0) && Net(tx, (owner, Wsol)) == 0.0
    ensures var delta := Net(tx, (owner, Token(t)));
      var legs := Infer(tx, owner, stables);
      && |legs| == 1 && legs[0].wallet == owner && legs[0].side == (if delta > 0.0 then Buy else Sell)
      && legs[0].token == t && legs[0].quote == Wsol
      && legs[0].tokenAmount == (if delta > 0.0 then delta else -delta)
      && legs[0].quoteAmount * 1_000_000_000.0 == (if flow > 0 then flow else -flow) as real
      && legs[0].price.Some? && legs[0].price.value * legs[0].tokenAmount == legs[0].quoteAmount
  {
    hide Native, Net, Deltas, Infer, Keys, FeePayer, TipsPaid, Single, Build, Lookup;
    NativeOfOneSlot(tx, owner, i);
    var delta := Net(tx, (owner, Token(t)));
    OneTokenMoved(tx, owner, t);
    hide Changed;
    InferOfOneToken(tx, owner, stables, t);
    DeltasAreNets(tx, (owner, Wsol));
    NativeLeg(Deltas(tx), owner, Native(tx, owner), stables, t, delta);
  }

  lemma OneTokenMoved(tx: Transaction, owner: string, t: string)
    requires Changed(tx, owner, {t})
    ensures Net(tx, (owner, Token(t))) != 0.0
  {
    assert t in {t};
  }

  /** A native flow at or above the threshold, opposite to the token and alone in SOL, is the leg. */
  lemma NativeLeg(deltas: map<Holding, real>, owner: string, native: real, stables: seq<Mint>, t: string, delta: real)
    requires Lookup(deltas, (owner, Wsol)) == 0.0 && delta != 0.0 && (delta > 0.0) == (native < 0.0)
    requires native >= 0.0005 || native <= -0.0005
    ensures var legs := Single(deltas, owner, native, stables, t, delta);
      && |legs| == 1 && legs[0].wallet == owner && legs[0].side == (if delta > 0.0 then Buy else Sell)
      && legs[0].token == t && legs[0].quote == Wsol
      && legs[0].tokenAmount == (if delta > 0.0 then delta else -delta)
      && legs[0].quoteAmount == (if native > 0.0 then native else -native)
      && legs[0].price.Some? && legs[0].price.value * legs[0].tokenAmount == legs[0].quoteAmount
  {
    hide StableLeg, Ratio;
    RatioTimes(Abs(native), Abs(delta));
  }

  lemma RatioTimes(x: real, y: real)
    requires y != 0.0
    ensures Ratio(x, y) * y == x
  {
  }

  /** One changed token is set against its quote flow. */
  lemma InferOfOneToken(tx: Transaction, owner: string, stables: seq<Mint>, t: string)
    requires tx.success && Changed(tx, owner, {t})
    ensures SingleCase(tx, owner, stables, t)
  {
    InferCases(tx, owner, stables);
    NonQuoteIsChanged(tx, owner);
    var m := NonQuote(Deltas(tx), owner);
    ChangedIsUnique(tx, owner, m.Keys, {t});
    assert |m| == |m.Keys| == 1;
    if u :| Changed(tx, owner, {u}) && SingleCase(tx, owner, stables, u) {
      ChangedIsUnique(tx, owner, {t}, {u});
      assert u in {t};
    } else if a, b :| a != b && Changed(tx, owner, {a, b}) && PairCase(tx, owner, stables, a, b) {
      ChangedIsUnique(tx, owner, {t}, {a, b});
      PairIsNotSingle(t, a, b);
    }
  }

  /** The two legs of a token-to-token trade are each other's mirror image. */
  ghost predicate Mirrored(x: Leg, y: Leg) {
    && x.wallet == y.wallet && x.side != y.side
    && x.quote == Token(y.token) && y.quote == Token(x.token) && TextLe(x.token, y.token)
    && x.tokenAmount == y.quoteAmount && y.tokenAmount == x.quoteAmount
    && x.price.Some? && y.price.Some? && x.price.value * y.price.value == 1.0
  }

  lemma InverseRatios(x: real, y: real)
    requires x != 0.0 && y != 0.0
    ensures Ratio(x, y) * Ratio(y, x) == 1.0
  {
    var p, q := Ratio(x, y), Ratio(y, x);
    assert p * y == x && q * x == y;
    assert (p * q) * x == p * (q * x);
  }

  lemma PairIsMirrored(owner: string, a: string, x: real, b: string, y: real)
    requires x != 0.0 && y != 0.0 && TextLe(a, b) && (x > 0.0) != (y > 0.0)
    ensures |Pair(owner, a, x, b, y)| == 2 && Mirrored(Pair(owner, a, x, b, y)[0], Pair(owner, a, x, b, y)[1])
  {
    InverseRatios(Abs(y), Abs(x));
  }

  lemma TwoLegsAreMirrored(tx: Transaction, owner: string, stables: seq<Mint>)
    requires StableOrder(stables) && |Infer(tx, owner, stables)| == 2
    ensures Mirrored(Infer(tx, owner, stables)[0], Infer(tx, owner, stables)[1])
  {
    InferCases(tx, owner, stables);
    if t :| Changed(tx, owner, {t}) && SingleCase(tx, owner, stables, t) {
      assert t in {t};
      SingleReports(tx, owner, stables, t);
    } else {
      var a, b :| a != b && Changed(tx, owner, {a, b}) && PairCase(tx, owner, stables, a, b);
      assert a in {a, b} && b in {a, b};
      PairIsMirrored(owner, a, Net(tx, (owner, Token(a))), b, Net(tx, (owner, Token(b))));
    }
  }

  /** Some quote flow is opposite to the token change. */
  ghost predicate QuoteOpposes(tx: Transaction, owner: string, delta: real) {
    || SolOpposes(tx, owner, delta)
    || Opposite(Net(tx, (owner, Usdc)), delta) || Opposite(Net(tx, (owner, Usdt)), delta)
  }

  lemma SingleFinds(tx: Transaction, owner: string, stables: seq<Mint>, t: string)
    requires StableOrder(stables)
    ensures var delta := Net(tx, (owner, Token(t)));
      Single(Deltas(tx), owner, Native(tx, owner), stables, t, delta) != [] <==> QuoteOpposes(tx, owner, delta)
  {
    var delta := Net(tx, (owner, Token(t)));
    DeltasAreNets(tx, (owner, Wsol));
    DeltasAreNets(tx, (owner, Usdc));
    DeltasAreNets(tx, (owner, Usdt));
    StableLegOfTwo(Deltas(tx), owner, delta, stables[0], stables[1]);
    hide Net, Deltas, Lookup, Native, Ratio, StableLeg;
  }

  lemma ChangedIsUnique(tx: Transaction, owner: string, s: set<string>, t: set<string>)
    requires Changed(tx, owner, s) && Changed(tx, owner, t)
    ensures s == t
  {
    forall x ensures x in s <==> x in t { assert x in s <==> Net(tx, (owner, Token(x))) != 0.0; }
  }

  /** A single token against a quote flow, or two tokens against each other. */
  ghost predicate IsTrade(tx: Transaction, owner: string) {
    || (exists t :: Changed(tx, owner, {t}) && QuoteOpposes(tx, owner, Net(tx, (owner, Token(t)))))
    || (exists a, b :: a != b && Changed(tx, owner, {a, b}) && Opposite(Net(tx, (owner, Token(a))), Net(tx, (owner, Token(b)))))
  }

  /** A swap is found exactly when a successful transaction trades one token for a quote currency, or
      two tokens for each other. */
  lemma {:induction false} FoundExactly(tx: Transaction, owner: string, stables: seq<Mint>)
    requires StableOrder(stables)
    ensures Infer(tx, owner, stables) != [] <==> tx.success && IsTrade(tx, owner)
  {
    NonQuoteIsChanged(tx, owner);
    InferCases(tx, owner, stables);
    var m := NonQuote(Deltas(tx), owner);
    if tx.success {
      if t :| Changed(tx, owner, {t}) && SingleCase(tx, owner, stables, t) {
        SingleFinds(tx, owner, stables, t);
        OnlyThatToken(tx, owner, t);
      } else if a, b :| a != b && Changed(tx, owner, {a, b}) && PairCase(tx, owner, stables, a, b) {
        OnlyThatPair(tx, owner, a, b);
      } else {
        CountsOfChanged(tx, owner, m.Keys);
      }
    }
  }

  lemma PairIsNotSingle(t: string, a: string, b: string)
    requires a != b
    ensures {t} != {a, b}
  {
    assert a in {a, b} && b in {a, b};
  }

  lemma OnlyThatToken(tx: Transaction, owner: string, t: string)
    requires Changed(tx, owner, {t})
    ensures IsTrade(tx, owner) <==> QuoteOpposes(tx, owner, Net(tx, (owner, Token(t))))
  {
    if u :| Changed(tx, owner, {u}) && QuoteOpposes(tx, owner, Net(tx, (owner, Token(u)))) {
      ChangedIsUnique(tx, owner, {t}, {u});
      assert u in {t};
    }
    if a, b :| a != b && Changed(tx, owner, {a, b}) && Opposite(Net(tx, (owner, Token(a))), Net(tx, (owner, Token(b)))) {
      ChangedIsUnique(tx, owner, {t}, {a, b});
      PairIsNotSingle(t, a, b);
    }
  }

  lemma OnlyThatPair(tx: Transaction, owner: string, a: string, b: string)
    requires a != b && Changed(tx, owner, {a, b})
    ensures IsTrade(tx, owner) <==> Opposite(Net(tx, (owner, Token(a))), Net(tx, (owner, Token(b))))
  {
    assert a in {a, b} && b in {a, b};
    if u :| Changed(tx, owner, {u}) && QuoteOpposes(tx, owner, Net(tx, (owner, Token(u)))) {
      ChangedIsUnique(tx, owner, {a, b}, {u});
      PairIsNotSingle(u, a, b);
    }
    if c, d :| c != d && Changed(tx, owner, {c, d}) && Opposite(Net(tx, (owner, Token(c))), Net(tx, (owner, Token(d)))) {
      ChangedIsUnique(tx, owner, {a, b}, {c, d});
      assert c in {a, b} && d in {a, b};
    }
  }

  lemma CountsOfChanged(tx: Transaction, owner: string, tokens: set<string>)
    requires Changed(tx, owner, tokens) && |tokens| != 1 && |tokens| != 2
    ensures !IsTrade(tx, owner)
  {
    forall t | Changed(tx, owner, {t}) ensures false { ChangedIsUnique(tx, owner, tokens, {t}); }
    forall a, b | a != b && Changed(tx, owner, {a, b}) ensures false { ChangedIsUnique(tx, owner, tokens, {a, b}); }
  }

  /** One token traded against both stable coins and no SOL. */
  ghost predicate BothStablesPay(tx: Transaction, owner: string, t: string) {
    var delta := Net(tx, (owner, Token(t)));
    && Changed(tx, owner, {t}) && !SolOpposes(tx, owner, delta)
    && Opposite(Net(tx, (owner, Usdc)), delta) && Opposite(Net(tx, (owner, Usdt)), delta)
  }

  /** The iteration order of the stable mints, which Python does not fix, shows in exactly one case. */
  lemma StableOrderMattersExactly(tx: Transaction, owner: string)
    ensures Infer(tx, owner, [Usdc, Usdt]) != Infer(tx, owner, [Usdt, Usdc])
      <==> tx.success && exists t :: BothStablesPay(tx, owner, t)
  {
    NonQuoteIsChanged(tx, owner);
    var m := NonQuote(Deltas(tx), owner);
    DeltasAreNets(tx, (owner, Wsol));
    DeltasAreNets(tx, (owner, Usdc));
    DeltasAreNets(tx, (owner, Usdt));
    hide Net, Deltas, Lookup, Native, Ratio, StableLeg, NonQuote;
    if tx.success && |m| == 1 {
      SingleKey(m);
      var k :| k in m && m.Keys == {k};
      StableLegOfTwo(Deltas(tx), owner, m[k], Usdc, Usdt);
      StableLegOfTwo(Deltas(tx), owner, m[k], Usdt, Usdc);
      if t :| BothStablesPay(tx, owner, t) {
        ChangedIsUnique(tx, owner, {k}, {t});
        assert t in {k};
      }
      assert Infer(tx, owner, [Usdc, Usdt]) == Single(Deltas(tx), owner, Native(tx, owner), [Usdc, Usdt], k, m[k]);
      assert Infer(tx, owner, [Usdt, Usdc]) == Single(Deltas(tx), owner, Native(tx, owner), [Usdt, Usdc], k, m[k]);
      if Infer(tx, owner, [Usdc, Usdt]) != Infer(tx, owner, [Usdt, Usdc]) {
        assert BothStablesPay(tx, owner, k);
      }
    } else if tx.success {
      if t :| BothStablesPay(tx, owner, t) {
        ChangedIsUnique(tx, owner, m.Keys, {t});
      }
    }
  }

  /** Five tokens bought with three USDC and two USDT. */
  const PAID_IN_BOTH := Transaction(
    true,
    [Balance("A", Some(Usdc), Some(3), 0), Balance("A", Some(Usdt), Some(2), 0)],
    [Balance("A", Some(Token("T")), Some(5), 0)],
    [AccountKey("A", true)], [], [], [], 0)

  lemma NetsOfPaidInBoth(h: Holding)
    ensures Net(PAID_IN_BOTH, h)
      == (if h == ("A", Token("T")) then 5.0 else if h == ("A", Usdc) then -3.0 else if h == ("A", Usdt) then -2.0 else 0.0)
  {
    var tx := PAID_IN_BOTH;
    assert tx.post[..0] == [] && tx.pre[..1] == [tx.pre[0]] && [tx.pre[0]][..0] == [];
    assert Pow10(0) == 1.0;
    assert Held(tx.post, h) == Held([], h) + Part(tx.post[0], h);
    assert Held(tx.pre, h) == Held([tx.pre[0]], h) + Part(tx.pre[1], h);
    assert Held([tx.pre[0]], h) == Held([], h) + Part(tx.pre[0], h);
  }

  /** A concrete transaction whose event depends on the iteration order. */
  lemma StableOrderCanMatter()
    ensures Infer(PAID_IN_BOTH, "A", [Usdc, Usdt]) != Infer(PAID_IN_BOTH, "A", [Usdt, Usdc])
  {
    var tx := PAID_IN_BOTH;
    forall h
      ensures Net(tx, h)
        == (if h == ("A", Token("T")) then 5.0 else if h == ("A", Usdc) then -3.0 else if h == ("A", Usdt) then -2.0 else 0.0)
    {
      NetsOfPaidInBoth(h);
    }
    assert Keys(tx) == ["A"];
    assert Own(tx, "A", 1) == Own(tx, "A", 0) && Tips(tx, 1) == Tips(tx, 0);
    assert Native(tx, "A") == 0.0;
    assert BothStablesPay(tx, "A", "T");
    StableOrderMattersExactly(tx, "A");
  }

  /** Only net changes matter: how they are spread over token accounts, and in which order those are
      listed, does not. */
  lemma OnlyNetsMatter(tx: Transaction, u: Transaction, owner: string, stables: seq<Mint>)
    requires tx.success == u.success && NativeLamports(tx, owner) == NativeLamports(u, owner)
    requires forall h :: Net(tx, h) == Net(u, h)
    ensures Infer(tx, owner, stables) == Infer(u, owner, stables)
  {
    forall h
      ensures h in Deltas(tx) <==> h in Deltas(u)
      ensures h in Deltas(tx) ==> Deltas(tx)[h] == Deltas(u)[h]
    {
      assert Net(tx, h) == Net(u, h);
      DeltasAreNets(tx, h);
      DeltasAreNets(u, h);
    }
    assert Deltas(tx) == Deltas(u);
  }

  lemma {:induction false} LamportsIgnoreTokens(tx: Transaction, pre: seq<Balance>, post: seq<Balance>, owner: string, n: nat)
    requires n <= |Keys(tx)|
    ensures Own(tx, owner, n) == Own(tx.(pre := pre, post := post), owner, n)
    ensures Tips(tx, n) == Tips(tx.(pre := pre, post := post), n)
  {
    if n > 0 { LamportsIgnoreTokens(tx, pre, post, owner, n - 1); }
  }

  lemma ListingOrderIsIrrelevant(tx: Transaction, pre: seq<Balance>, post: seq<Balance>, owner: string, stables: seq<Mint>)
    requires multiset(pre) == multiset(tx.pre) && multiset(post) == multiset(tx.post)
    ensures Infer(tx.(pre := pre, post := post), owner, stables) == Infer(tx, owner, stables)
  {
    var u := tx.(pre := pre, post := post);
    forall h ensures Net(tx, h) == Net(u, h) {
      HeldOfPermutation(pre, tx.pre, h);
      HeldOfPermutation(post, tx.post, h);
    }
    LamportsIgnoreTokens(tx, pre, post, owner, |Keys(tx)|);
    OnlyNetsMatter(tx, u, owner, stables);
  }
}
