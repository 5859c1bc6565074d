/** The copy-trading desk as a state machine: whole runs of leader trades, approvals, operator
    commands and midnights. */
module Desk {
  import opened Options
  import opened Lamports
  import opened Numbers
  import opened Sizing
  import opened Safety
  import opened Execution

  /** A sized copy order on its way to execution. */
  datatype Order = Order(token: Mint, leader: int, size: int)

  /** Where the single worker stands between its two transactions: an order was evaluated, or its
      last gate check has passed and the swap is under way. */
  datatype Phase = Idle | Evaluated(order: Order) | Cleared(order: Order)

  /** `pending` waits for approval.  `approving` holds the orders of the approvals under way: their gate
      check has passed and their swap is being made.  The table locks a single order, so approvals of
      different orders can overlap.  `broadcasts` counts the transactions that reached the network, which
      no rollback takes back. */
  datatype State = State(
    book: Book, pending: seq<Order>, approving: seq<Order>, phase: Phase, rails: Rails, day: int, broadcasts: nat)

  const INITIAL := State([], [], [], Idle, Rails(false, 0, map[], {}), 0, 0)

  datatype Step =
    | LeaderBuy(token: Mint, leader: int, leaderSize: real, otherGates: bool, redisReads: nat)
    | Begin(lockFree: bool, redisReads: nat)
    | Finish(keypair: bool, answers: seq<Attempt>)
    | Approve(index: nat, redisReads: nat)
    | FinishApproval(index: nat, keypair: bool, answers: seq<Attempt>)
    | LeaderSell(token: Mint, seller: Option<int>, lockFree: bool, exit: Exit, keypair: bool, straddles: bool)
    | Stop
    | Resume
    | Midnight
    | CooldownEnds(token: Mint)

  function OrderOf(s: Settings, d: State, token: Mint, leader: int, leaderSize: real): Order {
    Order(token, leader, SizeOf(s, leaderSize, Exposure(d.book)))
  }

  /** The evaluator says copy: every other gate holds, the size is positive, the rails are clear and
      the token has no open copy position. */
  predicate CopyDecision(s: Settings, d: State, order: Order, otherGates: bool, redisReads: nat) {
    && otherGates
    && order.size > 0
    && GateClear(s, d.rails, d.book, d.day, order.token, redisReads)
    && OpenIndex(d.book, order.token) < 0
  }

  /** What a leader's buy queues, in numbers.  `wanted` and `cut` are as for the size: what the settings
      ask for, and the smallest of it, the position limit and what the exposure leaves.  An idle worker
      takes the order on exactly when the other gates hold, every rail can be read and is clear, the token
      has no open row and the rounded cut is no dust; nothing else changes. */
  lemma {:induction false} CopyIsQueuedExactly(
    s: Settings, d: State, step: Step, wanted: real, cut: real)
    requires step.LeaderBuy?
    requires if s.sizeMode.Percent? then wanted * 100.0 == step.leaderSize * s.percentOfLeader else wanted == s.fixedSize
    requires var left := s.maxExposure - (if AtRisk(d.book) > 0 then AtRisk(d.book) else 0) as real;
      cut <= wanted && cut <= s.maxPosition && cut <= left && (cut == wanted || cut == s.maxPosition || cut == left)
    ensures var e := Next(s, d, step);
      && e == d.(phase := e.phase)
      && (d.phase.Idle? || e == d)
      && (d.phase.Idle? ==> (e.phase.Evaluated? <==> Copied(s, d, step, cut)))
      && (e != d ==> e.phase.Evaluated? && IsNearest(cut, e.phase.order.size)
                     && e.phase.order.token == step.token && e.phase.order.leader == step.leader)
  {
    SizeMeans(s, step.leaderSize, Exposure(d.book), wanted, cut);
    QueuedExactly(s, d, step);
    var size := SizeOf(s, step.leaderSize, Exposure(d.book));
    assert IsNearest(cut, Quantize(cut));
    hide SizeOf, AtRisk, OpenCount, IsNearest, Next, Unblocked, Quantize;
    forall n | IsNearest(cut, n) && size > 0 ensures n == size { NearestIsUnique(cut, n, size); }
  }

  lemma QueuedExactly(s: Settings, d: State, step: Step)
    requires step.LeaderBuy?
    ensures var order, e := OrderOf(s, d, step.token, step.leader, step.leaderSize), Next(s, d, step);
      e == (if d.phase.Idle? && order.size > 0 && Unblocked(s, d, step) then d.(phase := Evaluated(order)) else d)
  {
    hide SizeOf, AtRisk, OpenCount;
  }

  /** The other gates hold, the four reads of the rails succeed, none of the rails blocks, and the token
      has no open row. */
  ghost predicate Unblocked(s: Settings, d: State, step: Step)
    requires step.LeaderBuy?
  {
    && step.otherGates && step.redisReads >= 4
    && !d.rails.stopped && step.token !in d.rails.cooling && d.rails.streak < s.maxConsecutiveFailures
    && (if d.day in d.rails.daily then d.rails.daily[d.day] else 0) as real + s.dailyLossLimit > 0.0
    && OpenCount(d.book) < s.maxOpenPositions
    && AtRisk(d.book) as real < s.maxExposure && s.maxExposure > 0.0
    && forall i :: 0 <= i < |d.book| && d.book[i].status.Open? ==> d.book[i].token != step.token
  }

  ghost predicate Copied(s: Settings, d: State, step: Step, cut: real)
    requires step.LeaderBuy?
  {
    Unblocked(s, d, step) && forall n :: IsNearest(cut, n) ==> n >= 1_000_000
  }

  function RunOf(s: Settings, order: Order, keypair: bool, answers: seq<Attempt>): Run {
    Attempts(s, keypair, order.size, answers, TradeStatus.Approved, 0)
  }

  function RowOf(order: Order): CopyPosition {
    CopyPosition(order.token, order.leader, order.size, 0, 0, Open)
  }

  /** The run asks for a position the table index refuses. */
  predicate Refused(s: Settings, d: State, order: Order, keypair: bool, answers: seq<Attempt>) {
    RunOf(s, order, keypair, answers).opening.Some? && OpenIndex(d.book, order.token) >= 0
  }

  /** An exception leaves the run, from the network or from the insert, and the transaction is taken back. */
  predicate Undone(s: Settings, d: State, order: Order, keypair: bool, answers: seq<Attempt>) {
    RunOf(s, order, keypair, answers).raised || Refused(s, d, order, keypair, answers)
  }

  /** The effect of running the attempts of a cleared order.  When the run is undone the tables keep their
      old content, while what was broadcast stays broadcast. */
  function Executed(s: Settings, d: State, order: Order, keypair: bool, answers: seq<Attempt>): State {
    var run := RunOf(s, order, keypair, answers);
    var e := d.(broadcasts := d.broadcasts + run.broadcasts);
    if Undone(s, d, order, keypair, answers) then e
    else e.(
      book := if run.opening.Some? then d.book + [RowOf(order)] else d.book,
      rails := WithRun(s, d.rails, order.token, run))
  }

  function Without(orders: seq<Order>, index: nat): seq<Order>
    requires index < |orders|
  {
    orders[..index] + orders[index + 1..]
  }

  /** The approval runs its order; an undone run leaves the order pending. */
  function Approval(s: Settings, d: State, index: nat, keypair: bool, answers: seq<Attempt>): State
    requires index < |d.approving|
  {
    var order := d.approving[index];
    var e := Executed(s, d.(approving := Without(d.approving, index)), order, keypair, answers);
    if Undone(s, d, order, keypair, answers) then e.(pending := d.pending + [order]) else e
  }

  /** The leader that opened the position is the one that sold, and no other exit holds the lock. */
  predicate Mirrors(d: State, step: Step)
    requires step.LeaderSell?
  {
    var i := OpenIndex(d.book, step.token);
    i >= 0 && step.seller == Some(d.book[i].leader) && step.lockFree
  }

  /** A mirrored sell.  When the close straddles midnight the row is stamped before it and the
      counter of the next day is booked. */
  function Sold(s: Settings, d: State, step: Step): State
    requires step.LeaderSell?
  {
    var i := OpenIndex(d.book, step.token);
    var proceeds := ExitProceeds(s, step.keypair, step.exit);
    if !Mirrors(d, step) then d
    else
      var e := d.(broadcasts := d.broadcasts + (if SellSent(s, step.keypair, step.exit) then 1 else 0));
      if proceeds.None? then e
      else
        var row := ClosedRow(d.book[i], proceeds.value, d.day);
        var bookDay := if step.straddles then d.day + 1 else d.day;
        e.(book := d.book[i := row], rails := WithRealized(s, d.rails, bookDay, row.realizedPnl), day := bookDay)
  }

  function Next(s: Settings, d: State, step: Step): State {
    match step
    case LeaderBuy(token, leader, leaderSize, otherGates, redisReads) =>
      var order := OrderOf(s, d, token, leader, leaderSize);
      if d.phase.Idle? && CopyDecision(s, d, order, otherGates, redisReads)
      then d.(phase := Evaluated(order)) else d
    case Begin(lockFree, redisReads) =>
      if !d.phase.Evaluated? then d
      else if !lockFree then d.(phase := Idle)
      else if s.approvalMode then d.(phase := Idle, pending := d.pending + [d.phase.order])
      else if GateClear(s, d.rails, d.book, d.day, d.phase.order.token, redisReads)
      then d.(phase := Cleared(d.phase.order))
      else d.(phase := Idle)
    case Finish(keypair, answers) =>
      if d.phase.Cleared? then Executed(s, d.(phase := Idle), d.phase.order, keypair, answers) else d
    case Approve(index, redisReads) =>
      if index >= |d.pending| then d
      else
        var order := d.pending[index];
        var e := d.(pending := Without(d.pending, index));
        if GateClear(s, d.rails, d.book, d.day, order.token, redisReads)
        then e.(approving := d.approving + [order]) else e
    case FinishApproval(index, keypair, answers) =>
      if index < |d.approving| then Approval(s, d, index, keypair, answers) else d
    case LeaderSell(_, _, _, _, _, _) => if d.phase.Idle? then Sold(s, d, step) else d
    case Stop => d.(rails := d.rails.(stopped := true))
    case Resume => d.(rails := d.rails.(stopped := false, streak := 0))
    case Midnight => d.(day := d.day + 1)
    case CooldownEnds(token) => d.(rails := d.rails.(cooling := d.rails.cooling - {token}))
  }

  function RunFrom(s: Settings, d: State, steps: seq<Step>): State {
    if steps == [] then d
    else Next(s, RunFrom(s, d, steps[..|steps| - 1]), steps[|steps| - 1])
  }

  // --- the caps, computed from the settings -------------------------------

  function NonNegative(n: int): int { if n >= 0 then n else 0 }

  function LargestOrder(s: Settings): nat { NonNegative(Quantize(s.maxPosition)) }

  /** The most that may ever be at risk.  Without approvals it is the exposure limit rounded half up.
      With approvals each order was sized earlier, so with at most k approvals under way at a time k
      whole positions may go on top of an exposure still below the limit. */
  function ExposureCap(s: Settings, k: nat): int {
    if s.approvalMode then NonNegative(Ceiling(s.maxExposure) - 1 + k * LargestOrder(s))
    else NonNegative((s.maxExposure + 0.5).Floor)
  }

  /** The most open positions there may ever be. */
  function PositionCap(s: Settings, k: nat): int {
    NonNegative(if s.approvalMode then s.maxOpenPositions + k - 1 else s.maxOpenPositions)
  }

  /** The least a day's counter may show. */
  function LossFloor(s: Settings, k: nat): int {
    var gateFloor := (-s.dailyLossLimit).Floor + 1;
    (if gateFloor <= 0 then gateFloor else 0) - ExposureCap(s, k)
  }

  // --- sums over the book -------------------------------------------------

  lemma {:induction false} AppendSums(book: Book, p: CopyPosition)
    ensures OpenCount(book + [p]) == OpenCount(book) + (if p.status.Open? then 1 else 0)
    ensures AtRisk(book + [p]) == AtRisk(book) + (if p.status.Open? then p.spent - p.sold else 0)
    ensures forall day :: PnlOn(book + [p], day) == PnlOn(book, day) + PnlShare(p, day)
  {
    assert (book + [p])[..|book|] == book;
  }

  lemma {:induction false} UpdateSums(book: Book, i: nat, p: CopyPosition)
    requires i < |book|
    ensures OpenCount(book[i := p])
         == OpenCount(book) - (if book[i].status.Open? then 1 else 0) + (if p.status.Open? then 1 else 0)
    ensures AtRisk(book[i := p])
         == AtRisk(book) - (if book[i].status.Open? then book[i].spent - book[i].sold else 0)
                         + (if p.status.Open? then p.spent - p.sold else 0)
    ensures forall day :: PnlOn(book[i := p], day) == PnlOn(book, day) - PnlShare(book[i], day) + PnlShare(p, day)
  {
    var last := |book| - 1;
    if i == last {
      assert book[i := p][..last] == book[..last];
    } else {
      UpdateSums(book[..last], i, p);
      assert book[i := p][..last] == book[..last][i := p];
    }
  }

  function PnlShare(p: CopyPosition, day: int): int {
    if p.status == Closed(day) then p.realizedPnl else 0
  }

  /** The realised result of the positions whose close is stamped with `day`. */
  function PnlOn(book: Book, day: int): int {
    if book == [] then 0 else PnlOn(book[..|book| - 1], day) + PnlShare(book[|book| - 1], day)
  }

  function Sizes(orders: seq<Order>): int {
    if orders == [] then 0 else Sizes(orders[..|orders| - 1]) + orders[|orders| - 1].size
  }

  lemma SizesAppend(orders: seq<Order>, order: Order)
    ensures Sizes(orders + [order]) == Sizes(orders) + order.size
  {
    assert (orders + [order])[..|orders|] == orders;
  }

  lemma {:induction false} SizesWithout(orders: seq<Order>, index: nat)
    requires index < |orders|
    ensures Sizes(Without(orders, index)) == Sizes(orders) - orders[index].size
  {
    var last := |orders| - 1;
    var rest := Without(orders, index);
    if index < last {
      SizesWithout(orders[..last], index);
      assert rest[..last - 1] == Without(orders[..last], index);
      assert rest[last - 1] == orders[last];
    } else {
      assert rest == orders[..last];
    }
  }

  lemma {:induction false} SizesBounded(orders: seq<Order>, most: nat)
    requires forall i :: 0 <= i < |orders| ==> 0 <= orders[i].size <= most
    ensures 0 <= Sizes(orders) <= |orders| * most
  {
    if orders != [] {
      SizesBounded(orders[..|orders| - 1], most);
      assert (|orders| - 1) * most + most == |orders| * most;
    }
  }

  // --- the invariant ------------------------------------------------------

  /** One row: nothing is sold before the close, proceeds are non-negative, the result is exact. */
  predicate RowOk(p: CopyPosition) {
    && p.spent >= MIN_TRADE
    && p.sold >= 0
    && (p.status.Open? ==> p.sold == 0)
    && (p.status.Closed? ==> p.realizedPnl == p.sold - p.spent)
  }

  ghost predicate OneOpenPerToken(book: Book) {
    forall i, j :: 0 <= i < j < |book| && book[i].status.Open? && book[j].status.Open?
      ==> book[i].token != book[j].token
  }

  predicate OrderOk(s: Settings, order: Order) {
    MIN_TRADE <= order.size <= Quantize(s.maxPosition)
  }

  /** The orders whose swap is under way. */
  function InFlight(d: State): seq<Order> {
    if d.phase.Cleared? then [d.phase.order] + d.approving else d.approving
  }

  ghost predicate BookOk(book: Book) {
    && (forall i :: 0 <= i < |book| ==> RowOk(book[i]))
    && OneOpenPerToken(book)
  }

  ghost predicate OrdersOk(s: Settings, k: nat, d: State) {
    && (!d.phase.Idle? ==> OrderOk(s, d.phase.order))
    && (forall i :: 0 <= i < |d.pending| ==> OrderOk(s, d.pending[i]))
    && (forall i :: 0 <= i < |d.approving| ==> OrderOk(s, d.approving[i]))
    && |d.approving| <= k
    && (if s.approvalMode then !d.phase.Cleared? else d.pending == [] && d.approving == [])
  }

  ghost predicate CountersOk(s: Settings, k: nat, rails: Rails, day: int) {
    && (forall day' :: day' in rails.daily ==> day' <= day)
    && (forall day' :: RealizedOn(rails, day') >= LossFloor(s, k))
  }

  /** The orders in flight fit under all three bounds on top of the open positions. */
  predicate Room(s: Settings, k: nat, d: State, orders: seq<Order>) {
    && AtRisk(d.book) + Sizes(orders) <= ExposureCap(s, k)
    && OpenCount(d.book) + |orders| <= PositionCap(s, k)
    && RealizedOn(d.rails, d.day) - AtRisk(d.book) - Sizes(orders) >= LossFloor(s, k)
  }

  /** The central invariant, for at most k approvals under way.  Its inductive core is that today's
      counter minus the lamports at risk (those of the swaps under way included) never falls below the
      floor. */
  ghost predicate Inv(s: Settings, k: nat, d: State) {
    && BookOk(d.book)
    && OrdersOk(s, k, d)
    && CountersOk(s, k, d.rails, d.day)
    && 0 <= AtRisk(d.book)
    && Room(s, k, d, InFlight(d))
    && (!s.approvalMode && !d.phase.Idle? ==> AtRisk(d.book) + d.phase.order.size <= ExposureCap(s, k))
  }

  lemma FloorIsNegative(s: Settings, k: nat)
    ensures LossFloor(s, k) <= -ExposureCap(s, k) <= 0
  {
  }

  /** A gate that lets a buy through leaves room for it, in every mode. */
  lemma GateLeavesRoom(s: Settings, k: nat, d: State, order: Order, redisReads: nat)
    requires Inv(s, k, d) && OrderOk(s, order)
    requires GateClear(s, d.rails, d.book, d.day, order.token, redisReads)
    requires if s.approvalMode then |d.approving| < k else AtRisk(d.book) + order.size <= ExposureCap(s, k)
    ensures Room(s, k, d, d.approving + [order])
  {
    SizesAppend(d.approving, order);
    if s.approvalMode {
      SizesBounded(d.approving + [order], LargestOrder(s));
      GateUnderCap(s, k, AtRisk(d.book), d.approving + [order]);
    }
    hide ExposureCap, Sizes, AtRisk, OpenCount;
    assert RealizedOn(d.rails, d.day) >= (-s.dailyLossLimit).Floor + 1;
  }

  /** An exposure still below the limit and at most k more orders stay under the cap. */
  lemma GateUnderCap(s: Settings, k: nat, atRisk: int, orders: seq<Order>)
    requires s.approvalMode && 0 <= atRisk && (atRisk as real) < s.maxExposure
    requires |orders| <= k && Sizes(orders) <= |orders| * LargestOrder(s)
    ensures atRisk + Sizes(orders) <= ExposureCap(s, k)
  {
    hide Sizes, LargestOrder;
    TimesMonotone(|orders|, k, LargestOrder(s));
    assert atRisk <= Ceiling(s.maxExposure) - 1;
  }

  lemma TimesMonotone(a: nat, b: nat, c: nat)
    requires a <= b
    ensures a * c <= b * c
  {
  }

  lemma OpenedBookOk(book: Book, row: CopyPosition)
    requires BookOk(book) && RowOk(row) && OpenIndex(book, row.token) < 0
    ensures BookOk(book + [row])
  {
  }

  lemma SameOrders(s: Settings, k: nat, d: State, e: State)
    requires OrdersOk(s, k, d) && e.phase == d.phase && e.pending == d.pending && e.approving == d.approving
    ensures OrdersOk(s, k, e)
  {
  }

  lemma OpeningLeavesRoom(s: Settings, k: nat, d: State, before: seq<Order>, order: Order)
    requires Room(s, k, d, before) && Sizes(before) == Sizes(d.approving) + order.size && |before| == |d.approving| + 1
    ensures var e := d.(book := d.book + [RowOf(order)]);
      Room(s, k, e, d.approving) && AtRisk(e.book) == AtRisk(d.book) + order.size
  {
    AppendSums(d.book, RowOf(order));
    hide ExposureCap, PositionCap, LossFloor, AtRisk, OpenCount, Sizes, RealizedOn;
  }

  /** Opening the position of an order for which there is room on top of the others in flight. */
  lemma {:induction false} OpeningKeepsInv(s: Settings, k: nat, d: State, before: seq<Order>, order: Order)
    requires Inv(s, k, d) && OrderOk(s, order) && (s.approvalMode || d.phase.Idle?)
    requires Room(s, k, d, before) && Sizes(before) == Sizes(d.approving) + order.size && |before| == |d.approving| + 1
    requires OpenIndex(d.book, order.token) < 0
    ensures Inv(s, k, d.(book := d.book + [RowOf(order)]))
  {
    var e := d.(book := d.book + [RowOf(order)]);
    OpenedBookOk(d.book, RowOf(order));
    SameOrders(s, k, d, e);
    OpeningLeavesRoom(s, k, d, before, order);
    hide OrdersOk, CountersOk, BookOk, Room, OpenIndex;
  }

  lemma {:induction false} ExecutedKeepsInv(
    s: Settings, k: nat, d: State, before: seq<Order>, order: Order, keypair: bool, answers: seq<Attempt>)
    requires Inv(s, k, d) && OrderOk(s, order) && (s.approvalMode || d.phase.Idle?)
    requires Room(s, k, d, before) && Sizes(before) == Sizes(d.approving) + order.size && |before| == |d.approving| + 1
    ensures Inv(s, k, Executed(s, d, order, keypair, answers))
  {
    hide Inv, Room, OrderOk, RunOf, OpenIndex, Sizes;
    var run := RunOf(s, order, keypair, answers);
    var sent := d.(broadcasts := d.broadcasts + run.broadcasts);
    var e := sent.(rails := WithRun(s, d.rails, order.token, run));
    SameCounters(s, k, d, sent);
    SameCounters(s, k, sent, e);
    assert Room(s, k, sent, before) && Room(s, k, e, before);
    if run.opening.Some? && !Undone(s, d, order, keypair, answers) {
      OpeningKeepsInv(s, k, e, before, order);
      assert e.book == d.book;
    }
  }

  /** Closing a position: the counter gains the result, the risk loses what was spent, so their
      difference grows by the proceeds. */
  lemma SoldKeepsInv(s: Settings, k: nat, d: State, step: Step)
    requires Inv(s, k, d) && d.phase.Idle? && step.LeaderSell?
    ensures Inv(s, k, Sold(s, d, step))
  {
    var e := Sold(s, d, step);
    if Mirrors(d, step) {
      var proceeds := ExitProceeds(s, step.keypair, step.exit);
      if proceeds.None? {
        SameCounters(s, k, d, e);
      } else {
        CloseKeepsInv(s, k, d, e, OpenIndex(d.book, step.token), proceeds.value);
      }
    }
  }

  /** e closes row i of d at the given proceeds. */
  ghost predicate Closes(s: Settings, d: State, e: State, i: nat, proceeds: real) {
    && i < |d.book| && d.book[i].status.Open? && proceeds >= 0.0
    && d.day <= e.day
    && var row := ClosedRow(d.book[i], proceeds, d.day);
       e == d.(book := d.book[i := row], rails := WithRealized(s, d.rails, e.day, row.realizedPnl),
               day := e.day, broadcasts := e.broadcasts)
  }

  lemma CloseKeepsInv(s: Settings, k: nat, d: State, e: State, i: nat, proceeds: real)
    requires Inv(s, k, d) && d.phase.Idle? && Closes(s, d, e, i, proceeds)
    ensures Inv(s, k, e)
  {
    var row := ClosedRow(d.book[i], proceeds, d.day);
    assert RowOk(d.book[i]);
    QuantizeAbove(0.0 + proceeds, 0);
    UpdateSums(d.book, i, row);
    RestNonNegative(d.book, i);
    FloorIsNegative(s, k);
    SizesBounded(d.approving, LargestOrder(s));
    assert BookOk(e.book);
    hide ExposureCap, PositionCap, LossFloor, BookOk, AtRisk, OpenCount, Sizes;
    CloseKeepsCounters(s, k, d, e, row.realizedPnl);
  }

  lemma CloseKeepsCounters(s: Settings, k: nat, d: State, e: State, pnl: int)
    requires CountersOk(s, k, d.rails, d.day) && d.day <= e.day && e.rails == WithRealized(s, d.rails, e.day, pnl)
    requires RealizedOn(d.rails, e.day) + pnl >= LossFloor(s, k)
    ensures CountersOk(s, k, e.rails, e.day)
  {
    forall day ensures RealizedOn(e.rails, day) >= LossFloor(s, k) {
      assert RealizedOn(d.rails, day) >= LossFloor(s, k);
    }
  }

  /** Taking one open row out of the sum leaves a non-negative rest. */
  lemma {:induction false} RestNonNegative(book: Book, i: nat)
    requires i < |book| && forall k :: 0 <= k < |book| ==> RowOk(book[k])
    ensures AtRisk(book) >= 0
    ensures book[i].status.Open? ==> AtRisk(book) >= book[i].spent
  {
    var last := |book| - 1;
    if last > 0 {
      RestNonNegative(book[..last], if i < last then i else 0);
    }
  }

  lemma {:induction false} NextKeepsInv(s: Settings, k: nat, d: State, step: Step)
    requires Inv(s, k, d) && |Next(s, d, step).approving| <= k
    ensures Inv(s, k, Next(s, d, step))
  {
    hide Inv, CopyDecision, GateClear, OrderOf, Approval, Sold, Executed, Room, OrderOk;
    match step
    case LeaderBuy(token, leader, leaderSize, otherGates, redisReads) =>
      BuyKeepsInv(s, k, d, token, leader, leaderSize, otherGates, redisReads);
    case Begin(lockFree, redisReads) => BeginKeepsInv(s, k, d, lockFree, redisReads);
    case Finish(keypair, answers) =>
      if d.phase.Cleared? {
        FinishHasRoom(s, k, d);
        ExecutedKeepsInv(s, k, d.(phase := Idle), [d.phase.order], d.phase.order, keypair, answers);
      }
    case Approve(index, redisReads) => ApproveKeepsInv(s, k, d, index, redisReads);
    case FinishApproval(index, keypair, answers) =>
      if index < |d.approving| { ApprovalKeepsInv(s, k, d, index, keypair, answers); }
    case LeaderSell(_, _, _, _, _, _) =>
      if d.phase.Idle? { SoldKeepsInv(s, k, d, step); }
    case Stop => SameCounters(s, k, d, Next(s, d, step));
    case Resume => SameCounters(s, k, d, Next(s, d, step));
    case Midnight => MidnightKeepsInv(s, k, d);
    case CooldownEnds(_) => SameCounters(s, k, d, Next(s, d, step));
  }

  lemma MidnightKeepsInv(s: Settings, k: nat, d: State)
    requires Inv(s, k, d)
    ensures Inv(s, k, d.(day := d.day + 1))
  {
    FloorIsNegative(s, k);
    SizesBounded(InFlight(d), LargestOrder(s));
    hide ExposureCap, PositionCap, LossFloor, BookOk, AtRisk, OpenCount, Sizes;
  }

  lemma SameCounters(s: Settings, k: nat, d: State, e: State)
    requires Inv(s, k, d) && e == d.(rails := e.rails, broadcasts := e.broadcasts) && e.rails.daily == d.rails.daily
    ensures Inv(s, k, e)
    ensures forall orders :: Room(s, k, e, orders) == Room(s, k, d, orders)
  {
    hide ExposureCap, PositionCap, LossFloor;
    assert forall day :: RealizedOn(e.rails, day) == RealizedOn(d.rails, day);
  }

  lemma BuyKeepsInv(
    s: Settings, k: nat, d: State, token: Mint, leader: int, leaderSize: real, otherGates: bool, redisReads: nat)
    requires Inv(s, k, d)
    ensures Inv(s, k, Next(s, d, LeaderBuy(token, leader, leaderSize, otherGates, redisReads)))
  {
    hide PositionCap, LossFloor, Sizes, CountersOk;
    SizeWithinLimits(s, leaderSize, Exposure(d.book));
  }

  lemma BeginKeepsInv(s: Settings, k: nat, d: State, lockFree: bool, redisReads: nat)
    requires Inv(s, k, d)
    ensures Inv(s, k, Next(s, d, Begin(lockFree, redisReads)))
  {
    hide ExposureCap, PositionCap, LossFloor, BookOk, CountersOk, AtRisk, OpenCount, Sizes, OrderOk;
    if d.phase.Evaluated? && !s.approvalMode
       && GateClear(s, d.rails, d.book, d.day, d.phase.order.token, redisReads) {
      GateLeavesRoom(s, k, d, d.phase.order, redisReads);
      assert d.approving + [d.phase.order] == [d.phase.order] + d.approving;
      hide GateClear;
      assert Inv(s, k, d.(phase := Cleared(d.phase.order)));
    }
  }

  /** There is room for the worker's swap when it ends. */
  lemma FinishHasRoom(s: Settings, k: nat, d: State)
    requires Inv(s, k, d) && d.phase.Cleared?
    ensures Inv(s, k, d.(phase := Idle)) && OrderOk(s, d.phase.order) && !s.approvalMode && d.approving == []
    ensures Room(s, k, d.(phase := Idle), [d.phase.order]) && Sizes([d.phase.order]) == d.phase.order.size
  {
    SizesAppend([], d.phase.order);
    assert [] + [d.phase.order] == [d.phase.order] == InFlight(d);
    hide ExposureCap, PositionCap, LossFloor, BookOk, CountersOk, AtRisk, OpenCount;
  }

  lemma ApproveKeepsInv(s: Settings, k: nat, d: State, index: nat, redisReads: nat)
    requires Inv(s, k, d) && |Next(s, d, Approve(index, redisReads)).approving| <= k
    ensures Inv(s, k, Next(s, d, Approve(index, redisReads)))
  {
    if index < |d.pending| {
      var order := d.pending[index];
      assert OrderOk(s, order) && s.approvalMode;
      FewerPending(s, k, d, index);
      var rest := d.(pending := Without(d.pending, index));
      if GateClear(s, d.rails, d.book, d.day, order.token, redisReads) {
        hide Inv, OrderOk, GateClear;
        assert |d.approving + [order]| <= k;
        GateLeavesRoom(s, k, rest, order, redisReads);
        StartedKeepsInv(s, k, rest, order);
      }
    }
  }

  lemma {:induction false} FewerPending(s: Settings, k: nat, d: State, index: nat)
    requires Inv(s, k, d) && index < |d.pending|
    ensures Inv(s, k, d.(pending := Without(d.pending, index)))
  {
    hide OrderOk, BookOk, CountersOk, ExposureCap, PositionCap, LossFloor, AtRisk, OpenCount, Sizes;
  }

  lemma {:induction false} StartedKeepsInv(s: Settings, k: nat, d: State, order: Order)
    requires Inv(s, k, d) && OrderOk(s, order) && s.approvalMode && |d.approving| < k
    requires Room(s, k, d, d.approving + [order])
    ensures Inv(s, k, d.(approving := d.approving + [order]))
  {
    hide OrderOk, BookOk, CountersOk, ExposureCap, PositionCap, LossFloor, AtRisk, OpenCount, Sizes;
  }

  lemma {:induction false} ApprovalKeepsInv(s: Settings, k: nat, d: State, index: nat, keypair: bool, answers: seq<Attempt>)
    requires Inv(s, k, d) && index < |d.approving|
    ensures Inv(s, k, Approval(s, d, index, keypair, answers))
  {
    var order := d.approving[index];
    var rest := d.(approving := Without(d.approving, index));
    SizesWithout(d.approving, index);
    hide ExposureCap, PositionCap, LossFloor, BookOk, CountersOk, Sizes, AtRisk, OpenCount;
    assert OrderOk(s, order);
    assert Inv(s, k, rest);
    ExecutedKeepsInv(s, k, rest, d.approving, order, keypair, answers);
    hide GateClear, RunOf, Room, BookOk, OrderOk;
    assert Executed(s, rest, order, keypair, answers).pending == d.pending;
    MorePending(s, k, Executed(s, rest, order, keypair, answers), order);
  }

  lemma MorePending(s: Settings, k: nat, e: State, order: Order)
    requires Inv(s, k, e) && s.approvalMode && OrderOk(s, order)
    ensures Inv(s, k, e.(pending := e.pending + [order]))
  {
    hide BookOk, CountersOk, OrderOk, ExposureCap, PositionCap, LossFloor, AtRisk, OpenCount, Sizes;
  }

  /** At no time are more than k approvals under way. */
  ghost predicate Overlap(s: Settings, d: State, steps: seq<Step>, k: nat) {
    forall i :: 0 <= i <= |steps| ==> |RunFrom(s, d, steps[..i]).approving| <= k
  }

  lemma {:induction false} RunKeepsInv(s: Settings, k: nat, d: State, steps: seq<Step>)
    requires Inv(s, k, d) && (s.approvalMode ==> Overlap(s, d, steps, k))
    ensures Inv(s, k, RunFrom(s, d, steps))
  {
    if steps != [] {
      var n := |steps| - 1;
      var front := steps[..n];
      assert forall i :: 0 <= i <= n ==> front[..i] == steps[..i];
      RunKeepsInv(s, k, d, front);
      assert steps[..|steps|] == steps;
      hide Inv;
      NothingApproving(s, k, RunFrom(s, d, front), steps[n]);
      NextKeepsInv(s, k, RunFrom(s, d, front), steps[n]);
    }
  }

  /** Without approvals no approval is ever under way. */
  lemma NothingApproving(s: Settings, k: nat, d: State, step: Step)
    requires Inv(s, k, d)
    ensures !s.approvalMode ==> |Next(s, d, step).approving| <= k
  {
  }

  lemma ReachableInv(s: Settings, k: nat, steps: seq<Step>)
    requires s.approvalMode ==> Overlap(s, INITIAL, steps, k)
    ensures Inv(s, k, RunFrom(s, INITIAL, steps))
  {
    FloorIsNegative(s, k);
    RunKeepsInv(s, k, INITIAL, steps);
  }

  // --- the main results ---------------------------------------------------

  /** In every reachable state, in either mode and for any number k of approvals that ever overlap: at
      most one open position per token, at most the allowed number of them, and at most the cap at risk. */
  lemma ExposureIsCapped(s: Settings, k: nat, steps: seq<Step>)
    requires s.approvalMode ==> Overlap(s, INITIAL, steps, k)
    ensures var d := RunFrom(s, INITIAL, steps);
      && OneOpenPerToken(d.book)
      && OpenCount(d.book) <= PositionCap(s, k)
      && Exposure(d.book) == AtRisk(d.book) <= ExposureCap(s, k)
  {
    ReachableInv(s, k, steps);
    SizesBounded(RunFrom(s, INITIAL, steps).approving, LargestOrder(s));
    hide ExposureCap, PositionCap, LossFloor, RunFrom;
  }

  /** With whole-lamport limits the cap is the exposure limit itself while approvals are off, and
      strictly less than exposure limit plus k position limits while they are on. */
  lemma CapMeansTheLimits(s: Settings, k: nat)
    ensures !s.approvalMode ==> ExposureCap(s, k) as real <= MaxReal(s.maxExposure + 0.5, 0.0)
    ensures !s.approvalMode && IsWhole(s.maxExposure) ==> ExposureCap(s, k) as real <= MaxReal(s.maxExposure, 0.0)
    ensures s.approvalMode && IsWhole(s.maxPosition) && ExposureCap(s, k) > 0 ==>
      (ExposureCap(s, k) as real) < s.maxExposure + k as real * MaxReal(s.maxPosition, 0.0)
    ensures s.approvalMode && k <= 1 ==> PositionCap(s, k) <= NonNegative(s.maxOpenPositions)
  {
    if s.approvalMode {
      QuantizeWhole(s.maxPosition.Floor);
      assert (Ceiling(s.maxExposure) - 1) as real < s.maxExposure;
      assert IsWhole(s.maxPosition) ==> LargestOrder(s) as real == MaxReal(s.maxPosition, 0.0);
      hide LargestOrder;
      assert (k * LargestOrder(s)) as real == k as real * LargestOrder(s) as real;
    }
  }

  /** No day, past or present, ever shows a realised loss as large as the daily limit plus the cap. */
  lemma DailyLossIsBounded(s: Settings, k: nat, steps: seq<Step>, day: int)
    requires s.approvalMode ==> Overlap(s, INITIAL, steps, k)
    ensures RealizedOn(RunFrom(s, INITIAL, steps).rails, day) >= LossFloor(s, k)
    ensures s.dailyLossLimit > 0.0 ==>
      RealizedOn(RunFrom(s, INITIAL, steps).rails, day) as real > -s.dailyLossLimit - ExposureCap(s, k) as real
  {
    ReachableInv(s, k, steps);
    hide ExposureCap, RunFrom;
  }

  /** A close moves the day's counter and the lamports at risk together: their difference rises by
      exactly what the sale brought in. */
  lemma CloseRaisesTheDifference(s: Settings, d: State, step: Step)
    requires BookOk(d.book) && d.phase.Idle? && step.LeaderSell? && !step.straddles
    requires Mirrors(d, step) && ExitProceeds(s, step.keypair, step.exit).Some?
    ensures var e := Sold(s, d, step);
      var proceeds := Quantize(ExitProceeds(s, step.keypair, step.exit).value);
      && proceeds >= 0
      && RealizedOn(e.rails, d.day) - AtRisk(e.book) == RealizedOn(d.rails, d.day) - AtRisk(d.book) + proceeds
  {
    var i := OpenIndex(d.book, step.token);
    var proceeds := ExitProceeds(s, step.keypair, step.exit).value;
    assert RowOk(d.book[i]);
    QuantizeAbove(proceeds, 0);
    UpdateSums(d.book, i, ClosedRow(d.book[i], proceeds, d.day));
  }

  /** What a close writes and where it is booked: the row is stamped with the day the close began, its
      result is what was sold less what was spent, and it is added to the counter of the day the close ended,
      the next one when it straddles midnight; no other counter and no other row changes. */
  lemma {:induction false} CloseIsBookedOn(s: Settings, d: State, step: Step)
    requires BookOk(d.book) && d.phase.Idle? && step.LeaderSell? && Mirrors(d, step)
    requires ExitProceeds(s, step.keypair, step.exit).Some?
    ensures var e, i := Next(s, d, step), OpenIndex(d.book, step.token);
      && e.day == d.day + (if step.straddles then 1 else 0)
      && |e.book| == |d.book| && (forall j :: 0 <= j < |d.book| && j != i ==> e.book[j] == d.book[j])
      && e.book[i].status == PositionStatus.Closed(d.day)
      && e.book[i].realizedPnl == e.book[i].sold - d.book[i].spent
      && -0.5 <= e.book[i].sold as real - ExitProceeds(s, step.keypair, step.exit).value <= 0.5
      && forall day :: RealizedOn(e.rails, day)
           == RealizedOn(d.rails, day) + (if day == e.day then e.book[i].realizedPnl else 0)
  {
    var i := OpenIndex(d.book, step.token);
    assert RowOk(d.book[i]);
    hide OpenIndex, ExitProceeds, SellSent;
    ClosedRowSays(d.book[i], ExitProceeds(s, step.keypair, step.exit).value, d.day);
  }

  /** A resume lifts the stop and the streak and nothing else: afterwards the gate is clear exactly when Redis
      answers, a failure is allowed at all, and cooldown, day's loss, position count and exposure permit. */
  lemma {:induction false} ResumeReopensExactly(s: Settings, d: State, token: Mint, redisReads: nat)
    ensures var e := Next(s, d, Resume);
      && e.book == d.book && e.day == d.day && e.phase == d.phase && e.pending == d.pending
      && (GateClear(s, e.rails, e.book, e.day, token, redisReads) <==>
            && redisReads >= 4 && token !in d.rails.cooling && s.maxConsecutiveFailures > 0
            && RealizedOn(d.rails, d.day) as real + s.dailyLossLimit > 0.0
            && OpenCount(d.book) < s.maxOpenPositions && (Exposure(d.book) as real) < s.maxExposure)
  {
    hide OpenCount, Exposure;
  }

  // --- the counter is the books -------------------------------------------

  ghost predicate BooksAgree(d: State) {
    forall day :: RealizedOn(d.rails, day) == PnlOn(d.book, day)
  }

  /** The step closes a position that cost something else than it brought in, with midnight between
      the two clock reads. */
  predicate ClosesAcrossMidnight(s: Settings, d: State, step: Step) {
    && d.phase.Idle? && step.LeaderSell? && step.straddles && Mirrors(d, step)
    && var proceeds := ExitProceeds(s, step.keypair, step.exit);
       proceeds.Some? && Quantize(proceeds.value) != d.book[OpenIndex(d.book, step.token)].spent
  }

  /** The exact condition, step by step: the counters go on matching the closes stamped with their
      day unless this step closes a position at a non-zero result with midnight between its two
      clock reads. */
  lemma BooksAgreeExactly(s: Settings, d: State, step: Step)
    requires BookOk(d.book) && BooksAgree(d)
    ensures BooksAgree(Next(s, d, step)) <==> !ClosesAcrossMidnight(s, d, step)
  {
    if step.LeaderSell? && d.phase.Idle? && Mirrors(d, step) && ExitProceeds(s, step.keypair, step.exit).Some? {
      CloseBooks(s, d, step);
    } else {
      NoCloseKeepsBooks(s, d, step);
    }
  }

  lemma NoCloseChanges(s: Settings, d: State, step: Step)
    requires step.LeaderSell? && d.phase.Idle? ==> !Mirrors(d, step) || ExitProceeds(s, step.keypair, step.exit).None?
    ensures var e := Next(s, d, step);
      && e.rails.daily == d.rails.daily
      && (e.book == d.book || (|e.book| == |d.book| + 1 && e.book[..|d.book|] == d.book && e.book[|d.book|].status.Open?))
  {
    hide GateClear, CopyDecision, OrderOf, Undone, ExitProceeds, RunOf;
  }

  /** Every other step leaves all counters alone and at most appends an open row. */
  lemma NoCloseKeepsBooks(s: Settings, d: State, step: Step)
    requires BooksAgree(d)
    requires step.LeaderSell? && d.phase.Idle? ==> !Mirrors(d, step) || ExitProceeds(s, step.keypair, step.exit).None?
    ensures BooksAgree(Next(s, d, step))
  {
    var e := Next(s, d, step);
    NoCloseChanges(s, d, step);
    hide Next, Mirrors, ExitProceeds;
    assert forall day :: RealizedOn(e.rails, day) == RealizedOn(d.rails, day);
    if e.book != d.book {
      AppendSums(d.book, e.book[|d.book|]);
      assert e.book == d.book + [e.book[|d.book|]];
    }
  }

  lemma CloseBooks(s: Settings, d: State, step: Step)
    requires BookOk(d.book) && BooksAgree(d) && d.phase.Idle? && step.LeaderSell?
    requires Mirrors(d, step) && ExitProceeds(s, step.keypair, step.exit).Some?
    ensures BooksAgree(Sold(s, d, step)) <==> !ClosesAcrossMidnight(s, d, step)
  {
    var e := Sold(s, d, step);
    var i := OpenIndex(d.book, step.token);
    var row := e.book[i];
    assert RowOk(d.book[i]);
    UpdateSums(d.book, i, row);
    assert forall day :: PnlOn(e.book, day) == PnlOn(d.book, day) + PnlShare(row, day);
    assert forall day ::
      RealizedOn(e.rails, day) == RealizedOn(d.rails, day) + (if day == e.day then row.realizedPnl else 0);
    if ClosesAcrossMidnight(s, d, step) {
      assert RealizedOn(e.rails, d.day) != PnlOn(e.book, d.day);
    }
  }

  /** The rows of every reachable book are sound, however many approvals overlap. */
  lemma ReachableBookOk(s: Settings, steps: seq<Step>)
    ensures BookOk(RunFrom(s, INITIAL, steps).book)
  {
    var k := SomeOverlap(s, INITIAL, steps);
    ReachableInv(s, k, steps);
  }

  /** Every run has a largest overlap. */
  lemma {:induction false} SomeOverlap(s: Settings, d: State, steps: seq<Step>) returns (k: nat)
    ensures Overlap(s, d, steps, k)
  {
    k := |RunFrom(s, d, steps).approving|;
    assert steps[..|steps|] == steps;
    if steps != [] {
      var front := steps[..|steps| - 1];
      var k' := SomeOverlap(s, d, front);
      k := if k' > k then k' else k;
      assert forall i :: 0 <= i < |steps| ==> front[..i] == steps[..i];
    }
  }

  /** Over whole runs: when no close straddles midnight, each day's counter is exactly the sum of the
      results of the positions closed on that day. */
  lemma {:induction false} CounterIsSumOfCloses(s: Settings, steps: seq<Step>)
    requires forall i :: 0 <= i < |steps| && steps[i].LeaderSell? ==> !steps[i].straddles
    ensures BooksAgree(RunFrom(s, INITIAL, steps))
  {
    if steps != [] {
      var before := steps[..|steps| - 1];
      CounterIsSumOfCloses(s, before);
      ReachableBookOk(s, before);
      BooksAgreeExactly(s, RunFrom(s, INITIAL, before), steps[|steps| - 1]);
    }
  }

  // --- the emergency stop -------------------------------------------------

  /** The rows of d are all still there, each unchanged or closed, and there are no others. */
  ghost predicate OnlyCloses(d: Book, e: Book) {
    && |e| == |d|
    && forall i :: 0 <= i < |d| ==> e[i] == d[i] || (d[i].status.Open? && e[i].status.Closed?)
  }

  /** The order a row was opened for. */
  function OrderOfRow(p: CopyPosition): Order { Order(p.token, p.leader, p.spent) }

  function Bought(rows: Book): (orders: seq<Order>)
    ensures |orders| == |rows| && forall i :: 0 <= i < |rows| ==> orders[i] == OrderOfRow(rows[i])
  {
    seq(|rows|, i requires 0 <= i < |rows| => OrderOfRow(rows[i]))
  }

  /** What became of d since the stop: the old rows are unchanged or closed, and the rows added to them,
      together with the swaps still under way, are for orders that were in flight at the stop. */
  ghost predicate StoppedSince(d: State, e: State) {
    && e.rails.stopped
    && |e.book| >= |d.book|
    && OnlyCloses(d.book, e.book[..|d.book|])
    && multiset(Bought(e.book[|d.book|..])) + multiset(InFlight(e)) <= multiset(InFlight(d))
  }

  /** Changing one row without changing its order keeps what was bought. */
  lemma SoldAfterStop(s: Settings, d: State, e: State, step: Step)
    requires StoppedSince(d, e) && e.phase.Idle? && step.LeaderSell?
    ensures StoppedSince(d, Sold(s, e, step))
  {
    var f := Sold(s, e, step);
    hide ExitProceeds, SellSent, OpenIndex;
    assert OnlyCloses(e.book, f.book);
    assert Bought(f.book[|d.book|..]) == Bought(e.book[|d.book|..]);
    assert InFlight(f) == InFlight(e);
  }

  /** f is e with the row of an order that was in flight, or without. */
  lemma FlightEnds(d: State, e: State, f: State, order: Order)
    requires |e.book| >= |d.book| && OnlyCloses(d.book, e.book[..|d.book|])
    requires multiset(Bought(e.book[|d.book|..])) + (multiset(InFlight(e)) + multiset{order}) <= multiset(InFlight(d))
    requires f.rails.stopped && InFlight(f) == InFlight(e) && (f.book == e.book || f.book == e.book + [RowOf(order)])
    ensures StoppedSince(d, f)
  {
    hide InFlight;
    if f.book != e.book {
      var bought := Bought(e.book[|d.book|..]);
      assert f.book[..|d.book|] == e.book[..|d.book|];
      assert Bought(f.book[|d.book|..]) == bought + [order];
    }
  }

  /** Running an order ends its flight, with its row or without. */
  lemma ExecutedAfterStop(
    s: Settings, d: State, e: State, before: multiset<Order>, order: Order, keypair: bool, answers: seq<Attempt>)
    requires e.rails.stopped && |e.book| >= |d.book| && OnlyCloses(d.book, e.book[..|d.book|])
    requires multiset(InFlight(e)) + multiset{order} == before
    requires multiset(Bought(e.book[|d.book|..])) + before <= multiset(InFlight(d))
    ensures StoppedSince(d, Executed(s, e, order, keypair, answers))
  {
    var f := Executed(s, e, order, keypair, answers);
    hide OnlyCloses, RunOf, OpenIndex;
    assert f.rails.stopped && InFlight(f) == InFlight(e);
    FlightEnds(d, e, f, order);
  }

  lemma WithoutIsLess(orders: seq<Order>, index: nat)
    requires index < |orders|
    ensures multiset(Without(orders, index)) + multiset{orders[index]} == multiset(orders)
  {
    assert orders == orders[..index] + [orders[index]] + orders[index + 1..];
  }

  lemma StopStep(s: Settings, d: State, e: State, step: Step)
    requires StoppedSince(d, e) && !step.Resume?
    ensures StoppedSince(d, Next(s, e, step))
  {
    if step.LeaderSell? && e.phase.Idle? {
      SoldAfterStop(s, d, e, step);
    } else if step.Finish? && e.phase.Cleared? {
      assert multiset([e.phase.order] + e.approving) == multiset(e.approving) + multiset{e.phase.order};
      ExecutedAfterStop(s, d, e.(phase := Idle), multiset(InFlight(e)), e.phase.order, step.keypair, step.answers);
    } else if step.FinishApproval? && step.index < |e.approving| {
      ApprovalAfterStop(s, d, e, step.index, step.keypair, step.answers);
    } else {
      var f := Next(s, e, step);
      hide OrderOf, CopyDecision;
      assert f.book == e.book && InFlight(f) == InFlight(e) && f.rails.stopped;
    }
  }

  lemma ApprovalAfterStop(s: Settings, d: State, e: State, index: nat, keypair: bool, answers: seq<Attempt>)
    requires StoppedSince(d, e) && index < |e.approving|
    ensures StoppedSince(d, Approval(s, e, index, keypair, answers))
  {
    var order := e.approving[index];
    var rest := e.(approving := Without(e.approving, index));
    WithoutIsLess(e.approving, index);
    assert multiset(InFlight(rest)) + multiset{order} == multiset(InFlight(e));
    hide Executed, InFlight, OnlyCloses;
    ExecutedAfterStop(s, d, rest, multiset(InFlight(e)), order, keypair, answers);
    PendingAfterStop(d, Executed(s, rest, order, keypair, answers), e.pending + [order]);
  }

  lemma PendingAfterStop(d: State, e: State, orders: seq<Order>)
    requires StoppedSince(d, e)
    ensures StoppedSince(d, e.(pending := orders))
  {
  }

  ghost predicate NeverResumed(steps: seq<Step>) {
    forall i :: 0 <= i < |steps| ==> !steps[i].Resume?
  }

  /** Once stopped, and until someone resumes, leader trades and approvals only close the rows that are
      there; the rows that may still be added are those of the swaps already in flight, one for each. */
  lemma {:induction false} StopHolds(s: Settings, d: State, steps: seq<Step>)
    requires d.rails.stopped && NeverResumed(steps)
    ensures StoppedSince(d, RunFrom(s, d, steps))
  {
    if steps == [] {
      assert d.book[..|d.book|] == d.book && d.book[|d.book|..] == [];
    } else {
      var front := steps[..|steps| - 1];
      StopHolds(s, d, front);
      StopStep(s, d, RunFrom(s, d, front), steps[|steps| - 1]);
    }
  }

  lemma AddedWasInFlight(d: State, e: State)
    requires StoppedSince(d, e) && |e.book| > |d.book|
    ensures InFlight(d) != []
  {
    var added := Bought(e.book[|d.book|..]);
    assert added[0] in multiset(added);
    assert multiset(InFlight(d))[added[0]] >= multiset(added)[added[0]];
  }

  /** Hitting the daily limit trips the stop in the very step that books the loss, so from then on, until
      someone resumes, no order that was not already in flight gets a row. */
  lemma LossEndsTrading(s: Settings, d: State, step: Step, steps: seq<Step>)
    requires d.phase.Idle? && step.LeaderSell? && NeverResumed(steps)
    requires var e := Next(s, d, step); e.book != d.book && LossLimitHit(s, RealizedOn(e.rails, e.day))
    ensures StoppedSince(Next(s, d, step), RunFrom(s, Next(s, d, step), steps))
    ensures d.approving == [] ==> OnlyCloses(Next(s, d, step).book, RunFrom(s, Next(s, d, step), steps).book)
  {
    var e := Next(s, d, step);
    assert e.rails.stopped && e.approving == d.approving && e.phase == d.phase;
    StopHolds(s, e, steps);
    hide Next, RunFrom, LossLimitHit, RealizedOn;
    var f := RunFrom(s, e, steps);
    if d.approving == [] {
      assert InFlight(e) == [];
      if |f.book| > |e.book| { AddedWasInFlight(e, f); }
      assert f.book[..|e.book|] == f.book;
    }
  }

  lemma FilledRun(s: Settings, order: Order)
    requires s.executionAttempts >= 1
    ensures RunOf(s, order, true, [FILLED]).opening == Some(1.0) && !RunOf(s, order, true, [FILLED]).raised
    ensures s.live ==> RunOf(s, order, true, [FILLED]) == Run(Confirmed, 1, 1, 1, Some(1.0), true, Reset, false)
  {
    FilledLands();
    assert AnswerAt([FILLED], 0) == FILLED;
    AttemptStep(s, true, order.size, [FILLED], TradeStatus.Approved, 0);
  }

  /** A row can still be added after the stop exactly when a swap, the worker's or an approved one, is in
      flight and attempts are allowed at all. */
  lemma StopOpensExactly(s: Settings, k: nat, d: State)
    requires d.rails.stopped && Inv(s, k, d) && InFlightIsNew(s, d)
    ensures (exists steps :: NeverResumed(steps) && |RunFrom(s, d, steps).book| > |d.book|)
      <==> InFlight(d) != [] && s.executionAttempts >= 1
  {
    hide Next, Inv, InFlightIsNew, OpenIndex;
    if steps :| NeverResumed(steps) && |RunFrom(s, d, steps).book| > |d.book| {
      StopHolds(s, d, steps);
      AddedWasInFlight(d, RunFrom(s, d, steps));
      if s.executionAttempts < 1 { NoAttemptsNoRows(s, d, steps); }
    }
    if InFlight(d) != [] && s.executionAttempts >= 1 {
      var order := InFlight(d)[0];
      var end := if d.phase.Cleared? then Finish(true, [FILLED]) else FinishApproval(0, true, [FILLED]);
      var steps := [Begin(false, 0), SellOf(d, order.token), end];
      RunThree(s, d, Begin(false, 0), SellOf(d, order.token), end);
      InFlightGetsItsRow(s, k, d);
      assert NeverResumed(steps) && |RunFrom(s, d, steps).book| > |d.book|;
    }
  }

  /** The leader of the open position in a token sells it; no quote can be had and no price is known. */
  function SellOf(d: State, token: Mint): Step {
    var i := OpenIndex(d.book, token);
    LeaderSell(token, if i >= 0 then Some(d.book[i].leader) else None, true, Exit(false, None, 0.0, NO_QUOTE), true, false)
  }

  lemma SellClears(s: Settings, d: State, token: Mint)
    requires OneOpenPerToken(d.book)
    ensures var e := Sold(s, d, SellOf(d, token));
      OpenIndex(e.book, token) < 0 && |e.book| == |d.book| && e.approving == d.approving
  {
    var e := Sold(s, d, SellOf(d, token));
    var i := OpenIndex(d.book, token);
    if i >= 0 {
      QuantizeWhole(0);
      assert ExitProceeds(s, true, Exit(false, None, 0.0, NO_QUOTE)).Some?;
      assert e.book[i].status.Closed?;
    }
  }

  lemma InFlightGetsItsRow(s: Settings, k: nat, d: State)
    requires Inv(s, k, d) && InFlightIsNew(s, d) && InFlight(d) != [] && s.executionAttempts >= 1
    ensures var order := InFlight(d)[0];
      var end := if d.phase.Cleared? then Finish(true, [FILLED]) else FinishApproval(0, true, [FILLED]);
      |Next(s, Next(s, Next(s, d, Begin(false, 0)), SellOf(d, order.token)), end).book| > |d.book|
  {
    var order := InFlight(d)[0];
    FilledRun(s, order);
    assert OneOpenPerToken(d.book) && (d.phase.Cleared? ==> OpenIndex(d.book, order.token) < 0);
    hide Inv, InFlightIsNew, RunOf, OpenIndex, WithRun;
    if d.phase.Cleared? {
      hide Sold, GateClear;
    } else {
      var idle := d.(phase := Idle);
      SellClears(s, idle, order.token);
      var sell := SellOf(d, order.token);
      assert Next(s, d, Begin(false, 0)) == idle && sell == SellOf(idle, order.token);
      assert Next(s, idle, sell) == Sold(s, idle, sell);
      hide Sold, GateClear;
      FinishedApproval(s, Next(s, idle, sell), [FILLED]);
      hide Next;
    }
  }

  lemma {:induction false} NoAttemptsNoRows(s: Settings, d: State, steps: seq<Step>)
    requires s.executionAttempts < 1
    ensures |RunFrom(s, d, steps).book| == |d.book|
  {
    if steps != [] {
      var front, step := steps[..|steps| - 1], steps[|steps| - 1];
      NoAttemptsNoRows(s, d, front);
      NoAttemptsStep(s, RunFrom(s, d, front), step);
    }
  }

  lemma NoAttemptsStep(s: Settings, d: State, step: Step)
    requires s.executionAttempts < 1
    ensures |Next(s, d, step).book| == |d.book|
  {
  }

  // --- the table index ----------------------------------------------------

  /** With approvals off, the token of the order under way has no open position. */
  ghost predicate InFlightIsNew(s: Settings, d: State) {
    s.approvalMode
    || (d.pending == [] && d.approving == [] && (!d.phase.Idle? ==> OpenIndex(d.book, d.phase.order.token) < 0))
  }

  lemma NextKeepsInFlightNew(s: Settings, d: State, step: Step)
    requires InFlightIsNew(s, d)
    ensures InFlightIsNew(s, Next(s, d, step))
  {
  }

  lemma {:induction false} InFlightStaysNew(s: Settings, steps: seq<Step>)
    ensures InFlightIsNew(s, RunFrom(s, INITIAL, steps))
  {
    if steps != [] {
      InFlightStaysNew(s, steps[..|steps| - 1]);
      NextKeepsInFlightNew(s, RunFrom(s, INITIAL, steps[..|steps| - 1]), steps[|steps| - 1]);
    }
  }

  /** With approvals off no reachable insert is refused: every position a run asks for is booked. */
  lemma NothingIsRefusedWithoutApprovals(s: Settings, steps: seq<Step>, keypair: bool, answers: seq<Attempt>)
    requires !s.approvalMode && RunFrom(s, INITIAL, steps).phase.Cleared?
    ensures var d := RunFrom(s, INITIAL, steps);
      && !Refused(s, d, d.phase.order, keypair, answers)
      && Next(s, d, Finish(keypair, answers)).book
        == (if RunOf(s, d.phase.order, keypair, answers).opening.Some? then d.book + [RowOf(d.phase.order)] else d.book)
  {
    InFlightStaysNew(s, steps);
    var order := RunFrom(s, INITIAL, steps).phase.order;
    OneAnsweredSend(s, keypair, order.size, answers, TradeStatus.Approved, 0);
  }

  /** A live run with a swap on the network books it exactly when some attempt, after only retried ones,
      ends its polls without an exception and with a readable fill, and its token has no open position.
      Otherwise the SOL may be spent and only the broadcast count tells. */
  lemma BroadcastIsBookedExactly(s: Settings, d: State, order: Order, keypair: bool, answers: seq<Attempt>)
    requires s.live && RunOf(s, order, keypair, answers).broadcasts >= 1
    ensures var e := Executed(s, d, order, keypair, answers);
      && (e.book == d.book + [RowOf(order)]
          <==> OpensSome(s, order.size, answers, 0) && OpenIndex(d.book, order.token) < 0)
      && (e.book == d.book <==> !OpensSome(s, order.size, answers, 0) || OpenIndex(d.book, order.token) >= 0)
  {
    OpensExactly(s, keypair, order.size, answers, TradeStatus.Approved, 0);
    OneAnsweredSend(s, keypair, order.size, answers, TradeStatus.Approved, 0);
    NothingWithoutKeyOf(s, order, keypair, answers);
    assert |d.book + [RowOf(order)]| == |d.book| + 1;
  }

  lemma NothingWithoutKeyOf(s: Settings, order: Order, keypair: bool, answers: seq<Attempt>)
    ensures RunOf(s, order, keypair, answers).broadcasts >= 1 ==> keypair
  {
    if !keypair { NothingWithoutKey(s, keypair, order.size, answers, TradeStatus.Approved, 0); }
  }

  /** A live buy that lands with a readable fill is booked exactly when its token has no open position;
      otherwise the SOL is spent, the book is unchanged and only the broadcast count tells. */
  lemma LandedBuyIsBookedExactly(s: Settings, d: State, order: Order, answers: seq<Attempt>, k: nat)
    requires s.live && k < s.executionAttempts && AllRetried(order.size, answers, 0, k)
    requires var a := AnswerAt(answers, k);
      Sends(order.size, a) && a.send.Answered? && Lands(a.send.polls) && a.quote.value.fill.Some?
    ensures var e := Executed(s, d, order, true, answers);
      && e.broadcasts == d.broadcasts + 1 + LostAnswers(order.size, answers, 0, k)
      && (e.book == d.book + [RowOf(order)] <==> OpenIndex(d.book, order.token) < 0)
      && (OpenIndex(d.book, order.token) >= 0 ==> e == d.(broadcasts := e.broadcasts))
  {
    LandedFillConfirms(s, order.size, answers, TradeStatus.Approved, 0, k);
    assert |d.book + [RowOf(order)]| == |d.book| + 1;
  }

  /** An approval past its gate consumes its order exactly when the insert is not refused and no
      exception of the simulation or of a poll escapes; otherwise the order is pending again. */
  lemma ApprovalConsumesExactly(s: Settings, d: State, index: nat, keypair: bool, answers: seq<Attempt>)
    requires index < |d.approving|
    ensures var order := d.approving[index];
      var e := Next(s, d, FinishApproval(index, keypair, answers));
      var undone := Refused(s, d, order, keypair, answers)
        || (s.live && keypair && SomeRaises(s, order.size, answers, 0));
      && e.approving == Without(d.approving, index)
      && (e.pending == d.pending <==> !undone)
      && (e.pending == d.pending + [order] <==> undone)
  {
    var order := d.approving[index];
    RaisesExactly(s, keypair, order.size, answers, TradeStatus.Approved, 0);
    hide OpenIndex, WithRun;
    assert |d.pending + [order]| == |d.pending| + 1;
  }

  // --- concrete runs ------------------------------------------------------

  /** Live trading with a fixed size of a hundredth of a SOL, without and with approvals. */
  const AUTOMATIC := Settings(Fixed, 0.0, 10_000_000.0, 50_000_000.0, 100_000_000.0, 5, 100_000_000.0, 3, 1, false, true)

  const MANUAL := AUTOMATIC.(approvalMode := true)

  function BuyOf(token: Mint): Step { LeaderBuy(token, 7, 0.0, true, 4) }

  function FixedOrder(token: Mint): Order { Order(token, 7, 10_000_000) }

  const LEADER_BUYS := BuyOf("M")

  const ORDER := FixedOrder("M")

  lemma FixedSize(s: Settings)
    requires s == AUTOMATIC.(approvalMode := s.approvalMode, maxOpenPositions := s.maxOpenPositions)
    ensures SizeOf(s, 0.0, 0) == 10_000_000
  {
    assert Clamped(s, 0.0, 0) == 10_000_000.0;
    QuantizeWhole(10_000_000);
  }

  lemma RunTwo(s: Settings, d: State, steps: seq<Step>, a: Step, b: Step)
    ensures RunFrom(s, d, steps + [a, b]) == Next(s, Next(s, RunFrom(s, d, steps), a), b)
  {
    hide Next;
    assert (steps + [a, b])[..|steps| + 1] == steps + [a];
    assert (steps + [a])[..|steps|] == steps;
  }

  lemma RunThree(s: Settings, d: State, a: Step, b: Step, c: Step)
    ensures RunFrom(s, d, [a, b, c]) == Next(s, Next(s, Next(s, d, a), b), c)
  {
    hide Next;
    RunTwo(s, d, [a], b, c);
    assert [a] + [b, c] == [a, b, c] && [a][..0] == [];
    assert RunFrom(s, d, [a]) == Next(s, RunFrom(s, d, []), a);
  }

  /** One leader buy, executed at once: one open row, one broadcast, the token cooling. */
  const BOUGHT := State([RowOf(ORDER)], [], [], Idle, Rails(false, 0, map[], {"M"}), 0, 1)

  /** The worker's swap is under way. */
  lemma AutomaticSwap()
    ensures Next(AUTOMATIC, Next(AUTOMATIC, INITIAL, LEADER_BUYS), Begin(true, 4)) == INITIAL.(phase := Cleared(ORDER))
  {
    FixedSize(AUTOMATIC);
    assert Next(AUTOMATIC, INITIAL, LEADER_BUYS) == INITIAL.(phase := Evaluated(ORDER));
  }

  lemma AutomaticBuy()
    ensures RunFrom(AUTOMATIC, INITIAL, [LEADER_BUYS, Begin(true, 4), Finish(true, [FILLED])]) == BOUGHT
  {
    RunThree(AUTOMATIC, INITIAL, LEADER_BUYS, Begin(true, 4), Finish(true, [FILLED]));
    FilledRun(AUTOMATIC, ORDER);
    AutomaticSwap();
  }

  /** A sell of the token for which no quote could be had and no price is known. */
  function UnquotedSell(straddles: bool): Step {
    LeaderSell("M", Some(7), true, Exit(false, None, 0.0, NO_QUOTE), true, straddles)
  }

  /** In live mode a close is backed by a landed on-chain sale exactly when the sell was quoted. */
  lemma LiveCloseIsSoldExactly(s: Settings, d: State, step: Step)
    requires s.live && step.LeaderSell?
    ensures var e := Sold(s, d, step);
      e.book != d.book ==>
        && (step.exit.quoted <==>
              e.broadcasts == d.broadcasts + 1 && step.exit.live.send.Answered? && Lands(step.exit.live.send.polls))
        && (!step.exit.quoted ==> e.broadcasts == d.broadcasts)
  {
    if ExitProceeds(s, step.keypair, step.exit).Some? { BookedSaleLanded(s, step.keypair, step.exit); }
  }

  /** A reachable live close without a sale: the row is closed as a total loss, nothing is broadcast. */
  lemma UnquotedLiveCloseSellsNothing()
    ensures var e := Next(AUTOMATIC, BOUGHT, UnquotedSell(false));
      && e.book == [CopyPosition("M", 7, 10_000_000, 0, -10_000_000, Closed(0))]
      && e.broadcasts == BOUGHT.broadcasts
      && RealizedOn(e.rails, 0) == -10_000_000
  {
    UnquotedRow();
    assert OpenIndex(BOUGHT.book, "M") == 0;
  }

  lemma UnquotedRow()
    ensures ClosedRow(RowOf(ORDER), 0.0, 0) == CopyPosition("M", 7, 10_000_000, 0, -10_000_000, Closed(0))
    ensures ExitProceeds(AUTOMATIC, true, Exit(false, None, 0.0, NO_QUOTE)) == Some(0.0)
  {
    QuantizeWhole(0);
  }

  /** The same sell across midnight leaves the counters and the books apart. */
  lemma StraddlingCloseSplitsTheBooks()
    ensures BooksAgree(BOUGHT) && !BooksAgree(Next(AUTOMATIC, BOUGHT, UnquotedSell(true)))
  {
    AutomaticBuy();
    var steps := [LEADER_BUYS, Begin(true, 4), Finish(true, [FILLED])];
    ReachableBookOk(AUTOMATIC, steps);
    CounterIsSumOfCloses(AUTOMATIC, steps);
    BooksAgreeExactly(AUTOMATIC, BOUGHT, UnquotedSell(true));
    UnquotedRow();
    QuantizeWhole(0);
    assert OpenIndex(BOUGHT.book, "M") == 0;
  }

  /** The leader's buy of a token, left pending, in a desk that is idle and has nothing open. */
  lemma OrderWaits(s: Settings, d: State, token: Mint)
    requires s == MANUAL.(maxOpenPositions := s.maxOpenPositions) && s.maxOpenPositions >= 1
    requires d == INITIAL.(pending := d.pending)
    ensures Next(s, Next(s, d, BuyOf(token)), Begin(true, 4)) == d.(pending := d.pending + [FixedOrder(token)])
  {
    FixedSize(s);
    assert Next(s, d, BuyOf(token)) == d.(phase := Evaluated(FixedOrder(token)));
  }

  /** Two buys of one token wait for approval; the first one approved is booked, the second is refused
      by the table index. */
  const APPROVALS: seq<Step> :=
    [LEADER_BUYS, Begin(true, 4)] + [LEADER_BUYS, Begin(true, 4)]
    + [Approve(0, 4), FinishApproval(0, true, [FILLED])] + [CooldownEnds("M"), CooldownEnds("M")]

  const ONE_PENDING := State([RowOf(ORDER)], [ORDER], [], Idle, Rails(false, 0, map[], {}), 0, 1)

  /** One round of approving the first pending order with a swap that lands. */
  function Approved(s: Settings, d: State): State {
    Next(s, Next(s, d, Approve(0, 4)), FinishApproval(0, true, [FILLED]))
  }

  lemma FirstApproval()
    ensures RunFrom(MANUAL, INITIAL, APPROVALS) == ONE_PENDING
  {
    var buy := [LEADER_BUYS, Begin(true, 4)];
    var done := buy + buy + [Approve(0, 4), FinishApproval(0, true, [FILLED])];
    OrderWaits(MANUAL, INITIAL, "M");
    OrderWaits(MANUAL, INITIAL.(pending := [ORDER]), "M");
    ApprovedOfTwo();
    var cooling := ONE_PENDING.(rails := Rails(false, 0, map[], {"M"}));
    assert Next(MANUAL, cooling, CooldownEnds("M")) == ONE_PENDING == Next(MANUAL, ONE_PENDING, CooldownEnds("M"));
    hide Next;
    RunTwo(MANUAL, INITIAL, [], LEADER_BUYS, Begin(true, 4));
    RunTwo(MANUAL, INITIAL, buy, LEADER_BUYS, Begin(true, 4));
    RunTwo(MANUAL, INITIAL, buy + buy, Approve(0, 4), FinishApproval(0, true, [FILLED]));
    RunTwo(MANUAL, INITIAL, done, CooldownEnds("M"), CooldownEnds("M"));
    assert RunFrom(MANUAL, INITIAL, []) == INITIAL && [] + buy == buy;
    hide RunFrom;
    assert [ORDER] + [ORDER] == [ORDER, ORDER] && [] + [ORDER] == [ORDER];
  }

  lemma ApprovedOfTwo()
    ensures Approved(MANUAL, INITIAL.(pending := [ORDER, ORDER])) == ONE_PENDING.(rails := Rails(false, 0, map[], {"M"}))
  {
    FilledRun(MANUAL, ORDER);
    hide RunOf;
    assert Without([ORDER, ORDER], 0) == [ORDER] && Without([ORDER], 0) == [];
    var d := INITIAL.(pending := [ORDER, ORDER]);
    var under := d.(pending := [ORDER], approving := [ORDER]);
    assert Next(MANUAL, d, Approve(0, 4)) == under;
  }

  lemma RefusedApproval(n: nat)
    ensures Approved(MANUAL, ONE_PENDING.(broadcasts := n)) == ONE_PENDING.(broadcasts := n + 1)
  {
    FilledRun(MANUAL, ORDER);
    var d := ONE_PENDING.(broadcasts := n);
    assert d.book[..0] == [] && OpenIndex(d.book, "M") == 0;
    assert AtRisk(d.book) == AtRisk([]) + 10_000_000 && OpenCount(d.book) == OpenCount([]) + 1;
    assert GateClear(MANUAL, d.rails, d.book, 0, "M", 4);
    hide OpenIndex, OpenCount, AtRisk, GateClear;
    assert Without([ORDER], 0) == [];
    var under := d.(pending := [], approving := [ORDER]);
    assert Next(MANUAL, d, Approve(0, 4)) == under;
    assert Next(MANUAL, under, FinishApproval(0, true, [FILLED])) == d.(broadcasts := n + 1);
  }

  function Repeated(n: nat): seq<Step> {
    if n == 0 then [] else Repeated(n - 1) + [Approve(0, 4), FinishApproval(0, true, [FILLED])]
  }

  /** A reachable refused approval: the swap lands, the book does not change and the order is pending
      again, so every further approval broadcasts it once more. */
  lemma {:induction false} RefusedApprovalRepeats(n: nat)
    ensures RunFrom(MANUAL, INITIAL, APPROVALS) == ONE_PENDING
    ensures RunFrom(MANUAL, ONE_PENDING, Repeated(n)) == ONE_PENDING.(broadcasts := 1 + n)
  {
    FirstApproval();
    hide Next;
    if n > 0 {
      RefusedApprovalRepeats(n - 1);
      RefusedApproval(n);
      RunTwo(MANUAL, ONE_PENDING, Repeated(n - 1), Approve(0, 4), FinishApproval(0, true, [FILLED]));
      hide RunFrom;
    }
  }

  /** A swap that reaches the network and whose first status poll raises. */
  const ESCAPING := FILLED.(send := Answered([PollRaises]))

  lemma EscapingRun(s: Settings, order: Order)
    requires s.live && s.executionAttempts >= 1
    ensures RunOf(s, order, true, [ESCAPING]) == Run(Submitted, 1, 1, 1, None, false, Unchanged, true)
  {
    assert AnswerAt([ESCAPING], 0) == ESCAPING;
    AttemptStep(s, true, order.size, [ESCAPING], TradeStatus.Approved, 0);
  }

  const FIRST_APPROVAL: seq<Step> := [LEADER_BUYS, Begin(true, 4)] + [Approve(0, 4), FinishApproval(0, true, [ESCAPING])]

  /** A poll that raises after the send.  On the worker's path the swap is on the network and nothing is
      left of it: no row, no order, no rail.  On the approval path the order is pending again, and
      approving it once more makes a second swap for its one row. */
  lemma EscapedPollLosesTheSwap()
    ensures RunFrom(AUTOMATIC, INITIAL, [LEADER_BUYS, Begin(true, 4), Finish(true, [ESCAPING])]) == INITIAL.(broadcasts := 1)
    ensures RunFrom(MANUAL, INITIAL, FIRST_APPROVAL) == INITIAL.(pending := [ORDER], broadcasts := 1)
    ensures RunFrom(MANUAL, INITIAL, FIRST_APPROVAL + [Approve(0, 4), FinishApproval(0, true, [FILLED])])
      == BOUGHT.(broadcasts := 2)
  {
    RunThree(AUTOMATIC, INITIAL, LEADER_BUYS, Begin(true, 4), Finish(true, [ESCAPING]));
    AutomaticSwap();
    EscapingRun(AUTOMATIC, ORDER);
    RunTwo(MANUAL, INITIAL, [], LEADER_BUYS, Begin(true, 4));
    RunTwo(MANUAL, INITIAL, [LEADER_BUYS, Begin(true, 4)], Approve(0, 4), FinishApproval(0, true, [ESCAPING]));
    RunTwo(MANUAL, INITIAL, FIRST_APPROVAL, Approve(0, 4), FinishApproval(0, true, [FILLED]));
    assert [] + [LEADER_BUYS, Begin(true, 4)] == [LEADER_BUYS, Begin(true, 4)];
    OrderWaits(MANUAL, INITIAL, "M");
    ApprovedOnce(0, [ESCAPING]);
    ApprovedOnce(1, [FILLED]);
  }

  lemma ApprovedOnce(n: nat, answers: seq<Attempt>)
    requires answers == [FILLED] || answers == [ESCAPING]
    ensures var d := INITIAL.(pending := [ORDER], broadcasts := n);
      Next(MANUAL, Next(MANUAL, d, Approve(0, 4)), FinishApproval(0, true, answers))
      == if answers == [FILLED] then BOUGHT.(broadcasts := n + 1) else INITIAL.(pending := [ORDER], broadcasts := n + 1)
  {
    FilledRun(MANUAL, ORDER);
    EscapingRun(MANUAL, ORDER);
    assert Without([ORDER], 0) == [];
    var d := INITIAL.(pending := [ORDER], broadcasts := n);
    assert Next(MANUAL, d, Approve(0, 4)) == d.(pending := [], approving := [ORDER]);
    hide RunOf;
  }

  /** The stop does not recall a swap: a worker's swap and an approval under way when it trips still add
      their rows. */
  lemma StopDoesNotRecallASwap()
    ensures var d := RunFrom(AUTOMATIC, INITIAL, [LEADER_BUYS, Begin(true, 4), Stop]);
      && d == INITIAL.(phase := Cleared(ORDER), rails := Rails(true, 0, map[], {}))
      && Next(AUTOMATIC, d, Finish(true, [FILLED])).book == [RowOf(ORDER)]
    ensures var d := RunFrom(MANUAL, INITIAL, [LEADER_BUYS, Begin(true, 4)] + [Approve(0, 4), Stop]);
      && d == INITIAL.(approving := [ORDER], rails := Rails(true, 0, map[], {}))
      && Next(MANUAL, d, FinishApproval(0, true, [FILLED])).book == [RowOf(ORDER)]
  {
    AutomaticSwap();
    OrderWaits(MANUAL, INITIAL, "M");
    StoppedFlights();
    hide Next;
    RunThree(AUTOMATIC, INITIAL, LEADER_BUYS, Begin(true, 4), Stop);
    RunTwo(MANUAL, INITIAL, [], LEADER_BUYS, Begin(true, 4));
    RunTwo(MANUAL, INITIAL, [LEADER_BUYS, Begin(true, 4)], Approve(0, 4), Stop);
    assert RunFrom(MANUAL, INITIAL, []) == INITIAL && [] + [LEADER_BUYS, Begin(true, 4)] == [LEADER_BUYS, Begin(true, 4)];
    hide RunFrom;
    assert [] + [ORDER] == [ORDER];
  }

  lemma StoppedFlights()
    ensures var d := INITIAL.(phase := Cleared(ORDER), rails := Rails(true, 0, map[], {}));
      && Next(AUTOMATIC, INITIAL.(phase := Cleared(ORDER)), Stop) == d
      && Next(AUTOMATIC, d, Finish(true, [FILLED])).book == [RowOf(ORDER)]
    ensures var d := INITIAL.(approving := [ORDER], rails := Rails(true, 0, map[], {}));
      && Next(MANUAL, Next(MANUAL, INITIAL.(pending := [ORDER]), Approve(0, 4)), Stop) == d
      && Next(MANUAL, d, FinishApproval(0, true, [FILLED])).book == [RowOf(ORDER)]
  {
    FilledRun(AUTOMATIC, ORDER);
    FilledRun(MANUAL, ORDER);
    assert Without([ORDER], 0) == [];
    hide RunOf;
    assert Next(MANUAL, INITIAL.(pending := [ORDER]), Approve(0, 4)) == INITIAL.(approving := [ORDER]);
  }

  /** One open position allowed, approvals on. */
  const ONE_ALLOWED := MANUAL.(maxOpenPositions := 1)

  const OVERLAPPING: seq<Step> :=
    [BuyOf("M"), Begin(true, 4)] + [BuyOf("N"), Begin(true, 4)] + [Approve(0, 4), Approve(0, 4)]
    + [FinishApproval(0, true, [FILLED]), FinishApproval(0, true, [FILLED])]

  /** Two approvals that overlap both pass a gate that leaves room for one position. */
  lemma OverlapOvershootsTheLimit()
    ensures RunFrom(ONE_ALLOWED, INITIAL, OVERLAPPING).book == [RowOf(FixedOrder("M")), RowOf(FixedOrder("N"))]
  {
    var s, m, n := ONE_ALLOWED, FixedOrder("M"), FixedOrder("N");
    var buys := [BuyOf("M"), Begin(true, 4)] + [BuyOf("N"), Begin(true, 4)];
    var approvals := buys + [Approve(0, 4), Approve(0, 4)];
    RunTwo(s, INITIAL, [], BuyOf("M"), Begin(true, 4));
    RunTwo(s, INITIAL, [BuyOf("M"), Begin(true, 4)], BuyOf("N"), Begin(true, 4));
    RunTwo(s, INITIAL, buys, Approve(0, 4), Approve(0, 4));
    RunTwo(s, INITIAL, approvals, FinishApproval(0, true, [FILLED]), FinishApproval(0, true, [FILLED]));
    assert [] + [BuyOf("M"), Begin(true, 4)] == [BuyOf("M"), Begin(true, 4)];
    OrderWaits(s, INITIAL, "M");
    OrderWaits(s, INITIAL.(pending := [m]), "N");
    assert RunFrom(s, INITIAL, []) == INITIAL;
    hide RunFrom;
    assert [m] + [n] == [m, n] && Without([m, n], 0) == [n] && Without([n], 0) == [];
    var d := INITIAL.(pending := [m, n]);
    var under := INITIAL.(pending := [n], approving := [m]);
    assert Next(s, d, Approve(0, 4)) == under;
    assert Next(s, under, Approve(0, 4)) == INITIAL.(approving := [m, n]);
    FilledRun(s, m);
    FilledRun(s, n);
    hide RunOf;
    BothFinish(s, m, n);
  }

  /** An approval of a token with no open row, whose run asks for its position, appends its row. */
  lemma FinishedApproval(s: Settings, d: State, answers: seq<Attempt>)
    requires d.approving != [] && OpenIndex(d.book, d.approving[0].token) < 0
    requires var run := RunOf(s, d.approving[0], true, answers); run.opening.Some? && !run.raised
    ensures var e := Next(s, d, FinishApproval(0, true, answers));
      e.book == d.book + [RowOf(d.approving[0])] && e.approving == d.approving[1..]
  {
    hide RunOf, WithRun, OpenIndex;
    assert Without(d.approving, 0) == d.approving[1..];
  }

  lemma BothFinish(s: Settings, m: Order, n: Order)
    requires var run := RunOf(s, m, true, [FILLED]); run.opening.Some? && !run.raised
    requires var run := RunOf(s, n, true, [FILLED]); run.opening.Some? && !run.raised
    requires m.token != n.token
    ensures var first := Next(s, INITIAL.(approving := [m, n]), FinishApproval(0, true, [FILLED]));
      Next(s, first, FinishApproval(0, true, [FILLED])).book == [RowOf(m), RowOf(n)]
  {
    hide RunOf, Next;
    var d := INITIAL.(approving := [m, n]);
    FinishedApproval(s, d, [FILLED]);
    var first := Next(s, d, FinishApproval(0, true, [FILLED]));
    assert d.approving[1..] == [n] && d.book + [RowOf(m)] == [RowOf(m)];
    assert OpenIndex(first.book, n.token) < 0;
    FinishedApproval(s, first, [FILLED]);
  }

  // --- the worker and the approval endpoint -------------------------------

  class CopyDesk {
    const settings: Settings
    const executor: CopyExecutor
    var pending: seq<Order>
    var day: int

    constructor (settings: Settings, keypair: bool)
      ensures this.settings == settings && executor.keypair == keypair
      ensures Valid() && Abstract() == INITIAL
      ensures fresh(executor) && fresh(executor.guard)
    {
      var guard := new SafetyGuard(settings);
      var worker := new CopyExecutor(guard, keypair);
      this.settings, executor := settings, worker;
      pending, day := [], 0;
    }

    ghost predicate Valid()
    {
      executor.Valid() && executor.settings == settings
    }

    ghost function Abstract(): State
      reads this, executor, executor.guard
    {
      State(executor.book, pending, [], Idle, executor.guard.State(), day, executor.broadcasts)
    }

    /** A leader bought: evaluate, and execute in a second transaction when the verdict is copy. */
    method HandleBuy(
      token: Mint, leader: int, leaderSize: real, otherGates: bool, evaluationReads: nat,
      lockFree: bool, executionReads: nat, answers: seq<Attempt>)
      requires Valid()
      modifies this, executor`book, executor`broadcasts, executor.guard
      ensures Valid()
      ensures Abstract() == RunFrom(settings, old(Abstract()), [
          LeaderBuy(token, leader, leaderSize, otherGates, evaluationReads),
          Begin(lockFree, executionReads), Finish(executor.keypair, answers)])
    {
      ghost var s0 := Abstract();
      ghost var buy := LeaderBuy(token, leader, leaderSize, otherGates, evaluationReads);
      ghost var begin := Begin(lockFree, executionReads);
      ghost var finish := Finish(executor.keypair, answers);
      RunThree(settings, s0, buy, begin, finish);
      var size, notes := CopySize(settings, leaderSize, Exposure(executor.book));
      var blocked := executor.guard.GateReasons(executor.book, day, token, evaluationReads);
      if !otherGates || size <= 0 || blocked != [] || OpenIndex(executor.book, token) >= 0 || !lockFree {
        return;
      }
      if settings.approvalMode {
        pending := pending + [Order(token, leader, size)];
        return;
      }
      var trade := new CopyTrade(Buy, token, leader, size, TradeStatus.Approved);
      var raised := executor.RunApproved(trade, day, executionReads, answers);
    }

    /** The approval endpoint: check the rails, then run the trade, which checks them again. */
    method ApproveTrade(index: nat, redisReads: nat, answers: seq<Attempt>)
      requires Valid()
      modifies this, executor`book, executor`broadcasts, executor.guard
      ensures Valid()
      ensures Abstract() == RunFrom(settings, old(Abstract()), [
          Approve(index, redisReads), FinishApproval(0, executor.keypair, answers)])
    {
      ghost var s0 := Abstract();
      RunTwo(settings, s0, [], Approve(index, redisReads), FinishApproval(0, executor.keypair, answers));
      assert [] + [Approve(index, redisReads), FinishApproval(0, executor.keypair, answers)]
          == [Approve(index, redisReads), FinishApproval(0, executor.keypair, answers)];
      hide RunFrom, RunOf, WithRun;
      if index >= |pending| {
        return;
      }
      var order := pending[index];
      var blocked := executor.guard.GateReasons(executor.book, day, order.token, redisReads);
      if blocked != [] {
        pending := Without(pending, index);
        return;
      }
      var trade := new CopyTrade(Buy, order.token, order.leader, order.size, TradeStatus.Approved);
      var raised := executor.RunApproved(trade, day, redisReads, answers);
      ghost var under := Next(settings, s0, Approve(index, redisReads));
      assert under == s0.(pending := Without(s0.pending, index), approving := [order]);
      assert Without([order], 0) == [];
      pending := Without(pending, index) + (if raised then [order] else []);
    }

    /** The leader sold: mirror the exit. */
    method HandleSell(token: Mint, seller: Option<int>, lockFree: bool, exit: Exit, straddles: bool)
      requires Valid()
      modifies this, executor`book, executor`broadcasts, executor.guard
      ensures Valid()
      ensures Abstract() == Next(settings, old(Abstract()),
        LeaderSell(token, seller, lockFree, exit, executor.keypair, straddles))
    {
      var bookDay := if straddles then day + 1 else day;
      var i := OpenIndex(executor.book, token);
      ghost var before := executor.book;
      var raised := executor.MirrorSell(token, seller, lockFree, exit, day, bookDay);
      if i >= 0 && executor.book[i].status.Closed? {
        day := bookDay;
      }
    }
  }
}
