/** Execution of one approved buy and of one mirrored sell. */
module Execution {
  import opened Options
  import opened Lamports
  import opened Numbers
  import opened Sizing
  import opened Safety

  datatype Side = Buy | Sell

  datatype TradeStatus = PendingApproval | Approved | Simulated | Submitted | Confirmed | Failed | Rejected

  // --- what the outside world answers -------------------------------------

  /** The token amount a buy quote implies, when it can be parsed. */
  datatype Quote = Quote(fill: Option<real>)

  /** `flow` holds the fee payer's lamports before and after, when the simulator reports them; the call
      itself may raise. */
  datatype Simulation = NoResult | Errored | Ran(flow: Option<(int, int)>) | SimulationRaises

  /** One answer of the signature-status poll. */
  datatype Poll = Unknown | OnChainError | Processing | Landed | PollRaises

  /** How handing a signed transaction to the RPC node ends: it raises without the node having accepted
      the transaction, it raises although the node has, it returns nothing because the client is frozen
      (there is then no signature to poll for, so a poll learns nothing or raises), or it returns the
      signature. */
  datatype Send = NotSent | AnswerLost | NoSignature(pollRaises: bool) | Answered(polls: seq<Poll>)

  /** Everything the network may answer to one execution attempt. */
  datatype Attempt = Attempt(
    quote: Option<Quote>, built: bool, signed: bool, simulation: Simulation, send: Send)

  const NO_QUOTE := Attempt(None, false, false, NoResult, NotSent)

  /** The answers to the successive attempts; past the end there is no quote. */
  function AnswerAt(answers: seq<Attempt>, i: nat): Attempt {
    if i < |answers| then answers[i] else NO_QUOTE
  }

  // --- the pieces ---------------------------------------------------------

  /** The simulated outflow of a buy may exceed its size by five percent and a hundredth of a SOL. */
  predicate SimulationOk(side: Side, size: int, simulation: Simulation) {
    match simulation
    case Ran(None) => true
    case Ran(Some(flow)) => side.Sell? || 100 * (flow.0 - flow.1) <= 105 * size + LAMPORTS_PER_SOL
    case _ => false
  }

  /** Some poll sees the transaction land, and none before it fails, raises or sees it fail. */
  ghost predicate Lands(polls: seq<Poll>) {
    exists k :: 0 <= k < |polls| && polls[k].Landed?
      && forall i :: 0 <= i < k ==> !polls[i].OnChainError? && !polls[i].PollRaises?
  }

  /** Some poll raises before any has a verdict. */
  ghost predicate Escapes(polls: seq<Poll>) {
    exists k :: 0 <= k < |polls| && polls[k].PollRaises?
      && forall i :: 0 <= i < k ==> !polls[i].OnChainError? && !polls[i].Landed?
  }

  datatype Verdict = HasLanded | NotLanded | PollEscapes

  predicate Decisive(poll: Poll) { poll.OnChainError? || poll.Landed? || poll.PollRaises? }

  /** The position of the first decisive poll, or the number of polls. */
  function FirstDecisive(polls: seq<Poll>): (k: nat)
    ensures k <= |polls| && forall i :: 0 <= i < k ==> !Decisive(polls[i])
    ensures k < |polls| ==> Decisive(polls[k])
  {
    if polls == [] || Decisive(polls[0]) then 0 else 1 + FirstDecisive(polls[1..])
  }

  function FirstVerdict(polls: seq<Poll>): (v: Verdict)
    ensures v.HasLanded? <==> Lands(polls)
    ensures v.PollEscapes? <==> Escapes(polls)
  {
    var k := FirstDecisive(polls);
    if k < |polls| && polls[k].Landed? then HasLanded
    else if k < |polls| && polls[k].PollRaises? then PollEscapes
    else NotLanded
  }

  /** What the confirmation learns about a send that returned. */
  function SendVerdict(send: Send): Verdict
    requires send.Answered? || send.NoSignature?
  {
    match send
    case Answered(polls) => FirstVerdict(polls)
    case NoSignature(raises) => if raises then PollEscapes else NotLanded
  }

  /** The confirmation poll loop: stops at the first decisive answer or at the deadline. */
  method Confirm(polls: seq<Poll>) returns (v: Verdict)
    ensures v == FirstVerdict(polls)
    ensures v.HasLanded? <==> Lands(polls)
    ensures v.PollEscapes? <==> Escapes(polls)
  {
    var i := 0;
    while i < |polls|
      invariant 0 <= i <= |polls|
      invariant forall j :: 0 <= j < i ==> !Decisive(polls[j])
    {
      match polls[i] {
        case OnChainError =>
          assert !Lands(polls) && !Escapes(polls);
          return NotLanded;
        case PollRaises =>
          assert Escapes(polls);
          return PollEscapes;
        case Landed =>
          assert Lands(polls);
          return HasLanded;
        case _ =>
      }
      i := i + 1;
    }
    return NotLanded;
  }

  datatype Outcome = LiveConfirmed | Retriable | Broadcast | HardFail | Escaped

  datatype StreakEffect = Unchanged | Reset | Failure

  /** The verdict on one live attempt: what the caller may do next (or that an exception escapes), the
      status left on the trade, whether a transaction reached the network and whether its signature came
      back, the position to open and the streak effect. */
  datatype Live = Live(
    outcome: Outcome, status: TradeStatus, reached: bool, answered: bool, opening: Option<real>, streak: StreakEffect)

  function LiveAttempt(side: Side, size: int, keypair: bool, status: TradeStatus, a: Attempt): Live
    requires a.quote.Some?
  {
    var failure := if side.Buy? then Failure else Unchanged;
    if !keypair then Live(HardFail, Failed, false, false, None, failure)
    else if !a.built then Live(Retriable, status, false, false, None, Unchanged)
    else if !a.signed then Live(HardFail, Failed, false, false, None, failure)
    else if a.simulation.SimulationRaises? then Live(Escaped, status, false, false, None, Unchanged)
    else if !SimulationOk(side, size, a.simulation) then Live(Retriable, Simulated, false, false, None, Unchanged)
    else if a.send.NotSent? then Live(Retriable, status, false, false, None, Unchanged)
    else if a.send.AnswerLost? then Live(Retriable, status, true, false, None, Unchanged)
    else AfterSend(side, a.quote.value.fill, a.send.Answered?, SendVerdict(a.send))
  }

  /** A send that returned is taken for a broadcast, with or without a signature. */
  function AfterSend(side: Side, fill: Option<real>, answered: bool, verdict: Verdict): Live {
    match verdict
    case PollEscapes => Live(Escaped, Submitted, answered, answered, None, Unchanged)
    case NotLanded => Live(Broadcast, Submitted, answered, answered, if side.Buy? then fill else None, Unchanged)
    case HasLanded =>
      if side.Sell? then Live(LiveConfirmed, Confirmed, answered, answered, None, Unchanged)
      else if fill.None? then Live(Broadcast, Failed, answered, answered, None, Unchanged)
      else Live(LiveConfirmed, Confirmed, answered, answered, fill, Reset)
  }

  /** What one `run_approved` does: final status, attempts used, transactions that reached the network,
      those whose signature came back, position asked for, cooldown started, streak effect, and whether
      an exception of the simulation or of a poll escapes. */
  datatype Run = Run(
    status: TradeStatus, attempts: nat, broadcasts: nat, answered: nat, opening: Option<real>, cools: bool,
    streak: StreakEffect, raised: bool)

  function Count(b: bool): nat { if b then 1 else 0 }

  function EndOfRun(v: Live, attempts: nat, cools: bool): Run {
    Run(v.status, attempts, Count(v.reached), Count(v.answered), v.opening, cools, v.streak, v.outcome.Escaped?)
  }

  /** The attempts from number i on, once the rails have let the trade through. */
  function Attempts(s: Settings, keypair: bool, size: int, answers: seq<Attempt>, status: TradeStatus, i: nat): Run
    decreases s.executionAttempts - i
  {
    if i >= s.executionAttempts then Run(Failed, i, 0, 0, None, true, Failure, false)
    else
      var a := AnswerAt(answers, i);
      if a.quote.None? then Attempts(s, keypair, size, answers, status, i + 1)
      else if !s.live then
        (if a.quote.value.fill.None? then Run(Failed, i + 1, 0, 0, None, false, Unchanged, false)
         else Run(Confirmed, i + 1, 0, 0, a.quote.value.fill, true, Unchanged, false))
      else
        var v := LiveAttempt(Buy, size, keypair, status, a);
        match v.outcome
        case LiveConfirmed => EndOfRun(v, i + 1, true)
        case Broadcast => EndOfRun(v, i + 1, true)
        case HardFail => EndOfRun(v, i + 1, false)
        case Escaped => EndOfRun(v, i + 1, false)
        case Retriable =>
          var rest := Attempts(s, keypair, size, answers, v.status, i + 1);
          rest.(broadcasts := rest.broadcasts + Count(v.reached))
  }

  function WithRun(s: Settings, r: Rails, token: Mint, run: Run): (w: Rails)
    ensures w.daily == r.daily
  {
    var cooled := if run.cools then r.(cooling := r.cooling + {token}) else r;
    match run.streak
    case Unchanged => cooled
    case Reset => WithResult(s, cooled, true)
    case Failure => WithResult(s, cooled, false)
  }

  // --- what every execution guarantees ------------------------------------

  /** What the verdict on an attempt says about the network: a signature that came back stops the
      retries, and a retried attempt reached the network exactly when its answer was lost. */
  lemma AttemptFacts(side: Side, size: int, keypair: bool, status: TradeStatus, a: Attempt)
    requires a.quote.Some?
    ensures var v := LiveAttempt(side, size, keypair, status, a);
      && (v.answered ==> v.reached && a.send.Answered? && !v.outcome.Retriable? && !v.outcome.HardFail?)
      && (v.reached && !v.answered ==> v.outcome.Retriable? && a.send.AnswerLost?)
      && (v.outcome.LiveConfirmed? ==> v.answered && Lands(a.send.polls))
      && (v.opening.Some? ==> side.Buy? && (v.outcome.LiveConfirmed? || v.outcome.Broadcast?))
      && (v.outcome.HardFail? ==> v.status.Failed?)
      && (v.outcome.Retriable? ==> v.streak.Unchanged?)
  {
  }

  /** The drain guard, in numbers.  An otherwise ready buy is handed to the node exactly when its
      simulation ran without an error and reported no balances or an outflow of at most 1.05 times the
      size plus a hundredth of a SOL; otherwise the run goes on without it, or ends when the call raises. */
  lemma ReadyBuyIsSentExactly(s: Settings, size: int, answers: seq<Attempt>, status: TradeStatus, i: nat)
    requires s.live && i < s.executionAttempts
    requires var a := AnswerAt(answers, i); a.quote.Some? && a.built && a.signed && a.send.Answered?
    ensures var r := Attempts(s, true, size, answers, status, i);
      var rest := Attempts(s, true, size, answers, Simulated, i + 1);
      match AnswerAt(answers, i).simulation
      case Ran(None) => r.attempts == i + 1 && r.broadcasts == 1 && r.answered == 1
      case Ran(Some(lamports)) =>
        if 100 * (lamports.0 - lamports.1) <= 105 * size + 1_000_000_000
        then r.attempts == i + 1 && r.broadcasts == 1 && r.answered == 1 else r == rest
      case NoResult => r == rest
      case Errored => r == rest
      case SimulationRaises => r.raised && r.broadcasts == 0
  {
    AttemptStep(s, true, size, answers, status, i);
    hide Attempts, FirstVerdict;
  }

  /** The simulation fails, raises or reports an outflow above the cap. */
  predicate Drains(size: int, simulation: Simulation) {
    match simulation
    case Ran(None) => false
    case Ran(Some(lamports)) => 100 * (lamports.0 - lamports.1) > 105 * size + 1_000_000_000
    case _ => true
  }

  /** Whatever else the network answers: when every simulation fails or reports an outflow above the cap,
      nothing reaches the network and no position is asked for. */
  lemma {:induction false} DrainingBuyIsNeverSent(
    s: Settings, keypair: bool, size: int, answers: seq<Attempt>, status: TradeStatus, i: nat)
    requires s.live && forall j :: i <= j < s.executionAttempts ==> Drains(size, AnswerAt(answers, j).simulation)
    ensures var r := Attempts(s, keypair, size, answers, status, i);
      r.broadcasts == 0 && r.answered == 0 && r.opening.None?
    decreases s.executionAttempts - i
  {
    AttemptStep(s, keypair, size, answers, status, i);
    if i < s.executionAttempts {
      var a := AnswerAt(answers, i);
      assert Drains(size, a.simulation);
      var next := if a.quote.None? then status else LiveAttempt(Buy, size, keypair, status, a).status;
      DrainingBuyIsNeverSent(s, keypair, size, answers, next, i + 1);
      hide Attempts, AnswerAt;
    }
  }

  /** The attempt gets as far as handing a transaction to the node. */
  predicate Sends(size: int, a: Attempt) {
    a.quote.Some? && a.built && a.signed && SimulationOk(Buy, size, a.simulation)
  }

  /** The node accepts the transaction and the answer is lost. */
  predicate LosesAnswer(size: int, a: Attempt) { Sends(size, a) && a.send.AnswerLost? }

  /** The node accepts the transaction. */
  predicate Accepted(size: int, a: Attempt) { Sends(size, a) && (a.send.AnswerLost? || a.send.Answered?) }

  /** The executor goes on to another attempt. */
  predicate Retried(size: int, a: Attempt) {
    || a.quote.None? || !a.built
    || (a.signed && !a.simulation.SimulationRaises?
        && (!SimulationOk(Buy, size, a.simulation) || a.send.NotSent? || a.send.AnswerLost?))
  }

  /** An exception escapes: the simulation raises, or a poll does before any verdict. */
  predicate Raises(size: int, a: Attempt) {
    && a.quote.Some? && a.built && a.signed
    && (a.simulation.SimulationRaises?
        || (Sends(size, a) && (a.send.Answered? || a.send.NoSignature?) && SendVerdict(a.send).PollEscapes?))
  }

  /** The attempt hands a transaction over, its polls end without an exception and its fill can be read. */
  predicate AsksForPosition(size: int, a: Attempt) {
    && Sends(size, a) && (a.send.Answered? || a.send.NoSignature?)
    && !SendVerdict(a.send).PollEscapes? && a.quote.value.fill.Some?
  }

  /** All attempts from number i to before number k are followed by another. */
  ghost predicate AllRetried(size: int, answers: seq<Attempt>, i: nat, k: nat) {
    forall j :: i <= j < k ==> Retried(size, AnswerAt(answers, j))
  }

  /** How many of the attempts from number i to before number k lose the answer. */
  function LostAnswers(size: int, answers: seq<Attempt>, i: nat, k: nat): nat
    decreases k - i
  {
    if i >= k then 0 else Count(LosesAnswer(size, AnswerAt(answers, i))) + LostAnswers(size, answers, i + 1, k)
  }

  /** One round of the attempt loop. */
  lemma AttemptStep(s: Settings, keypair: bool, size: int, answers: seq<Attempt>, status: TradeStatus, i: nat)
    ensures var a := AnswerAt(answers, i);
      var r := Attempts(s, keypair, size, answers, status, i);
      if i >= s.executionAttempts then r == Run(Failed, i, 0, 0, None, true, Failure, false)
      else if a.quote.None? then r == Attempts(s, keypair, size, answers, status, i + 1)
      else if !s.live then
        r == if a.quote.value.fill.None? then Run(Failed, i + 1, 0, 0, None, false, Unchanged, false)
             else Run(Confirmed, i + 1, 0, 0, a.quote.value.fill, true, Unchanged, false)
      else
        var v := LiveAttempt(Buy, size, keypair, status, a);
        var rest := Attempts(s, keypair, size, answers, v.status, i + 1);
        r == if v.outcome.Retriable? then rest.(broadcasts := rest.broadcasts + Count(v.reached))
             else EndOfRun(v, i + 1, v.outcome.LiveConfirmed? || v.outcome.Broadcast?)
  {
  }

  /** The conditions on an answer, in terms of the verdict on the attempt. */
  lemma BuyFacts(size: int, status: TradeStatus, a: Attempt)
    requires a.quote.Some?
    ensures var v := LiveAttempt(Buy, size, true, status, a);
      && (v.outcome.Retriable? <==> Retried(size, a))
      && (v.outcome.Escaped? <==> Raises(size, a))
      && (v.reached <==> Accepted(size, a))
      && (LosesAnswer(size, a) <==> v.reached && Retried(size, a))
      && (v.opening.Some? <==> AsksForPosition(size, a))
      && (v.opening.Some? && !v.reached <==> Sends(size, a) && a.send == NoSignature(false) && a.quote.value.fill.Some?)
  {
  }

  /** Whatever the network answers: at most one signature comes back, every further transaction on the
      network is a lost answer, and a run that does not raise ends with a final status and at most one
      position, which is there exactly if the trade is confirmed or timed out with a readable fill. */
  lemma {:induction false} OneAnsweredSend(
    s: Settings, keypair: bool, size: int, answers: seq<Attempt>, status: TradeStatus, i: nat)
    ensures var r := Attempts(s, keypair, size, answers, status, i);
      && r.answered <= 1
      && r.broadcasts == r.answered + (if s.live && keypair then LostAnswers(size, answers, i, r.attempts) else 0)
      && r.attempts <= Max(s.executionAttempts, i)
      && (!r.raised ==> r.status in {Confirmed, Submitted, Failed})
      && (r.raised ==> s.live && r.opening.None? && r.streak.Unchanged? && !r.cools)
      && (!r.raised && r.status.Confirmed? ==> r.opening.Some? && (s.live ==> r.answered == 1))
      && (r.opening.Some? ==> r.status.Confirmed? || r.status.Submitted?)
      && (r.streak.Reset? ==> s.live && r.status.Confirmed?)
    decreases s.executionAttempts - i
  {
    AttemptStep(s, keypair, size, answers, status, i);
    hide Attempts, AnswerAt, FirstVerdict;
    if i < s.executionAttempts {
      var a := AnswerAt(answers, i);
      if a.quote.None? {
        OneAnsweredSend(s, keypair, size, answers, status, i + 1);
        AttemptsUsed(s, keypair, size, answers, status, i + 1);
      } else if s.live {
        var v := LiveAttempt(Buy, size, keypair, status, a);
        AttemptFacts(Buy, size, keypair, status, a);
        assert LostAnswers(size, answers, i + 1, i + 1) == 0;
        if v.outcome.Retriable? {
          OneAnsweredSend(s, keypair, size, answers, v.status, i + 1);
          AttemptsUsed(s, keypair, size, answers, v.status, i + 1);
        }
      }
    }
  }

  lemma {:induction false} AttemptsUsed(
    s: Settings, keypair: bool, size: int, answers: seq<Attempt>, status: TradeStatus, i: nat)
    ensures Attempts(s, keypair, size, answers, status, i).attempts >= i
    decreases s.executionAttempts - i
  {
    if i < s.executionAttempts {
      var a := AnswerAt(answers, i);
      if a.quote.None? {
        AttemptsUsed(s, keypair, size, answers, status, i + 1);
      } else if s.live {
        AttemptsUsed(s, keypair, size, answers, LiveAttempt(Buy, size, keypair, status, a).status, i + 1);
      }
    }
  }

  /** Without live mode or without the key nothing reaches the network and no exception escapes; a live
      run then asks for no position. */
  lemma {:induction false} NothingWithoutKey(
    s: Settings, keypair: bool, size: int, answers: seq<Attempt>, status: TradeStatus, i: nat)
    requires !s.live || !keypair
    ensures var r := Attempts(s, keypair, size, answers, status, i);
      r.broadcasts == 0 && !r.raised && (s.live ==> r.opening.None?)
    decreases s.executionAttempts - i
  {
    AttemptStep(s, keypair, size, answers, status, i);
    if i < s.executionAttempts && AnswerAt(answers, i).quote.None? {
      NothingWithoutKey(s, keypair, size, answers, status, i + 1);
    }
  }

  /** Some attempt raises after only retried ones. */
  ghost predicate SomeRaises(s: Settings, size: int, answers: seq<Attempt>, i: nat) {
    exists k :: RaisesAt(s, size, answers, i, k)
  }

  ghost predicate RaisesAt(s: Settings, size: int, answers: seq<Attempt>, i: nat, k: int) {
    i <= k < s.executionAttempts && Raises(size, AnswerAt(answers, k)) && AllRetried(size, answers, i, k)
  }

  /** An exception escapes a run exactly when it is live, holds the key and some attempt raises after only retried ones. */
  lemma {:induction false} RaisesExactly(
    s: Settings, keypair: bool, size: int, answers: seq<Attempt>, status: TradeStatus, i: nat)
    ensures Attempts(s, keypair, size, answers, status, i).raised <==> s.live && keypair && SomeRaises(s, size, answers, i)
    decreases s.executionAttempts - i
  {
    AttemptStep(s, keypair, size, answers, status, i);
    if !s.live || !keypair {
      NothingWithoutKey(s, keypair, size, answers, status, i);
    } else if i < s.executionAttempts {
      var a := AnswerAt(answers, i);
      if a.quote.Some? { BuyFacts(size, status, a); }
      hide Attempts, LiveAttempt, AnswerAt, SimulationOk, SendVerdict;
      if Retried(size, a) {
        var next := if a.quote.None? then status else LiveAttempt(Buy, size, true, status, a).status;
        var after := i + 1;
        RaisesExactly(s, true, size, answers, next, after);
        if k :| RaisesAt(s, size, answers, after, k) { assert RaisesAt(s, size, answers, i, k); }
        if k :| RaisesAt(s, size, answers, i, k) { assert RaisesAt(s, size, answers, after, k); }
      } else {
        if Raises(size, a) { assert RaisesAt(s, size, answers, i, i); }
        if k :| RaisesAt(s, size, answers, i, k) { assert k == i; }
      }
    }
  }

  /** The two transactions of a double swap: the answer to the j-th attempt is lost, the k-th is accepted
      too, and every attempt before it is retried. */
  ghost predicate DoubleAt(s: Settings, size: int, answers: seq<Attempt>, i: nat, j: int, k: int) {
    && i <= j < k < s.executionAttempts
    && LosesAnswer(size, AnswerAt(answers, j)) && Accepted(size, AnswerAt(answers, k)) && AllRetried(size, answers, i, k)
  }

  ghost predicate AcceptedAt(s: Settings, size: int, answers: seq<Attempt>, i: nat, k: int) {
    i <= k < s.executionAttempts && Accepted(size, AnswerAt(answers, k)) && AllRetried(size, answers, i, k)
  }

  /** Something reaches the network exactly when a live attempt is accepted after only retried ones. */
  lemma {:induction false} BroadcastExactly(
    s: Settings, keypair: bool, size: int, answers: seq<Attempt>, status: TradeStatus, i: nat)
    ensures Attempts(s, keypair, size, answers, status, i).broadcasts >= 1
      <==> s.live && keypair && exists k :: AcceptedAt(s, size, answers, i, k)
    decreases s.executionAttempts - i
  {
    AttemptStep(s, keypair, size, answers, status, i);
    if !s.live || !keypair {
      NothingWithoutKey(s, keypair, size, answers, status, i);
    } else if i < s.executionAttempts {
      var a := AnswerAt(answers, i);
      if a.quote.Some? { BuyFacts(size, status, a); }
      hide Attempts, LiveAttempt, AnswerAt, SimulationOk, SendVerdict;
      if Accepted(size, a) { assert AcceptedAt(s, size, answers, i, i); }
      if Retried(size, a) {
        var next := if a.quote.None? then status else LiveAttempt(Buy, size, true, status, a).status;
        var after := i + 1;
        BroadcastExactly(s, true, size, answers, next, after);
        if k :| AcceptedAt(s, size, answers, after, k) { assert AcceptedAt(s, size, answers, i, k); }
        if k :| AcceptedAt(s, size, answers, i, k) && k > i { assert AcceptedAt(s, size, answers, after, k); }
      }
    }
  }

  /** More than one transaction reaches the network exactly when a lost answer is followed, after only
      retried attempts, by another accepted send. */
  lemma {:induction false} DoubleSwapExactly(
    s: Settings, keypair: bool, size: int, answers: seq<Attempt>, status: TradeStatus, i: nat)
    ensures Attempts(s, keypair, size, answers, status, i).broadcasts >= 2
      <==> s.live && keypair && exists j, k :: DoubleAt(s, size, answers, i, j, k)
    decreases s.executionAttempts - i
  {
    AttemptStep(s, keypair, size, answers, status, i);
    if !s.live || !keypair {
      NothingWithoutKey(s, keypair, size, answers, status, i);
    } else if i < s.executionAttempts {
      var a := AnswerAt(answers, i);
      if a.quote.Some? { BuyFacts(size, status, a); }
      hide Attempts, LiveAttempt, AnswerAt, SimulationOk, SendVerdict;
      if Retried(size, a) {
        var next := if a.quote.None? then status else LiveAttempt(Buy, size, true, status, a).status;
        var after := i + 1;
        DoubleSwapExactly(s, true, size, answers, next, after);
        BroadcastExactly(s, true, size, answers, next, after);
        if j, k :| DoubleAt(s, size, answers, after, j, k) { assert DoubleAt(s, size, answers, i, j, k); }
        if k :| AcceptedAt(s, size, answers, after, k) && LosesAnswer(size, a) { assert DoubleAt(s, size, answers, i, i, k); }
        if j, k :| DoubleAt(s, size, answers, i, j, k) {
          assert AcceptedAt(s, size, answers, after, k);
          if j > i { assert DoubleAt(s, size, answers, after, j, k); }
        }
      } else {
        forall j, k ensures !DoubleAt(s, size, answers, i, j, k) {
          assert DoubleAt(s, size, answers, i, j, k) ==> Retried(size, AnswerAt(answers, i));
        }
      }
    }
  }

  /** A frozen send is taken for a broadcast: the client returns nothing, the executor times out and asks
      for a position although nothing reached the network. */
  ghost predicate PhantomAt(s: Settings, size: int, answers: seq<Attempt>, i: nat, k: int) {
    && i <= k < s.executionAttempts
    && var a := AnswerAt(answers, k);
       && Sends(size, a) && a.send == NoSignature(false) && a.quote.value.fill.Some?
       && AllRetried(size, answers, i, k) && LostAnswers(size, answers, i, k) == 0
  }

  /** A live position without any broadcast comes exactly from a frozen send. */
  lemma {:induction false} PhantomExactly(
    s: Settings, keypair: bool, size: int, answers: seq<Attempt>, status: TradeStatus, i: nat)
    requires s.live
    ensures var r := Attempts(s, keypair, size, answers, status, i);
      r.opening.Some? && r.broadcasts == 0 <==> keypair && exists k :: PhantomAt(s, size, answers, i, k)
    decreases s.executionAttempts - i
  {
    AttemptStep(s, keypair, size, answers, status, i);
    if !keypair {
      NothingWithoutKey(s, keypair, size, answers, status, i);
    } else if i < s.executionAttempts {
      var a := AnswerAt(answers, i);
      if a.quote.Some? { BuyFacts(size, status, a); }
      hide Attempts, LiveAttempt, AnswerAt, SimulationOk, SendVerdict;
      if Retried(size, a) {
        var next := if a.quote.None? then status else LiveAttempt(Buy, size, true, status, a).status;
        var after := i + 1;
        PhantomExactly(s, true, size, answers, next, after);
        if k :| PhantomAt(s, size, answers, after, k) && !LosesAnswer(size, a) { assert PhantomAt(s, size, answers, i, k); }
        if k :| PhantomAt(s, size, answers, i, k) { assert PhantomAt(s, size, answers, after, k); }
      } else {
        if Sends(size, a) && a.send == NoSignature(false) && a.quote.value.fill.Some? {
          assert PhantomAt(s, size, answers, i, i);
        }
        if k :| PhantomAt(s, size, answers, i, k) { assert k == i; }
      }
    }
  }

  ghost predicate OpensAt(s: Settings, size: int, answers: seq<Attempt>, i: nat, k: int) {
    i <= k < s.executionAttempts && AsksForPosition(size, AnswerAt(answers, k)) && AllRetried(size, answers, i, k)
  }

  ghost predicate OpensSome(s: Settings, size: int, answers: seq<Attempt>, i: nat) {
    exists k :: OpensAt(s, size, answers, i, k)
  }

  /** A live run asks for a position exactly when some attempt does after only retried ones. */
  lemma {:induction false} OpensExactly(
    s: Settings, keypair: bool, size: int, answers: seq<Attempt>, status: TradeStatus, i: nat)
    requires s.live
    ensures Attempts(s, keypair, size, answers, status, i).opening.Some? <==> keypair && OpensSome(s, size, answers, i)
    decreases s.executionAttempts - i
  {
    AttemptStep(s, keypair, size, answers, status, i);
    if !keypair {
      NothingWithoutKey(s, keypair, size, answers, status, i);
    } else if i < s.executionAttempts {
      var a := AnswerAt(answers, i);
      if a.quote.Some? { BuyFacts(size, status, a); }
      hide Attempts, LiveAttempt, AnswerAt, SimulationOk, SendVerdict;
      if Retried(size, a) {
        var next := if a.quote.None? then status else LiveAttempt(Buy, size, true, status, a).status;
        var after := i + 1;
        OpensExactly(s, true, size, answers, next, after);
        if k :| OpensAt(s, size, answers, after, k) { assert OpensAt(s, size, answers, i, k); }
        if k :| OpensAt(s, size, answers, i, k) { assert OpensAt(s, size, answers, after, k); }
      } else {
        if AsksForPosition(size, a) { assert OpensAt(s, size, answers, i, i); }
        if k :| OpensAt(s, size, answers, i, k) { assert k == i; }
      }
    }
  }

  /** A landed attempt after only retried ones makes the trade confirmed, provided its fill can be parsed;
      otherwise the trade fails and asks for no position. */
  lemma {:induction false} LandedFillConfirms(
    s: Settings, size: int, answers: seq<Attempt>, status: TradeStatus, i: nat, k: nat)
    requires s.live && i <= k < s.executionAttempts
    requires AllRetried(size, answers, i, k)
    requires var a := AnswerAt(answers, k); Sends(size, a) && a.send.Answered? && Lands(a.send.polls)
    ensures var fill := AnswerAt(answers, k).quote.value.fill;
      var broadcasts := 1 + LostAnswers(size, answers, i, k);
      Attempts(s, true, size, answers, status, i)
        == if fill.Some? then Run(Confirmed, k + 1, broadcasts, 1, fill, true, Reset, false)
           else Run(Failed, k + 1, broadcasts, 1, None, true, Unchanged, false)
    decreases k - i
  {
    if i < k {
      assert Retried(size, AnswerAt(answers, i));
      var a := AnswerAt(answers, i);
      var next := if a.quote.None? then status else LiveAttempt(Buy, size, true, status, a).status;
      LandedFillConfirms(s, size, answers, next, i + 1, k);
    }
  }

  /** A swap that reaches the network, lands and can be read. */
  const FILLED := Attempt(Some(Quote(Some(1.0))), true, true, Ran(None), Answered([Landed]))

  lemma FilledLands()
    ensures Lands(FILLED.send.polls)
  {
    assert FILLED.send.polls[0].Landed?;
  }

  /** The code takes every exception of a send for proof that nothing was broadcast.  With two attempts
      and the first answer lost, two swaps are on the network and one position is asked for. */
  lemma LostAnswerSwapsTwice(s: Settings)
    requires s.live && s.executionAttempts == 2
    ensures Attempts(s, true, MIN_TRADE, [FILLED.(send := AnswerLost), FILLED], Approved, 0)
      == Run(Confirmed, 2, 2, 1, Some(1.0), true, Reset, false)
  {
    var answers := [FILLED.(send := AnswerLost), FILLED];
    FilledLands();
    assert AnswerAt(answers, 0) == answers[0] && AnswerAt(answers, 1) == FILLED;
    assert LostAnswers(MIN_TRADE, answers, 1, 1) == 0;
    LandedFillConfirms(s, MIN_TRADE, answers, Approved, 0, 1);
  }

  /** With no attempt left, the lost swap is reported as a plain failure and no position is asked for. */
  lemma LostAnswerEndsAsFailure(s: Settings)
    requires s.live && s.executionAttempts == 1
    ensures Attempts(s, true, MIN_TRADE, [FILLED.(send := AnswerLost)], Approved, 0)
      == Run(Failed, 1, 1, 0, None, true, Failure, false)
  {
    assert AnswerAt([FILLED.(send := AnswerLost)], 0) == FILLED.(send := AnswerLost);
  }

  /** A freeze between simulation and send: a position for a swap that was never sent. */
  lemma FrozenSendOpensPhantom(s: Settings)
    requires s.live && s.executionAttempts == 1
    ensures Attempts(s, true, MIN_TRADE, [FILLED.(send := NoSignature(false))], Approved, 0)
      == Run(Submitted, 1, 0, 0, Some(1.0), true, Unchanged, false)
  {
    assert AnswerAt([FILLED.(send := NoSignature(false))], 0) == FILLED.(send := NoSignature(false));
  }

  /** A swap the poll sees fail on chain is treated like one that timed out: a position for nothing. */
  lemma FailedSwapOpensPosition(s: Settings)
    requires s.live && s.executionAttempts == 1
    ensures Attempts(s, true, MIN_TRADE, [FILLED.(send := Answered([OnChainError]))], Approved, 0)
      == Run(Submitted, 1, 1, 1, Some(1.0), true, Unchanged, false)
  {
    assert AnswerAt([FILLED.(send := Answered([OnChainError]))], 0) == FILLED.(send := Answered([OnChainError]));
  }

  /** None of the attempts from number i on is answered with a quote. */
  ghost predicate NeverQuoted(s: Settings, answers: seq<Attempt>, i: nat) {
    forall j :: i <= j < s.executionAttempts ==> AnswerAt(answers, j).quote.None?
  }

  /** The code's comment says only live buys feed the auto-stop.  In paper mode a trade counts as a
      failure exactly when no attempt is ever quoted. */
  lemma {:induction false} PaperFailureCountsExactly(
    s: Settings, keypair: bool, size: int, answers: seq<Attempt>, status: TradeStatus, i: nat)
    requires !s.live
    ensures Attempts(s, keypair, size, answers, status, i).streak == Failure <==> NeverQuoted(s, answers, i)
    ensures NeverQuoted(s, answers, i) ==>
      Attempts(s, keypair, size, answers, status, i) == Run(Failed, Max(s.executionAttempts, i), 0, 0, None, true, Failure, false)
    decreases s.executionAttempts - i
  {
    if i < s.executionAttempts {
      if AnswerAt(answers, i).quote.None? {
        PaperFailureCountsExactly(s, keypair, size, answers, status, i + 1);
        assert NeverQuoted(s, answers, i + 1) ==> NeverQuoted(s, answers, i);
      } else {
        assert !NeverQuoted(s, answers, i);
      }
    }
  }

  /** A concrete case: one unanswered paper buy trips the emergency stop when a single failure is
      allowed to. */
  lemma PaperBuyTripsTheStop(s: Settings)
    requires !s.live && s.executionAttempts == 1 && s.maxConsecutiveFailures == 1
    ensures WithRun(s, Rails(false, 0, map[], {}), "M", Attempts(s, false, MIN_TRADE, [], Approved, 0))
      == Rails(true, 1, map[], {"M"})
  {
    PaperFailureCountsExactly(s, false, MIN_TRADE, [], Approved, 0);
  }

  // --- how a run ends -------------------------------------------------------

  /** The simulation stops the attempt: it has no result or an error, or reports an outflow above the cap. */
  predicate Stops(size: int, simulation: Simulation) {
    match simulation
    case NoResult => true
    case Errored => true
    case SimulationRaises => false
    case Ran(None) => false
    case Ran(Some(lamports)) => 100 * (lamports.0 - lamports.1) > 105 * size + 1_000_000_000
  }

  /** A live buy goes on to another attempt after these answers. */
  predicate GoesOn(keypair: bool, size: int, a: Attempt) {
    || a.quote.None?
    || (keypair && !a.built)
    || (keypair && a.signed && (Stops(size, a.simulation) || (a.simulation.Ran? && (a.send.NotSent? || a.send.AnswerLost?))))
  }

  /** An exception of these answers escapes the run. */
  ghost predicate LetsEscape(a: Attempt) {
    a.simulation.SimulationRaises? || a.send == NoSignature(true) || (a.send.Answered? && Escapes(a.send.polls))
  }

  /** What the last answers of a live run leave behind: without a key or a signed transaction a failure
      that feeds the streak; after an exception nothing; a landed swap with a readable fill is confirmed and
      clears the streak, an unreadable one fails without feeding it; and anything else is taken for a
      broadcast that may still land. */
  ghost predicate EndsAs(keypair: bool, a: Attempt, r: Run)
    requires a.quote.Some?
  {
    if !keypair || !a.signed then
      r.status.Failed? && r.streak.Failure? && !r.cools && !r.raised && r.opening.None?
    else if LetsEscape(a) then r.raised && r.streak.Unchanged? && !r.cools && r.opening.None?
    else
      && !r.raised && r.cools
      && if a.send.Answered? && Lands(a.send.polls) then
           if a.quote.value.fill.None? then r.status.Failed? && r.streak.Unchanged? && r.opening.None?
           else r.status.Confirmed? && r.streak.Reset? && r.opening == a.quote.value.fill
         else r.status.Submitted? && r.streak.Unchanged? && r.opening == a.quote.value.fill
  }

  lemma EndsAfterOne(size: int, keypair: bool, status: TradeStatus, a: Attempt, attempts: nat)
    requires a.quote.Some?
    ensures var v := LiveAttempt(Buy, size, keypair, status, a);
      && (v.outcome.Retriable? <==> GoesOn(keypair, size, a))
      && (!v.outcome.Retriable? ==>
            EndsAs(keypair, a, EndOfRun(v, attempts, v.outcome.LiveConfirmed? || v.outcome.Broadcast?)))
  {
    hide Lands, Escapes;
  }

  /** How every live run ends: the first answers that do not make it go on decide, and when there are none
      among its attempts the trade fails, feeds the streak and cools its token down. */
  lemma {:induction false} RunEndsExactly(
    s: Settings, keypair: bool, size: int, answers: seq<Attempt>, status: TradeStatus, i: nat, k: nat)
    requires s.live && i <= k <= s.executionAttempts
    requires forall j :: i <= j < k ==> GoesOn(keypair, size, AnswerAt(answers, j))
    requires k < s.executionAttempts ==> !GoesOn(keypair, size, AnswerAt(answers, k))
    ensures var r := Attempts(s, keypair, size, answers, status, i);
      if k == s.executionAttempts then
        r.attempts == k && r.status.Failed? && r.streak.Failure? && r.cools && !r.raised && r.opening.None?
      else r.attempts == k + 1 && EndsAs(keypair, AnswerAt(answers, k), r)
    decreases k - i
  {
    AttemptStep(s, keypair, size, answers, status, i);
    hide Attempts, AnswerAt;
    if i < s.executionAttempts {
      var a := AnswerAt(answers, i);
      if a.quote.Some? { EndsAfterOne(size, keypair, status, a, i + 1); }
      if i < k {
        assert GoesOn(keypair, size, a);
        var next := if a.quote.None? then status else LiveAttempt(Buy, size, keypair, status, a).status;
        RunEndsExactly(s, keypair, size, answers, next, i + 1, k);
        var r, rest := Attempts(s, keypair, size, answers, status, i), Attempts(s, keypair, size, answers, next, i + 1);
        assert r == rest.(broadcasts := r.broadcasts);
        if k < s.executionAttempts { KeepsEnding(keypair, AnswerAt(answers, k), rest, r); }
        hide EndsAs, GoesOn, LiveAttempt;
      }
    }
  }

  /** The number of broadcasts does not matter to how a run ends. */
  lemma KeepsEnding(keypair: bool, a: Attempt, r: Run, q: Run)
    requires a.quote.Some? && q == r.(broadcasts := q.broadcasts)
    ensures EndsAs(keypair, a, r) <==> EndsAs(keypair, a, q)
  {
    hide Lands, LetsEscape;
  }

  /** How every paper run ends: at the first quote, which is booked when its amount can be read; without
      any quote the trade fails and, unlike an unreadable one, feeds the streak. */
  lemma {:induction false} PaperRunEndsExactly(
    s: Settings, keypair: bool, size: int, answers: seq<Attempt>, status: TradeStatus, i: nat, k: nat)
    requires !s.live && i <= k <= s.executionAttempts
    requires forall j :: i <= j < k ==> AnswerAt(answers, j).quote.None?
    requires k < s.executionAttempts ==> AnswerAt(answers, k).quote.Some?
    ensures var r := Attempts(s, keypair, size, answers, status, i);
      && r.broadcasts == 0 && !r.raised
      && if k == s.executionAttempts then
           r.attempts == k && r.status.Failed? && r.streak.Failure? && r.cools && r.opening.None?
         else
           && r.attempts == k + 1 && r.streak.Unchanged? && r.opening == AnswerAt(answers, k).quote.value.fill
           && (r.cools <==> r.opening.Some?) && r.status == if r.opening.Some? then Confirmed else Failed
    decreases k - i
  {
    AttemptStep(s, keypair, size, answers, status, i);
    if i < k { PaperRunEndsExactly(s, keypair, size, answers, status, i + 1, k); }
  }

  /** What a run does to the rails, in their own terms. */
  lemma RunMovesTheRails(s: Settings, r: Rails, token: Mint, run: Run)
    ensures var w := WithRun(s, r, token, run);
      && w.daily == r.daily
      && (forall t :: t in w.cooling <==> t in r.cooling || (run.cools && t == token))
      && (run.streak.Unchanged? ==> w.streak == r.streak && w.stopped == r.stopped)
      && (run.streak.Reset? ==> w.streak == 0 && w.stopped == r.stopped)
      && (run.streak.Failure? ==>
            && w.streak == r.streak + 1
            && (w.stopped <==> r.stopped || r.streak + 1 >= s.maxConsecutiveFailures))
  {
  }

  // --- the imperative executor --------------------------------------------

  /** A row of the copy-trade table. */
  class CopyTrade {
    const side: Side
    const token: Mint
    const leader: int
    const size: int
    var status: TradeStatus
    var attempts: nat
    var filled: Option<real>

    constructor (side: Side, token: Mint, leader: int, size: int, status: TradeStatus)
      ensures this.side == side && this.token == token && this.leader == leader && this.size == size
      ensures this.status == status && this.attempts == 0 && this.filled == None
    {
      this.side, this.token, this.leader, this.size := side, token, leader, size;
      this.status, this.attempts, this.filled := status, 0, None;
    }
  }

  /** What a mirrored sell learns: the proceeds a quote promises (when there is a quote, and when its
      proceeds can be read), the market value used without them, and the answers to a live sale. */
  datatype Exit = Exit(quoted: bool, proceeds: Option<Proceeds>, marketValue: Proceeds, live: Attempt)

  /** The live attempt of a mirrored sell; only a quoted one is made. */
  function SellAttempt(keypair: bool, exit: Exit): Live {
    LiveAttempt(Sell, 0, keypair, Approved, exit.live.(quote := Some(Quote(None))))
  }

  /** A sell transaction reaches the network. */
  predicate SellSent(s: Settings, keypair: bool, exit: Exit) {
    s.live && exit.quoted && SellAttempt(keypair, exit).reached
  }

  /** An exception of the live sale escapes. */
  predicate SellRaises(s: Settings, keypair: bool, exit: Exit) {
    s.live && exit.quoted && SellAttempt(keypair, exit).outcome.Escaped?
  }

  /** The drain guard never stops a sale: a ready one reaches the network exactly when its simulation ran
      without an error, whatever balances it reports, and the node accepts it. */
  lemma SaleIsSentExactly(s: Settings, keypair: bool, exit: Exit)
    ensures SellSent(s, keypair, exit)
      <==> s.live && exit.quoted && keypair && exit.live.built && exit.live.signed && exit.live.simulation.Ran?
           && (exit.live.send.AnswerLost? || exit.live.send.Answered?)
  {
    hide FirstVerdict;
  }

  /** The amount a sell books, or none when the position stays open. */
  function ExitProceeds(s: Settings, keypair: bool, exit: Exit): Option<Proceeds> {
    var fallback: Proceeds := Quantize(exit.marketValue) as real;
    var valued: Proceeds := if exit.proceeds.Some? && exit.quoted then exit.proceeds.value else fallback;
    if s.live && exit.quoted && !SellAttempt(keypair, exit).outcome.LiveConfirmed? then None else Some(valued)
  }

  /** A live sale that is booked was quoted exactly when it was broadcast and landed. */
  lemma BookedSaleLanded(s: Settings, keypair: bool, exit: Exit)
    requires s.live && ExitProceeds(s, keypair, exit).Some?
    ensures exit.quoted <==> SellSent(s, keypair, exit)
    ensures exit.quoted ==> exit.live.send.Answered? && Lands(exit.live.send.polls)
  {
  }

  /** A sale that reached the network is booked exactly when its signature came back and a poll sees it
      land; otherwise the row stays open and the next signal sells again. */
  lemma SentSaleIsBookedExactly(s: Settings, keypair: bool, exit: Exit)
    requires SellSent(s, keypair, exit)
    ensures ExitProceeds(s, keypair, exit).Some? <==> exit.live.send.Answered? && Lands(exit.live.send.polls)
  {
    hide Lands, FirstVerdict;
    assert exit.live.send.Answered? ==> (FirstVerdict(exit.live.send.polls).HasLanded? <==> Lands(exit.live.send.polls));
  }

  /** What a closing sell books: the proceeds its quote promises, or without readable ones the market value
      rounded to whole lamports.  A live quoted sell books nothing unless it is confirmed. */
  lemma BookedProceeds(s: Settings, keypair: bool, exit: Exit)
    ensures var booked := ExitProceeds(s, keypair, exit);
      && (booked.Some? && exit.quoted && exit.proceeds.Some? ==> booked.value == exit.proceeds.value)
      && (booked.Some? && (!exit.quoted || exit.proceeds.None?) ==>
            IsWhole(booked.value) && -0.5 <= booked.value - exit.marketValue <= 0.5)
      && (booked.None? <==>
            s.live && exit.quoted && !(SellSent(s, keypair, exit) && exit.live.send.Answered? && Lands(exit.live.send.polls)))
  {
    if SellSent(s, keypair, exit) { SentSaleIsBookedExactly(s, keypair, exit); }
  }

  function ClosedRow(p: CopyPosition, proceeds: real, day: int): CopyPosition {
    var sold := Quantize(p.sold as real + proceeds);
    p.(sold := sold, realizedPnl := sold - p.spent, status := Closed(day))
  }

  /** A closed row: the proceeds are added to what was sold, to half a lamport, the result is what was sold
      less what was spent, and nothing else about the position changes. */
  lemma ClosedRowSays(p: CopyPosition, proceeds: real, day: int)
    ensures var row := ClosedRow(p, proceeds, day);
      && -0.5 <= row.sold as real - (p.sold as real + proceeds) <= 0.5
      && row.realizedPnl + row.spent == row.sold
      && row.status == Closed(day)
      && row.token == p.token && row.leader == p.leader && row.spent == p.spent
  {
  }

  class CopyExecutor {
    const settings: Settings
    const keypair: bool
    const guard: SafetyGuard
    var book: Book
    var broadcasts: nat

    constructor (guard: SafetyGuard, keypair: bool)
      ensures this.guard == guard && this.keypair == keypair && settings == guard.settings
      ensures book == [] && broadcasts == 0
    {
      this.guard, this.keypair, settings := guard, keypair, guard.settings;
      book, broadcasts := [], 0;
    }

    ghost predicate Valid()
    {
      settings == guard.settings
    }

    /** Inserts the position row; the unique index makes the insert raise when the token already
        has an open one. */
    method OpenPosition(trade: CopyTrade) returns (raised: bool)
      modifies this`book
      ensures raised <==> OpenIndex(old(book), trade.token) >= 0
      ensures book == if raised then old(book)
                      else old(book) + [CopyPosition(trade.token, trade.leader, trade.size, 0, 0, Open)]
    {
      if OpenIndex(book, trade.token) >= 0 {
        return true;
      }
      book := book + [CopyPosition(trade.token, trade.leader, trade.size, 0, 0, Open)];
      return false;
    }

    /** One live attempt at a buy or a sell; `raised` when an exception of the simulation, of a poll or
        of the insert escapes. */
    method LiveFill(trade: CopyTrade, a: Attempt) returns (outcome: Outcome, raised: bool)
      requires Valid() && a.quote.Some?
      modifies this`book, this`broadcasts, trade, guard
      ensures var v := LiveAttempt(trade.side, trade.size, keypair, old(trade.status), a);
        && broadcasts == old(broadcasts) + Count(v.reached)
        && (raised <==> v.outcome.Escaped? || (v.opening.Some? && OpenIndex(old(book), trade.token) >= 0))
        && (raised ==> book == old(book) && guard.State() == old(guard.State()))
        && (!raised ==>
              && outcome == v.outcome
              && trade.status == v.status
              && book == (if v.opening.Some?
                          then old(book) + [CopyPosition(trade.token, trade.leader, trade.size, 0, 0, Open)]
                          else old(book))
              && guard.State() == (match v.streak
                                   case Unchanged => old(guard.State())
                                   case Reset => WithResult(settings, old(guard.State()), true)
                                   case Failure => WithResult(settings, old(guard.State()), false)))
      ensures trade.attempts == old(trade.attempts)
    {
      raised := false;
      var isLiveBuy := trade.side.Buy?;
      if !keypair {
        Fail(trade, isLiveBuy);
        return HardFail, false;
      }
      if !a.built {
        return Retriable, false;
      }
      if !a.signed {
        Fail(trade, isLiveBuy);
        return HardFail, false;
      }
      if a.simulation.SimulationRaises? {
        return Escaped, true;
      }
      if !SimulationOk(trade.side, trade.size, a.simulation) {
        trade.status := Simulated;
        return Retriable, false;
      }
      var verdict: Verdict;
      match a.send {
        case NotSent =>
          return Retriable, false;
        case AnswerLost =>
          broadcasts := broadcasts + 1;
          return Retriable, false;
        case NoSignature(pollRaises) =>
          verdict := if pollRaises then PollEscapes else NotLanded;
        case Answered(polls) =>
          broadcasts := broadcasts + 1;
          verdict := Confirm(polls);
      }
      trade.status := Submitted;
      if verdict.PollEscapes? {
        return Escaped, true;
      }
      if verdict.NotLanded? {
        if isLiveBuy && a.quote.value.fill.Some? {
          trade.filled := a.quote.value.fill;
          raised := OpenPosition(trade);
        }
        return Broadcast, raised;
      }
      if isLiveBuy {
        if a.quote.value.fill.None? {
          Fail(trade, false);
          return Broadcast, false;
        }
        trade.filled := a.quote.value.fill;
        raised := OpenPosition(trade);
        if raised {
          return LiveConfirmed, true;
        }
      }
      trade.status := Confirmed;
      if isLiveBuy {
        guard.RecordExecutionResult(true);
      }
      return LiveConfirmed, false;
    }

    /** A paper fill books the quoted amount, or fails the trade when the quote cannot be read. */
    method PaperFill(trade: CopyTrade, fill: Option<real>) returns (raised: bool)
      requires Valid()
      modifies this`book, trade, guard
      ensures trade.attempts == old(trade.attempts)
      ensures raised <==> fill.Some? && OpenIndex(old(book), trade.token) >= 0
      ensures raised ==> book == old(book) && guard.State() == old(guard.State())
      ensures !raised && fill.None? ==>
        trade.status == Failed && book == old(book) && guard.State() == old(guard.State())
      ensures !raised && fill.Some? ==>
        && trade.status == Confirmed
        && book == old(book) + [CopyPosition(trade.token, trade.leader, trade.size, 0, 0, Open)]
        && guard.State() == old(guard.State()).(cooling := old(guard.State()).cooling + {trade.token})
    {
      if fill.None? {
        Fail(trade, false);
        return false;
      }
      trade.filled, trade.status := fill, Confirmed;
      raised := OpenPosition(trade);
      if !raised {
        guard.StartCooldown(trade.token);
      }
    }

    method Fail(trade: CopyTrade, liveBuy: bool)
      requires Valid()
      modifies trade, guard
      ensures trade.status == Failed && trade.attempts == old(trade.attempts) && trade.filled == old(trade.filled)
      ensures guard.State() == if liveBuy then WithResult(settings, old(guard.State()), false)
                               else old(guard.State())
    {
      trade.status := Failed;
      if liveBuy {
        guard.RecordExecutionResult(false);
      }
    }

    /** Runs an approved buy: one last look at the rails, then attempts until one is decisive.
        An exception of the simulation, of a poll or of an insert the table index refuses escapes, and
        the enclosing transaction takes the table changes back. */
    method RunApproved(trade: CopyTrade, day: int, redisReads: nat, answers: seq<Attempt>) returns (raised: bool)
      requires Valid() && trade.side.Buy?
      modifies this`book, this`broadcasts, trade, guard
      ensures !GateClear(settings, old(guard.State()), old(book), day, trade.token, redisReads) ==>
        && !raised && trade.status == Failed && book == old(book) && broadcasts == old(broadcasts)
        && guard.State() == old(guard.State())
      ensures GateClear(settings, old(guard.State()), old(book), day, trade.token, redisReads) ==>
        var r := Attempts(settings, keypair, trade.size, answers, old(trade.status), 0);
        && broadcasts == old(broadcasts) + r.broadcasts
        && (raised <==> r.raised || (r.opening.Some? && OpenIndex(old(book), trade.token) >= 0))
        && (raised ==> book == old(book) && guard.State() == old(guard.State()))
        && (!raised ==>
              && trade.status == r.status
              && (settings.executionAttempts >= 1 ==> trade.attempts == r.attempts)
              && book == (if r.opening.Some?
                          then old(book) + [CopyPosition(trade.token, trade.leader, trade.size, 0, 0, Open)]
                          else old(book))
              && guard.State() == WithRun(settings, old(guard.State()), trade.token, r))
    {
      hide GateClear, LiveAttempt, OpenIndex, AnswerAt, Attempts;
      var blocked := guard.GateReasons(book, day, trade.token, redisReads);
      if blocked != [] {
        Fail(trade, false);
        return false;
      }
      var i := 0;
      while i < settings.executionAttempts
        invariant 0 <= i
        invariant i > 0 ==> i <= settings.executionAttempts && trade.attempts == i
        invariant book == old(book) && broadcasts >= old(broadcasts) && guard.State() == old(guard.State())
        invariant var rest := Attempts(settings, keypair, trade.size, answers, trade.status, i);
          rest.(broadcasts := broadcasts - old(broadcasts) + rest.broadcasts)
            == Attempts(settings, keypair, trade.size, answers, old(trade.status), 0)
      {
        AttemptStep(settings, keypair, trade.size, answers, trade.status, i);
        trade.attempts := i + 1;
        var a := AnswerAt(answers, i);
        if a.quote.None? {
          i := i + 1;
          continue;
        }
        if !settings.live {
          raised := PaperFill(trade, a.quote.value.fill);
          return;
        }
        AttemptFacts(Buy, trade.size, keypair, trade.status, a);
        var outcome;
        outcome, raised := LiveFill(trade, a);
        if raised || outcome.HardFail? {
          return;
        }
        if !outcome.Retriable? {
          guard.StartCooldown(trade.token);
          return;
        }
        i := i + 1;
      }
      AttemptStep(settings, keypair, trade.size, answers, trade.status, i);
      guard.StartCooldown(trade.token);
      Fail(trade, true);
      return false;
    }

    /** The leader sold: close our open position in the token, if that leader opened it.  `closeDay`
        is the day stamped on the row and `bookDay` the day of the counter; they are two clock reads. */
    method MirrorSell(token: Mint, seller: Option<int>, lockFree: bool, exit: Exit, closeDay: int, bookDay: int)
      returns (raised: bool)
      requires Valid()
      modifies this`book, this`broadcasts, guard
      ensures var i := OpenIndex(old(book), token);
        raised <==> i >= 0 && seller == Some(old(book)[i].leader) && lockFree && SellRaises(settings, keypair, exit)
      ensures var i := OpenIndex(old(book), token);
        broadcasts == old(broadcasts)
          + (if i >= 0 && seller == Some(old(book)[i].leader) && lockFree && SellSent(settings, keypair, exit) then 1 else 0)
      ensures var i := OpenIndex(old(book), token);
        var proceeds := ExitProceeds(settings, keypair, exit);
        if i >= 0 && seller == Some(old(book)[i].leader) && lockFree && proceeds.Some? then
          var row := ClosedRow(old(book)[i], proceeds.value, closeDay);
          && book == old(book)[i := row]
          && guard.State() == WithRealized(settings, old(guard.State()), bookDay, row.realizedPnl)
        else book == old(book) && guard.State() == old(guard.State())
    {
      var i := OpenIndex(book, token);
      if i < 0 {
        return false;
      }
      var position := book[i];
      if seller.None? || position.leader != seller.value || !lockFree {
        return false;
      }
      var proceeds: real;
      if exit.quoted && exit.proceeds.Some? {
        proceeds := exit.proceeds.value;
      } else {
        proceeds := Quantize(exit.marketValue) as real;
      }
      if settings.live && exit.quoted {
        var trade := new CopyTrade(Sell, token, position.leader, 0, Approved);
        var outcome;
        outcome, raised := LiveFill(trade, exit.live.(quote := Some(Quote(None))));
        if raised || !outcome.LiveConfirmed? {
          return;
        }
      }
      position := position.(sold := Quantize(position.sold as real + proceeds));
      position := position.(status := Closed(closeDay), realizedPnl := position.sold - position.spent);
      book := book[i := position];
      guard.RecordRealizedPnl(position.realizedPnl, bookDay);
      return false;
    }
  }
}
