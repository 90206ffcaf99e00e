/**
 * The Strategy half of the design-pattern demonstration: interchangeable
 * payment behaviours and the context that holds the one currently selected.
 * A strategy's `pay` only announces the payment; the model records each such
 * call as an event in the context's log.
 */
module Payment {
  import opened Wrappers

  /** The three payment behaviours, each carrying its identifying credential. */
  datatype Strategy =
    | CreditCard(cardNumber: string)
    | PayPal(email: string)
    | Crypto(walletAddress: string)

  /** What one call of `executePayment` leaves behind. */
  datatype PaymentEvent =
    | Paid(via: Strategy, amount: real)  // exactly one call of via.pay(amount)
    | Refused(amount: real)              // "no strategy selected": no pay call at all

  /**
   * The effect of executing a payment of `amount` while `current` is the
   * selected strategy: a pay call on that strategy, or a refusal when none is set.
   */
  function PaymentOutcome(current: Option<Strategy>, amount: real): (e: PaymentEvent)
    ensures e.Paid? <==> current.Some?
    ensures e.amount == amount
    ensures e.Paid? ==> e.via == current.value
  {
    match current
    case None => Refused(amount)
    case Some(s) => Paid(s, amount)
  }

  /** Number of pay calls recorded in a log. */
  function PayCalls(log: seq<PaymentEvent>): (n: nat)
    ensures n <= |log|
  {
    if log == [] then 0 else (if log[0].Paid? then 1 else 0) + PayCalls(log[1..])
  }

  lemma {:induction false} PayCallsAppend(a: seq<PaymentEvent>, b: seq<PaymentEvent>)
    ensures PayCalls(a + b) == PayCalls(a) + PayCalls(b)
  {
    if a == [] {
      assert a + b == b;
    } else {
      assert (a + b)[1..] == a[1..] + b;
      PayCallsAppend(a[1..], b);
    }
  }

  /**
   * One payment call adds one pay call when a strategy is set and none
   * otherwise.
   */
  lemma ExecutePaysOnceOrNever(log: seq<PaymentEvent>, current: Option<Strategy>, amount: real)
    ensures PayCalls(log + [PaymentOutcome(current, amount)])
         == PayCalls(log) + (if current.Some? then 1 else 0)
  {
    PayCallsAppend(log, [PaymentOutcome(current, amount)]);
    assert [PaymentOutcome(current, amount)][1..] == [];
  }

  /**
   * Holds at most one selected strategy (two states: none set, or one set).
   * `log` is the sequence of payment effects that have escaped the context.
   */
  class PaymentContext {
    var strategy: Option<Strategy>
    var log: seq<PaymentEvent>

    constructor ()
      ensures strategy == None && log == []
    {
      strategy := None;
      log := [];
    }

    /** Replaces the selection unconditionally; `None` stands for a null argument. */
    method SetPaymentStrategy(s: Option<Strategy>)
      modifies this
      ensures strategy == s
      ensures log == old(log)
    {
      strategy := s;
    }

    /**
     * Delegates to the selected strategy, or refuses when there is none; the
     * selection itself never changes here.
     */
    method ExecutePayment(amount: real)
      modifies this`log
      ensures strategy == old(strategy)
      ensures log == old(log) + [PaymentOutcome(strategy, amount)]
      ensures PayCalls(log) == PayCalls(old(log)) + (if strategy.Some? then 1 else 0)
    {
      ExecutePaysOnceOrNever(log, strategy, amount);
      if strategy == None {
        log := log + [Refused(amount)];
        return;
      }
      log := log + [Paid(strategy.value, amount)];
    }
  }
}
