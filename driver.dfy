/**
 * The scripted entry routine of the Strategy/Observer demonstration: the
 * menu that turns one line of input into a payment strategy, and the two
 * scripted scenarios it runs. Reading the line is left to the caller, who
 * passes it in as `choice`.
 */
module Driver {
  import opened Wrappers
  import opened Payment
  import opened Exchange

  /** The menu's pick, and whether the input fell through to the default card. */
  datatype Selection = Selection(strategy: Strategy, usedDefault: bool)

  /**
   * "1" picks a card, "2" crypto, "3" PayPal; any other line falls back to
   * the default card, with a warning.
   */
  function SelectStrategy(choice: string): (sel: Selection)
    ensures sel.usedDefault <==> choice !in {"1", "2", "3"}
    ensures sel.strategy.CreditCard? <==> choice != "2" && choice != "3"
    ensures sel.strategy.Crypto? <==> choice == "2"
    ensures sel.strategy.PayPal? <==> choice == "3"
    ensures choice == "1" ==> sel.strategy == CreditCard("9999-****-****-1111")
    ensures choice == "2" ==> sel.strategy == Crypto("0xABC123...")
    ensures choice == "3" ==> sel.strategy == PayPal("another@example.com")
    ensures sel.usedDefault ==> sel.strategy == CreditCard("0000-****-****-0000")
  {
    match choice
    case "1" => Selection(CreditCard("9999-****-****-1111"), false)
    case "2" => Selection(Crypto("0xABC123..."), false)
    case "3" => Selection(PayPal("another@example.com"), false)
    case _ => Selection(CreditCard("0000-****-****-0000"), true)
  }

  const Amount: real := 100.0

  /**
   * The payment scenario: pay the amount by card, then by PayPal, then half
   * of it with the strategy the menu picked. Every step has a strategy set,
   * so nothing is refused.
   */
  method PaymentDemo(choice: string) returns (log: seq<PaymentEvent>)
    ensures log == [
      Paid(CreditCard("1234-5678-****-****"), Amount),
      Paid(PayPal("user@example.com"), Amount),
      Paid(SelectStrategy(choice).strategy, Amount * 0.5)]
    ensures PayCalls(log) == 3
  {
    var context := new PaymentContext();

    context.SetPaymentStrategy(Some(CreditCard("1234-5678-****-****")));
    context.ExecutePayment(Amount);

    context.SetPaymentStrategy(Some(PayPal("user@example.com")));
    context.ExecutePayment(Amount);

    var selected := SelectStrategy(choice);
    context.SetPaymentStrategy(Some(selected.strategy));
    context.ExecutePayment(Amount * 0.5);

    log := context.log;
  }

  /**
   * The exchange scenario: attach a trader, the tax service and a user
   * notifier; move USD_TO_EUR to 0.90 and USD_TO_KZT to 465.2; detach the
   * notifier; move USD_TO_EUR to 0.93. The trader signals a purchase on the
   * first two changes only, and the detached notifier hears nothing of the
   * last one.
   */
  method ExchangeDemo() returns (delivered: seq<Notification>)
    ensures Recipients(delivered) == [Alex, Tax, Bob, Alex, Tax, Bob, Alex, Tax]
    ensures Reactions(delivered) == [
      Buy("Alex", 0.90), RecordTax(Some(470.5)), InformUser("Bob", Some(0.90)),
      Buy("Alex", 0.90), RecordTax(Some(465.2)), InformUser("Bob", Some(0.90)),
      Watch("Alex", 0.93), RecordTax(Some(465.2))]
  {
    var exchange := new CurrencyExchange();

    var trader := Alex;
    var taxService := Tax;
    var userNotifier := Bob;

    exchange.Attach(trader);
    exchange.Attach(taxService);
    exchange.Attach(userNotifier);

    ghost var all := [trader, taxService, userNotifier];
    assert exchange.observers == all;

    exchange.SetRate(UsdToEur, 0.90);
    ghost var first := exchange.trace;
    ghost var rates1 := exchange.rates;
    exchange.SetRate(UsdToKzt, 465.2);
    ghost var second := exchange.trace[|first|..];
    ghost var rates2 := exchange.rates;
    exchange.Detach(userNotifier);
    assert exchange.observers == [trader, taxService];
    exchange.SetRate(UsdToEur, 0.93);
    delivered := exchange.trace;
    ghost var third := delivered[|first| + |second|..];
    assert delivered == first + second + third;

    ScenarioTrace(rates1, rates2, first, second, third);
  }

  /** A whole notification pass has the given decisions. */
  lemma PassReactions(observers: seq<Observer>, rates: RateTable, expected: seq<Reaction>)
    requires AllCanUpdate(observers, rates)
    requires |expected| == |observers|
    requires forall i :: 0 <= i < |observers| ==> expected[i] == Update(observers[i].kind, rates)
    ensures Reactions(Broadcast(observers, rates)) == expected
  {
    BroadcastReactions(observers, rates);
  }

  const Alex := Observer(1, Trader("Alex"))
  const Tax := Observer(2, TaxService)
  const Bob := Observer(3, UserNotifier("Bob"))

  /** USD_TO_EUR drops to 0.90: everyone hears, the trader buys. */
  lemma FirstPass(first: seq<Notification>)
    requires first == Delivered([Alex, Tax, Bob], InitialRates, UsdToEur, 0.90)
    ensures Recipients(first) == [Alex, Tax, Bob]
    ensures Reactions(first)
         == [Buy("Alex", 0.90), RecordTax(Some(470.5)), InformUser("Bob", Some(0.90))]
  {
    KeysDiffer();
    var rates1 := RatesAfter(InitialRates, UsdToEur, 0.90);
    assert rates1[UsdToEur] == 0.90 && rates1[UsdToKzt] == 470.5;
    SetRateNotifies([Alex, Tax, Bob], InitialRates, UsdToEur, 0.90);
    PassReactions([Alex, Tax, Bob], rates1,
      [Buy("Alex", 0.90), RecordTax(Some(470.5)), InformUser("Bob", Some(0.90))]);
  }

  /** USD_TO_KZT moves to 465.2: everyone hears, the trader still buys. */
  lemma SecondPass(rates1: RateTable, second: seq<Notification>)
    requires rates1 == RatesAfter(InitialRates, UsdToEur, 0.90)
    requires second == Delivered([Alex, Tax, Bob], rates1, UsdToKzt, 465.2)
    ensures Recipients(second) == [Alex, Tax, Bob]
    ensures Reactions(second)
         == [Buy("Alex", 0.90), RecordTax(Some(465.2)), InformUser("Bob", Some(0.90))]
  {
    KeysDiffer();
    var rates2 := RatesAfter(rates1, UsdToKzt, 465.2);
    assert rates2[UsdToEur] == 0.90 && rates2[UsdToKzt] == 465.2;
    SetRateNotifies([Alex, Tax, Bob], rates1, UsdToKzt, 465.2);
    PassReactions([Alex, Tax, Bob], rates2,
      [Buy("Alex", 0.90), RecordTax(Some(465.2)), InformUser("Bob", Some(0.90))]);
  }

  /** With the notifier detached, USD_TO_EUR rises to 0.93: the trader only watches. */
  lemma ThirdPass(rates2: RateTable, third: seq<Notification>)
    requires UsdToEur in rates2 && rates2[UsdToEur] == 0.90
    requires UsdToKzt in rates2 && rates2[UsdToKzt] == 465.2
    requires third == Delivered([Alex, Tax], rates2, UsdToEur, 0.93)
    ensures Recipients(third) == [Alex, Tax]
    ensures Reactions(third) == [Watch("Alex", 0.93), RecordTax(Some(465.2))]
  {
    KeysDiffer();
    var rates3 := RatesAfter(rates2, UsdToEur, 0.93);
    assert rates3[UsdToEur] == 0.93 && rates3[UsdToKzt] == 465.2;
    SetRateNotifies([Alex, Tax], rates2, UsdToEur, 0.93);
    PassReactions([Alex, Tax], rates3, [Watch("Alex", 0.93), RecordTax(Some(465.2))]);
  }

  /** The three passes of the exchange scenario, one per effective rate change. */
  lemma ScenarioTrace(rates1: RateTable, rates2: RateTable,
                      first: seq<Notification>, second: seq<Notification>, third: seq<Notification>)
    requires rates1 == RatesAfter(InitialRates, UsdToEur, 0.90)
    requires rates2 == RatesAfter(rates1, UsdToKzt, 465.2)
    requires first == Delivered([Alex, Tax, Bob], InitialRates, UsdToEur, 0.90)
    requires second == Delivered([Alex, Tax, Bob], rates1, UsdToKzt, 465.2)
    requires third == Delivered([Alex, Tax], rates2, UsdToEur, 0.93)
    ensures Recipients(first + second + third) == [Alex, Tax, Bob, Alex, Tax, Bob, Alex, Tax]
    ensures Reactions(first + second + third) == [
      Buy("Alex", 0.90), RecordTax(Some(470.5)), InformUser("Bob", Some(0.90)),
      Buy("Alex", 0.90), RecordTax(Some(465.2)), InformUser("Bob", Some(0.90)),
      Watch("Alex", 0.93), RecordTax(Some(465.2))]
  {
    FirstPass(first);
    SecondPass(rates1, second);
    KeysDiffer();
    assert rates2[UsdToEur] == 0.90 && rates2[UsdToKzt] == 465.2;
    ThirdPass(rates2, third);
    RecipientsAppend(first, second);
    RecipientsAppend(first + second, third);
    ReactionsAppend(first, second);
    ReactionsAppend(first + second, third);
  }
}
