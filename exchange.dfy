/**
 * The Observer half of the design-pattern demonstration: a currency exchange
 * (the subject) owns a table of rates and an ordered list of attached
 * observers, and pushes the whole table to every attached observer whenever a
 * rate actually changes. Observers are handles; each `update` call is recorded
 * as a notification holding the receiver, the snapshot it was given and the
 * decision it took on it.
 */
module Exchange {
  import opened Wrappers

  /** Currency-pair key to rate. Rates are exact reals, not IEEE doubles. */
  type RateTable = map<string, real>

  const UsdToEur: string := "USD_TO_EUR"
  const UsdToKzt: string := "USD_TO_KZT"

  /** The two seeded keys are different pairs: they first differ at index 7, "E" against "K". */
  lemma KeysDiffer()
    ensures UsdToEur != UsdToKzt
  {
    assert UsdToEur[7] != UsdToKzt[7];
  }

  /** A trader buys euros when USD_TO_EUR is strictly below this. */
  const BuyThreshold: real := 0.92

  /** The table a new exchange starts with. */
  const InitialRates: RateTable := map[UsdToEur := 0.92, UsdToKzt := 470.5]

  datatype ObserverKind =
    | Trader(name: string)
    | TaxService
    | UserNotifier(user: string)

  /**
   * An observer object: `id` stands for its reference identity, so two
   * handles are the same observer exactly when they are equal.
   */
  datatype Observer = Observer(id: nat, kind: ObserverKind)

  /** What an observer's `update` decides on the snapshot it receives. */
  datatype Reaction =
    | Buy(trader: string, rate: real)            // the rate dropped: time to buy euros
    | Watch(trader: string, rate: real)          // no signal, keep watching
    | RecordTax(kzt: Option<real>)               // the official USD_TO_KZT rate is recorded
    | InformUser(user: string, eur: Option<real>) // the user is told USD_TO_EUR

  /** A map lookup that, like a Java `get`, yields nothing for an absent key. */
  function Lookup(rates: RateTable, key: string): (r: Option<real>)
    ensures r.Some? <==> key in rates
    ensures r.Some? ==> r.value == rates[key]
  {
    if key in rates then Some(rates[key]) else None
  }

  /**
   * A trader's comparison unboxes the USD_TO_EUR entry and fails when it is
   * absent; the other observers accept any table.
   */
  predicate CanUpdate(kind: ObserverKind, rates: RateTable)
  {
    kind.Trader? ==> UsdToEur in rates
  }

  /** The decision each kind of observer takes on a snapshot. */
  function Update(kind: ObserverKind, rates: RateTable): (r: Reaction)
    requires CanUpdate(kind, rates)
    ensures kind.Trader? <==> r.Buy? || r.Watch?
    ensures kind.Trader? ==> r.trader == kind.name && r.rate == rates[UsdToEur]
    ensures kind.Trader? ==> (r.Buy? <==> rates[UsdToEur] < BuyThreshold)
    ensures kind.TaxService? ==>
      && r.RecordTax?
      && (r.kzt.Some? <==> UsdToKzt in rates)
      && (r.kzt.Some? ==> r.kzt.value == rates[UsdToKzt])
    ensures kind.UserNotifier? ==>
      && r.InformUser?
      && r.user == kind.user
      && (r.eur.Some? <==> UsdToEur in rates)
      && (r.eur.Some? ==> r.eur.value == rates[UsdToEur])
  {
    match kind
    case Trader(name) =>
      if rates[UsdToEur] < BuyThreshold then Buy(name, rates[UsdToEur])
      else Watch(name, rates[UsdToEur])
    case TaxService => RecordTax(Lookup(rates, UsdToKzt))
    case UserNotifier(user) => InformUser(user, Lookup(rates, UsdToEur))
  }

  /** The tax service reads USD_TO_KZT and nothing else. */
  lemma TaxServiceReadsOnlyKzt(a: RateTable, b: RateTable)
    requires Lookup(a, UsdToKzt) == Lookup(b, UsdToKzt)
    ensures Update(TaxService, a) == Update(TaxService, b)
  {
  }

  /** Traders and user notifiers read USD_TO_EUR and nothing else. */
  lemma EurObserversReadOnlyEur(kind: ObserverKind, a: RateTable, b: RateTable)
    requires !kind.TaxService?
    requires CanUpdate(kind, a) && CanUpdate(kind, b)
    requires Lookup(a, UsdToEur) == Lookup(b, UsdToEur)
    ensures Update(kind, a) == Update(kind, b)
  {
    assert kind.Trader? ==> a[UsdToEur] == Lookup(a, UsdToEur).value == b[UsdToEur];
  }

  /** One `update` call: who received it, the table it was handed, what it decided. */
  datatype Notification = Notification(to: Observer, snapshot: RateTable, reaction: Reaction)

  predicate AllCanUpdate(observers: seq<Observer>, rates: RateTable)
  {
    forall o :: o in observers ==> CanUpdate(o.kind, rates)
  }

  /** The notifications one pass over `observers` delivers with table `rates`. */
  function Broadcast(observers: seq<Observer>, rates: RateTable): (r: seq<Notification>)
    requires AllCanUpdate(observers, rates)
    ensures |r| == |observers|
  {
    if observers == [] then []
    else
      [Notification(observers[0], rates, Update(observers[0].kind, rates))]
      + Broadcast(observers[1..], rates)
  }

  /** The receivers of a sequence of notifications, in delivery order. */
  function Recipients(ns: seq<Notification>): (r: seq<Observer>)
    ensures |r| == |ns|
  {
    if ns == [] then [] else [ns[0].to] + Recipients(ns[1..])
  }

  /** The decisions taken in a sequence of notifications, in delivery order. */
  function Reactions(ns: seq<Notification>): (r: seq<Reaction>)
    ensures |r| == |ns|
  {
    if ns == [] then [] else [ns[0].reaction] + Reactions(ns[1..])
  }

  /** The i-th notification of a pass goes to the i-th list entry, with the full table. */
  lemma {:induction false} BroadcastAt(observers: seq<Observer>, rates: RateTable, i: nat)
    requires AllCanUpdate(observers, rates)
    requires i < |observers|
    ensures Broadcast(observers, rates)[i]
         == Notification(observers[i], rates, Update(observers[i].kind, rates))
  {
    if i > 0 {
      BroadcastAt(observers[1..], rates, i - 1);
    }
  }

  /** The i-th decision of a pass is the i-th entry's own decision on the full table. */
  lemma {:induction false} BroadcastReactions(observers: seq<Observer>, rates: RateTable)
    requires AllCanUpdate(observers, rates)
    ensures forall i :: 0 <= i < |observers| ==>
      Reactions(Broadcast(observers, rates))[i] == Update(observers[i].kind, rates)
  {
    if observers != [] {
      BroadcastReactions(observers[1..], rates);
      var tail := Reactions(Broadcast(observers[1..], rates));
      assert Reactions(Broadcast(observers, rates))
          == [Update(observers[0].kind, rates)] + tail;
      forall i | 1 <= i < |observers|
        ensures Reactions(Broadcast(observers, rates))[i] == Update(observers[i].kind, rates)
      {
        assert observers[1..][i - 1] == observers[i];
      }
    }
  }

  /** A pass over two lists in turn is the pass over their concatenation. */
  lemma {:induction false} BroadcastAppend(a: seq<Observer>, b: seq<Observer>, rates: RateTable)
    requires AllCanUpdate(a + b, rates)
    ensures AllCanUpdate(a, rates) && AllCanUpdate(b, rates)
    ensures Broadcast(a + b, rates) == Broadcast(a, rates) + Broadcast(b, rates)
  {
    assert forall o :: o in a ==> o in a + b;
    assert forall o :: o in b ==> o in a + b;
    if a != [] {
      assert (a + b)[1..] == a[1..] + b;
      BroadcastAppend(a[1..], b, rates);
    } else {
      assert a + b == b;
    }
  }

  /**
   * A pass notifies exactly the list entries, in list order, once per entry:
   * an observer attached twice hears twice.
   */
  lemma {:induction false} BroadcastRecipients(observers: seq<Observer>, rates: RateTable)
    requires AllCanUpdate(observers, rates)
    ensures Recipients(Broadcast(observers, rates)) == observers
  {
    if observers != [] {
      BroadcastRecipients(observers[1..], rates);
      assert observers == [observers[0]] + observers[1..];
    }
  }

  lemma {:induction false} RecipientsAppend(a: seq<Notification>, b: seq<Notification>)
    ensures Recipients(a + b) == Recipients(a) + Recipients(b)
  {
    if a == [] {
      assert a + b == b;
    } else {
      assert (a + b)[1..] == a[1..] + b;
      RecipientsAppend(a[1..], b);
    }
  }

  lemma {:induction false} ReactionsAppend(a: seq<Notification>, b: seq<Notification>)
    ensures Reactions(a + b) == Reactions(a) + Reactions(b)
  {
    if a == [] {
      assert a + b == b;
    } else {
      assert (a + b)[1..] == a[1..] + b;
      ReactionsAppend(a[1..], b);
    }
  }

  /** The list without its first entry equal to `x`; unchanged when there is none. */
  function RemoveFirst(s: seq<Observer>, x: Observer): (r: seq<Observer>)
    ensures |r| == if x in s then |s| - 1 else |s|
  {
    if s == [] then []
    else if s[0] == x then s[1..]
    else [s[0]] + RemoveFirst(s[1..], x)
  }

  /** Position of the first entry equal to `x`. */
  function FirstIndex(s: seq<Observer>, x: Observer): (i: nat)
    requires x in s
    ensures i < |s| && s[i] == x && x !in s[..i]
  {
    if s[0] == x then 0
    else
      var j := FirstIndex(s[1..], x);
      assert s[..j + 1] == [s[0]] + s[1..][..j];
      j + 1
  }

  /** Detaching an absent observer leaves the list as it was. */
  lemma {:induction false} RemoveFirstAbsent(s: seq<Observer>, x: Observer)
    requires x !in s
    ensures RemoveFirst(s, x) == s
  {
    if s != [] {
      RemoveFirstAbsent(s[1..], x);
      assert s == [s[0]] + s[1..];
    }
  }

  /**
   * Detaching a present observer cuts out exactly its first entry and keeps
   * every other entry in its order.
   */
  lemma {:induction false} RemoveFirstPresent(s: seq<Observer>, x: Observer)
    requires x in s
    ensures RemoveFirst(s, x) == s[..FirstIndex(s, x)] + s[FirstIndex(s, x) + 1..]
  {
    if s[0] != x {
      RemoveFirstPresent(s[1..], x);
      var j := FirstIndex(s[1..], x);
      assert s[..j + 1] == [s[0]] + s[1..][..j];
      assert s[j + 2..] == s[1..][j + 1..];
    }
  }

  /** Detaching removes one occurrence of `x`, if any, and no other entry. */
  lemma {:induction false} RemoveFirstCount(s: seq<Observer>, x: Observer)
    ensures multiset(RemoveFirst(s, x)) == multiset(s) - multiset{x}
  {
    if s != [] {
      assert s == [s[0]] + s[1..];
      assert multiset(s) == multiset{s[0]} + multiset(s[1..]);
      if s[0] != x {
        RemoveFirstCount(s[1..], x);
        var rest := RemoveFirst(s[1..], x);
        assert multiset([s[0]] + rest) == multiset{s[0]} + multiset(rest);
      }
    }
  }

  /** An observer attached once and then detached hears nothing from the next pass. */
  lemma DetachedNotNotified(observers: seq<Observer>, x: Observer, rates: RateTable)
    requires multiset(observers)[x] == 1
    requires AllCanUpdate(observers, rates)
    ensures AllCanUpdate(RemoveFirst(observers, x), rates)
    ensures x !in Recipients(Broadcast(RemoveFirst(observers, x), rates))
  {
    RemoveFirstCount(observers, x);
    var rest := RemoveFirst(observers, x);
    assert forall o :: o in rest ==> o in observers by {
      forall o | o in rest ensures o in observers {
        assert o in multiset(rest);
      }
    }
    BroadcastRecipients(rest, rates);
    assert x !in multiset(rest);
  }

  /** Attaching the same observer twice makes a pass notify it twice more. */
  lemma AttachTwiceNotifiesTwice(observers: seq<Observer>, x: Observer, rates: RateTable)
    requires AllCanUpdate(observers + [x, x], rates)
    ensures multiset(Recipients(Broadcast(observers + [x, x], rates)))[x]
         == multiset(observers)[x] + 2
  {
    BroadcastRecipients(observers + [x, x], rates);
    assert multiset(observers + [x, x]) == multiset(observers) + multiset{x, x};
  }

  /** `pair` already holds `newRate`: such a `setRate` is a no-op. */
  predicate IsCurrentRate(rates: RateTable, pair: string, newRate: real)
  {
    pair in rates && rates[pair] == newRate
  }

  /**
   * The table after `setRate(pair, newRate)`: `pair` holds `newRate`, every
   * other entry is untouched, and no key disappears.
   */
  function RatesAfter(rates: RateTable, pair: string, newRate: real): (r: RateTable)
    ensures r.Keys == rates.Keys + {pair}
    ensures r[pair] == newRate
    ensures forall k :: k in rates && k != pair ==> r[k] == rates[k]
  {
    if IsCurrentRate(rates, pair, newRate) then rates else rates[pair := newRate]
  }

  /** The notifications `setRate(pair, newRate)` delivers to `observers`. */
  function Delivered(observers: seq<Observer>, rates: RateTable, pair: string, newRate: real): seq<Notification>
    requires AllCanUpdate(observers, RatesAfter(rates, pair, newRate))
  {
    if IsCurrentRate(rates, pair, newRate) then []
    else Broadcast(observers, RatesAfter(rates, pair, newRate))
  }

  /**
   * A `setRate` that changes the table notifies every list entry once, in
   * order, each with the whole new table; one that does not change it
   * notifies nobody.
   */
  lemma SetRateNotifies(observers: seq<Observer>, rates: RateTable, pair: string, newRate: real)
    requires AllCanUpdate(observers, RatesAfter(rates, pair, newRate))
    ensures IsCurrentRate(rates, pair, newRate) ==> Delivered(observers, rates, pair, newRate) == []
    ensures !IsCurrentRate(rates, pair, newRate) ==>
      Recipients(Delivered(observers, rates, pair, newRate)) == observers
    ensures forall n :: n in Delivered(observers, rates, pair, newRate) ==>
      n.snapshot == RatesAfter(rates, pair, newRate)
  {
    var after := RatesAfter(rates, pair, newRate);
    if !IsCurrentRate(rates, pair, newRate) {
      BroadcastRecipients(observers, after);
      forall n | n in Delivered(observers, rates, pair, newRate) ensures n.snapshot == after {
        var i :| 0 <= i < |observers| && Broadcast(observers, after)[i] == n;
        BroadcastAt(observers, after, i);
      }
    }
  }

  /**
   * Two identical `setRate` calls in a row: the second leaves the table as
   * the first left it and notifies nobody, so together they notify each
   * list entry at most once.
   */
  lemma SetRateTwice(observers: seq<Observer>, rates: RateTable, pair: string, newRate: real)
    requires AllCanUpdate(observers, RatesAfter(rates, pair, newRate))
    ensures var after := RatesAfter(rates, pair, newRate);
      && RatesAfter(after, pair, newRate) == after
      && Delivered(observers, after, pair, newRate) == []
      && |Delivered(observers, rates, pair, newRate) + Delivered(observers, after, pair, newRate)|
         <= |observers|
  {
  }

  /**
   * The subject. `trace` is every `update` call delivered so far, in order.
   * Both seeded keys stay in the table for the object's whole life, which is
   * what keeps every trader's lookup defined.
   */
  class CurrencyExchange {
    var observers: seq<Observer>
    var rates: RateTable
    var trace: seq<Notification>

    ghost predicate Valid()
      reads this
    {
      UsdToEur in rates && UsdToKzt in rates
    }

    constructor ()
      ensures Valid()
      ensures observers == [] && rates == InitialRates && trace == []
    {
      observers := [];
      rates := InitialRates;
      trace := [];
    }

    /** Appends, allowing duplicates. */
    method Attach(o: Observer)
      requires Valid()
      modifies this
      ensures Valid()
      ensures observers == old(observers) + [o]
      ensures rates == old(rates) && trace == old(trace)
    {
      observers := observers + [o];
    }

    /** Removes the first entry that is `o`, if there is one. */
    method Detach(o: Observer)
      requires Valid()
      modifies this
      ensures Valid()
      ensures observers == RemoveFirst(old(observers), o)
      ensures rates == old(rates) && trace == old(trace)
    {
      observers := RemoveFirst(observers, o);
    }

    /** Hands the current table to every entry, in list order. */
    method NotifyObservers()
      requires Valid()
      modifies this`trace
      ensures trace == old(trace) + Broadcast(observers, rates)
    {
      var i := 0;
      while i < |observers|
        invariant 0 <= i <= |observers|
        invariant trace == old(trace) + Broadcast(observers[..i], rates)
      {
        var o := observers[i];
        trace := trace + [Notification(o, rates, Update(o.kind, rates))];
        assert observers[..i + 1] == observers[..i] + [o];
        BroadcastAppend(observers[..i], [o], rates);
        i := i + 1;
      }
      assert observers[..i] == observers;
    }

    /**
     * Change detection: an equal value on an existing key writes nothing and
     * notifies nobody; any other call writes the key and notifies once.
     */
    method SetRate(pair: string, newRate: real)
      requires Valid()
      modifies this
      ensures Valid()
      ensures observers == old(observers)
      ensures old(rates).Keys <= rates.Keys
      ensures rates == RatesAfter(old(rates), pair, newRate)
      ensures trace == old(trace) + Delivered(observers, old(rates), pair, newRate)
    {
      if pair in rates && rates[pair] == newRate {
        return;
      }
      rates := rates[pair := newRate];
      NotifyObservers();
    }
  }
}
