# Design-pattern demonstrations, modelled and verified in Dafny

The repository holds two small console demonstrations of classic design
patterns. This project models both and proves what each promises.

- **Strategy and Observer** (`dz1/src/Main.java`).
  - A `PaymentContext` either has no payment strategy or has exactly one, and
    `executePayment` delegates to it. A strategy is a card, PayPal or crypto
    payment.
  - A `CurrencyExchange` owns a table of currency-pair rates and an ordered
    list of observers. A trader, the tax service and a user notifier react to
    the whole table whenever `setRate` actually changes a rate.
  - The entry routine maps one line of menu input to a strategy and runs two
    scripted scenarios.
- **Command with undo** (`ConsoleApp1/ConsoleApp1/Program.cs`).
  - A `RemoteControl` executes light, door, thermostat and TV commands and
    remembers them on a stack. `Undo` pops the latest command and runs its
    undo, or reports an empty history.
  - The thermostat keeps an integer temperature.

How the model represents things:

- **Files and modules.** One module per component: `Payment`
  (payment.dfy), `Exchange` (exchange.dfy), `Driver` (driver.dfy, the Java
  entry routine) and `Commands` (commands.dfy, the whole C# program).
  `Wrappers` (wrappers.dfy) holds the `Option` type.
- **Mutated objects become classes.** `PaymentContext`, `CurrencyExchange`,
  `Thermostat` and `RemoteControl` are Dafny classes. Their methods modify
  fields in place.
- **Output becomes appended events.** Printing is modelled as events added to
  a log field:
  - a `pay` call or a refusal in `PaymentContext.log`;
  - one `update` call in `CurrencyExchange.trace`, recorded as who received
    it, the full table it was given and what it decided;
  - an execute, an undo or an "empty history" report in `RemoteControl.log`.
- **Observers are handles.** Each observer is an `Observer(id, kind)` value,
  and `id` stands for the object's reference identity. `detach` compares
  handles for equality.
- **Rates and amounts are `real`.**
- **The menu input is a parameter.** The line the Java program reads from
  standard input is passed to the driver methods as `choice`.

Facts proved, beyond each method's own contract:

- `notifyObservers` delivers to exactly the list entries, in list order, once
  per entry. Every entry is handed the whole current table.
- `detach` removes only the first matching entry and keeps the order of the
  rest. Detaching an observer that is not in the list changes nothing.
- An observer attached once and then detached hears nothing from the next
  notification pass. One attached twice is notified twice.
- `setRate` with the value a key already holds is a no-op. Therefore two
  identical calls in a row make at most one notification pass, which
  notifies each list entry once.
- The two seeded keys are present for the exchange's whole life. This is why
  a trader's lookup of `USD_TO_EUR` is always defined.
- Pressing c1..cn and then undoing n times runs the undos of cn..c1, in that
  order, and restores the earlier history. When the history was empty before
  the presses, every further undo only reports an empty history.
  `RemoteControl.UndoTimes` states n undos in a row in these terms.
- Both scripted scenarios produce exactly the events listed in their
  contracts.

Observers and missing keys:

- **A missing `USD_TO_EUR` key.** `Trader.update` unboxes
  `rates.get("USD_TO_EUR")` and would throw a `NullPointerException` if the
  key were absent. `Update` states this case as its precondition
  `CanUpdate`. The exchange's invariant `Valid()` shows that the
  precondition always holds.
- **The tax service and the user notifier** concatenate the result of
  `rates.get` into their message, which prints `null` for a missing key.
  `Update` gives them an `Option` that is empty exactly when the key is
  absent.

## Model

| member | source | states |
|---|---|---|
| Payment.PaymentOutcome | dz1/src/Main.java:58-65 | a payment is a pay call on the selected strategy with the given amount exactly when one is selected, and a refusal otherwise |
| Payment.ExecutePaysOnceOrNever | dz1/src/Main.java:58-65 | one executePayment adds exactly one pay call to the log when a strategy is set and none when it is not |
| Payment.PaymentContext.constructor | dz1/src/Main.java:50-51 | a new context has no strategy and has made no payment |
| Payment.PaymentContext.SetPaymentStrategy | dz1/src/Main.java:53-56 | the selection becomes the argument whatever it was before (a null argument unsets it); no payment is made |
| Payment.PaymentContext.ExecutePayment | dz1/src/Main.java:58-66 | the selection is unchanged; the log gains one pay call on the selected strategy, or one refusal when none is selected |
| Driver.SelectStrategy | dz1/src/Main.java:185-200 | "1" gives the 9999 card, "2" crypto, "3" PayPal; every other line, and only those, falls back to the 0000 card |
| Driver.PaymentDemo | dz1/src/Main.java:169-203 | the payment scenario makes exactly three pay calls: card 100, PayPal 100, then the menu's pick with half the amount |
| Exchange.Lookup | dz1/src/Main.java:142 | a lookup yields a value exactly when the key is in the table, and then the table's value |
| Exchange.Update | dz1/src/Main.java:127-157 | only a trader signals; it buys exactly when USD_TO_EUR is below 0.92 and reports that rate under its name; the tax service records the USD_TO_KZT entry and the notifier tells its own user the USD_TO_EUR entry, each empty exactly when the key is absent |
| Exchange.TaxServiceReadsOnlyKzt | dz1/src/Main.java:139-143 | two tables that agree on USD_TO_KZT get the same tax-service reaction |
| Exchange.EurObserversReadOnlyEur | dz1/src/Main.java:127-157 | two tables that agree on USD_TO_EUR get the same trader and user-notifier reactions |
| Exchange.Broadcast | dz1/src/Main.java:101-105 | a notification pass makes exactly one notification per list entry |
| Exchange.BroadcastAt | dz1/src/Main.java:101-105 | the i-th notification of a pass goes to the i-th list entry and carries the whole current table |
| Exchange.BroadcastReactions | dz1/src/Main.java:101-105 | the i-th decision of a pass is the i-th entry's own update decision on the whole table |
| Exchange.BroadcastAppend | dz1/src/Main.java:103-105 | a pass over a list is the pass over its first part followed by the pass over the rest |
| Exchange.BroadcastRecipients | dz1/src/Main.java:103-105 | a pass notifies exactly the list entries, in list order, once per entry |
| Exchange.RecipientsAppend | dz1/src/Main.java:103-105 | the receivers of two runs of notifications are the receivers of the first followed by those of the second |
| Exchange.ReactionsAppend | dz1/src/Main.java:103-105 | the decisions of two runs of notifications are those of the first followed by those of the second |
| Exchange.RemoveFirst | dz1/src/Main.java:95-96 | detach shortens the list by one exactly when the observer is in it |
| Exchange.FirstIndex | dz1/src/Main.java:95-96 | the position detach removes holds the observer, and no earlier entry does |
| Exchange.RemoveFirstAbsent | dz1/src/Main.java:95-96 | detaching an observer that is not attached leaves the list unchanged |
| Exchange.RemoveFirstPresent | dz1/src/Main.java:95-96 | detaching an attached observer cuts out exactly its first entry and keeps every other entry in order |
| Exchange.RemoveFirstCount | dz1/src/Main.java:95-96 | detach removes one occurrence of the observer, if it has one, and no other entry |
| Exchange.DetachedNotNotified | dz1/src/Main.java:95-105 | an observer attached once and then detached receives no notification from the next pass |
| Exchange.AttachTwiceNotifiesTwice | dz1/src/Main.java:89-90 | attaching the same observer twice adds two entries, so a pass notifies it twice more |
| Exchange.RatesAfter | dz1/src/Main.java:108-115 | after setRate the pair holds the new rate, every other entry is untouched and no key disappears |
| Exchange.SetRateNotifies | dz1/src/Main.java:108-117 | setRate with the current value notifies nobody; any other call notifies every list entry once, in order, each with the whole new table |
| Exchange.SetRateTwice | dz1/src/Main.java:109-112 | a second identical setRate changes nothing and notifies nobody, so together the two notify each entry at most once |
| Exchange.CurrencyExchange.constructor | dz1/src/Main.java:80-86 | a new exchange has no observers and holds USD_TO_EUR 0.92 and USD_TO_KZT 470.5 |
| Exchange.CurrencyExchange.Attach | dz1/src/Main.java:89-90 | the list becomes the old list plus the observer at the end; table and notifications are unchanged |
| Exchange.CurrencyExchange.Detach | dz1/src/Main.java:95-96 | the list loses its first entry equal to the observer; table and notifications are unchanged |
| Exchange.CurrencyExchange.NotifyObservers | dz1/src/Main.java:101-106 | the trace gains one notification per list entry, in list order, each with the current table |
| Exchange.CurrencyExchange.SetRate | dz1/src/Main.java:108-117 | an equal value on an existing key writes nothing and notifies nobody; otherwise the key is written and every observer is notified; the seeded keys stay present |
| Driver.FirstPass | dz1/src/Main.java:219 | USD_TO_EUR at 0.90 notifies trader, tax service and notifier in that order; the trader buys |
| Driver.SecondPass | dz1/src/Main.java:221 | USD_TO_KZT at 465.2 notifies all three; the tax service records 465.2 and the trader still buys at 0.90 |
| Driver.ThirdPass | dz1/src/Main.java:223-225 | with the notifier detached, USD_TO_EUR at 0.93 notifies only trader and tax service; the trader does not buy |
| Driver.ScenarioTrace | dz1/src/Main.java:209-225 | the three rate changes together deliver eight notifications, with the receivers and decisions listed in its contract |
| Driver.ExchangeDemo | dz1/src/Main.java:209-225 | the exchange scenario delivers exactly those eight notifications, receivers and decisions |
| Commands.Thermostat.constructor | ConsoleApp1/ConsoleApp1/Program.cs:28 | a thermostat starts at 20 degrees |
| Commands.Thermostat.Set | ConsoleApp1/ConsoleApp1/Program.cs:29-33 | the temperature becomes the argument |
| Commands.Command.Execute | ConsoleApp1/ConsoleApp1/Program.cs:44-75 | each command performs its device operation: light on, door open, thermostat to 22, TV on; only the thermostat changes state |
| Commands.Command.Undo | ConsoleApp1/ConsoleApp1/Program.cs:44-75 | each command performs its undo operation: light off, door close, thermostat to 20, TV off |
| Commands.UndoOpposesExecute | ConsoleApp1/ConsoleApp1/Program.cs:48-74 | a device command's undo is the opposite operation on the same device; the thermostat command sets 22 and undoes to 20 |
| Commands.ThermoRoundTrip | ConsoleApp1/ConsoleApp1/Program.cs:63-66 | execute then undo of the thermostat command ends at 20 whatever the temperature was before; delta plays no part |
| Commands.Undos | ConsoleApp1/ConsoleApp1/Program.cs:88-99 | n undos remove min(n, depth) commands from the top of the history and leave the rest |
| Commands.UndoLog | ConsoleApp1/ConsoleApp1/Program.cs:88-99 | n undos log exactly n events, one per undo |
| Commands.UndoLogShape | ConsoleApp1/ConsoleApp1/Program.cs:88-99 | n undos log the undo of each popped command, top first, then one empty-history report per undo beyond the depth |
| Commands.UndoStep | ConsoleApp1/ConsoleApp1/Program.cs:88-99 | undo number k + 1 acts on the history the first k undos left, and its event follows theirs |
| Commands.UndoAllReverses | ConsoleApp1/ConsoleApp1/Program.cs:119-129 | after pressing c1..cn on any history h, n + k undos undo cn..c1 in that order and then do to h what k undos do |
| Commands.UndoLogAllReverses | ConsoleApp1/ConsoleApp1/Program.cs:119-129 | the log of those n + k undos is the undo events of cn..c1 followed by the log of k undos on h |
| Commands.UndosOnEmpty | ConsoleApp1/ConsoleApp1/Program.cs:95-98 | undos on an empty history undo nothing and each logs only an empty-history report |
| Commands.UndoPastEmpty | ConsoleApp1/ConsoleApp1/Program.cs:119-129 | from an empty history, pressing c1..cn and undoing n + k times undoes cn..c1, empties the history, and logs k empty-history reports |
| Commands.ReverseAt | ConsoleApp1/ConsoleApp1/Program.cs:119-129 | the k-th command undone is the k-th from the top |
| Commands.RemoteControl.constructor | ConsoleApp1/ConsoleApp1/Program.cs:79 | a new remote control has an empty history |
| Commands.RemoteControl.Press | ConsoleApp1/ConsoleApp1/Program.cs:81-86 | the command's execute runs once and the command is pushed, so the history becomes the old history plus the command |
| Commands.RemoteControl.Undo | ConsoleApp1/ConsoleApp1/Program.cs:88-99 | on a non-empty history the top command is popped and its undo runs once; on an empty one only the error is reported |
| Commands.RemoteControl.UndoTimes | ConsoleApp1/ConsoleApp1/Program.cs:124-129 | n calls of Undo in a row leave the history and append the log that n undos give; only the thermostats of the undone commands may change, and each of them ends at 20 |
| Commands.CommandDemo | ConsoleApp1/ConsoleApp1/Program.cs:104-130 | the scripted run executes four commands, undoes them in reverse order, reports one empty-history undo and ends at 20 degrees |

## Left out

- Console text is not modelled: the banners, the Cyrillic labels and the
  number formatting. So are the start and end markers around a payment and
  the "new strategy set" line. Only events that carry information
  (a pay call, a refusal, a notification, a device operation, an
  empty-history report) are recorded.
- Reading the menu line with `Scanner` and closing it are I/O. The line is a
  parameter of `Driver.PaymentDemo`.
- Rates and amounts are exact reals. IEEE double behaviour is not modelled:
  `Double.equals` on NaN and -0.0, and rounding in `amount * 0.5`.
- The old value that `setRate` prints (0.0 for a new key) only appears in
  output. It affects no state.
- Null observers and null commands are not modelled: observer handles and
  command values cannot be null. In the source, `attach(null)` and
  `detach(null)` first add or remove a null entry and then throw at
  `getClass()`, and
  `Press(null)` throws at `cmd.Execute()`.
- `getClass().getSimpleName()` in the attach and detach messages is
  reflection used for message text.
- An exception thrown by an observer part-way through a notification pass is
  not modelled. Only a trader's lookup could throw, and `Valid()` rules that
  out for the exchange.
- Exchange.Update: requires `USD_TO_EUR` in the table for a trader. In the
  source a missing key throws a `NullPointerException`.
- Light, door and television are values named by their location. They hold
  no state, so their object identity plays no part.
- The unused `delta` field of `TempIncreaseCommand` is not represented.
- Java's `HashMap` and `ArrayList` and .NET's `Stack<T>` are replaced by
  Dafny `map` and `seq`. The top of the command stack is the last element of
  the sequence.
