/**
 * A Command pattern with undo history: a remote control executes commands on
 * home devices, remembers them on a stack, and undoes the most recent one on
 * request. Light, door and television only announce what they do; the
 * thermostat keeps a temperature. Announcements become entries of the remote
 * control's log.
 */
module Commands {

  /** Devices whose operations only announce themselves, named by location. */
  datatype Light = Light(loc: string)
  datatype Door = Door(loc: string)
  datatype Television = Television(loc: string)

  const InitialTemp: int := 20
  /** The temperature the thermostat command sets on Execute. */
  const RaisedTemp: int := 22

  class Thermostat {
    var temp: int

    constructor ()
      ensures temp == InitialTemp
    {
      temp := InitialTemp;
    }

    method Set(degrees: int)
      modifies this
      ensures temp == degrees
    {
      temp := degrees;
    }
  }

  /** What a device operation announces. */
  datatype DeviceAction =
    | LightPower(light: Light, on: bool)
    | DoorMove(door: Door, open: bool)
    | ThermoSet(degrees: int)
    | TvPower(tv: Television, on: bool)

  /** The opposite operation on the same switching device; the thermostat is not a switch. */
  function Opposite(a: DeviceAction): DeviceAction
    requires !a.ThermoSet?
  {
    match a
    case LightPower(l, on) => LightPower(l, !on)
    case DoorMove(d, open) => DoorMove(d, !open)
    case TvPower(t, on) => TvPower(t, !on)
  }

  /** The four commands, each bound to the device it drives. */
  datatype Command =
    | LightOn(light: Light)
    | DoorOpen(door: Door)
    | TempIncrease(thermo: Thermostat)
    | TvOn(tv: Television)
  {
    /** The heap a command may change: only the thermostat has state. */
    function Touches(): set<Thermostat>
    {
      if TempIncrease? then {thermo} else {}
    }

    /** The device operation `Execute` performs. */
    function ExecuteAction(): DeviceAction
    {
      match this
      case LightOn(l) => LightPower(l, true)
      case DoorOpen(d) => DoorMove(d, true)
      case TempIncrease(_) => ThermoSet(RaisedTemp)
      case TvOn(t) => TvPower(t, true)
    }

    /** The device operation `Undo` performs. */
    function UndoAction(): DeviceAction
    {
      match this
      case LightOn(l) => LightPower(l, false)
      case DoorOpen(d) => DoorMove(d, false)
      case TempIncrease(_) => ThermoSet(InitialTemp)
      case TvOn(t) => TvPower(t, false)
    }

    method Execute() returns (a: DeviceAction)
      modifies Touches()
      ensures a == ExecuteAction()
      ensures TempIncrease? ==> thermo.temp == RaisedTemp
    {
      match this
      case LightOn(l) => a := LightPower(l, true);
      case DoorOpen(d) => a := DoorMove(d, true);
      case TempIncrease(t) =>
        t.Set(RaisedTemp);
        a := ThermoSet(t.temp);
      case TvOn(tv) => a := TvPower(tv, true);
    }

    method Undo() returns (a: DeviceAction)
      modifies Touches()
      ensures a == UndoAction()
      ensures TempIncrease? ==> thermo.temp == InitialTemp
    {
      match this
      case LightOn(l) => a := LightPower(l, false);
      case DoorOpen(d) => a := DoorMove(d, false);
      case TempIncrease(t) =>
        t.Set(InitialTemp);
        a := ThermoSet(t.temp);
      case TvOn(tv) => a := TvPower(tv, false);
    }
  }

  /**
   * Undoing a device command performs the opposite operation on the same
   * device; the thermostat command sets 22 and undoes to 20.
   */
  lemma UndoOpposesExecute(c: Command)
    ensures c.TempIncrease? <==> c.ExecuteAction().ThermoSet?
    ensures !c.TempIncrease? ==> c.UndoAction() == Opposite(c.ExecuteAction())
    ensures c.TempIncrease? ==>
      c.ExecuteAction() == ThermoSet(RaisedTemp) && c.UndoAction() == ThermoSet(InitialTemp)
  {
  }

  /** What the remote control announces. */
  datatype RemoteEvent =
    | Executed(action: DeviceAction)  // a command was pressed and its Execute ran
    | Undone(action: DeviceAction)    // the latest command was popped and its Undo ran
    | NothingToUndo                   // Undo on an empty history

  function Last(h: seq<Command>): Command
    requires h != []
  {
    h[|h| - 1]
  }

  /** The reverse of a sequence. */
  function Reverse(s: seq<Command>): (r: seq<Command>)
    ensures |r| == |s|
  {
    if s == [] then [] else [s[|s| - 1]] + Reverse(s[..|s| - 1])
  }

  lemma {:induction false} ReverseAt(s: seq<Command>, k: nat)
    requires k < |s|
    ensures Reverse(s)[k] == s[|s| - 1 - k]
  {
    if k > 0 {
      ReverseAt(s[..|s| - 1], k - 1);
    }
  }

  /**
   * Up to `n` undos on history `h`: the history that remains and the
   * commands undone, in the order their Undo ran. Undos beyond the history's
   * depth are the empty-history no-op.
   */
  function Undos(h: seq<Command>, n: nat): (r: (seq<Command>, seq<Command>))
    ensures |r.1| == if n < |h| then n else |h|
    ensures r.0 == h[..|h| - |r.1|]
  {
    if n == 0 || h == [] then (h, [])
    else
      var rest := Undos(h[..|h| - 1], n - 1);
      (rest.0, [Last(h)] + rest.1)
  }

  /** The events a run of undos logs for the commands it undid, in order. */
  function UndoneEvents(cs: seq<Command>): (r: seq<RemoteEvent>)
    ensures |r| == |cs|
  {
    if cs == [] then [] else [Undone(cs[0].UndoAction())] + UndoneEvents(cs[1..])
  }

  /** `k` empty-history reports. */
  function Nothings(k: nat): (r: seq<RemoteEvent>)
    ensures |r| == k
  {
    if k == 0 then [] else [NothingToUndo] + Nothings(k - 1)
  }

  /** The events `n` undos on history `h` log, one per undo. */
  function UndoLog(h: seq<Command>, n: nat): (r: seq<RemoteEvent>)
    ensures |r| == n
  {
    if n == 0 then []
    else if h == [] then [NothingToUndo] + UndoLog(h, n - 1)
    else [Undone(Last(h).UndoAction())] + UndoLog(h[..|h| - 1], n - 1)
  }

  /**
   * `n` undos log the undo of every command they pop, top first, and then
   * one empty-history report for each undo beyond the depth.
   */
  lemma {:induction false} UndoLogShape(h: seq<Command>, n: nat)
    ensures UndoLog(h, n) == UndoneEvents(Undos(h, n).1) + Nothings(n - |Undos(h, n).1|)
    decreases n
  {
    if n == 0 {
    } else if h == [] {
      UndoLogShape(h, n - 1);
    } else {
      UndoLogShape(h[..|h| - 1], n - 1);
      var rest := Undos(h[..|h| - 1], n - 1);
      assert Undos(h, n).1 == [Last(h)] + rest.1;
      assert ([Last(h)] + rest.1)[1..] == rest.1;
    }
  }

  /** One more undo after `k` undos acts on the history those `k` left. */
  lemma {:induction false} UndoStep(h: seq<Command>, k: nat)
    ensures Undos(h, k + 1).0 == Undos(Undos(h, k).0, 1).0
    ensures UndoLog(h, k + 1) == UndoLog(h, k) + UndoLog(Undos(h, k).0, 1)
    decreases k
  {
    if k > 0 {
      if h == [] {
        UndoStep(h, k - 1);
      } else {
        UndoStep(h[..|h| - 1], k - 1);
      }
    }
  }

  /**
   * After pressing c1..cn on top of history h, n + k undos first undo
   * cn..c1 in that order and then do to h what k undos do to it.
   */
  lemma {:induction false} UndoAllReverses(h: seq<Command>, cs: seq<Command>, k: nat)
    ensures Undos(h + cs, |cs| + k) == (Undos(h, k).0, Reverse(cs) + Undos(h, k).1)
  {
    var u := Undos(h, k);
    if cs == [] {
      assert h + cs == h;
      assert Reverse(cs) + u.1 == u.1;
    } else {
      UndoAllReverses(h, cs[..|cs| - 1], k);
      PushedUndone(h, cs, k);
    }
  }

  /** The inductive step: the top command pushed last is the first one undone. */
  lemma PushedUndone(h: seq<Command>, cs: seq<Command>, k: nat)
    requires cs != []
    requires Undos(h + cs[..|cs| - 1], |cs| - 1 + k)
          == (Undos(h, k).0, Reverse(cs[..|cs| - 1]) + Undos(h, k).1)
    ensures Undos(h + cs, |cs| + k) == (Undos(h, k).0, Reverse(cs) + Undos(h, k).1)
  {
    var init := cs[..|cs| - 1];
    PushedTop(h, cs);
    UndosUnfold(h + cs, |cs| + k);
    assert [Last(cs)] + (Reverse(init) + Undos(h, k).1) == Reverse(cs) + Undos(h, k).1;
  }

  /** One undo more pops the top first. */
  lemma UndosUnfold(h: seq<Command>, n: nat)
    requires h != [] && n > 0
    ensures Undos(h, n)
         == (Undos(h[..|h| - 1], n - 1).0, [Last(h)] + Undos(h[..|h| - 1], n - 1).1)
  {
  }

  /** Pressing `cs` on top of `h` leaves the last of `cs` on top, above `h` and the rest of `cs`. */
  lemma PushedTop(h: seq<Command>, cs: seq<Command>)
    requires cs != []
    ensures (h + cs)[..|h + cs| - 1] == h + cs[..|cs| - 1]
    ensures Last(h + cs) == Last(cs)
  {
    assert (h + cs)[..|h + cs| - 1] == h + cs[..|cs| - 1];
  }

  /** The log of those n + k undos: the undos of cn..c1, then what k undos on h log. */
  lemma {:induction false} UndoLogAllReverses(h: seq<Command>, cs: seq<Command>, k: nat)
    ensures UndoLog(h + cs, |cs| + k) == UndoneEvents(Reverse(cs)) + UndoLog(h, k)
  {
    if cs == [] {
      assert h + cs == h;
    } else {
      var hc := h + cs;
      var init := cs[..|cs| - 1];
      assert hc[..|hc| - 1] == h + init;
      assert Last(hc) == cs[|cs| - 1];
      var ev := Undone(cs[|cs| - 1].UndoAction());
      UndoLogAllReverses(h, init, k);
      assert UndoLog(hc, |cs| + k) == [ev] + UndoLog(h + init, |init| + k);
      assert Reverse(cs) == [cs[|cs| - 1]] + Reverse(init);
      assert UndoneEvents(Reverse(cs)) == [ev] + UndoneEvents(Reverse(init)) by {
        assert Reverse(cs)[1..] == Reverse(init);
      }
      assert [ev] + (UndoneEvents(Reverse(init)) + UndoLog(h, k))
          == ([ev] + UndoneEvents(Reverse(init))) + UndoLog(h, k);
    }
  }

  /** Undos on an empty history undo nothing and only report. */
  lemma {:induction false} UndosOnEmpty(n: nat)
    ensures Undos([], n) == ([], [])
    ensures UndoLog([], n) == Nothings(n)
  {
    if n > 0 {
      UndosOnEmpty(n - 1);
    }
  }

  /**
   * From an empty history: after pressing c1..cn, n + k undos undo cn..c1
   * in that order, empty the history, and the k further undos each report
   * an empty history.
   */
  lemma UndoPastEmpty(cs: seq<Command>, k: nat)
    ensures Undos(cs, |cs| + k) == ([], Reverse(cs))
    ensures UndoLog(cs, |cs| + k) == UndoneEvents(Reverse(cs)) + Nothings(k)
  {
    UndoAllReverses([], cs, k);
    UndoLogAllReverses([], cs, k);
    UndosOnEmpty(k);
    assert [] + cs == cs;
    assert Reverse(cs) + [] == Reverse(cs);
  }

  /** The thermostats a sequence of commands may change. */
  function Footprint(h: seq<Command>): set<Thermostat>
  {
    set c | c in h && c.TempIncrease? :: c.thermo
  }

  /** The thermostats of a suffix: those of its first command and those of the rest. */
  lemma FootprintSuffix(h: seq<Command>, j: nat)
    requires j < |h|
    ensures Footprint(h[j..]) == h[j].Touches() + Footprint(h[j + 1..])
  {
    assert h[j..] == [h[j]] + h[j + 1..];
  }

  /** The thermostats a command at or above position `from` drives belong to the suffix from there. */
  lemma FootprintWithin(h: seq<Command>, from: nat, j: nat)
    requires from <= j < |h|
    ensures h[j].Touches() <= Footprint(h[from..])
  {
    assert h[j] == h[from..][j - from];
  }

  /** Every thermostat in `ts` is at the starting temperature. */
  ghost predicate AllAtInitial(ts: set<Thermostat>)
    reads ts
  {
    forall t | t in ts :: t.temp == InitialTemp
  }

  /** Dropping thermostats keeps the rest at the starting temperature. */
  lemma AtInitialSubset(ts: set<Thermostat>, drop: set<Thermostat>)
    requires AllAtInitial(ts)
    ensures AllAtInitial(ts - drop)
  {
  }

  /** Two sets of thermostats at the starting temperature join into one. */
  lemma AtInitialJoin(ts: set<Thermostat>, us: set<Thermostat>)
    requires AllAtInitial(ts) && AllAtInitial(us)
    ensures AllAtInitial(ts + us)
  {
  }

  /** The history is a stack whose top is the last element. */
  class RemoteControl {
    var history: seq<Command>
    var log: seq<RemoteEvent>

    constructor ()
      ensures history == [] && log == []
    {
      history := [];
      log := [];
    }

    /** Executes `cmd` once, then pushes it. */
    method Press(cmd: Command)
      modifies this, cmd.Touches()
      ensures history == old(history) + [cmd]
      ensures log == old(log) + [Executed(cmd.ExecuteAction())]
      ensures cmd.TempIncrease? ==> cmd.thermo.temp == RaisedTemp
    {
      var a := cmd.Execute();
      log := log + [Executed(a)];
      history := history + [cmd];
    }

    /**
     * Pops the most recent command and runs its Undo, or reports an empty
     * history and changes nothing else.
     */
    method Undo()
      modifies this, if history == [] then {} else Last(history).Touches()
      ensures old(history) == [] ==> history == [] && log == old(log) + [NothingToUndo]
      ensures old(history) != [] ==>
        && history == old(history)[..|old(history)| - 1]
        && log == old(log) + [Undone(Last(old(history)).UndoAction())]
        && (Last(old(history)).TempIncrease? ==> Last(old(history)).thermo.temp == InitialTemp)
      ensures history == Undos(old(history), 1).0
      ensures log == old(log) + UndoLog(old(history), 1)
    {
      if |history| > 0 {
        var top := Last(history);
        history := history[..|history| - 1];
        var a := top.Undo();
        log := log + [Undone(a)];
      } else {
        log := log + [NothingToUndo];
      }
    }

    /**
     * `n` undos in a row: the history and log are those of `n` single undos,
     * so the pushed commands are undone newest first and every undo beyond
     * the depth only reports an empty history. Only the thermostats of the
     * undone commands may change, and each of them is left at 20.
     */
    method UndoTimes(n: nat)
      modifies this, Footprint(if n < |history| then history[|history| - n..] else history)
      ensures history == Undos(old(history), n).0
      ensures log == old(log) + UndoLog(old(history), n)
      ensures AllAtInitial(Footprint(old(history)[|history|..]))
    {
      ghost var h0 := history;
      ghost var log0 := log;
      ghost var depth := if n < |h0| then |h0| - n else 0;
      ghost var undone: set<Thermostat> := {};
      var k := 0;
      while k < n
        invariant 0 <= k <= n
        invariant history == Undos(h0, k).0
        invariant log == log0 + UndoLog(h0, k)
        invariant undone == Footprint(h0[|history|..])
        invariant AllAtInitial(undone)
      {
        UndoStep(h0, k);
        if history == [] {
          Undo();
        } else {
          ghost var top := |history| - 1;
          var popped := Last(history);
          assert popped == h0[top];
          FootprintSuffix(h0, top);
          FootprintWithin(h0, depth, top);
          AtInitialSubset(undone, popped.Touches());
          Undo();
          AtInitialJoin(undone - popped.Touches(), popped.Touches());
          assert undone - popped.Touches() + popped.Touches() == popped.Touches() + undone;
          undone := popped.Touches() + undone;
        }
        k := k + 1;
      }
    }
  }

  /**
   * Execute then Undo of the thermostat command ends at 20 whatever the
   * temperature was before: Undo does not restore a prior value other than 20.
   */
  method ThermoRoundTrip(t: Thermostat) returns (before: int, after: int)
    modifies t
    ensures before == old(t.temp)
    ensures after == t.temp == InitialTemp
  {
    before := t.temp;
    var c := TempIncrease(t);
    var _ := c.Execute();
    var _ := c.Undo();
    after := t.temp;
  }

  /**
   * The scripted demonstration: press light, door, thermostat and TV
   * commands, then undo five times; the fifth finds an empty history.
   */
  method CommandDemo() returns (log: seq<RemoteEvent>, finalTemp: int)
    ensures log == [
      Executed(LightPower(Light("Kitchen"), true)),
      Executed(DoorMove(Door("Garage"), true)),
      Executed(ThermoSet(22)),
      Executed(TvPower(Television("Living Room"), true)),
      Undone(TvPower(Television("Living Room"), false)),
      Undone(ThermoSet(20)),
      Undone(DoorMove(Door("Garage"), false)),
      Undone(LightPower(Light("Kitchen"), false)),
      NothingToUndo]
    ensures finalTemp == 20
  {
    var light := Light("Kitchen");
    var door := Door("Garage");
    var thermo := new Thermostat();
    var tv := Television("Living Room");
    var remote := new RemoteControl();

    var cmdLight := LightOn(light);
    var cmdDoor := DoorOpen(door);
    var cmdThermo := TempIncrease(thermo);
    var cmdTv := TvOn(tv);

    remote.Press(cmdLight);
    remote.Press(cmdDoor);
    remote.Press(cmdThermo);
    remote.Press(cmdTv);
    remote.Undo();
    remote.Undo();
    remote.Undo();
    remote.Undo();
    remote.Undo();
    log := remote.log;
    finalTemp := thermo.temp;
  }
}
