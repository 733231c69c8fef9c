/** The battery saver proper: the commands each setter issues, the snapshot file that
    marks "saving mode is on", and the enter/exit transitions.

    The outside world is a trace of events (commands run, snapshot written, file
    removed), a map from file names to contents and the directory listing. The
    spec functions below (`BacklightEvents`, `Apply`, `SaveInfoStep`, `TurnOnStep`,
    `TurnOffStep`) say what each operation does to that world; the class
    `BatterySaver` performs the operations step by step and is proved against them. */
module Saver {
  import opened Values
  import opened Text

  // ---------------------------------------------------------------------------
  // Commands

  /** One argument of a command line: literal text, or `str(v)` of a setting value. */
  datatype Arg = Lit(text: string) | Shown(v: Value)

  type Command = seq<Arg>

  const BinariesDir: string := "binaries/"
  const BrightnessTool: string := BinariesDir + "brightness/brightness"
  const Blueutil: string := BinariesDir + "blueutil/blueutil"
  const Cliclick: string := BinariesDir + "cliclick/cliclick"

  /** The snapshot file whose presence means "saving mode is on". */
  const InfoFile: string := "BatterySaverInfo.json"

  /** Number of key presses that take the keyboard backlight from one end to the other. */
  const BacklightSteps: nat := 16

  const LightUp: Command := [Lit(Cliclick), Lit("kp:keys-light-up")]
  const LightDown: Command := [Lit(Cliclick), Lit("kp:keys-light-down")]

  /** `blueutil` with no arguments prints the Bluetooth status. */
  const ProbeCommand: Command := [Lit(Blueutil)]

  /** The default `level=False` of `backlight`: no level given. */
  const NoLevel: Value := Bool(false)

  function OnOff(on: bool): string
  {
    if on then "on" else "off"
  }

  function WifiCommand(on: bool): (c: Command)
    ensures |c| == 4 && c[0] == Lit("networksetup")
    ensures c[|c| - 1] == Lit("on") <==> on
    ensures c[|c| - 1] == Lit("off") <==> !on
  {
    [Lit("networksetup"), Lit("-setairportpower"), Lit("airport"), Lit(OnOff(on))]
  }

  function BluetoothCommand(on: bool): (c: Command)
    ensures |c| == 2 && c[0] == Lit(Blueutil)
    ensures c[|c| - 1] == Lit("on") <==> on
    ensures c[|c| - 1] == Lit("off") <==> !on
  {
    [Lit(Blueutil), Lit(OnOff(on))]
  }

  function BrightnessCommand(level: Value): Command
  {
    [Lit(BrightnessTool), Shown(level)]
  }

  // ---------------------------------------------------------------------------
  // The world

  /** The record `save_info` writes: the probed radio states and two constants. */
  datatype Snapshot = Snapshot(wifi: int, bluetooth: int, brightness: string, backlight: int)

  /** A file in the working directory: a snapshot record, or anything else. */
  datatype File = SnapshotFile(snap: Snapshot) | OtherFile

  datatype Event = Exec(cmd: Command) | Wrote(name: string, snap: Snapshot) | Removed(name: string)

  datatype Env = Env(log: seq<Event>, files: map<string, File>, listing: seq<string>)

  predicate NoDuplicates(s: seq<string>)
  {
    forall i, j :: 0 <= i < j < |s| ==> s[i] != s[j]
  }

  /** The listing names each file of the directory exactly once. */
  ghost predicate EnvValid(e: Env)
  {
    NoDuplicates(e.listing) && forall n :: n in e.files <==> n in e.listing
  }

  /** `s` with every occurrence of `x` removed, the rest in order. */
  function Without(s: seq<string>, x: string): (r: seq<string>)
    ensures forall y :: y in r <==> y in s && y != x
    ensures NoDuplicates(s) ==> NoDuplicates(r)
  {
    if s == [] then []
    else if s[0] == x then Without(s[1..], x)
    else
      var r := [s[0]] + Without(s[1..], x);
      assert forall y :: y in r <==> y == s[0] || y in Without(s[1..], x);
      assert NoDuplicates(s) ==> s[0] !in s[1..];
      r
  }

  /** `open(name, 'w')` + `json.dump`: create or overwrite the file. */
  function Store(e: Env, name: string, snap: Snapshot): Env
  {
    Env(e.log + [Wrote(name, snap)], e.files[name := SnapshotFile(snap)],
        if name in e.listing then e.listing else e.listing + [name])
  }

  /** `os.remove(name)`. */
  function Delete(e: Env, name: string): Env
  {
    Env(e.log + [Removed(name)], e.files - {name}, Without(e.listing, name))
  }

  lemma StoreKeepsValid(e: Env, name: string, snap: Snapshot)
    requires EnvValid(e)
    ensures EnvValid(Store(e, name, snap))
    ensures name in Store(e, name, snap).listing
  {
    var l := Store(e, name, snap).listing;
    if name !in e.listing {
      forall i, j | 0 <= i < j < |l| ensures l[i] != l[j] {
        if j == |l| - 1 {
          assert l[i] in e.listing;
        }
      }
    }
  }

  lemma DeleteKeepsValid(e: Env, name: string)
    requires EnvValid(e)
    ensures EnvValid(Delete(e, name))
    ensures name !in Delete(e, name).files && name !in Delete(e, name).listing
  {
  }

  // ---------------------------------------------------------------------------
  // Key presses for the keyboard backlight

  /** `for x in xrange(n): run(key)`: `n` presses, none when `n <= 0`. */
  function Presses(key: Command, n: int): (es: seq<Event>)
    ensures |es| == if n > 0 then n else 0
  {
    seq(if n > 0 then n else 0, _ => Exec(key))
  }

  lemma PressOnceMore(key: Command, n: nat)
    ensures Presses(key, n + 1) == Presses(key, n) + [Exec(key)]
  {
  }

  /** The events of `backlight(turn_on, level)`, following the source's recursion:
      a leveled switch-on first switches fully off, then presses up `level - 1` times
      (`xrange(1, level)`), except that 16 switches fully on and 0 stays off. */
  function BacklightEvents(turnOn: bool, level: Value): seq<Event>
    decreases if turnOn && level.Int? then 1 else 0
  {
    if turnOn then
      if level.Int? then
        BacklightEvents(false, NoLevel) +
        (if level.i == 16 then BacklightEvents(true, NoLevel)
         else if level.i != 0 then Presses(LightUp, level.i - 1)
         else [])
      else Presses(LightUp, BacklightSteps)
    else Presses(LightDown, BacklightSteps)
  }

  /** How many light-down presses `backlight(turn_on, level)` sends. */
  function DownPresses(turnOn: bool, level: Value): nat
  {
    if !turnOn || level.Int? then BacklightSteps else 0
  }

  /** How many light-up presses `backlight(turn_on, level)` sends. */
  function UpPresses(turnOn: bool, level: Value): nat
  {
    if !turnOn then 0
    else if !level.Int? || level.i == 16 then BacklightSteps
    else if level.i > 1 then level.i - 1
    else 0
  }

  function Count(es: seq<Event>, e: Event): nat
  {
    if es == [] then 0 else Count(es[..|es| - 1], e) + (if es[|es| - 1] == e then 1 else 0)
  }

  lemma {:induction false} CountAppend(a: seq<Event>, b: seq<Event>, e: Event)
    ensures Count(a + b, e) == Count(a, e) + Count(b, e)
    decreases |b|
  {
    if b == [] {
      assert a + b == a;
    } else {
      assert (a + b)[..|a + b| - 1] == a + b[..|b| - 1];
      CountAppend(a, b[..|b| - 1], e);
    }
  }

  lemma {:induction false} CountPresses(key: Command, n: int, e: Event)
    ensures Count(Presses(key, n), e) == if e == Exec(key) && n > 0 then n else 0
    decreases n
  {
    if n > 0 {
      CountPresses(key, n - 1, e);
      PressOnceMore(key, n - 1);
      assert Presses(key, n)[..|Presses(key, n)| - 1] == Presses(key, n - 1);
    }
  }

  /** Every backlight request is all its down presses followed by all its up presses,
      and nothing else. */
  lemma BacklightShape(turnOn: bool, level: Value)
    ensures BacklightEvents(turnOn, level) ==
      Presses(LightDown, DownPresses(turnOn, level)) + Presses(LightUp, UpPresses(turnOn, level))
  {
    if turnOn && level.Int? && level.i <= 1 && level.i != 0 {
      assert Presses(LightUp, level.i - 1) == [];
    }
  }

  /** Exact press counts: off is 16 downs; on without a level is 16 ups; on with an
      integer level `n` is 16 downs then 16 ups for `n == 16`, none for `n == 0`, and
      `max(0, n - 1)` otherwise. */
  lemma BacklightCounts(turnOn: bool, level: Value)
    ensures Count(BacklightEvents(turnOn, level), Exec(LightDown)) == DownPresses(turnOn, level)
    ensures Count(BacklightEvents(turnOn, level), Exec(LightUp)) == UpPresses(turnOn, level)
    ensures |BacklightEvents(turnOn, level)| == DownPresses(turnOn, level) + UpPresses(turnOn, level)
  {
    BacklightShape(turnOn, level);
    var d, u := DownPresses(turnOn, level), UpPresses(turnOn, level);
    CountAppend(Presses(LightDown, d), Presses(LightUp, u), Exec(LightDown));
    CountAppend(Presses(LightDown, d), Presses(LightUp, u), Exec(LightUp));
    CountPresses(LightDown, d, Exec(LightDown));
    CountPresses(LightUp, u, Exec(LightDown));
    CountPresses(LightDown, d, Exec(LightUp));
    CountPresses(LightUp, u, Exec(LightUp));
  }

  /** As written, asking for level 1 sends exactly what asking for level 0 sends,
      and level 15 sends two presses fewer than level 16. */
  lemma LevelOffByOne()
    ensures BacklightEvents(true, Int(1)) == BacklightEvents(true, Int(0))
    ensures UpPresses(true, Int(15)) + 2 == UpPresses(true, Int(16))
  {
    assert Presses(LightUp, 0) == [];
  }

  /** The level behaviour the doc comment and the special case for 16 describe:
      from fully off, `n` presses up reach level `n`. */
  function IntendedBacklightEvents(turnOn: bool, level: Value): seq<Event>
  {
    if turnOn && level.Int? then
      Presses(LightDown, BacklightSteps) +
      (if level.i == 16 then Presses(LightUp, BacklightSteps)
       else if level.i != 0 then Presses(LightUp, level.i)
       else [])
    else BacklightEvents(turnOn, level)
  }

  /** For every level from 0 to 16 the corrected version switches fully off and then
      presses up exactly `level` times, in that order and nothing else. */
  lemma IntendedLevelReached(n: int)
    requires 0 <= n <= 16
    ensures Count(IntendedBacklightEvents(true, Int(n)), Exec(LightDown)) == BacklightSteps
    ensures Count(IntendedBacklightEvents(true, Int(n)), Exec(LightUp)) == n
    ensures IntendedBacklightEvents(true, Int(n)) == Presses(LightDown, BacklightSteps) + Presses(LightUp, n)
  {
    assert IntendedBacklightEvents(true, Int(n)) == Presses(LightDown, 16) + Presses(LightUp, n);
    CountAppend(Presses(LightDown, 16), Presses(LightUp, n), Exec(LightDown));
    CountAppend(Presses(LightDown, 16), Presses(LightUp, n), Exec(LightUp));
    CountPresses(LightDown, 16, Exec(LightDown));
    CountPresses(LightUp, n, Exec(LightDown));
    CountPresses(LightDown, 16, Exec(LightUp));
    CountPresses(LightUp, n, Exec(LightUp));
  }

  /** Without a level (the only way `turn_on` and `turn_off` call it) the written and
      the corrected backlight behaviour coincide. */
  lemma IntendedAgreesWithoutLevel(turnOn: bool, level: Value)
    requires !level.Int?
    ensures IntendedBacklightEvents(turnOn, level) == BacklightEvents(turnOn, level)
  {
  }

  // ---------------------------------------------------------------------------
  // Applying a settings dictionary

  /** The four settings, each looked up by its key and sent to its setter. */
  datatype Knob = BrightnessKnob | WifiKnob | BluetoothKnob | BacklightKnob

  function Key(k: Knob): string
  {
    match k
    case BrightnessKnob => "Brightness"
    case WifiKnob => "Wifi"
    case BluetoothKnob => "Bluetooth"
    case BacklightKnob => "Backlight"
  }

  /** What one setter call sends for a setting value. */
  function KnobEvents(k: Knob, v: Value): seq<Event>
  {
    match k
    case BrightnessKnob => [Exec(BrightnessCommand(v))]
    case WifiKnob => [Exec(WifiCommand(Truthy(v)))]
    case BluetoothKnob => [Exec(BluetoothCommand(Truthy(v)))]
    case BacklightKnob => BacklightEvents(Truthy(v), NoLevel)
  }

  /** The events a sequence of calls sends and how it ends. */
  datatype Issued = Issued(events: seq<Event>, outcome: Outcome)

  predicate HasKeys(settings: map<string, Value>, knobs: seq<Knob>)
  {
    forall i :: 0 <= i < |knobs| ==> Key(knobs[i]) in settings
  }

  /** `self.setter(settings[key])` for each knob in turn; the first missing key raises
      KeyError, after the earlier setters have run. */
  function Apply(settings: map<string, Value>, knobs: seq<Knob>): Issued
  {
    if knobs == [] then Issued([], Pass)
    else if Key(knobs[0]) !in settings then Issued([], Fail(MissingKey(Key(knobs[0]))))
    else
      var rest := Apply(settings, knobs[1..]);
      Issued(KnobEvents(knobs[0], settings[Key(knobs[0])]) + rest.events, rest.outcome)
  }

  /** The calls complete exactly when every key is present; otherwise the KeyError
      names a missing key. Only commands are sent, never file events. */
  lemma {:induction false} ApplyOutcome(settings: map<string, Value>, knobs: seq<Knob>)
    ensures Apply(settings, knobs).outcome.Pass? <==> HasKeys(settings, knobs)
    ensures Apply(settings, knobs).outcome.Fail? ==>
      exists k :: k in knobs && Key(k) !in settings && Apply(settings, knobs).outcome == Fail(MissingKey(Key(k)))
    ensures forall i :: 0 <= i < |Apply(settings, knobs).events| ==> Apply(settings, knobs).events[i].Exec?
  {
    if knobs != [] && Key(knobs[0]) in settings {
      ApplyOutcome(settings, knobs[1..]);
      var first := KnobEvents(knobs[0], settings[Key(knobs[0])]);
      assert forall i :: 0 <= i < |first| ==> first[i].Exec?;
    }
  }

  /** One unfolding of `Apply`, stated for callers that walk a fixed list of knobs. */
  lemma ApplyUnfold(settings: map<string, Value>, knobs: seq<Knob>)
    requires knobs != []
    ensures Apply(settings, knobs) ==
      if Key(knobs[0]) !in settings then Issued([], Fail(MissingKey(Key(knobs[0]))))
      else Issued(KnobEvents(knobs[0], settings[Key(knobs[0])]) + Apply(settings, knobs[1..]).events,
                  Apply(settings, knobs[1..]).outcome)
  {
  }

  const TurnOnOrder: seq<Knob> := [BrightnessKnob, WifiKnob, BluetoothKnob, BacklightKnob]
  const TurnOffOrder: seq<Knob> := [WifiKnob, BluetoothKnob, BacklightKnob, BrightnessKnob]
  /** With `read_from_file`, only these two come from the settings. */
  const RestoreOrder: seq<Knob> := [BacklightKnob, BrightnessKnob]

  /** The default settings of `turn_on`. */
  const DefaultOnSettings: map<string, Value> :=
    map["Brightness" := Num(0.3), "Wifi" := Bool(false), "Bluetooth" := Bool(false), "Backlight" := Bool(false)]

  /** The default settings of `turn_off`. */
  const DefaultOffSettings: map<string, Value> :=
    map["Brightness" := Num(1.0), "Wifi" := Bool(false), "Bluetooth" := Bool(true), "Backlight" := Bool(true)]

  // ---------------------------------------------------------------------------
  // save_info, turn_on, turn_off

  /** An operation's effect: the new world and how the call ended. */
  datatype Step = Step(env: Env, outcome: Outcome)

  /** The record `save_info` writes: probed Wi-Fi as 0/1, the parsed Bluetooth flag,
      and the constants '.65' and 1. */
  function ProbedSnapshot(wifiUp: bool, bluetooth: int): Snapshot
  {
    Snapshot(if wifiUp then 1 else 0, bluetooth, ".65", 1)
  }

  /** `int(out.split()[1])` on the output of `blueutil`. */
  function ParseBluetoothState(out: string): (r: Result<int>)
    ensures r.Ok? ==> |Split(out)| >= 2 && ParseInt(Split(out)[1]) == Some(r.value)
    ensures |Split(out)| < 2 ==> r == Err(TooFewTokens)
    ensures |Split(out)| >= 2 ==> (r.Ok? <==> ParseInt(Split(out)[1]).Some?)
    ensures |Split(out)| >= 2 && r.Err? ==> r.error == NotAnInteger(Split(out)[1])
  {
    var words := Split(out);
    if |words| < 2 then Err(TooFewTokens)
    else match ParseInt(words[1])
      case None => Err(NotAnInteger(words[1]))
      case Some(n) => Ok(n)
  }

  /** What blueutil prints (a label, then the flag): the flag is read back exactly. */
  lemma ParseBluetoothStateOf(head: string, n: int, rest: string)
    requires head != [] && NoSpace(head)
    requires rest == [] || IsSpace(rest[0])
    ensures ParseBluetoothState(head + " " + Decimal(n) + rest) == Ok(n)
  {
    ParseDecimal(n);
    var d := Decimal(n);
    assert head + " " + d + rest == head + (" " + (d + rest));
    SplitWord(head, " " + (d + rest));
    assert (" " + (d + rest))[1..] == d + rest;
    SplitWord(d, rest);
  }

  /** `save_info(file)`: probe Wi-Fi (an input here) and Bluetooth, then write the record. */
  function SaveInfoStep(e: Env, file: string, wifiUp: bool, probeOutput: string): Step
  {
    var probed := e.(log := e.log + [Exec(ProbeCommand)]);
    match ParseBluetoothState(probeOutput)
    case Err(err) => Step(probed, Fail(err))
    case Ok(b) => Step(Store(probed, file, ProbedSnapshot(wifiUp, b)), Pass)
  }

  /** `turn_on(settings)`: save the snapshot, then brightness, Wi-Fi, Bluetooth, backlight. */
  function TurnOnStep(e: Env, settings: map<string, Value>, wifiUp: bool, probeOutput: string): Step
  {
    var saved := SaveInfoStep(e, InfoFile, wifiUp, probeOutput);
    if saved.outcome.Fail? then saved
    else
      var issued := Apply(settings, TurnOnOrder);
      Step(saved.env.(log := saved.env.log + issued.events), issued.outcome)
  }

  /** With `read_from_file`: Wi-Fi and Bluetooth from the snapshot, then backlight and
      brightness from the settings. */
  function Restore(info: Snapshot, settings: map<string, Value>): Issued
  {
    var rest := Apply(settings, RestoreOrder);
    Issued([Exec(WifiCommand(info.wifi != 0)), Exec(BluetoothCommand(info.bluetooth != 0))] + rest.events,
           rest.outcome)
  }

  /** `turn_off(file, settings, read_from_file)`. */
  function TurnOffStep(e: Env, file: string, settings: map<string, Value>, readFromFile: bool): Step
  {
    if !Contains(Concat(e.listing), file) then Step(e, Pass)
    else if file !in e.files then Step(e, Fail(FileNotFound(file)))
    else if e.files[file].OtherFile? then Step(e, Fail(NotASnapshot(file)))
    else
      var info := e.files[file].snap;
      var issued := if readFromFile then Restore(info, settings) else Apply(settings, TurnOffOrder);
      var sent := e.(log := e.log + issued.events);
      if issued.outcome.Fail? then Step(sent, issued.outcome)
      else Step(Delete(sent, file), Pass)
  }

  // ---------------------------------------------------------------------------
  // The class

  class BatterySaver {
    var log: seq<Event>
    var files: map<string, File>
    var listing: seq<string>

    function State(): Env
      reads this
    {
      Env(log, files, listing)
    }

    ghost predicate Valid()
      reads this
    {
      EnvValid(State())
    }

    constructor (files: map<string, File>, listing: seq<string>)
      requires EnvValid(Env([], files, listing))
      ensures Valid() && State() == Env([], files, listing)
    {
      this.log := [];
      this.files := files;
      this.listing := listing;
    }

    /** `run_command`: the command is recorded; its output is supplied by the caller
        where it matters. */
    method RunCommand(cmd: Command)
      modifies this
      ensures State() == old(State()).(log := old(log) + [Exec(cmd)])
    {
      log := log + [Exec(cmd)];
    }

    method IsBluetoothOn(probeOutput: string) returns (r: Result<int>)
      modifies this
      ensures r == ParseBluetoothState(probeOutput)
      ensures State() == old(State()).(log := old(log) + [Exec(ProbeCommand)])
    {
      RunCommand(ProbeCommand);
      var words := Split(probeOutput);
      if |words| < 2 {
        return Err(TooFewTokens);
      }
      var n := ParseInt(words[1]);
      if n.None? {
        return Err(NotAnInteger(words[1]));
      }
      r := Ok(n.value);
    }

    method Backlight(turnOn: bool, level: Value)
      modifies this
      ensures State() == old(State()).(log := old(log) + BacklightEvents(turnOn, level))
      decreases if turnOn && level.Int? then 1 else 0
    {
      if turnOn {
        if level.Int? {
          Backlight(false, NoLevel);
          if level.i == 16 {
            Backlight(true, NoLevel);
          } else if level.i != 0 {
            ghost var before := log;
            var x := 1;
            while x < level.i
              invariant 1 <= x <= if level.i > 1 then level.i else 1
              invariant log == before + Presses(LightUp, x - 1)
              invariant files == old(files) && listing == old(listing)
            {
              PressOnceMore(LightUp, x - 1);
              RunCommand(LightUp);
              x := x + 1;
            }
            assert Presses(LightUp, x - 1) == Presses(LightUp, level.i - 1) by {
              if level.i < 1 {
                assert Presses(LightUp, 0) == [] == Presses(LightUp, level.i - 1);
              }
            }
          }
        } else {
          for x := 0 to BacklightSteps
            invariant log == old(log) + Presses(LightUp, x)
            invariant files == old(files) && listing == old(listing)
          {
            PressOnceMore(LightUp, x);
            RunCommand(LightUp);
          }
        }
      } else {
        for x := 0 to BacklightSteps
          invariant log == old(log) + Presses(LightDown, x)
          invariant files == old(files) && listing == old(listing)
        {
          PressOnceMore(LightDown, x);
          RunCommand(LightDown);
        }
      }
    }

    method Bluetooth(turnOn: bool)
      modifies this
      ensures State() == old(State()).(log := old(log) + [Exec(BluetoothCommand(turnOn))])
    {
      if turnOn {
        RunCommand([Lit(Blueutil), Lit("on")]);
      } else {
        RunCommand([Lit(Blueutil), Lit("off")]);
      }
    }

    method Wifi(turnOn: bool)
      modifies this
      ensures State() == old(State()).(log := old(log) + [Exec(WifiCommand(turnOn))])
    {
      if turnOn {
        RunCommand([Lit("networksetup"), Lit("-setairportpower"), Lit("airport"), Lit("on")]);
      } else {
        RunCommand([Lit("networksetup"), Lit("-setairportpower"), Lit("airport"), Lit("off")]);
      }
    }

    method Brightness(level: Value)
      modifies this
      ensures State() == old(State()).(log := old(log) + [Exec(BrightnessCommand(level))])
    {
      RunCommand([Lit(BrightnessTool), Shown(level)]);
    }

    method WriteSnapshot(name: string, snap: Snapshot)
      modifies this
      ensures State() == Store(old(State()), name, snap)
    {
      log := log + [Wrote(name, snap)];
      files := files[name := SnapshotFile(snap)];
      if name !in listing {
        listing := listing + [name];
      }
    }

    method RemoveFile(name: string)
      modifies this
      ensures State() == Delete(old(State()), name)
    {
      log := log + [Removed(name)];
      files := files - {name};
      listing := Without(listing, name);
    }

    /** `save_info(file)`, with the Wi-Fi probe's answer and blueutil's output as inputs. */
    method SaveInfo(file: string, wifiUp: bool, probeOutput: string) returns (r: Outcome)
      requires Valid()
      modifies this
      ensures Valid()
      ensures Step(State(), r) == SaveInfoStep(old(State()), file, wifiUp, probeOutput)
      ensures r.Pass? ==> file in files && files[file].SnapshotFile? &&
                          files[file].snap.brightness == ".65" && files[file].snap.backlight == 1
    {
      var wifi := if wifiUp then 1 else 0;
      var bluetooth := IsBluetoothOn(probeOutput);
      if bluetooth.Err? {
        return Fail(bluetooth.error);
      }
      StoreKeepsValid(State(), file, Snapshot(wifi, bluetooth.value, ".65", 1));
      WriteSnapshot(file, Snapshot(wifi, bluetooth.value, ".65", 1));
      r := Pass;
    }

    /** `self.<setter>(settings[key])`: KeyError when the key is missing, otherwise
        the setter for that knob runs with the looked-up value. */
    method SetKnob(k: Knob, settings: map<string, Value>) returns (r: Outcome)
      modifies this
      ensures r == if Key(k) in settings then Pass else Fail(MissingKey(Key(k)))
      ensures State() == old(State()).(log := old(log) + if r.Pass? then KnobEvents(k, settings[Key(k)]) else [])
    {
      if Key(k) !in settings {
        return Fail(MissingKey(Key(k)));
      }
      var v := settings[Key(k)];
      match k {
        case BrightnessKnob => Brightness(v);
        case WifiKnob => Wifi(Truthy(v));
        case BluetoothKnob => Bluetooth(Truthy(v));
        case BacklightKnob => Backlight(Truthy(v), NoLevel);
      }
      r := Pass;
    }

    /** The setter calls of `turn_on`: brightness, Wi-Fi, Bluetooth, backlight. */
    method SetForTurnOn(settings: map<string, Value>) returns (r: Outcome)
      modifies this
      ensures r == Apply(settings, TurnOnOrder).outcome
      ensures State() == old(State()).(log := old(log) + Apply(settings, TurnOnOrder).events)
    {
      ApplyUnfold(settings, TurnOnOrder);
      ApplyUnfold(settings, TurnOnOrder[1..]);
      ApplyUnfold(settings, TurnOnOrder[2..]);
      ApplyUnfold(settings, TurnOnOrder[3..]);
      assert TurnOnOrder[1..][1..] == TurnOnOrder[2..] && TurnOnOrder[2..][1..] == TurnOnOrder[3..];
      r := SetKnob(BrightnessKnob, settings);
      if r.Fail? {
        return;
      }
      r := SetKnob(WifiKnob, settings);
      if r.Fail? {
        return;
      }
      r := SetKnob(BluetoothKnob, settings);
      if r.Fail? {
        return;
      }
      r := SetKnob(BacklightKnob, settings);
    }

    /** The setter calls of `turn_off` without `read_from_file`: Wi-Fi, Bluetooth,
        backlight, brightness. */
    method SetForTurnOff(settings: map<string, Value>) returns (r: Outcome)
      modifies this
      ensures r == Apply(settings, TurnOffOrder).outcome
      ensures State() == old(State()).(log := old(log) + Apply(settings, TurnOffOrder).events)
    {
      ApplyUnfold(settings, TurnOffOrder);
      ApplyUnfold(settings, TurnOffOrder[1..]);
      ApplyUnfold(settings, TurnOffOrder[2..]);
      ApplyUnfold(settings, TurnOffOrder[3..]);
      assert TurnOffOrder[1..][1..] == TurnOffOrder[2..] && TurnOffOrder[2..][1..] == TurnOffOrder[3..];
      r := SetKnob(WifiKnob, settings);
      if r.Fail? {
        return;
      }
      r := SetKnob(BluetoothKnob, settings);
      if r.Fail? {
        return;
      }
      r := SetKnob(BacklightKnob, settings);
      if r.Fail? {
        return;
      }
      r := SetKnob(BrightnessKnob, settings);
    }

    /** The setter calls of `turn_off` with `read_from_file`: the radios from the
        snapshot, then backlight and brightness from the settings. */
    method SetRestored(info: Snapshot, settings: map<string, Value>) returns (r: Outcome)
      modifies this
      ensures r == Restore(info, settings).outcome
      ensures State() == old(State()).(log := old(log) + Restore(info, settings).events)
    {
      ApplyUnfold(settings, RestoreOrder);
      ApplyUnfold(settings, RestoreOrder[1..]);
      Wifi(info.wifi != 0);
      Bluetooth(info.bluetooth != 0);
      r := SetKnob(BacklightKnob, settings);
      if r.Fail? {
        return;
      }
      r := SetKnob(BrightnessKnob, settings);
    }

    /** `turn_on(settings)`. */
    method TurnOn(settings: map<string, Value>, wifiUp: bool, probeOutput: string) returns (r: Outcome)
      requires Valid()
      modifies this
      ensures Valid()
      ensures Step(State(), r) == TurnOnStep(old(State()), settings, wifiUp, probeOutput)
    {
      r := SaveInfo(InfoFile, wifiUp, probeOutput);
      if r.Fail? {
        return;
      }
      r := SetForTurnOn(settings);
    }

    /** `turn_off(file, settings, read_from_file)`. */
    method TurnOff(file: string, settings: map<string, Value>, readFromFile: bool) returns (r: Outcome)
      requires Valid()
      modifies this
      ensures Valid()
      ensures Step(State(), r) == TurnOffStep(old(State()), file, settings, readFromFile)
      ensures !Contains(Concat(old(listing)), file) ==> r == Pass && State() == old(State())
    {
      if !Contains(Concat(listing), file) {
        return Pass;
      }
      if file !in files {
        return Fail(FileNotFound(file));
      }
      if files[file].OtherFile? {
        return Fail(NotASnapshot(file));
      }
      var info := files[file].snap;
      if readFromFile {
        r := SetRestored(info, settings);
      } else {
        r := SetForTurnOff(settings);
      }
      if r.Fail? {
        return;
      }
      DeleteKeepsValid(State(), file);
      RemoveFile(file);
      r := Pass;
    }
  }
}
