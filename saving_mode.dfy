/** Properties of the two-state saving mode that `turn_on` and `turn_off` implement,
    where the snapshot file's presence is the only record of the state. */
module SavingMode {
  import opened Values
  import opened Text
  import opened Saver

  /** With every key present, `turn_on`'s setters send exactly: the brightness,
      the Wi-Fi switch, the Bluetooth switch, then 16 backlight presses. */
  lemma TurnOnSetters(settings: map<string, Value>)
    requires "Brightness" in settings && "Wifi" in settings && "Bluetooth" in settings && "Backlight" in settings
    ensures Apply(settings, TurnOnOrder) == Issued(
      [Exec(BrightnessCommand(settings["Brightness"])),
       Exec(WifiCommand(Truthy(settings["Wifi"]))),
       Exec(BluetoothCommand(Truthy(settings["Bluetooth"])))]
      + BacklightEvents(Truthy(settings["Backlight"]), NoLevel), Pass)
    ensures |Apply(settings, TurnOnOrder).events| == 3 + BacklightSteps
  {
    ApplyUnfold(settings, TurnOnOrder);
    ApplyUnfold(settings, TurnOnOrder[1..]);
    ApplyUnfold(settings, TurnOnOrder[2..]);
    ApplyUnfold(settings, TurnOnOrder[3..]);
    assert TurnOnOrder[1..][1..] == TurnOnOrder[2..] && TurnOnOrder[2..][1..] == TurnOnOrder[3..];
    BacklightCounts(Truthy(settings["Backlight"]), NoLevel);
  }

  /** The defaults of `turn_on`: brightness .3, Wi-Fi off, Bluetooth off, backlight down. */
  lemma TurnOnDefaults()
    ensures Apply(DefaultOnSettings, TurnOnOrder) == Issued(
      [Exec(BrightnessCommand(Num(0.3))), Exec(WifiCommand(false)), Exec(BluetoothCommand(false))]
      + Presses(LightDown, BacklightSteps), Pass)
  {
    TurnOnSetters(DefaultOnSettings);
  }

  /** Without `read_from_file`, `turn_off` sends Wi-Fi, Bluetooth, the backlight presses
      and the brightness, in that order, all taken from the settings. */
  lemma TurnOffSetters(settings: map<string, Value>)
    requires "Wifi" in settings && "Bluetooth" in settings && "Backlight" in settings && "Brightness" in settings
    ensures Apply(settings, TurnOffOrder) == Issued(
      [Exec(WifiCommand(Truthy(settings["Wifi"]))),
       Exec(BluetoothCommand(Truthy(settings["Bluetooth"])))]
      + BacklightEvents(Truthy(settings["Backlight"]), NoLevel)
      + [Exec(BrightnessCommand(settings["Brightness"]))], Pass)
  {
    ApplyUnfold(settings, TurnOffOrder);
    ApplyUnfold(settings, TurnOffOrder[1..]);
    ApplyUnfold(settings, TurnOffOrder[2..]);
    ApplyUnfold(settings, TurnOffOrder[3..]);
    assert TurnOffOrder[1..][1..] == TurnOffOrder[2..] && TurnOffOrder[2..][1..] == TurnOffOrder[3..];
  }

  /** The defaults of `turn_off`: Wi-Fi off, Bluetooth on, backlight up, brightness 1.0. */
  lemma TurnOffDefaults()
    ensures Apply(DefaultOffSettings, TurnOffOrder) == Issued(
      [Exec(WifiCommand(false)), Exec(BluetoothCommand(true))]
      + Presses(LightUp, BacklightSteps) + [Exec(BrightnessCommand(Num(1.0)))], Pass)
  {
    TurnOffSetters(DefaultOffSettings);
  }

  /** With `read_from_file`, Wi-Fi and Bluetooth come from the snapshot and only the
      backlight and brightness from the settings. */
  lemma RestoreSetters(info: Snapshot, settings: map<string, Value>)
    requires "Backlight" in settings && "Brightness" in settings
    ensures Restore(info, settings) == Issued(
      [Exec(WifiCommand(info.wifi != 0)), Exec(BluetoothCommand(info.bluetooth != 0))]
      + BacklightEvents(Truthy(settings["Backlight"]), NoLevel)
      + [Exec(BrightnessCommand(settings["Brightness"]))], Pass)
  {
    ApplyUnfold(settings, RestoreOrder);
    ApplyUnfold(settings, RestoreOrder[1..]);
  }

  /** `turn_on` probes Bluetooth, then writes the snapshot (overwriting any file of
      that name), and only then sends setter commands. A probe that fails leaves the
      files alone and sends nothing else. */
  lemma TurnOnWritesFirst(e: Env, settings: map<string, Value>, wifiUp: bool, probeOutput: string)
    requires EnvValid(e)
    ensures EnvValid(TurnOnStep(e, settings, wifiUp, probeOutput).env)
    ensures ParseBluetoothState(probeOutput).Err? ==>
      TurnOnStep(e, settings, wifiUp, probeOutput) ==
        Step(e.(log := e.log + [Exec(ProbeCommand)]), Fail(ParseBluetoothState(probeOutput).error))
    ensures ParseBluetoothState(probeOutput).Ok? ==>
      var s := TurnOnStep(e, settings, wifiUp, probeOutput);
      var snap := ProbedSnapshot(wifiUp, ParseBluetoothState(probeOutput).value);
      && s.env.files == e.files[InfoFile := SnapshotFile(snap)]
      && InfoFile in s.env.listing
      && |s.env.log| >= |e.log| + 2
      && s.env.log[..|e.log| + 2] == e.log + [Exec(ProbeCommand), Wrote(InfoFile, snap)]
      && (forall i :: |e.log| + 2 <= i < |s.env.log| ==> s.env.log[i].Exec? && s.env.log[i].cmd != ProbeCommand)
      && (s.outcome.Pass? <==> HasKeys(settings, TurnOnOrder))
  {
    var probed := e.(log := e.log + [Exec(ProbeCommand)]);
    if ParseBluetoothState(probeOutput).Ok? {
      var snap := ProbedSnapshot(wifiUp, ParseBluetoothState(probeOutput).value);
      StoreKeepsValid(probed, InfoFile, snap);
      ApplyOutcome(settings, TurnOnOrder);
      ApplyNeverProbes(settings, TurnOnOrder);
      var s := TurnOnStep(e, settings, wifiUp, probeOutput);
      var issued := Apply(settings, TurnOnOrder);
      assert s.env.log == e.log + [Exec(ProbeCommand), Wrote(InfoFile, snap)] + issued.events;
      forall i | |e.log| + 2 <= i < |s.env.log|
        ensures s.env.log[i].Exec? && s.env.log[i].cmd != ProbeCommand
      {
        assert s.env.log[i] == issued.events[i - |e.log| - 2];
      }
    }
  }

  /** The setters never issue the Bluetooth status query. */
  lemma {:induction false} ApplyNeverProbes(settings: map<string, Value>, knobs: seq<Knob>)
    ensures forall i :: 0 <= i < |Apply(settings, knobs).events| ==> Apply(settings, knobs).events[i] != Exec(ProbeCommand)
  {
    if knobs != [] && Key(knobs[0]) in settings {
      ApplyNeverProbes(settings, knobs[1..]);
      var v := settings[Key(knobs[0])];
      var first := KnobEvents(knobs[0], v);
      BacklightShape(Truthy(v), NoLevel);
      assert forall i :: 0 <= i < |first| ==> first[i] != Exec(ProbeCommand);
    }
  }

  /** Entering saving mode and leaving it again with `read_from_file` switches Wi-Fi and
      Bluetooth back to what the probes saw on entry, applies the configured backlight
      and brightness, and removes the snapshot, so the mode reads as off again. */
  lemma EnterThenExitRestores(e: Env, on: map<string, Value>, off: map<string, Value>,
                              wifiUp: bool, probeOutput: string)
    requires EnvValid(e)
    requires ParseBluetoothState(probeOutput).Ok?
    requires HasKeys(on, TurnOnOrder)
    requires "Backlight" in off && "Brightness" in off
    ensures
      var entered := TurnOnStep(e, on, wifiUp, probeOutput);
      var left := TurnOffStep(entered.env, InfoFile, off, true);
      && entered.outcome == Pass && left.outcome == Pass
      && left.env.log == entered.env.log +
           [Exec(WifiCommand(wifiUp)), Exec(BluetoothCommand(ParseBluetoothState(probeOutput).value != 0))]
           + BacklightEvents(Truthy(off["Backlight"]), NoLevel)
           + [Exec(BrightnessCommand(off["Brightness"])), Removed(InfoFile)]
      && InfoFile !in left.env.files && InfoFile !in left.env.listing
      && EnvValid(left.env)
  {
    var entered := TurnOnStep(e, on, wifiUp, probeOutput);
    var info := ProbedSnapshot(wifiUp, ParseBluetoothState(probeOutput).value);
    EnteredHoldsSnapshot(e, on, wifiUp, probeOutput);
    assert HasKeys(off, RestoreOrder);
    RestoreSetters(info, off);
    TurnOffWithSnapshot(entered.env, InfoFile, off, true);
  }

  /** After a successful entry the snapshot of the probes is stored and listed. */
  lemma EnteredHoldsSnapshot(e: Env, on: map<string, Value>, wifiUp: bool, probeOutput: string)
    requires EnvValid(e)
    requires ParseBluetoothState(probeOutput).Ok?
    requires HasKeys(on, TurnOnOrder)
    ensures
      var entered := TurnOnStep(e, on, wifiUp, probeOutput);
      && entered.outcome == Pass
      && EnvValid(entered.env)
      && InfoFile in entered.env.listing
      && entered.env.files[InfoFile] == SnapshotFile(ProbedSnapshot(wifiUp, ParseBluetoothState(probeOutput).value))
  {
    TurnOnWritesFirst(e, on, wifiUp, probeOutput);
  }

  /** `turn_off` on a directory that lists the snapshot and has every setting it needs:
      the setters run, then the snapshot is removed. */
  lemma TurnOffWithSnapshot(e: Env, file: string, settings: map<string, Value>, readFromFile: bool)
    requires EnvValid(e)
    requires file in e.listing && e.files[file].SnapshotFile?
    requires HasKeys(settings, if readFromFile then RestoreOrder else TurnOffOrder)
    ensures
      var issued := if readFromFile then Restore(e.files[file].snap, settings) else Apply(settings, TurnOffOrder);
      && TurnOffStep(e, file, settings, readFromFile) == Step(Delete(e.(log := e.log + issued.events), file), Pass)
      && EnvValid(TurnOffStep(e, file, settings, readFromFile).env)
      && file !in TurnOffStep(e, file, settings, readFromFile).env.listing
  {
    MemberIsContained(e.listing, file);
    ApplyOutcome(settings, RestoreOrder);
    ApplyOutcome(settings, TurnOffOrder);
    var issued := if readFromFile then Restore(e.files[file].snap, settings) else Apply(settings, TurnOffOrder);
    DeleteKeepsValid(e.(log := e.log + issued.events), file);
  }

  /** Entering saving mode twice overwrites the first snapshot: what a later exit with
      `read_from_file` restores depends only on the second entry's probes, whatever the
      first entry did (the snapshot is written before any setting is looked up). */
  lemma DoubleEntryLosesSnapshot(e: Env, s1: map<string, Value>, s2: map<string, Value>,
                                 wifi1: bool, out1: string, wifi2: bool, out2: string)
    requires EnvValid(e)
    requires ParseBluetoothState(out2).Ok?
    ensures
      var twice := TurnOnStep(TurnOnStep(e, s1, wifi1, out1).env, s2, wifi2, out2);
      twice.env.files == e.files[InfoFile := SnapshotFile(ProbedSnapshot(wifi2, ParseBluetoothState(out2).value))]
  {
    var once := TurnOnStep(e, s1, wifi1, out1);
    TurnOnWritesFirst(e, s1, wifi1, out1);
    TurnOnWritesFirst(once.env, s2, wifi2, out2);
  }

  /** When the snapshot is there, `turn_off` ends by removing it exactly when every
      setting it needs is present; a missing key raises KeyError and leaves the
      snapshot, so saving mode stays on. */
  lemma TurnOffRemovesSnapshot(e: Env, file: string, settings: map<string, Value>, readFromFile: bool)
    requires EnvValid(e)
    requires file in e.listing && e.files[file].SnapshotFile?
    ensures
      var s := TurnOffStep(e, file, settings, readFromFile);
      && EnvValid(s.env)
      && (s.outcome.Pass? <==> HasKeys(settings, if readFromFile then RestoreOrder else TurnOffOrder))
      && (s.outcome.Pass? ==> file !in s.env.files && s.env.log[|s.env.log| - 1] == Removed(file))
      && (s.outcome.Fail? ==> s.env.files == e.files && s.outcome.error.MissingKey?)
  {
    MemberIsContained(e.listing, file);
    var info := e.files[file].snap;
    ApplyOutcome(settings, RestoreOrder);
    ApplyOutcome(settings, TurnOffOrder);
    var issued := if readFromFile then Restore(info, settings) else Apply(settings, TurnOffOrder);
    var sent := e.(log := e.log + issued.events);
    DeleteKeepsValid(sent, file);
  }
}
