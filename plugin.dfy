/** The launcher plugin: reads the user's preferences, previews which way the toggle
    goes, and runs `turn_on` or `turn_off` with the matching preferences. */
module Plugin {
  import opened Values
  import opened Text
  import opened Saver
  import opened SavingMode

  /** One `{"option": ..., "enable": ...}` entry of a preferences list. */
  datatype Entry = Entry(option: string, enable: string)

  /** The loaded preferences file: the named lists of entries, and the
      `remember_settings` value when present. */
  datatype PreferencesFile = PreferencesFile(sections: map<string, seq<Entry>>, rememberSettings: Option<Value>)

  /** What `preferences(option)` returns: a settings dictionary, or the raw
      `remember_settings` value. */
  datatype Preference = Settings(settings: map<string, Value>) | Remember(value: Value)

  const RememberKey: string := "remember_settings"

  /** The two options that name a list of entries. */
  predicate IsListed(option: string)
  {
    option == "activation" || option == "deactivation"
  }

  // ---------------------------------------------------------------------------
  // preferences

  /** `{x['option']: x['enable'] for x in entries}`: later entries override earlier ones. */
  function Collect(entries: seq<Entry>): map<string, string>
  {
    if entries == [] then map[]
    else Collect(entries[..|entries| - 1])[entries[|entries| - 1].option := entries[|entries| - 1].enable]
  }

  /** The dictionary's keys are exactly the options listed, and each maps to the
      `enable` of the last entry naming it. */
  lemma {:induction false} CollectLastWins(entries: seq<Entry>, k: string)
    ensures k in Collect(entries) <==> exists i :: 0 <= i < |entries| && entries[i].option == k
    ensures k in Collect(entries) ==>
      exists i :: 0 <= i < |entries| && entries[i].option == k && Collect(entries)[k] == entries[i].enable &&
                  forall j :: i < j < |entries| ==> entries[j].option != k
  {
    if entries != [] {
      var n := |entries| - 1;
      var init := entries[..n];
      CollectLastWins(init, k);
      if entries[n].option != k {
        if exists i :: 0 <= i < |init| && init[i].option == k {
          var i :| 0 <= i < |init| && init[i].option == k;
          assert entries[i].option == k;
        }
        if exists i :: 0 <= i < |entries| && entries[i].option == k {
          var i :| 0 <= i < |entries| && entries[i].option == k;
          assert init[i].option == k;
        }
        if k in Collect(init) {
          var i :| 0 <= i < |init| && init[i].option == k && Collect(init)[k] == init[i].enable &&
                   forall j :: i < j < |init| ==> init[j].option != k;
          assert entries[i] == init[i];
          assert forall j :: i < j < |entries| ==> entries[j].option != k by {
            forall j | i < j < |entries| ensures entries[j].option != k {
              if j < n {
                assert entries[j] == init[j];
              }
            }
          }
        }
      }
    }
  }

  /** How one `enable` string is converted: digit-led strings through `float`
      (`toFloat` stands for Python's `float`, `None` for its ValueError), 'off' and
      'on' to booleans, anything else unchanged; `value[0]` on '' raises IndexError. */
  function Classify(value: string, toFloat: string -> Option<real>): (r: Result<Value>)
    ensures r.Err? <==> value == [] || (IsDigit(value[0]) && toFloat(value).None?)
    ensures value == [] ==> r == Err(EmptyValue)
    ensures r.Ok? && r.value.Num? ==> IsDigit(value[0]) && toFloat(value) == Some(r.value.x)
    ensures value != [] && IsDigit(value[0]) && toFloat(value).Some? ==> r == Ok(Num(toFloat(value).value))
    ensures value != [] && IsDigit(value[0]) && toFloat(value).None? ==> r == Err(NotANumber(value))
    ensures r.Ok? ==> (r.value.Bool? <==> value == "on" || value == "off")
    ensures r.Ok? && r.value.Bool? ==> (r.value.b <==> value == "on")
    ensures r.Ok? && !IsDigit(value[0]) && value != "on" && value != "off" ==> r.value == Str(value)
  {
    if value == [] then Err(EmptyValue)
    else if IsDigit(value[0]) then
      match toFloat(value)
      case None => Err(NotANumber(value))
      case Some(x) => Ok(Num(x))
    else if value == "off" then Ok(Bool(false))
    else if value == "on" then Ok(Bool(true))
    else Ok(Str(value))
  }

  /** Every value of the dictionary converted, or `None` when some conversion raises. */
  function ClassifyAll(d: map<string, string>, toFloat: string -> Option<real>): (r: Option<map<string, Value>>)
    ensures r.Some? <==> forall k :: k in d ==> Classify(d[k], toFloat).Ok?
    ensures r.Some? ==> r.value.Keys == d.Keys &&
                        forall k :: k in d ==> Classify(d[k], toFloat) == Ok(r.value[k])
  {
    if forall k :: k in d ==> Classify(d[k], toFloat).Ok? then
      Some(map k | k in d :: Classify(d[k], toFloat).value)
    else None
  }

  /** The value `preferences(option)` returns, or `None` when it raises. */
  function PreferencesOf(data: PreferencesFile, option: string, toFloat: string -> Option<real>): (r: Option<Preference>)
    ensures r.Some? && IsListed(option) ==> r.value.Settings?
    ensures r.Some? && !IsListed(option) ==> r.value.Remember?
    ensures !IsListed(option) ==>
      r == if data.rememberSettings.Some? then Some(Remember(data.rememberSettings.value)) else None
    ensures IsListed(option) ==>
      (r.None? <==> option !in data.sections || ClassifyAll(Collect(data.sections[option]), toFloat).None?)
    ensures IsListed(option) && r.Some? ==>
      r.value.settings == ClassifyAll(Collect(data.sections[option]), toFloat).value
  {
    if IsListed(option) then
      if option !in data.sections then None
      else match ClassifyAll(Collect(data.sections[option]), toFloat)
        case None => None
        case Some(m) => Some(Settings(m))
    else if data.rememberSettings.Some? then Some(Remember(data.rememberSettings.value))
    else None
  }

  /** The exceptions `preferences(option)` may raise: a missing list or
      `remember_settings` key, or the conversion error of one of the values (which
      one depends on the dictionary's iteration order). */
  ghost predicate PreferencesError(data: PreferencesFile, option: string, toFloat: string -> Option<real>, e: Error)
  {
    if IsListed(option) then
      if option !in data.sections then e == MissingKey(option)
      else
        var d := Collect(data.sections[option]);
        exists k :: k in d && Classify(d[k], toFloat) == Err(e)
    else data.rememberSettings.None? && e == MissingKey(RememberKey)
  }

  /** The dictionary comprehension over a list of entries. */
  method CollectEntries(entries: seq<Entry>) returns (dict: map<string, string>)
    ensures dict == Collect(entries)
  {
    dict := map[];
    for i := 0 to |entries|
      invariant dict == Collect(entries[..i])
    {
      assert entries[..i + 1][..i] == entries[..i];
      dict := dict[entries[i].option := entries[i].enable];
    }
    assert entries[..|entries|] == entries;
  }

  /** The conversion loop: each value of the dictionary is replaced in turn by its
      converted form, in an unspecified key order; the first conversion that raises
      ends the loop. */
  method ConvertValues(dict: map<string, string>, toFloat: string -> Option<real>) returns (r: Result<map<string, Value>>)
    ensures r.Ok? <==> ClassifyAll(dict, toFloat).Some?
    ensures r.Ok? ==> r.value == ClassifyAll(dict, toFloat).value
    ensures r.Err? ==> exists k :: k in dict && Classify(dict[k], toFloat) == Err(r.error)
  {
    var converted: map<string, Value> := map k | k in dict :: Str(dict[k]);
    var todo := dict.Keys;
    while todo != {}
      invariant todo <= dict.Keys
      invariant converted.Keys == dict.Keys
      invariant forall k :: k in dict && k !in todo ==> Classify(dict[k], toFloat) == Ok(converted[k])
      decreases todo
    {
      var key :| key in todo;
      var value := dict[key];
      if value == [] {
        return Err(EmptyValue);
      }
      if IsDigit(value[0]) {
        var x := toFloat(value);
        if x.None? {
          return Err(NotANumber(value));
        }
        converted := converted[key := Num(x.value)];
      } else if value == "off" {
        converted := converted[key := Bool(false)];
      } else if value == "on" {
        converted := converted[key := Bool(true)];
      } else {
        converted := converted[key := Str(value)];
      }
      todo := todo - {key};
    }
    return Ok(converted);
  }

  /** `preferences(option)` on the loaded preferences file. */
  method Preferences(data: PreferencesFile, option: string, toFloat: string -> Option<real>) returns (r: Result<Preference>)
    ensures r.Ok? <==> PreferencesOf(data, option, toFloat).Some?
    ensures r.Ok? ==> r.value == PreferencesOf(data, option, toFloat).value
    ensures r.Err? ==> PreferencesError(data, option, toFloat, r.error)
  {
    if option == "activation" || option == "deactivation" {
      if option !in data.sections {
        return Err(MissingKey(option));
      }
      var dict := CollectEntries(data.sections[option]);
      var converted := ConvertValues(dict, toFloat);
      if converted.Err? {
        return Err(converted.error);
      }
      return Ok(Settings(converted.value));
    }
    if data.rememberSettings.None? {
      return Err(MissingKey(RememberKey));
    }
    r := Ok(Remember(data.rememberSettings.value));
  }

  /** Read through `preferences`, the keys of a settings dictionary are exactly the
      options of its list, each with the converted `enable` of its last entry. */
  lemma PreferencesKeys(data: PreferencesFile, option: string, toFloat: string -> Option<real>, k: string)
    requires IsListed(option) && option in data.sections
    requires PreferencesOf(data, option, toFloat).Some?
    ensures var entries := data.sections[option];
            var m := PreferencesOf(data, option, toFloat).value.settings;
      && (k in m <==> exists i :: 0 <= i < |entries| && entries[i].option == k)
      && (k in m ==> exists i :: 0 <= i < |entries| && entries[i].option == k &&
                                Classify(entries[i].enable, toFloat) == Ok(m[k]) &&
                                forall j :: i < j < |entries| ==> entries[j].option != k)
  {
    CollectLastWins(data.sections[option], k);
  }

  /** An entry whose `enable` is '' and is not overridden by a later entry makes
      `preferences` raise. */
  lemma EmptyValueRaises(data: PreferencesFile, option: string, toFloat: string -> Option<real>, i: int)
    requires IsListed(option) && option in data.sections
    requires 0 <= i < |data.sections[option]| && data.sections[option][i].enable == ""
    requires forall j :: i < j < |data.sections[option]| ==> data.sections[option][j].option != data.sections[option][i].option
    ensures PreferencesOf(data, option, toFloat).None?
  {
    var entries := data.sections[option];
    var k := entries[i].option;
    CollectLastWins(entries, k);
    var i' :| 0 <= i' < |entries| && entries[i'].option == k && Collect(entries)[k] == entries[i'].enable &&
              forall j :: i' < j < |entries| ==> entries[j].option != k;
    assert i' == i;
    assert Classify(Collect(entries)[k], toFloat).Err?;
  }

  // ---------------------------------------------------------------------------
  // results and run

  /** What the launcher shows before running: a title and the argument for `run`. */
  datatype Preview = Preview(title: string, runArgs: seq<bool>)

  /** `results`: switch off when the snapshot is listed by exact name, on otherwise. */
  function Results(listing: seq<string>): (p: Preview)
    ensures |p.runArgs| == 1
  {
    if InfoFile in listing then Preview("Turn battery saver off", [false])
    else Preview("Turn battery saver on", [true])
  }

  /** The preview agrees with the saving mode: it offers to switch on exactly when no
      snapshot file exists, with the matching title. */
  lemma ResultsTracksSavingMode(e: Env)
    requires EnvValid(e)
    ensures Results(e.listing).runArgs[0] <==> InfoFile !in e.files
    ensures Results(e.listing).title ==
      if InfoFile in e.files then "Turn battery saver off" else "Turn battery saver on"
  {
  }

  /** When the preview offers to switch off, `turn_off`'s substring gate lets it through. */
  lemma ResultsOffOpensGate(listing: seq<string>)
    requires !Results(listing).runArgs[0]
    ensures Contains(Concat(listing), InfoFile)
  {
    MemberIsContained(listing, InfoFile);
  }

  /** The converse fails: names that only spell the snapshot's name when glued together
      pass `turn_off`'s gate although the preview offers to switch on, and `turn_off`
      then raises when it opens the missing file. */
  lemma GateWiderThanResults(settings: map<string, Value>, readFromFile: bool)
    ensures
      var e := Env([], map["BatterySaver" := OtherFile, "Info.json" := OtherFile], ["BatterySaver", "Info.json"]);
      && EnvValid(e)
      && Results(e.listing).runArgs == [true]
      && Contains(Concat(e.listing), InfoFile)
      && TurnOffStep(e, InfoFile, settings, readFromFile) == Step(e, Fail(FileNotFound(InfoFile)))
  {
    var listing := ["BatterySaver", "Info.json"];
    assert Concat(listing) == InfoFile;
    assert InfoFile <= Concat(listing);
  }

  /** Which `BatterySaver` call `run` makes, and with what. */
  datatype Call = TurnOnCall(settings: map<string, Value>) | TurnOffCall(settings: map<string, Value>, readFromFile: bool)

  /** `run(turn_on)`: switching on uses the activation preferences; switching off uses
      the deactivation preferences and `remember_settings` as `read_from_file`.
      `None` when reading a preference raises. */
  function Plan(turnOn: bool, data: PreferencesFile, toFloat: string -> Option<real>): (c: Option<Call>)
    ensures c.Some? ==> (c.value.TurnOnCall? <==> turnOn)
    ensures c.Some? && turnOn ==> PreferencesOf(data, "activation", toFloat) == Some(Settings(c.value.settings))
    ensures c.Some? && !turnOn ==>
      && PreferencesOf(data, "deactivation", toFloat) == Some(Settings(c.value.settings))
      && data.rememberSettings.Some?
      && PreferencesOf(data, "remember", toFloat) == Some(Remember(data.rememberSettings.value))
      && c.value.readFromFile == Truthy(data.rememberSettings.value)
    ensures c.None? <==>
      if turnOn then PreferencesOf(data, "activation", toFloat).None?
      else PreferencesOf(data, "deactivation", toFloat).None? || data.rememberSettings.None?
  {
    if turnOn then
      match PreferencesOf(data, "activation", toFloat)
      case None => None
      case Some(p) => Some(TurnOnCall(p.settings))
    else
      match PreferencesOf(data, "deactivation", toFloat)
      case None => None
      case Some(p) =>
        match PreferencesOf(data, "remember", toFloat)
        case None => None
        case Some(remember) => Some(TurnOffCall(p.settings, Truthy(remember.value)))
  }

  /** The effect of making a call: `turn_off` uses its default file name. */
  function Perform(e: Env, c: Call, wifiUp: bool, probeOutput: string): Step
  {
    match c
    case TurnOnCall(settings) => TurnOnStep(e, settings, wifiUp, probeOutput)
    case TurnOffCall(settings, readFromFile) => TurnOffStep(e, InfoFile, settings, readFromFile)
  }

  /** `run(turn_on)` against the battery saver's world. */
  method Run(saver: BatterySaver, turnOn: bool, data: PreferencesFile, toFloat: string -> Option<real>,
             wifiUp: bool, probeOutput: string) returns (r: Outcome)
    requires saver.Valid()
    modifies saver
    ensures saver.Valid()
    ensures Plan(turnOn, data, toFloat).None? ==> r.Fail? && saver.State() == old(saver.State())
    ensures Plan(turnOn, data, toFloat).Some? ==>
      Step(saver.State(), r) == Perform(old(saver.State()), Plan(turnOn, data, toFloat).value, wifiUp, probeOutput)
  {
    if turnOn {
      var activation := Preferences(data, "activation", toFloat);
      if activation.Err? {
        return Fail(activation.error);
      }
      r := saver.TurnOn(activation.value.settings, wifiUp, probeOutput);
    } else {
      var deactivation := Preferences(data, "deactivation", toFloat);
      if deactivation.Err? {
        return Fail(deactivation.error);
      }
      var remember := Preferences(data, "remember", toFloat);
      if remember.Err? {
        return Fail(remember.error);
      }
      r := saver.TurnOff(InfoFile, deactivation.value.settings, Truthy(remember.value.value));
    }
  }

  /** One press of the launcher item when saving mode is off: the preview offers to
      switch on, and a successful run leaves the preview offering to switch off. */
  lemma ToggleOn(e: Env, data: PreferencesFile, toFloat: string -> Option<real>, wifiUp: bool, probeOutput: string)
    requires EnvValid(e) && InfoFile !in e.files
    requires Plan(true, data, toFloat).Some?
    requires ParseBluetoothState(probeOutput).Ok?
    ensures Results(e.listing).runArgs == [true]
    ensures Results(Perform(e, Plan(true, data, toFloat).value, wifiUp, probeOutput).env.listing).runArgs == [false]
  {
    TurnOnWritesFirst(e, Plan(true, data, toFloat).value.settings, wifiUp, probeOutput);
  }

  /** One press when saving mode is on and the snapshot is readable: the preview offers
      to switch off, and a run whose settings have every key it needs removes the
      snapshot, leaving the preview offering to switch on. */
  lemma ToggleOff(e: Env, data: PreferencesFile, toFloat: string -> Option<real>, wifiUp: bool, probeOutput: string)
    requires EnvValid(e) && InfoFile in e.files && e.files[InfoFile].SnapshotFile?
    requires Plan(false, data, toFloat).Some?
    requires var c := Plan(false, data, toFloat).value;
             HasKeys(c.settings, if c.readFromFile then RestoreOrder else TurnOffOrder)
    ensures Results(e.listing).runArgs == [false]
    ensures var s := Perform(e, Plan(false, data, toFloat).value, wifiUp, probeOutput);
            s.outcome == Pass && Results(s.env.listing).runArgs == [true]
  {
    var c := Plan(false, data, toFloat).value;
    MemberIsContained(e.listing, InfoFile);
    ApplyOutcome(c.settings, RestoreOrder);
    ApplyOutcome(c.settings, TurnOffOrder);
    var issued := if c.readFromFile then Restore(e.files[InfoFile].snap, c.settings)
                  else Apply(c.settings, TurnOffOrder);
    DeleteKeepsValid(e.(log := e.log + issued.events), InfoFile);
  }
}
