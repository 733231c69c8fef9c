# Battery saver toggle, modelled in Dafny

The repository is a launcher plugin for macOS that switches a "battery saving" mode
on and off. Switching on probes whether Wi-Fi and Bluetooth are up, writes those
values to `BatterySaverInfo.json`, then dims the screen, switches the radios off and
presses the keyboard-backlight key down 16 times. Switching off goes ahead only when
that file's name is a substring of the directory's file names joined into one string.
It then sets the radios from the file or from the settings, sets the backlight and
brightness, and deletes the file.
The file's presence is the only record of the mode. The plugin side reads the user's
preferences, previews which way the toggle will go, and dispatches.

The model has five modules:

- `Values`: JSON-like values, Python truthiness, the exceptions that can escape
  (`Error`), and `Result`/`Outcome`.
- `Text`: what the code uses of Python strings. This covers `str.split()`, Python 2
  `int()` on a word, `''.join`, and the substring test `x in s`.
- `Saver`: the class `BatterySaver` and the specification functions it is proved
  against. The outside world is an `Env` with three parts: a trace of events
  (commands run, snapshot written, file removed), a map of files, and the directory
  listing. Every method of the class ends with its new state equal to a
  specification function of the old one. Examples are `BacklightEvents`, `Apply`,
  `SaveInfoStep`, `TurnOnStep` and `TurnOffStep`.
- `SavingMode`: lemmas about the two-state mode built from `turn_on` and `turn_off`.
  They cover ordering, the defaults, the round trip from entering to leaving the mode,
  and overwriting the snapshot.
- `Plugin`: `preferences`, `results` and `run`.

Some inputs are parameters. `is_wifi_on` is the boolean `wifiUp`. The output of
`blueutil` is the string `probeOutput`. Python's `float()` is the function
`toFloat: string -> Option<real>`, where `None` stands for ValueError. `str(level)`
stays opaque as the argument `Shown(level)`.

The backlight's doc comment (BatterySaver.py:55-57) and its special case for level
16 describe level `n` as `n` presses up from fully off. The loop `xrange(1, level)`
gives `n - 1`. The model follows the code and records the difference under Findings.

## Model

| member | source | states |
|---|---|---|
| Text.Split | BatterySaver.py:51 | `str.split()` yields only non-empty, whitespace-free words |
| Text.SplitWord | BatterySaver.py:51 | a whitespace-free word followed by whitespace or by nothing is split off as exactly one word, ahead of the split of the rest |
| Text.SplitLeadingSpace | BatterySaver.py:51 | whitespace in front of the text does not change the split; with SplitWord this fixes every word boundary |
| Text.SplitKeepsText | BatterySaver.py:51 | the split words, joined, are exactly the non-whitespace characters of the output: splitting drops whitespace and nothing else |
| Text.ParseInt | BatterySaver.py:51 | Python 2 `int(word)` succeeds exactly on a non-empty digit string, or a sign followed by a non-empty digit string, and gives the number those digits denote, negated after '-' |
| Text.ParseDecimal | BatterySaver.py:51 | every integer printed in decimal parses back to itself, and its text is one whitespace-free word |
| Text.ContainsAt | BatterySaver.py:110 | the substring test holds exactly when the needle occurs at some index of the haystack |
| Text.MemberIsContained | BatterySaver.py:110 | a name that is an element of the listing is a substring of the joined listing |
| Saver.WifiCommand | BatterySaver.py:81-87 | the `networksetup` command has four arguments, and its last argument is 'on' exactly when switching on and 'off' exactly when switching off |
| Saver.BluetoothCommand | BatterySaver.py:74-79 | the `blueutil` command has two arguments, and its last argument is 'on' exactly when switching on and 'off' exactly when switching off |
| Saver.Without | BatterySaver.py:127 | removing a name from the listing keeps exactly the other names and keeps the listing free of duplicates |
| Saver.StoreKeepsValid | BatterySaver.py:141-143 | writing the snapshot keeps the listing in step with the files, with no duplicates, and the name is listed afterwards |
| Saver.DeleteKeepsValid | BatterySaver.py:127 | `os.remove` keeps the listing in step with the files, and the name is neither stored nor listed afterwards |
| Saver.BacklightShape | BatterySaver.py:53-72 | every backlight request sends all of its down presses first, then all of its up presses, and nothing else |
| Saver.BacklightCounts | BatterySaver.py:53-72 | off sends 16 downs; on without an integer level sends 16 ups; on with level n sends 16 downs, then 16 ups for n = 16, none for n = 0, and max(0, n-1) otherwise |
| Saver.LevelOffByOne | BatterySaver.py:62-66 | as written, level 1 sends the same as level 0, and level 15 sends two up presses fewer than level 16 |
| Saver.IntendedLevelReached | BatterySaver.py:53-58 | for every level n from 0 to 16 the corrected backlight sends exactly 16 downs followed by n ups, in that order and nothing else |
| Saver.IntendedAgreesWithoutLevel | BatterySaver.py:103 | without an integer level, which is how `turn_on` and `turn_off` call it, the corrected and the written backlight send the same events |
| Saver.ApplyOutcome | BatterySaver.py:100-103 | a run of setters completes exactly when every key it looks up is present; otherwise it raises KeyError naming a missing key. Setters only send commands |
| Saver.ParseBluetoothState | BatterySaver.py:48-51 | fewer than two words raise IndexError; with two or more words the call succeeds exactly when the second word parses as an integer, returns that integer, and otherwise raises ValueError on that word |
| Saver.ParseBluetoothStateOf | BatterySaver.py:48-51 | on output shaped like blueutil's (a label, a space, a decimal flag), the flag is read back exactly |
| Saver.BatterySaver.RunCommand | BatterySaver.py:30-38 | running a command appends it to the trace and changes nothing else |
| Saver.BatterySaver.IsBluetoothOn | BatterySaver.py:48-51 | runs blueutil once and returns the parse of its output, including the parse's error |
| Saver.BatterySaver.Backlight | BatterySaver.py:53-72 | the presses it sends, through its recursion and loops, are exactly `BacklightEvents`; files and listing are unchanged |
| Saver.BatterySaver.Bluetooth | BatterySaver.py:74-79 | appends exactly one `blueutil on/off` command and changes nothing else |
| Saver.BatterySaver.Wifi | BatterySaver.py:81-87 | appends exactly one `networksetup ... on/off` command and changes nothing else |
| Saver.BatterySaver.Brightness | BatterySaver.py:89-94 | appends exactly one `[BRIGHTNESS, str(level)]` command and changes nothing else |
| Saver.BatterySaver.WriteSnapshot | BatterySaver.py:141-143 | creates or overwrites the file with the record, and lists it if it was not listed |
| Saver.BatterySaver.RemoveFile | BatterySaver.py:127 | the file is no longer stored or listed |
| Saver.BatterySaver.SaveInfo | BatterySaver.py:129-143 | probes Bluetooth, then writes the probed radios with the constants '.65' and 1; a failed probe writes nothing |
| Saver.BatterySaver.SetKnob | BatterySaver.py:100-103 | `settings[key]` raises KeyError when the key is missing; otherwise the matching setter runs on the value |
| Saver.BatterySaver.SetForTurnOn | BatterySaver.py:100-103 | the setters run in the order brightness, Wi-Fi, Bluetooth, backlight, stopping at the first missing key |
| Saver.BatterySaver.SetForTurnOff | BatterySaver.py:121-125 | the setters run in the order Wi-Fi, Bluetooth, backlight, brightness, stopping at the first missing key |
| Saver.BatterySaver.SetRestored | BatterySaver.py:115-119 | Wi-Fi and Bluetooth are set from the snapshot, then backlight and brightness from the settings |
| Saver.BatterySaver.TurnOn | BatterySaver.py:96-103 | the new world and the outcome are exactly `TurnOnStep` of the old one, and the listing stays in step with the files |
| Saver.BatterySaver.TurnOff | BatterySaver.py:105-127 | the new world and the outcome are exactly `TurnOffStep` of the old one; when the name is not a substring of the joined listing, nothing changes |
| SavingMode.TurnOnSetters | BatterySaver.py:100-103 | with every key present, `turn_on` sends brightness, Wi-Fi, Bluetooth and then 16 backlight presses: 19 commands in all |
| SavingMode.TurnOnDefaults | BatterySaver.py:96-97 | the defaults send brightness .3, Wi-Fi off, Bluetooth off and 16 presses down |
| SavingMode.TurnOffDefaults | BatterySaver.py:105-107 | without `read_from_file`, the defaults send Wi-Fi off, Bluetooth on, 16 presses up and brightness 1.0 |
| SavingMode.TurnOffSetters | BatterySaver.py:121-125 | without `read_from_file`, all four values come from the settings, in the order Wi-Fi, Bluetooth, backlight, brightness |
| SavingMode.RestoreSetters | BatterySaver.py:115-119 | with `read_from_file`, Wi-Fi and Bluetooth come from the snapshot, and backlight and brightness from the settings |
| SavingMode.TurnOnWritesFirst | BatterySaver.py:96-103 | `turn_on` probes, then writes the snapshot (overwriting any old one), and only then sends setter commands; it succeeds exactly when every key is present; a failed probe sends nothing more and writes nothing |
| SavingMode.ApplyNeverProbes | BatterySaver.py:100-103 | no setter sends the Bluetooth status query |
| SavingMode.TurnOffWithSnapshot | BatterySaver.py:110-127 | when the snapshot is listed and every setting is present, the setters run and then the file is removed |
| SavingMode.EnteredHoldsSnapshot | BatterySaver.py:96-103 | a successful entry passes, keeps the listing in step with the files, and leaves the probed snapshot stored and listed |
| SavingMode.EnterThenExitRestores | BatterySaver.py:96-127 | entering and then leaving with `read_from_file` sets the radios back to what was probed on entry, applies the backlight and brightness settings, and removes the snapshot |
| SavingMode.DoubleEntryLosesSnapshot | BatterySaver.py:96-100 | entering twice keeps only the second entry's probes in the snapshot, whether or not the first entry's probe or setters failed |
| SavingMode.TurnOffRemovesSnapshot | BatterySaver.py:110-127 | leaving removes the snapshot exactly when every needed key is present; a KeyError leaves the files as they were, so the mode stays on |
| Plugin.CollectLastWins | plugin.py:19 | the keys of the dictionary are exactly the listed options, and each maps to the `enable` of the last entry naming it |
| Plugin.Classify | plugin.py:20-26 | a digit-led value becomes exactly the number `float` gives, or raises ValueError (`NotANumber`) when `float` does; 'off' becomes False and 'on' becomes True; any other value is unchanged; '' raises IndexError |
| Plugin.ClassifyAll | plugin.py:20-27 | the conversion succeeds exactly when every value converts; it then keeps the keys and converts each value |
| Plugin.PreferencesOf | plugin.py:15-29 | a listed option gives the converted dictionary of its entries, and raises exactly when its list is missing or some value fails to convert; any other option gives `remember_settings`, and raises exactly when that key is missing |
| Plugin.CollectEntries | plugin.py:19 | the comprehension loop builds exactly `Collect` of the entries |
| Plugin.ConvertValues | plugin.py:20-26 | the in-place conversion loop, in any key order, returns exactly the converted dictionary; or it raises the error of some value that fails to convert |
| Plugin.Preferences | plugin.py:15-29 | returns exactly `PreferencesOf`; when it raises, the error is a missing list, a missing `remember_settings`, or some value's conversion error |
| Plugin.PreferencesKeys | plugin.py:18-27 | the settings' keys are exactly the listed options, each with the converted value of its last entry |
| Plugin.EmptyValueRaises | plugin.py:21 | an empty value that no later entry overrides makes `preferences` raise |
| Plugin.Results | plugin.py:31-47 | the preview carries exactly one run argument |
| Plugin.ResultsTracksSavingMode | plugin.py:33-47 | the preview offers to switch on exactly when no snapshot file exists, with the matching title |
| Plugin.ResultsOffOpensGate | plugin.py:37 | when the preview offers to switch off, `turn_off`'s substring gate lets the call through |
| Plugin.GateWiderThanResults | plugin.py:37 | the files 'BatterySaver' and 'Info.json' make the preview offer to switch on while `turn_off`'s gate passes, and `turn_off` then raises on the missing file |
| Plugin.Plan | plugin.py:49-56 | switching on uses the activation preferences only; switching off uses the deactivation preferences with the truthiness of `remember_settings` as `read_from_file`; there is no call exactly when a needed preference raises |
| Plugin.Run | plugin.py:49-56 | when a preference raises, nothing changes; otherwise the world changes exactly as the planned `turn_on` or `turn_off` call prescribes |
| Plugin.ToggleOn | plugin.py:49-53 | from the off state, the preview offers to switch on, and after a successful probe it offers to switch off |
| Plugin.ToggleOff | plugin.py:54-56 | from the on state, with every needed key present, the preview offers to switch off, and the run passes and leaves the preview offering to switch on |

## Left out

- Process execution (`Popen`, `communicate`, `wait`): `run_command` records the command. Its output is supplied by the caller only where it is read (`probeOutput`).
- `is_wifi_on` is an HTTP request with a timeout. Its 0/1 answer is the input `wifiUp`.
- JSON encoding and decoding, and `open`, `os.listdir` and `os.remove`: files are values in a map, and the directory listing is a given sequence of names. The listing's order is taken as given. A new file is appended at its end.
- Saver.TurnOffStep: the model simplifies what a file other than a snapshot does. Such a file (`OtherFile`) makes `turn_off` raise before it sends any command. In the source only a file that is not valid JSON raises there (BatterySaver.py:113). Two cases differ:
  - Without `read_from_file`, `info` is never read. Any valid JSON file, such as `{}`, lets the four setters run, and the file is then removed (BatterySaver.py:121-127).
  - With `read_from_file`, a record with only some keys, such as `{"wifi": 1}`, sends the commands for the keys present before the KeyError (BatterySaver.py:116-117).
- Plugin.Collect: an entry of a preferences list that has no `option` or no `enable` raises KeyError at plugin.py:19. The model's entries always carry both fields.
- `float()` and `str(level)`: `float` is the oracle `toFloat`, and brightness values stay opaque. Floats are modelled as reals, so rounding is not modelled.
- Plugin.ConvertValues: which conversion error is raised depends on the dictionary's iteration order. The model promises only the error of some value that fails to convert.
- Plugin.Entry: `enable` is always a string. Non-string JSON values (numbers, lists, objects) in a preferences entry are not modelled.
- Text.IsSpace: only the ASCII whitespace of Python 2 byte strings counts. Unicode whitespace is not modelled.
- Saver.BatterySaver.constructor: `BatterySaver()` has no state of its own. The constructor only binds the world that the methods act on.
- `function_demo`, `demo` and the `__main__` block: console interaction only.
- Concurrency between plugin invocations: the code has none, and neither does the model.

## Findings

| source | as written | input that shows it | evidently intended | confidence | as-written member | corrected member |
|---|---|---|---|---|---|---|
| BatterySaver.py:65 | `for x in xrange(1, level)` presses up `level - 1` times after switching fully off | `backlight(True, 1)` sends 16 downs and no ups, the same as level 0; `backlight(True, 15)` sends 14 ups, while 16 sends 16 | level `n` presses up `n` times, as the doc comment and the special case for 16 describe | not executed | Saver.LevelOffByOne | Saver.IntendedLevelReached |

The corrected behaviour is `Saver.IntendedBacklightEvents`. `Saver.IntendedAgreesWithoutLevel`
shows that it sends the same events as the written version on every call `turn_on` and
`turn_off` make, because neither passes a level. The rest of the model therefore does not
depend on the choice.
