# Dead man's switch — a Dafny model

This project models the core of the Seq app "Dead Mans Switch". The app watches a stream of
log events and writes an event back when an expected event stops recurring. Each distinct
rendered message (the *signature*) gets its own *switch*. An event **arms** the switch and
moves its deadline to `Timeout` seconds from now. A timer fires once a second and **blows**
every armed switch whose deadline has passed. With `Repeat` set, a blown switch gets a fresh
deadline and keeps blowing. Without it, the switch is disarmed until the next event.

The model is functional:

- The dictionary of switches is an immutable `map<string, Switch>`.
- The two handlers are pure transitions. `Registry.Observe` is the event handler `On`.
  `Registry.Scan` is the timer callback `TimerOnElapsed`.
- The clock is an explicit `now` parameter, counted in .NET `DateTime` ticks (10 000 000 per second).
- Each `Log.*` call becomes a returned `Notification` value: a severity plus the message.

Modules:

- `Wrappers`: `Option`.
- `Text`: `Char.IsWhiteSpace`, `string.Trim` and `string.ToLowerInvariant`.
- `Levels`: the six severities and the first-character rule of `LogMessage`.
- `Configuration`: the settings and the defaulting and normalising done in `OnAttached`.
- `Registry`: switches, `Observe`, `Scan`, and `ScanLoop`. `ScanLoop` is the `foreach` loop over
  the dictionary, visiting keys in an arbitrary order.
- `SwitchProperties`: how the transitions behave in sequence.
- `Trace`: replaying a sequence of events and ticks, and what stays true along every run.

The model follows the code as written, including where a safer design would differ:

- The code mutates an unsynchronised dictionary from two threads. Here the two transitions are
  atomic, and concurrency is not modelled.
- Nothing validates `Timeout`: any `int` is accepted, zero and negative values included.
  `SwitchProperties.NegativeTimeoutBlowsEveryScan` shows the consequence.
- The dictionary gives no order over the expired switches, so `Scan` returns a set of
  notifications. `ScanLoop` proves that every visiting order yields that set.
- A level whose first character names no severity makes the program log nothing. The switch
  still changes state.

## Model

| member | source | states |
|---|---|---|
| Text.TrimStart | Seq.App.DeadMansSwitch/DeadMansSwitchReactor.cs:49 | Removing the leading white space leaves a suffix of the input. Everything removed is white space, and what is left is empty or starts with a significant character. |
| Text.TrimEnd | Seq.App.DeadMansSwitch/DeadMansSwitchReactor.cs:49 | Removing the trailing white space leaves a prefix of the input. Everything removed is white space, and what is left is empty or ends with a significant character. |
| Text.IsWhiteSpace | Seq.App.DeadMansSwitch/DeadMansSwitchReactor.cs:45-54 | `Char.IsWhiteSpace`, the test that `string.IsNullOrWhiteSpace` and `Trim` apply: U+0009 to U+000D, U+0020, U+0085, U+00A0, U+1680, U+2000 to U+200A, U+2028, U+2029, U+202F, U+205F and U+3000. |
| Text.Trim | Seq.App.DeadMansSwitch/DeadMansSwitchReactor.cs:49 | `Trim` leaves no white space at either end. It is empty exactly for a blank string. It is the contiguous middle of the input: what it cuts off on the left is exactly the leading white space, and what it cuts off on the right is blank. |
| Text.TrimStartsAtFirstSignificant | Seq.App.DeadMansSwitch/DeadMansSwitchReactor.cs:49 | The trimmed level starts with the first non-white-space character of the setting. |
| Text.ToLowerInvariant | Seq.App.DeadMansSwitch/DeadMansSwitchReactor.cs:54 | The result has no upper-case letter. It equals the input up to case, and has white space exactly where the input has it. |
| Text.LowerProperties | Seq.App.DeadMansSwitch/DeadMansSwitchReactor.cs:54 | `ToLowerInvariant` leaves no upper-case letter. It keeps a trimmed string trimmed, and it is the identity on a lower-case string. |
| Levels.SeverityOf | Seq.App.DeadMansSwitch/DeadMansSwitchReactor.cs:98-119 | A level selects severity `sev` exactly when its first character is `sev`'s lower-cased initial. It selects nothing exactly when that character is not one of v, d, i, w, e, f. |
| Levels.LogMessage | Seq.App.DeadMansSwitch/DeadMansSwitchReactor.cs:96-120 | The message is passed verbatim to `Log.*` at the severity the level's first character names. Nothing is logged for any other first character. |
| Configuration.IsNullOrWhiteSpace | Seq.App.DeadMansSwitch/DeadMansSwitchReactor.cs:45-50 | A setting is null or white space when it is absent, empty, or made only of `Char.IsWhiteSpace` characters. |
| Configuration.NormalizeLevel | Seq.App.DeadMansSwitch/DeadMansSwitchReactor.cs:45-54 | A normalised level is non-empty, trimmed and lower-case. It equals, ignoring case, the trimmed default when the setting is null or blank, and the trimmed setting otherwise. |
| Configuration.DefaultsAreTrimmed | Seq.App.DeadMansSwitch/DeadMansSwitchReactor.cs:45-54 | The defaults "Error" and "Information" need no trimming. They lower-case to "error" and "information", which select Error and Information. |
| Configuration.DefaultApplies | Seq.App.DeadMansSwitch/DeadMansSwitchReactor.cs:45-54 | A null or blank level is replaced by the default, which normalises to its lower-cased form. |
| Configuration.Attach | Seq.App.DeadMansSwitch/DeadMansSwitchReactor.cs:39-54 | After attaching, both levels can be indexed and are normalised. A blank blown level becomes "error" (severity Error) and a blank armed level "information" (severity Information). A level that is set and not blank is kept, trimmed, and equal to the setting up to case. The other settings pass through unchanged. |
| Configuration.NormalizeIdempotent | Seq.App.DeadMansSwitch/DeadMansSwitchReactor.cs:45-54 | Normalising an already normalised level returns it unchanged. |
| Configuration.SelectedByFirstSignificantChar | Seq.App.DeadMansSwitch/DeadMansSwitchReactor.cs:49-119 | The severity a level setting selects is the one that its first non-white-space character, lower-cased, selects on its own. Case and surrounding white space make no difference. |
| Configuration.HelpTextNamesSelectTheirSeverity | Seq.App.DeadMansSwitch/DeadMansSwitchReactor.cs:18-26 | Each of the six names in the settings' help text, preceded and followed by any white space (independently), selects the severity it names. |
| Registry.FreshSwitch | Seq.App.DeadMansSwitch/DeadMansSwitchReactor.cs:79 | A switch created for a new signature starts disarmed, so no scan blows it before an event arms it. |
| Registry.Deadline | Seq.App.DeadMansSwitch/DeadMansSwitchReactor.cs:65-93 | `now.AddSeconds(Timeout)` in ticks: the deadline lies after `now` exactly when the timeout is positive, and equals `now` exactly when it is zero. |
| Registry.Expired | Seq.App.DeadMansSwitch/DeadMansSwitchReactor.cs:59 | A switch is expired at `now` when it is armed and its deadline is strictly before `now`. |
| Registry.ArmedMessage | Seq.App.DeadMansSwitch/DeadMansSwitchReactor.cs:88 | The arming message is "New switch armed: <sig>." for a new switch and "Switch armed: <sig>." otherwise. |
| Registry.BlownMessage | Seq.App.DeadMansSwitch/DeadMansSwitchReactor.cs:62 | The blown message is "Switch blown: '<sig>'". |
| Registry.BlownMessageInjective | Seq.App.DeadMansSwitch/DeadMansSwitchReactor.cs:62 | Two different signatures never share a blown message. |
| Registry.ArmedIsNotBlown | Seq.App.DeadMansSwitch/DeadMansSwitchReactor.cs:62-88 | No arming message, new or re-arm, equals any blown message. |
| Registry.Observe | Seq.App.DeadMansSwitch/DeadMansSwitchReactor.cs:74-94 | The observed key is added if absent; no key is removed. That switch ends armed with deadline `now + Timeout`, and every other switch is untouched. A notification is produced iff the switch was new or disarmed, arming logging is on, and the armed level is recognised. Its wording is "New switch armed: <sig>." for a new key and "Switch armed: <sig>." otherwise, at the armed level's severity. |
| Registry.Scan | Seq.App.DeadMansSwitch/DeadMansSwitchReactor.cs:57-72 | The key set is kept. A switch that is not armed, or whose deadline is not strictly before `now`, is unchanged. An expired switch gets deadline `now + Timeout` and stays armed (Repeat) or is disarmed (no Repeat). `Switch blown: '<sig>'` is reported at the blown severity iff the switch expired. Nothing is reported for an unrecognised level. With a recognised level there is exactly one report per expired switch. |
| Registry.Blow | Seq.App.DeadMansSwitch/DeadMansSwitchReactor.cs:63-70 | One pass of the timer loop leaves a switch that is not expired alone. Without Repeat, a blown switch is never expired again at any time. With Repeat, it is expired again exactly at the instants after `now + Timeout`. |
| Registry.ReportsCount | Seq.App.DeadMansSwitch/DeadMansSwitchReactor.cs:59-62 | With a recognised level, the blown reports for a set of keys number exactly the expired keys among them. |
| Registry.ScanLoop | Seq.App.DeadMansSwitch/DeadMansSwitchReactor.cs:59-71 | Visiting the switches one by one, in any order the dictionary yields them, gives the same switches and reports as `Scan`. |
| SwitchProperties.ObserveAgainIsSilent | Seq.App.DeadMansSwitch/DeadMansSwitchReactor.cs:82-93 | A second event for an armed switch logs nothing. It leaves the switches as if only that later event had arrived. |
| SwitchProperties.BlowsOnlyAfterFullTimeout | Seq.App.DeadMansSwitch/DeadMansSwitchReactor.cs:59-93 | A switch armed at `t` is expired at `now` iff `now > t + Timeout`. At exactly the deadline it does not blow. |
| SwitchProperties.OnceThenSilent | Seq.App.DeadMansSwitch/DeadMansSwitchReactor.cs:63-70 | Without Repeat, a blown switch is neither expired nor reported by any later scan, at any time, until an event re-arms it. |
| SwitchProperties.RepeatBlowsAgain | Seq.App.DeadMansSwitch/DeadMansSwitchReactor.cs:63-66 | With Repeat, a blown switch is expired again exactly at the scans strictly after `now + Timeout`. |
| SwitchProperties.ScanSettles | Seq.App.DeadMansSwitch/DeadMansSwitchReactor.cs:59-70 | Unless repeating with a negative timeout, a second scan at the same instant changes nothing and reports nothing. |
| SwitchProperties.NegativeTimeoutBlowsEveryScan | Seq.App.DeadMansSwitch/DeadMansSwitchReactor.cs:59-66 | With Repeat and a negative timeout, the expired switches are still expired after the scan, at the same instant and at any later one, so they blow again on every scan. |
| SwitchProperties.RearmAfterBlowSaysSwitchArmed | Seq.App.DeadMansSwitch/DeadMansSwitchReactor.cs:76-89 | Without Repeat, a switch that was armed, blew, and is seen again is logged as "Switch armed: <sig>.", never "New switch armed". |
| SwitchProperties.ScanIsolatesSwitches | Seq.App.DeadMansSwitch/DeadMansSwitchReactor.cs:59-71 | What a scan does to one switch, and whether it reports it, depends on that switch alone. |
| Trace.SwitchesAreNeverRemoved | Seq.App.DeadMansSwitch/DeadMansSwitchReactor.cs:77-81 | After any run, the signatures with a switch are exactly those present at the start plus those of the run's events. |
| Trace.StepLogsBlownOnlyWhenExpired | Seq.App.DeadMansSwitch/DeadMansSwitchReactor.cs:59-89 | An event never logs a blown message. A tick logs a signature's blown message only if that switch was expired. |
| Trace.BlownAtMostOncePerObservation | Seq.App.DeadMansSwitch/DeadMansSwitchReactor.cs:57-94 | Without Repeat, over any run, a signature's blown reports plus its final armed flag never exceed its events plus its initial armed flag. |
| Trace.FromFreshStartBlownAtMostObserved | Seq.App.DeadMansSwitch/DeadMansSwitchReactor.cs:38-94 | Without Repeat and from an empty dictionary, a signature is reported blown at most as often as it was observed. |

## Left out

- Host wiring is left out because it has no behaviour to state beyond "calls `Scan` every second". This covers the `Reactor`/`ISubscribeTo` base classes, the `[SeqApp]` and `[SeqAppSetting]` attributes, and creating and starting the `System.Timers.Timer` (lines 39-44).
- Concurrency is left out. The dictionary is mutated without synchronisation from the timer thread and the event thread. Here `Observe` and `Scan` are atomic, sequential transitions.
- The wall clock is left out. `DateTime.Now` becomes the `now` parameter. The code reads the clock separately for the filter on each element (line 59) and for the new deadline (line 65). The model uses one reading per scan.
- Date range overflow is left out. `DateTime.AddSeconds` throws when the deadline leaves `DateTime`'s range; time here is an unbounded integer.
- The logging sink is left out. `Log.*` calls become returned `Notification` values. The sink reads its argument as a message template (so `{{` shows as `{`), and that rendering is not modelled.
- Text.ToLowerInvariant: only the ASCII letters A-Z are lower-cased. The invariant culture's mapping of other letters is not modelled, because the first-character rule only recognises ASCII letters. A non-ASCII letter whose lower case is one of them is not covered.
- `LogMessage` on an empty level string would throw `IndexOutOfRangeException`. This is excluded by `Config.Ready()`, which `Configuration.Attach` establishes for every setting.
- A null rendered message is left out, because a `string` here cannot be null. In the code, `Switches.ContainsKey` would throw for it at line 77.
- Strings here are sequences of Unicode scalar values. A rendered message holding a lone UTF-16 surrogate has no counterpart, so such signatures are outside the model. Behaviour on every string the model can represent is unchanged.
- Timeout validation is left out because the code has none. A zero or negative timeout is kept as written.
