# Data-usage counter of connui-cellular, modelled in Dafny

`lib/datacounter.c` keeps one process-wide record of cellular data usage.
It has two states, Uninitialized and Active, and tracks one of two profiles
(home or roaming). For that profile it holds the RX and TX byte counters, the
reset time, the warning limit and the notification flag, and it mirrors them
from the GConf settings store. Subscribers register a callback. Each snapshot
`(rx_bytes, tx_bytes, reset_time, notification_enabled, warning_limit)` goes
to all of them when they register and after every store change event.
`save` and `reset` write the active profile's keys back to the store.

The model is functional:

- `DataCounter.Counter` is the static record. `Settings.Store` is a
  `map<string, StoreValue>`, where a value is a string or a boolean.
- Each entry point is a pure function to a `Step`: the new record, the new
  store, and the notifications emitted. The entry points are `get`,
  `register`, `close`, `reset`, `save` and the change handler `gconf_changed`.
- A `Notification` records who received the snapshot: the notifier list at
  that moment.
- Whether `gconf_client_get_default()` returns a client is the input
  `clientAvailable`.
- The clock read by `reset` is the input `now`.

Modules:

- `Decimal`: the `"%llu"` rendering and `strtoull(s, NULL, 10)` as described
  in section 7.22.1.4 of ISO C11. The parse skips C-locale white space,
  takes an optional sign and then the longest digit run. No digits gives 0.
  A magnitude above `ULLONG_MAX` saturates, and a minus sign negates modulo
  2^64. On strings that start with a digit, the result is the value of the
  leading digit run.
- `Settings`: the GConf client calls the counter makes, plus
  `read_gconf_setting` and `write_gconf_setting`.
- `GprsKeys`: the `GPRS_HOME_*` and `GPRS_ROAM_*` key names. The header
  that defines them is not part of this model. The spellings here are
  placeholders under the GPRS directory. The proofs use only the fact that
  the keys are pairwise distinct (`GprsKeys.KeyInjective`).
- `Notifiers`: the notifier list (append and remove).
- `DataCounter`: the record and the transitions.
- `DataCounterProperties`: properties that span several calls.

The model follows the code as written, including two behaviours a reader might
not expect:

- In the roaming branch of the change handler, the TX-bytes test lacks the
  `!` used everywhere else (lib/datacounter.c:116). A roaming TX-bytes event
  therefore updates nothing. Every other key in the watched directory
  overwrites `tx_bytes` with its parsed value: the roaming reset-time,
  warning-limit and flag keys, and even the home profile's keys. See
  `DataCounterProperties.RoamingEventAsWritten` and `RoamingTxEventLost`.
- `reset` ends with `close(NULL)`, which removes no notifier. The counter is
  torn down only if nobody is subscribed. If subscribers remain, the record
  keeps its old in-memory counters until the store's change events arrive.

Other details of the code the model keeps:

- `get` on an active counter ignores the profile it is asked for, so the
  first initializer fixes the profile.
- `close`, `reset` and `save` call `get(TRUE)`. On an uninitialized counter
  they therefore load and write the home profile.
- A warning-limit change event stores `"%llu"` of the parsed value. An unset
  limit key therefore becomes `"0"`, not NULL, whereas `get` loads an unset
  limit as NULL.

## Model

| member | source | states |
|---|---|---|
| Decimal.Strtoull | lib/datacounter.c:63-66 | strtoull base 10: a string starting with a digit gives the value of its longest leading digit run, saturated at ULLONG_MAX; a string starting with anything but white space, a sign or a digit gives 0 |
| Decimal.LeadingDigits | lib/datacounter.c:64 | the digit run strtoull converts is the longest all-digit prefix of the string |
| Decimal.FormatDecimal | lib/datacounter.c:266 | "%llu" yields a canonical decimal string (digits only, no leading zero) that denotes the number |
| Decimal.ParseFormat | lib/datacounter.c:262-269 | every 64-bit value rendered with "%llu" parses back with strtoull to the same value |
| Decimal.FormatParse | lib/datacounter.c:105 | every canonical decimal string below 2^64, once parsed and rendered again, comes back unchanged; canonical text and numbers correspond one to one |
| Decimal.FormatOfCanonical | lib/datacounter.c:105 | rendering the value of a canonical digit string gives that string |
| Decimal.DigitsAppend | lib/datacounter.c:392 | appending digits to a digit string multiplies its value by 10 to the number of appended digits and adds their value |
| Settings.ReadSetting | lib/datacounter.c:47-71 | a counter key reads as 0 when the store holds no string there; stored text that starts with digits reads as the value of its leading digit run, capped at ULLONG_MAX, and text that starts with anything but white space, a sign or a digit reads as 0 |
| Settings.ReadCanonical | lib/datacounter.c:55-70 | a stored canonical decimal below 2^64 reads as the number it denotes, and "%llu" of that number gives the stored string back |
| Settings.WriteSetting | lib/datacounter.c:261-278 | a counter written with write_gconf_setting reads back as the same number; no other key changes |
| Settings.SetString | lib/datacounter.c:380-381 | the key then holds the string; no other key changes |
| Settings.SetBool | lib/datacounter.c:369-370 | the key then holds the boolean; no other key changes |
| Settings.Unset | lib/datacounter.c:289 | the key is then absent; no other key changes |
| GprsKeys.TrackedKeys | lib/datacounter.c:94-110 | the keys the handler dispatches on are exactly the five tracked keys of the profile |
| GprsKeys.KeyInjective | lib/datacounter.c:94-130 | no two (profile, field) pairs share a key, so each key selects one branch of the handler |
| Notifiers.Add | lib/datacounter.c:354 | registration appends one (callback, user data) entry and keeps the earlier ones in order |
| Notifiers.Remove | lib/datacounter.c:247 | removal keeps exactly the entries whose callback differs, never grows the list, and keeps its length exactly when the callback was not registered |
| Notifiers.RemoveAppend | lib/datacounter.c:247 | removing from a concatenation is removing from each part |
| Notifiers.RemoveAbsent | lib/datacounter.c:247 | removing a callback nobody registered leaves the list as it was |
| DataCounter.Get | lib/datacounter.c:137-237 | an initialized counter comes back unchanged; otherwise the fields are reset and the profile recorded; with no client it returns NULL uninitialized with no notifiers, and with a client it loads the profile and becomes initialized |
| DataCounter.Close | lib/datacounter.c:239-259 | the store is untouched and nothing is emitted. On an initialized counter, cb (if given) is removed; the counter is torn down (uninitialized, no client, no watch, no limit) exactly when the notifier list is then empty, and no other field changes. close(NULL) removes nothing. On an uninitialized counter, get(TRUE) runs first: without a client the result is the blank home record; with one, the home profile's counters, reset time and flag are loaded and the counter is then torn down, so it ends uninitialized with no notifiers, no client, no watch and no limit |
| DataCounter.Detach | lib/datacounter.c:246-258 | the notifier list loses cb when one is given; if any notifier remains, nothing else changes; if none remains, the counter ends uninitialized with no client, no watch and a NULL limit, while its counters, reset time, flag and profile are kept |
| DataCounter.CloseUninitialized | lib/datacounter.c:242-258 | close on an uninitialized counter ends uninitialized with no notifiers, no client, no watch, no limit and the home profile; without a client it is the blank home record, and with one it holds the home profile's loaded counters, reset time and flag |
| DataCounter.ResetWrites | lib/datacounter.c:286-313 | the reset time is set to the decimal of now and RX, TX and last-notification are unset; no other key changes |
| DataCounter.ResetStore | lib/datacounter.c:286-341 | reset's writes go to the four keys of the given profile only |
| DataCounter.Reset | lib/datacounter.c:280-344 | the active profile's reset time becomes decimal(now) and its RX, TX and last-notification keys are unset, with no other key changed; the counter stays initialized, unchanged, exactly when it was initialized with subscribers; otherwise close(NULL) tears it down, leaving no notifiers, no client, no watch and a NULL limit; nothing is emitted |
| DataCounter.SaveWrites | lib/datacounter.c:367-412 | the flag key then holds the boolean; with a limit, the limit key holds it verbatim and the notify-period key holds limit ++ "000000" when enabled, else "0"; no other key changes |
| DataCounter.Save | lib/datacounter.c:360-462 | the active profile's flag is always written; with no limit nothing else changes; with a limit, the limit is written verbatim and the notify period becomes limit ++ "000000" when enabled, else "0"; no other key changes and the counter ends initialized |
| DataCounter.Register | lib/datacounter.c:346-358 | returns FALSE exactly when get fails, and then emits nothing; on success it appends one notifier and emits exactly one snapshot of the loaded state to the list that includes the new notifier; an active counter keeps its profile |
| DataCounter.EventCounter | lib/datacounter.c:87-90 | a missing or non-string event value gives the counter 0; a string value that starts with digits gives the value of its leading digit run, capped at ULLONG_MAX |
| DataCounter.EventBool | lib/datacounter.c:107-110 | the flag an event sets is TRUE exactly when the value is the boolean TRUE |
| DataCounter.HomeEvent | lib/datacounter.c:92-111 | the home branch changes only the five data fields: initialization, notifiers, client, watch and profile are kept (which field changes is stated by HomeEventUpdatesNamedField) |
| DataCounter.RoamingEvent | lib/datacounter.c:112-131 | the roaming branch changes only the five data fields: initialization, notifiers, client, watch and profile are kept (which field changes is stated by RoamingEventAsWritten) |
| DataCounter.Changed | lib/datacounter.c:73-135 | an uninitialized counter ignores the event and emits nothing; otherwise exactly one full snapshot of the updated record goes to the notifiers; only the five data fields can change and the store is untouched |
| DataCounterProperties.AgreeExceptBinding | lib/datacounter.c:286-341 | a store change confined to a set of keys leaves every other key's binding intact |
| DataCounterProperties.GetProfileFixed | lib/datacounter.c:143-161 | once get has succeeded, later gets return the same record whatever profile, store or client they are given |
| DataCounterProperties.HomeEventUpdatesNamedField | lib/datacounter.c:92-111 | in the home profile, an event on a tracked key updates exactly the snapshot field that key names, with the parsed counter, the canonical rendering of the parsed limit, or the boolean |
| DataCounterProperties.HomeEventIgnoresOtherKeys | lib/datacounter.c:92-111 | in the home profile, an event on a key outside the five tracked keys changes no field but still re-emits the snapshot |
| DataCounterProperties.RoamingEventAsWritten | lib/datacounter.c:112-131 | in the roaming profile, the RX key sets rx_bytes, the TX key changes nothing, and every other key sets tx_bytes to the parsed value |
| DataCounterProperties.RoamingEventKeepsSettings | lib/datacounter.c:112-131 | in the roaming profile, no event changes the reset time, the warning limit or the notification flag |
| DataCounterProperties.RoamingTxEventLost | lib/datacounter.c:116-117 | a roaming TX-bytes event of "5" leaves tx_bytes as it was, while a roaming reset-time event of "5" sets tx_bytes to 5 and leaves the reset time alone |
| DataCounterProperties.HomeEventParsesCounter | lib/datacounter.c:87-99 | a home counter event carrying the "%llu" text of n sets that counter to n |
| DataCounterProperties.HomeLimitEventNormalises | lib/datacounter.c:100-106 | a home limit event stores a canonical string that parses to the event's value: a canonical value is kept as given, and a missing or non-string value becomes "0" |
| DataCounterProperties.RegisterThenClose | lib/datacounter.c:346-358 | registering a callback not yet registered and then closing it restores the notifier list, and tears down exactly when no other notifier remains |
| DataCounterProperties.ResetThenRegister | lib/datacounter.c:286-343 | after a reset with nobody subscribed, registering on the same profile reports rx 0, tx 0 and the reset time just written |
| DataCounterProperties.ResetKeepsOtherProfile | lib/datacounter.c:286-341 | reset leaves every key of the inactive profile bound as before |
| DataCounterProperties.SaveKeepsOtherProfile | lib/datacounter.c:367-461 | save leaves every key of the inactive profile bound as before |
| DataCounterProperties.SaveThenLoad | lib/datacounter.c:367-415 | what save writes is what the next get loads: the flag as given, the limit as given (or the old one when none is given), and the three counters as before |
| DataCounterProperties.NotifyPeriodValue | lib/datacounter.c:389-413 | for a decimal limit, the derived notify period parses as the limit times 10^6, saturated at ULLONG_MAX, when enabled, and as 0 when disabled |
| DataCounterProperties.ScaledLimitValue | lib/datacounter.c:392 | a decimal limit with "000000" appended parses as the limit times 10^6, saturated at ULLONG_MAX |
| DataCounterProperties.ScaledLimitDigits | lib/datacounter.c:392 | appending "000000" to a digit string multiplies its value by 10^6 |
| DataCounterProperties.SaveFiveHundred | lib/datacounter.c:389-413 | save(TRUE, "500") stores the notify period "500000000" and save(FALSE, "500") stores "0" |
| DataCounterProperties.EmptyStoreScenario | lib/datacounter.c:346-358 | registering on an empty store for the home profile reports (0, 0, 0, FALSE, NULL) to the one new subscriber |
| DataCounterProperties.EmptyStoreThenRxWrite | lib/datacounter.c:92-95 | after that, an external write of "12345" to the home RX key reports rx_bytes 12345 with every other field unchanged |

## Left out

- Key names: the header defining `GPRS_HOME_*`, `GPRS_ROAM_*` and `ICD_GCONF_NETWORK_MAPPING_GPRS` is not part of this model. The spellings are placeholders, and only their distinctness is used.
- Errors from GConf: read and write errors are only logged, and every write still happens. The model treats each store call as succeeding. A failed read is modelled as an absent value.
- Schema defaults: not modelled. The keys are assumed to have none, so an unset key reads as absent (as NULL, 0 or FALSE); with a schema default installed, `gconf_client_get_string` would report the default instead.
- `gconf_client_notify_add` and `gconf_client_add_dir` failures: they are only logged. The flag `watching` records that both were attempted, not that they succeeded. The connection id is not modelled.
- Change events caused by the counter's own writes: GConf delivers them later through the main loop. They appear as separate `Changed` calls, not inside `Reset` or `Save`.
- The NULL dereference in `reset` and `save` when `get` fails: `Reset` and `Save` require that `get` succeeds (`dc.initialized || clientAvailable`).
- Callback invocation: connui-utils is not part of this model. A notification records the snapshot and the recipient list; calling each callback with its user data is not modelled.
- Notifiers.Remove: the body of `connui_utils_notify_remove` is not part of this model; removal is assumed to drop every entry with that callback and keep the order of the rest.
- `time(NULL)`: the clock is the parameter `now` of `Reset`. The width of `time_t` is platform-defined, so `reset_time` is kept as the unsigned 64-bit value read from the store, and `now` is a value in that range. The conversions between `time_t` and `unsigned long long` are not modelled.
- Decimal.Strtoull: white space is the C-locale `isspace` set. Other locales are not modelled, and neither is `errno`, which the source never reads.
- Memory management (`g_free`, `g_strdup`, `g_strconcat`, `g_object_unref`) and the process-wide singleton: the record is passed and returned as a value.
- `g_return_if_fail` diagnostics: only their control-flow effect is modelled.
