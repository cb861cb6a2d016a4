# noaa-alerts: the alert step and the KP colour bands

This project is a Dafny model of the two deterministic cores of the
noaa-alerts bot.

- **The alert dedup-and-notify step** (`index.js`). Each scheduled run fetches
  the alert feed and takes its last record. It looks for a stored alert that
  matches that record. Matching is lodash's object matcher: the stored alert
  has every property of the record, with an equal value. If no stored alert
  matches, the record is appended to the persisted `alerts` list, the list is
  written, and the record's `message` is sent to the fixed chat `44841343`. If
  one matches, the run does nothing. At start-up the database receives the
  default `{ alerts: [] }`.
- **The KP-index colour banding** (`utils/get-kp-color.js`). This is a chain
  of early returns on the thresholds 2, 3, ..., 9. Each threshold gives one
  of eight colours. An index above 9 gets `undefined`.

Files:

- `wrappers.dfy` holds `Option`. `None` stands for JavaScript's `undefined`.
- `alert_step.dfy` (module `AlertStep`) models the alert step:
  - The record type is a flat `map<string, Value>`.
  - `Matches` is the matcher, and `Find` is lodash `find`.
  - `Next` is the pure transition `(alerts, feed) -> (alerts', message?)`.
  - `Effects` lists the outward actions of one run, in order: the write of
    the list, then the send.
  - The class `AlertDb` holds the `alerts` list. The trace of actions is a
    ghost field that only the contracts use. Its invariant `Valid()` says
    that no stored alert matches a later one (`Deduplicated`).
    Its `Step` method is proved against `Next` and `Effects`.
- `kp_color.dfy` (module `KpColor`) models the colour banding:
  - `GetKpColor` is the threshold chain as written.
  - It is compared with an explicit bucket table: the `Palette` of eight
    colours, indexed by the band number `Band`.

Two facts of the code shape the model:

- The code writes the list (`index.js:42-44`) before it sends
  (`index.js:46`). `CommitBeforeDispatch` states that order.
- A stored alert is recognised by lodash's partial match of the whole last
  record. No digest of the record is computed.

The send is not awaited. `Step` returns as soon as the message is handed
over. No delivery result flows back into the state, so the stored list is
the same whether delivery succeeds or fails.

## Model

| member | source | states |
|---|---|---|
| `AlertStep.Matches` | index.js:39 | lodash's object matcher, defined as: every property of the probe is present in the stored record with an equal value (extra stored properties are allowed); its contract states that the empty probe matches every record |
| `AlertStep.LastEvent` | index.js:36 | `data.slice(-1)[0]`: the feed is its earlier records followed by the returned one |
| `AlertStep.Notification` | index.js:46 | the message is addressed to the fixed channel 44841343; its text is the event's `message` property, and is `undefined` exactly when the event has none |
| `AlertStep.Effects` | index.js:41-46 | a run has no outward action exactly when the last event is already matched; otherwise it has two: a write of the list, then the send of the last event's message |
| `AlertStep.Defaults` | index.js:28 | `defaults({ alerts: [] })`: the empty list when no list is stored, the stored list unchanged otherwise |
| `AlertStep.NextPreservesDedup` | index.js:39-44 | the store invariant `Deduplicated` (for i < j, `alerts[i]` does not match `alerts[j]`) holds after a step when it held before, because a record is appended only when nothing stored matches it |
| `AlertStep.DedupHasNoDuplicates` | index.js:39-44 | in such a deduplicated list no record is stored twice |
| `AlertStep.Find` | index.js:39 | the result is present exactly when some stored alert matches the probe; when present it is the first matching stored alert; `InDb`, the `!!(...)` flag `inDB`, is whether the result is present |
| `AlertStep.Next` | index.js:35-47 | if some stored alert matches the feed's last record, the list is unchanged and there is no message; otherwise the record is appended and a message goes to the fixed channel carrying the record's `message` property (`undefined` when it has none) |
| `AlertStep.OnlyLastEventMatters` | index.js:36 | two feeds with the same last record give the same transition and the same actions, whatever their earlier records |
| `AlertStep.AppendOnly` | index.js:41-44 | earlier entries of the list are kept as they were; the list grows by at most one entry, and it grows exactly when a message is produced |
| `AlertStep.SeenAfterStep` | index.js:39-44 | after any step, some stored alert matches the last event |
| `AlertStep.StepIdempotent` | index.js:39-47 | a second step with the same feed leaves the list unchanged and sends nothing, so two runs dispatch at most once |
| `AlertStep.CommitBeforeDispatch` | index.js:42-46 | a run that acts first writes the old list with the last event appended; every send is preceded by the write of the new list, and every written list has an alert matching the last event |
| `AlertStep.DefaultsIdempotent` | index.js:28 | applying the defaults again to their own result changes nothing, so restarts keep the stored list |
| `AlertStep.TwoFeedScenario` | index.js:35-47 | from an empty store, feed `[a]` sends a's message, the same feed again sends nothing, and the feed `[a, b]` sends b's message and leaves `[a, b]` stored |
| `AlertStep.AlertDb.Open` | index.js:28 | opening sets `alerts` to the stored list, or to `[]` when there is none, and writes once; the store invariant (no stored alert matches a later one) holds when nothing was stored, and otherwise exactly when the stored list satisfies it |
| `AlertStep.AlertDb.Step` | index.js:35-47 | the list, the returned message and the action trace follow `Next` and `Effects`; a matched last event changes nothing; otherwise the event is appended and its message is returned; afterwards some stored alert matches the event (a stored alert with extra properties may match it, and then nothing is appended); the store invariant is preserved, and when it held before, no record is stored twice afterwards |
| `KpColor.GetKpColor` | utils/get-kp-color.js:6-15 | a colour is returned if and only if the index is at most 9, and it is one of the palette's colours |
| `KpColor.Band` | utils/get-kp-color.js:7-14 | the band is 1..8; it is 1 exactly for indices up to 2; band b > 1 holds exactly the indices in (b, b+1] |
| `KpColor.ColourFollowsBand` | utils/get-kp-color.js:7-14 | for every index up to 9, the threshold chain returns the palette colour of the index's band |
| `KpColor.LowIndicesFirstColour` | utils/get-kp-color.js:7 | every index up to 2, negative ones included, gets `#1e3731fa` |
| `KpColor.BandBoundary` | utils/get-kp-color.js:8-14 | for k in 3..9, an index in (k-1, k] gets the colour of band k-1 |
| `KpColor.NoColourAboveNine` | utils/get-kp-color.js:14-15 | an index above 9 gets no colour (`undefined`) |
| `KpColor.BandMonotonic` | utils/get-kp-color.js:7-14 | if a <= b <= 9, the band of a is at most the band of b |
| `KpColor.ColourMonotonic` | utils/get-kp-color.js:7-14 | if a <= b <= 9, the colour of a comes no later in the palette than the colour of b |
| `KpColor.IntegerBands` | utils/get-kp-color.js:7-14 | integers up to 2 are in band 1; an integer k in 3..9 is in band k-1 and gets that band's colour |
| `KpColor.EightDistinctColours` | utils/get-kp-color.js:7-14 | the eight palette colours are pairwise distinct, and each is returned for some index |
| `KpColor.SameColourSameBand` | utils/get-kp-color.js:7-14 | two indices up to 9 get the same colour if and only if they are in the same band |

## Left out

- Scheduling (`index.js:30`): the cron trigger is external. Each run is one call of `Step`.
- Fetching (`index.js:33`, `49-51`): the HTTP GET, its promise, and the `.catch` logging are network and async plumbing. The fetched feed is the argument of `Step`.
- Messaging (`index.js:21`, `46`): the Telegram bot and its transport are left out. A send is the returned `Outgoing` value and a `Sent` action in the trace. Delivery failures are not modelled. Because the send is not awaited, they could not affect the state anyway.
- Persistence (`index.js:24-25`): the file adapter's durability is left out. A write is the `Persisted` action, carrying the written list. A failing write is not modelled. In the source it would skip the send and reach the `.catch` handler. The chained `.push(lastEvent)` has already added the event to the in-memory list before `.write()` throws, so the event counts as seen for the rest of the process and is never sent.
- Configuration (`index.js:4-10`): the environment variables are left out. The chat id is the constant `ChannelId`.
- Deep matching: lodash's recursive partial match on nested objects and arrays is left out. Records are flat maps. Values are compared with Dafny equality, and NaN is not modelled.
- Empty feed: `Step` and `Next` require a non-empty feed. With an empty feed `lastEvent` is `undefined`, and what happens then depends on the library.
- Non-object feed entries: a feed entry that is not a JSON object is not modelled.
- JavaScript numbers are modelled as `real`. The KP thresholds involve no arithmetic, so exact comparison matches the source. NaN, `Infinity` and `-Infinity` are not modelled: the source returns `undefined` for NaN and for `Infinity`, and `#1e3731fa` for `-Infinity`.
