# Alerts subsystem of the flood-reporting map app, in Dafny

This project models the alerts subsystem of a React Native map app for
reporting street flooding, together with the small decision rules around it.

- **Alerts store** (`AlertsStore`, class `AlertsProvider`). It keeps two
  newest-first lists, one of user reports and one of system alerts. It also
  keeps two "last alert" pointers read by the toasts, and one id counter
  shared by both lists.
- **Pure helpers of the store.** The `I18nText` resolver is in `I18n`. The
  relative-time formatter and the language normaliser are in `RelativeTime`.
  The decimal rendering used in ids and phrases is in `Decimal`. The
  JavaScript string built-ins used (`toLowerCase`, `startsWith`, `trim`) are
  in `JsString`.
- **Rain-to-risk classifier** (`PondingEngine`). It has severity thresholds,
  a clamped ponding index, a palette and an injected rain lookup.
- **System alert list** (`SystemAlertList`): the rounded "time ago" label,
  the demo rows, the row selection and the empty state.
- **Two toasts** (`NewUserAlertToast`, `SystemAlertToast`). Each is a class
  whose methods are the events of the component: a new pointer value after a
  render, a timer firing, the hide animation finishing, toggle, close, press
  and unmount.
- **Mock forecaster** (`ForecastAutoMock`). Given its random draws, each tick
  adds exactly one system alert. Its interval is restarted when the props
  change.
- **Report form** (`EditModal`, class `ReportForm`): the upload guards,
  progress clamping, the fake-progress step, the alert a successful upload
  adds, the conditional subtitle rewrite, reset and cancel.
- **Start-up severity guide** (`IntroSeverityGuide`): the mount-time
  visibility decision, "don't show again" and its storage flag.
- **Language chip** (`LanguageSwitcher`), the **map-focus registry**
  (`MapFocus`) and the **forecast overlay** (`ForecastOverlay`).
- **`ReportFlow`** runs one report end to end: the form adds the report, the
  user toast shows it, and its timer clears the pointer.

Some things are parameters of the model:

- the clock (`Date.now()`, as `now` in milliseconds);
- the translator `t`, an arbitrary function of a key and options;
- random draws and the sampled forecast location;
- the uploader's outcome, the asset resolver and the coordinate label;
- reverse geocoding, and whether each storage call fails.

Timers, intervals and animation completions are explicit methods. A string
default passed as the second argument of `t` is modelled as the option
`defaultValue`, which is how i18next reads it.

## Model

| member | source | states |
|---|---|---|
| AlertsStore.AlertsProvider.constructor | components/notification/alertsStore.tsx:67-77 | The store starts with both lists empty, both pointers null and the counter at 1. |
| AlertsStore.MakeId | components/notification/alertsStore.tsx:81 | An id is the prefix followed by the decimal counter, and is longer than the prefix. |
| AlertsStore.AlertsProvider.AddUserAlert | components/notification/alertsStore.tsx:80-86 | Exactly one item is prepended to the user list: id `ua_<counter>`, timestamp `now`, the given fields. The pointer becomes that item and the returned id is its id. The counter goes up by one, the system side is unchanged, and the id differs from every id already in either list. |
| AlertsStore.AlertsProvider.AddSystemAlert | components/notification/alertsStore.tsx:89-95 | The same on the system list with the `sa_` prefix; the user side is unchanged. |
| AlertsStore.AlertsProvider.UpdateUserAlertSubtitle | components/notification/alertsStore.tsx:98-102 | The user list becomes `WithSubtitle` of the old list. The pointer gets the new subtitle only when its id matches, and otherwise stays as it was. The system side and the counter are unchanged. |
| AlertsStore.AlertsProvider.ConsumeLastUserAlert | components/notification/alertsStore.tsx:105 | The user pointer becomes null and nothing else changes, so a second call changes nothing. |
| AlertsStore.AlertsProvider.ConsumeLastSystemAlert | components/notification/alertsStore.tsx:106 | The system pointer becomes null and nothing else changes. |
| AlertsStore.AlertsProvider.IdsUnique | components/notification/alertsStore.tsx:77-90 | Under the store invariant, ids are pairwise distinct within each list and across the two lists. |
| AlertsStore.MakeIdInjective | components/notification/alertsStore.tsx:81 | Two ids with the same prefix are equal only for equal counter values. |
| AlertsStore.PrefixesSeparate | components/notification/alertsStore.tsx:81-89 | No `ua_` id equals any `sa_` id. |
| AlertsStore.DistinctIds | components/notification/alertsStore.tsx:77-90 | Items numbered by strictly decreasing counter values have distinct ids. |
| AlertsStore.FreshId | components/notification/alertsStore.tsx:77-90 | The id made from a counter value not yet used differs from every existing id in that list. |
| AlertsStore.WithSubtitle | components/notification/alertsStore.tsx:99 | Length and order are kept. Every field except `subtitle` is kept. Exactly the items with the given id get the new subtitle. |
| AlertsStore.WithSubtitleUnknownId | components/notification/alertsStore.tsx:99 | An id that no item has leaves the list unchanged. |
| AlertsStore.SubtitledPointer | components/notification/alertsStore.tsx:100 | The pointer keeps being set or null; it gets the new subtitle exactly when its id matches and is otherwise unchanged. |
| AlertsStore.UseAlerts | components/notification/alertsStore.tsx:128-132 | Outside a provider the hook fails with the fixed message; inside one it returns the context. |
| Decimal.NatToString | components/notification/alertsStore.tsx:81 | The decimal rendering of a counter is non-empty and all digits, with a leading zero only for 0. |
| Decimal.ParseNatToString | components/notification/alertsStore.tsx:81 | Parsing the rendering gives the number back. |
| Decimal.NatToStringInjective | components/notification/alertsStore.tsx:81 | Different numbers render differently. |
| I18n.ResolveI18nParams | components/notification/alertsStore.tsx:137-147 | Absent params give `undefined`. Otherwise the result has the same key set. Each nested keyed text becomes `t(key, resolved nested params)` and every other value passes through unchanged. |
| I18n.ResolveParam | components/notification/alertsStore.tsx:144 | A keyed text becomes `t(key, resolved params)`, anything else passes through, and the result is a string exactly for text values. |
| I18n.AsText | components/notification/alertsStore.tsx:150-154 | No value gives `""`. A string is returned as it is. A keyed text gives `t(key, resolved params)`. |
| I18n.AsTextLocal | components/notification/alertsStore.tsx:150-154 | Two translators that agree on the keys occurring in a text give the same string, so resolution asks `t` about those keys only. |
| I18n.ResolveLocal | components/notification/alertsStore.tsx:137-147 | The same locality for a params record, by induction over nesting. |
| I18n.ResolveParamLocal | components/notification/alertsStore.tsx:144 | The same locality for one parameter value. |
| JsString.TrimEmptyIff | components/modals/EditModal.tsx:152 | `trim()` gives the empty string exactly when every character is JavaScript whitespace. |
| RelativeTime.NormalizeLang | components/notification/alertsStore.tsx:163-169 | The result is `ko`, `ja` or `zh` exactly when the lower-cased tag (empty when absent) starts with that code, checked in that order. It is `en` otherwise. |
| RelativeTime.ReduceBucketsIsLargestAtMost | components/notification/alertsStore.tsx:209 | Over strictly ascending buckets, the `reduce` returns the largest bucket that is ≤ the minutes, or the start value when there is none. |
| RelativeTime.RelativeOf | components/notification/alertsStore.tsx:203-215 | Elapsed minutes are clamped at 0 and floored. 0 minutes is "just now". 1–59 minutes gives the largest bucket in {1,3,5,10,15,20,30,45} that is ≤ the minutes. From 60 minutes on, the hour count is `floor(min/60)`, with the half-hour form exactly when the remainder is ≥ 30. |
| RelativeTime.Phrase | components/notification/alertsStore.tsx:172-197 | Every phrase is non-empty. "Just now" does not start with a digit; every other phrase opens with the decimal count it reports. |
| RelativeTime.FormatRelative | components/notification/alertsStore.tsx:203-215 | Under a minute gives the language's "just now". From one minute on the string opens with a digit, and from an hour on with the hour count `floor(min/60)`. |
| RelativeTime.FutureIsJustNow | components/notification/alertsStore.tsx:204-207 | A timestamp at or after `now` reads as "just now". |
| RelativeTime.ExampleShapes | components/notification/alertsStore.tsx:203-215 | 0, 7, 90 and 125 minutes take the shapes just now, 5 min, 1 h 30 and 2 h. |
| RelativeTime.EnglishExamples | components/notification/alertsStore.tsx:172-215 | The English strings for 0, 7, 90 and 125 minutes are "just now", "5 min ago", "1 hr 30 min ago" and "2 hr ago". |
| PondingEngine.SeverityForRain | components/engine/pondingEngine.tsx:28-30 | Red iff rain ≥ 50, orange iff 30 ≤ rain < 50, yellow iff rain < 30. |
| PondingEngine.PondingIndex | components/engine/pondingEngine.tsx:33 | The index lies in [0, 1]. It is 0 up to 10 mm/h, (rain − 10)/60 between 10 and 70, and 1 from 70 on. |
| PondingEngine.PaletteFor | components/engine/pondingEngine.tsx:36-40 | Red, orange and yellow map to their `rgba` strokes at 0.9 and fills at 0.28. |
| PondingEngine.RainMonotone | components/engine/pondingEngine.tsx:28-33 | More rain never lowers the severity rank or the index. |
| PondingEngine.Boundaries | components/engine/pondingEngine.tsx:28-33 | The thresholds sit exactly at 30 and 50, and the index is 0.5 at 40 mm/h. |
| PondingEngine.PaletteDistinct | components/engine/pondingEngine.tsx:36-40 | Different severities have different stroke and fill colours. |
| PondingEngine.RunPondingAnalysis | components/engine/pondingEngine.tsx:15-54 | A failed lookup fails the analysis with the same error. Otherwise the summary echoes (lat, lon) and the single looked-up rain value, with its severity and index. The overlay has the given radius (default 500) and the palette entry of that severity. |
| SystemAlertList.RoundedMinutes | components/notification/SystemAlertList.tsx:78 | The minute count is 0 exactly when less than 30 s have elapsed. Otherwise it is the nearest whole minute, with halves rounded up. |
| SystemAlertList.TimeAgoPhrase | components/notification/SystemAlertList.tsx:77-86 | Below one minute gives "just now". 1–59 minutes reports the count itself. A whole number of hours uses the hours key. Otherwise it gives hours with `half` 0 (remainder < 30) or 30. |
| SystemAlertList.TimeAgo | components/notification/SystemAlertList.tsx:77-86 | In terms of the rounded minutes m: 0 asks `t` for `justNow` with default `방금`; 1–59 for key `m` with count m; whole hours for key `h` with count m/60; otherwise key `hHalf` with h = m/60 and half 0 or 30. |
| SystemAlertList.Rows | components/notification/SystemAlertList.tsx:39-119 | A non-empty list gives one row per alert in order, with its id, title, subtitle, severity, timestamp, photo and location. An empty list with `showDemo` gives three demo rows: red, orange and yellow, 5, 22 and 50 minutes old. Otherwise there are no rows. |
| SystemAlertList.MakeDemo | components/notification/SystemAlertList.tsx:39-62 | Three demo items, red, orange and yellow, with distinct ids and newest first; the list reads them as 5, 22 and 50 minutes old. |
| SystemAlertList.RowPressTarget | components/notification/SystemAlertList.tsx:166-171 | Pressing a row focuses the map at its location with zoom 17 exactly when the row has one. |
| SystemAlertList.View | components/notification/SystemAlertList.tsx:122-161 | The empty state is shown exactly when the list is empty and demos are off. Otherwise the list has at least one row and shows the demo badge exactly when the store list is empty. |
| SystemAlertList.RealRowsFocusAlert | components/notification/SystemAlertList.tsx:97-117 | Pressing the row of a stored alert focuses the map at that alert's latitude and longitude, at zoom 17. |
| SystemAlertList.DemoRowsDoNotFocus | components/notification/SystemAlertList.tsx:107-117 | Demo rows carry no location, so pressing one focuses nothing. |
| SystemAlertList.ListAndStoreDiffer | components/notification/SystemAlertList.tsx:78-80 | The list rounds and reports every minute while the store's formatter floors and buckets. 29.5 min is 30 against 20, and 7 min is 7 against 5. |
| NewUserAlertToast.IconFor | components/notification/tost/NewUserAlertToast.tsx:15-22 | Red 🔴, orange 🟠, and 🟡 for yellow and for anything else. |
| NewUserAlertToast.TemplateText | components/notification/tost/NewUserAlertToast.tsx:72 | A template literal prints a plain title as it is and a keyed title as `[object Object]`. |
| NewUserAlertToast.UserAlertToast.constructor | components/notification/tost/NewUserAlertToast.tsx:24-56 | On mount the effect runs once. The toast is visible, with one pending 5500 ms timer, exactly when a pointer is already set. |
| NewUserAlertToast.UserAlertToast.ClearHideTimer | components/notification/tost/NewUserAlertToast.tsx:43 | No hide timer is left pending; visibility, expansion and the ref are unchanged. |
| NewUserAlertToast.UserAlertToast.AtMostOneTimer | components/notification/tost/NewUserAlertToast.tsx:43-49 | At most one hide timer is pending. |
| NewUserAlertToast.UserAlertToast.Sync | components/notification/tost/NewUserAlertToast.tsx:37-56 | An unchanged pointer changes nothing. A new null pointer only clears the timer. A new non-null pointer makes the toast visible and collapsed, with exactly one pending 5500 ms timer. |
| NewUserAlertToast.UserAlertToast.HideTimerFires | components/notification/tost/NewUserAlertToast.tsx:46-49 | The toast is hidden, the user pointer is null, no timer is pending, and `expanded`, the lists, the system pointer and the id counter are unchanged. |
| NewUserAlertToast.UserAlertToast.Toggle | components/notification/tost/NewUserAlertToast.tsx:59 | `expanded` flips; `visible` and the timers are unchanged. |
| NewUserAlertToast.UserAlertToast.Close | components/notification/tost/NewUserAlertToast.tsx:62-66 | The timer is cancelled, the toast is hidden and the pointer consumed; `expanded`, the lists, the system pointer and the id counter are unchanged. |
| NewUserAlertToast.UserAlertToast.Unmount | components/notification/tost/NewUserAlertToast.tsx:53-55 | No timer is pending after unmount. |
| NewUserAlertToast.UserAlertToast.Rendered | components/notification/tost/NewUserAlertToast.tsx:69-84 | Nothing is rendered exactly when the pointer is null, whatever `visible` is. Otherwise the title is the severity icon, a space and the title as a template literal prints it. |
| SystemAlertToast.SystemAlertToast.constructor | components/notification/tost/SystemAlertToast.tsx:20-55 | On mount a pointer already set is shown at once, with a timer whose `dismiss` saw the toast hidden. |
| SystemAlertToast.SystemAlertToast.ClearHideTimer | components/notification/tost/SystemAlertToast.tsx:60 | `clearTimeout(hideTimer.current)` cancels the timer the ref names and no other; when that was the only pending one, none is left. Nothing else changes. |
| SystemAlertToast.SystemAlertToast.Sync | components/notification/tost/SystemAlertToast.tsx:38-55 | An unchanged pointer changes nothing. A new null pointer leaves `cur` and `visible` alone. A new non-null pointer sets `cur` to it and `visible` to true, with exactly one pending timer. That timer records the `visible` of the render before. If a hide animation is running, the new alert is swallowed: the toast is hidden and the pointer consumed. The store's id counter is unchanged. |
| SystemAlertToast.SystemAlertToast.Show | components/notification/tost/SystemAlertToast.tsx:40-48 | The effect body when no hide animation runs: visible with `cur` set and one fresh timer. |
| SystemAlertToast.SystemAlertToast.ShowInterrupted | components/notification/tost/SystemAlertToast.tsx:40-67 | Starting the show animation completes the running hide animation. Its callback hides the toast and consumes the pointer, and the new timer is cleared again. The store's id counter is unchanged. |
| SystemAlertToast.SystemAlertToast.Dismiss | components/notification/tost/SystemAlertToast.tsx:58-68 | A closure that saw the toast hidden changes nothing. Otherwise it clears the timer and starts the hide animation; one already running completes first, hiding the toast and consuming the pointer. The user side of the store and the timer ref are unchanged. The store's id counter is unchanged. |
| SystemAlertToast.SystemAlertToast.HideCallback | components/notification/tost/SystemAlertToast.tsx:63-67 | The completed hide leaves the toast not visible, `cur` null and the system pointer consumed, with no other store change: the lists, the user pointer and the id counter are kept. Consuming a set pointer clears the pending timer; the timer ref and timer counter are kept. |
| SystemAlertToast.SystemAlertToast.HideAnimationEnds | components/notification/tost/SystemAlertToast.tsx:63-67 | After the hide animation: hidden, `cur` null, pointer consumed. The pending timer is cleared when a pointer was consumed and kept otherwise. The lists, the user pointer, the id counter, the timer ref and the timer counter are unchanged. |
| SystemAlertToast.SystemAlertToast.HideTimerFires | components/notification/tost/SystemAlertToast.tsx:48-59 | The timer calls the `dismiss` it captured and no timer stays pending. If that render saw the toast hidden, `visible`, `cur`, the animation and the pointer are unchanged. Otherwise the hide animation starts, completing one already running (hidden, `cur` null, pointer consumed), and leaves `visible`, `cur` and the pointer as they were when none ran. The user side of the store and the timer ref are unchanged. The store's id counter is unchanged. |
| SystemAlertToast.SystemAlertToast.HideTimerFiresCorrected | components/notification/tost/SystemAlertToast.tsx:48-59 | The evidently intended timer reads the current `visible`. A visible toast always starts hiding; a hidden one keeps `cur`, the animation and the pointer. The running-animation case and the frames are as in `HideTimerFires`. The store's id counter is unchanged. |
| SystemAlertToast.SystemAlertToast.Close | components/notification/tost/SystemAlertToast.tsx:104-108 | On a hidden toast nothing changes: `visible`, `cur`, the timers, the animation and the pointer. On a visible one the timer is cleared and the hide animation starts, completing any hide already running. The user side of the store is unchanged. The store's id counter is unchanged. |
| SystemAlertToast.SystemAlertToast.PressCard | components/notification/tost/SystemAlertToast.tsx:71-76 | With a current alert, `focusMap(lat, lng, 17)` is called once with its outcome as `MapFocus` states; without one nothing is focused. The toast is then dismissed with the same outcome as `Close`, including the no-op on a hidden toast. The registration and the user side of the store are unchanged. The store's id counter is unchanged. |
| SystemAlertToast.SystemAlertToast.Unmount | components/notification/tost/SystemAlertToast.tsx:51-53 | The cleanup of the last non-null run clears the timer. |
| SystemAlertToast.SystemAlertToast.Rendered | components/notification/tost/SystemAlertToast.tsx:79-82 | The card is rendered exactly when `visible` is true and `cur` is set, with `asText` title and subtitle. |
| SystemAlertToast.FirstToastStaysAsWritten | components/notification/tost/SystemAlertToast.tsx:38-59 | As written, a first alert arriving while the toast is hidden is still visible after its timer fires, and the pointer stays set. |
| SystemAlertToast.FirstToastHidesCorrected | components/notification/tost/SystemAlertToast.tsx:38-68 | With the corrected timer, the same alert is hidden and the pointer consumed once the animation ends. |
| MapFocus.MapFocusRegistry.constructor | components/map/MapFocus.tsx:16 | No mover is registered initially. |
| MapFocus.MapFocusRegistry.SetMapMover | components/map/MapFocus.tsx:22-24 | The registration becomes the given mover; `None` unregisters. |
| MapFocus.MapFocusRegistry.FocusMap | components/map/MapFocus.tsx:32-43 | Without a mover it only warns. Otherwise it calls the mover once with (lat, lng, zoom), zoom defaulting to 17. A throw is caught and reported, not propagated. The registration never changes. |
| ForecastOverlay.ColorBySeverity | components/risk/ForecastOverlay.tsx:30-40 | Red `#ef4444` with fill `rgba(239,68,68,0.28)`, orange `#f59e0b` with `rgba(245,158,11,0.26)`, yellow `#eab308` with `rgba(234,179,8,0.24)`. |
| ForecastOverlay.SliceEnd | components/risk/ForecastOverlay.tsx:54 | `slice(0, count)` keeps min(count, n) items, and a negative count counts back from the end. |
| ForecastOverlay.CircleFor | components/risk/ForecastOverlay.tsx:58-70 | Each circle has key = id, center = location, the given radius and zIndex, stroke width 2 and the stroke and fill of its severity. |
| ForecastOverlay.Render | components/risk/ForecastOverlay.tsx:42-74 | An empty list renders nothing. Otherwise the first `SliceEnd` alerts are drawn, in order. Each circle has key = id, center = location, the given radius and zIndex (defaults 600 and 8) and the colours of its severity. |
| ForecastOverlay.DefaultsDrawAtMostSix | components/risk/ForecastOverlay.tsx:43-54 | With the defaults, min(6, n) circles are drawn. |
| LanguageSwitcher.NormalizeAgrees | components/controls/LanguageSwitcher.tsx:23-29 | The chip's `normalize` agrees with the store's `normalizeLang` on every input, missing or empty included. |
| LanguageSwitcher.Normalize | components/controls/LanguageSwitcher.tsx:23-29 | A missing or empty language is `en`. `ko` exactly when the lower-cased tag starts with `ko`, and `ja` exactly when it starts with `ja` but not `ko`. |
| LanguageSwitcher.NormalizeCode | components/controls/LanguageSwitcher.tsx:23-29 | Normalising a language's own code gives that language. |
| LanguageSwitcher.NormalizeIdempotent | components/controls/LanguageSwitcher.tsx:23-29 | `normalize` is idempotent on its outputs. |
| LanguageSwitcher.IndexOf | components/controls/LanguageSwitcher.tsx:20-39 | Each language has its position in `ORDER`. |
| LanguageSwitcher.Next | components/controls/LanguageSwitcher.tsx:39-40 | The next language is `ORDER[(idx + 1) % 4]` and always differs from the current one. |
| LanguageSwitcher.OnCycle | components/controls/LanguageSwitcher.tsx:38-42 | A press selects the language after the current one in `ORDER`, which always differs from it. |
| LanguageSwitcher.CycleOrder | components/controls/LanguageSwitcher.tsx:20-40 | en → ko → ja → zh → en. |
| LanguageSwitcher.FourCyclesReturn | components/controls/LanguageSwitcher.tsx:40 | Four presses return to the start. |
| LanguageSwitcher.Label | components/controls/LanguageSwitcher.tsx:56 | The label is two upper-case letters A–Z, each the upper case of the matching letter of the code. |
| ForecastAutoMock.PickSeverity | components/risk/ForecastAutoMock.tsx:83 | For a draw q in [0, 1): red iff q < 1/3, orange iff 1/3 ≤ q < 2/3, yellow iff q ≥ 2/3. |
| ForecastAutoMock.EverySeverityPickable | components/risk/ForecastAutoMock.tsx:83 | Each of the three severities is picked by some draw. |
| ForecastAutoMock.TickAlert | components/risk/ForecastAutoMock.tsx:62-93 | A first draw < 0.2 gives the yellow failure alert with keys `forecast.errorTitle` and `forecast.errorSubtitle`. Otherwise the alert has key `forecast.autoTitle`, the picked severity, and key `forecast.autoSubtitle` whose `severity` param is the key `severity.<pick>`. Titles are always keyed, the location is the sampled one, and there is never a photo. |
| ForecastAutoMock.PeriodMs | components/risk/ForecastAutoMock.tsx:96 | The period is `intervalSec * 1000`, 10000 by default. |
| ForecastAutoMock.DepsOf | components/risk/ForecastAutoMock.tsx:53-100 | The dependency list holds `center` and the two numbers after the destructuring defaults of 10 are applied. |
| ForecastAutoMock.DefaultsAreValues | components/risk/ForecastAutoMock.tsx:55-56 | Leaving `intervalSec` or `scatterKm` out and passing 10 give the same dependencies. |
| ForecastAutoMock.ExplicitDefaultKeepsInterval | components/risk/ForecastAutoMock.tsx:53-100 | Mounting without `intervalSec` and re-rendering with `intervalSec={10}` keeps the running interval. |
| ForecastAutoMock.ForecastGenerator.constructor | components/risk/ForecastAutoMock.tsx:53-100 | Mounting starts one interval with that period. |
| ForecastAutoMock.ForecastGenerator.Sync | components/risk/ForecastAutoMock.tsx:53-100 | The dependencies are the props with their defaults applied. When they changed, the single live interval is replaced by a new one with the current period. Otherwise nothing changes, so intervals never stack. |
| ForecastAutoMock.ForecastGenerator.SetProps | components/risk/ForecastAutoMock.tsx:53-100 | New props re-run the effect exactly when their defaulted values differ from the last run; otherwise the interval and its period are kept. |
| ForecastAutoMock.ForecastGenerator.Tick | components/risk/ForecastAutoMock.tsx:62-95 | Exactly one system alert, `TickAlert` of the draws, is prepended and becomes the pointer. The user side is unchanged, and the generator itself is not modified: props, interval and timers stay as they were. |
| ForecastAutoMock.ForecastGenerator.Unmount | components/risk/ForecastAutoMock.tsx:99 | The interval is cleared. |
| EditModal.FakeStep | components/modals/EditModal.tsx:86 | p becomes p + (1 − p)·0.12 below 0.95 and is unchanged otherwise. It never decreases, stays below 1 when started below 1, and stays in [0, 1]. |
| EditModal.FakeStepsBounded | components/modals/EditModal.tsx:85-87 | Any number of fake steps from below 1 stays between the start value and 1. |
| EditModal.Clamp | components/modals/EditModal.tsx:146 | The stored progress is in [0, 1], equal to p when p is in range, and 0 or 1 outside. |
| EditModal.Percent | components/modals/EditModal.tsx:285 | The button's percentage is between 0 and 100 and within half a unit of 100·p. |
| EditModal.ReportTitle | components/modals/EditModal.tsx:152 | A blank note (all whitespace) gives the translated default title. Otherwise the title is the trimmed, non-empty note. |
| EditModal.ReportAlert | components/modals/EditModal.tsx:150-157 | The added alert has that title, the coordinate label as subtitle, the chosen photo and severity, and the fixed location. |
| EditModal.Reset | components/modals/EditModal.tsx:97-106 | No image, no error, yellow, not loading, progress 0, no fake interval, empty note; visibility, pending calls, timers and close requests are kept. |
| EditModal.ReportForm.constructor | components/modals/EditModal.tsx:59-114 | On mount the whole form state is the defaults, with no calls or timers; an open modal also clears the note. |
| EditModal.ReportForm.ResetForm | components/modals/EditModal.tsx:97-106 | The form state becomes `Reset` of the old one: every input default restored, nothing else changed. |
| EditModal.ReportForm.SetVisible | components/modals/EditModal.tsx:109-114 | The form resets on the hidden-to-visible transition and only then; `visible` and the `wasVisible` ref take the new value, and nothing else changes. |
| EditModal.ReportForm.EditNote | components/modals/EditModal.tsx:206-214 | While loading nothing changes; otherwise only the note changes. |
| EditModal.ReportForm.PickImage | components/modals/EditModal.tsx:225-240 | While loading nothing changes; otherwise only the image is set and the photo error cleared. |
| EditModal.ReportForm.ChooseSeverity | components/modals/EditModal.tsx:254 | While loading nothing changes; otherwise only the severity changes. |
| EditModal.ReportForm.UploadDisabled | components/modals/EditModal.tsx:188 | The button is disabled iff loading or no image is picked. |
| EditModal.ReportForm.Upload | components/modals/EditModal.tsx:124-147 | While loading nothing changes. Without a photo only `photoError` is set. Otherwise loading starts, progress restarts at 0 with the fake interval, and `onUpload` is called exactly once with the note, the fixed location and the photo URI; the pending upload keeps the severity of that moment. No other field changes. |
| EditModal.ReportForm.FakeTick | components/modals/EditModal.tsx:85-87 | A tick applies `FakeStep`, never lowers the progress, and changes nothing else. |
| EditModal.ReportForm.ReportProgress | components/modals/EditModal.tsx:146 | Reported progress is stored clamped; nothing else changes. |
| EditModal.ReportForm.UploadResolved | components/modals/EditModal.tsx:149-175 | Exactly one user alert, `ReportAlert` of the captured values, is prepended with the next counter id and becomes the pointer. Geocoding is requested for its id and label. The fake interval stops, progress is 1, the close timer starts, and no other form field changes (`loading` stays set until the timer resets the form). |
| EditModal.ReportForm.UploadRejected | components/modals/EditModal.tsx:176-182 | Loading stops, progress returns to 0, no alert is added, and the inputs are kept. |
| EditModal.ReportForm.GeocodeSettled | components/modals/EditModal.tsx:160-167 | The request is settled and no other form field changes. Only a non-empty address that differs from the label rewrites the subtitle, in the list and in the pointer as `updateUserAlertSubtitle` does. A failure or anything else leaves the store unchanged. |
| EditModal.ReportForm.CloseTimerFires | components/modals/EditModal.tsx:172-175 | The form resets, then `onClose` is called once; nothing else changes. |
| EditModal.ReportForm.Cancel | components/modals/EditModal.tsx:117-121 | Does nothing at all while loading. Otherwise the form resets and `onClose` is called once. |
| ReportFlow.SubmitReport | components/modals/EditModal.tsx:150-157 | A report with a photo shows the user toast with the new head item, which has the expected title. After the toast's timer the pointer is null and the report stays listed. |
| IntroSeverityGuide.GuideStorage.Remove | components/modals/IntroSeverityGuide.tsx:20 | A successful remove clears the flag. |
| IntroSeverityGuide.GuideStorage.Get | components/modals/IntroSeverityGuide.tsx:63 | A read returns the flag or fails, and is counted. |
| IntroSeverityGuide.GuideStorage.Set | components/modals/IntroSeverityGuide.tsx:80 | A successful write stores the value. |
| IntroSeverityGuide.ResetIntroGuideHidden | components/modals/IntroSeverityGuide.tsx:19-21 | The stored flag is removed. A failed removal is not caught: the promise rejects and the flag stays. |
| IntroSeverityGuide.DecideVisible | components/modals/IntroSeverityGuide.tsx:54-71 | Controlled: visible equals the prop. Uncontrolled with the option: visible iff the stored value is not `'1'`, and visible when the read fails. Without the option: always visible. |
| IntroSeverityGuide.HiddenOnlyWhenRemembered | components/modals/IntroSeverityGuide.tsx:60-71 | An uncontrolled guide starts hidden exactly when the option is on and `'1'` was read. |
| IntroSeverityGuide.IntroGuide.constructor | components/modals/IntroSeverityGuide.tsx:35-45 | Hidden and unchecked until the effect settles. |
| IntroSeverityGuide.IntroGuide.SetProps | components/modals/IntroSeverityGuide.tsx:73 | The effect re-runs exactly when one of its dependencies changed. |
| IntroSeverityGuide.IntroGuide.EffectSettles | components/modals/IntroSeverityGuide.tsx:47-73 | The development reset removes the flag first, and its failure is ignored. A controlled guide never reads storage. An uncontrolled guide with the option reads it once. The visibility is `DecideVisible` of what was read. |
| IntroSeverityGuide.IntroGuide.ToggleDontShowAgain | components/modals/IntroSeverityGuide.tsx:144 | The checkbox flips `dontShowAgain`; the props, visibility, close requests and any pending effect are unchanged. |
| IntroSeverityGuide.IntroGuide.Close | components/modals/IntroSeverityGuide.tsx:76-86 | `'1'` is written only when uncontrolled, remembering and checked. The guide always hides and `onRequestClose` is called, even when the write throws; the throw is reported. The props, the checkbox and any pending effect are unchanged. |
| IntroSeverityGuide.CloseThenRemount | components/modals/IntroSeverityGuide.tsx:60-86 | After closing with "don't show again" checked, the next mount stays hidden. |

## Left out

- Floating point is modelled as exact `real`. NaN, infinities and rounding
  in `(rain - 10) / 60`, in `Math.round` and in progress arithmetic are not
  modelled.
- `Decimal.NatToString` renders counters and minute counts. JavaScript's
  exponent notation for numbers from 1e21 up is not modelled.
- `JsString.ToLower` maps only A–Z and the Kelvin sign. These are the only
  characters whose lower case begins with an ASCII letter, apart from U+0130,
  whose lower case starts with `i` and cannot form `ko`, `ja` or `zh`. Full
  Unicode case mapping is not modelled.
- The `id ?? title` and non-numeric-timestamp fallbacks of the list rows, and
  the null-coordinate guards of the toasts and list rows, cannot trigger:
  every stored alert has an id, a numeric timestamp and a location.
- `randomPointInRadius` is not modelled, because it uses trigonometry and
  `Math.random`; the sampled location is a parameter of the tick. The same
  goes for `coordLabel` (`toFixed`), for `reverseGeocode` (HTTP) and for
  `Image.resolveAssetSource`.
- Storage is modelled as one optional string, with failures as parameters.
  AsyncStorage itself is not part of this model.
- Effects are re-run by value changes of their data dependencies. Re-runs
  caused only by new callback identities are not modelled: the store's
  callbacks get new identities whenever its memoised value is recomputed,
  and with them the user toast would re-show and the forecaster's interval
  would restart.
- A value-equal but new pointer object does not re-run an effect in the
  model; React compares by identity. The same holds for the forecaster's
  `center`: the model compares it by value, while the app passes a state
  object that React compares by identity.
- ReportForm.Upload, IntroGuide.SetProps and IntroGuide.EffectSettles: one
  upload and one effect run are modelled in flight at a time. A `reset` during
  an upload followed by a second upload replaces the first job in the model,
  while the source keeps both promises and each adds a user alert. A prop
  change during a pending storage read is merged into one run in the model,
  while in the source the stale run still settles and the last `setVisible`
  wins. The app's own parents never cause either sequence.
- Animations are reduced to their completion events, and timer delays to
  recorded constants; no clock advances.
- `console.warn` / `console.log` and the button width used to draw the
  progress bar are not modelled.
- ForecastOverlay.Render: `maxCount` is an integer; a fractional count, which
  `slice` truncates, is not modelled.
- The 15-character limit on the note is enforced by the text input widget
  and is not modelled.
- The guide's row colours, the toast styles and every other presentational
  detail are left out.

## Findings

| source | as written | input that shows it | evidently intended | confidence | as-written member | corrected member |
|---|---|---|---|---|---|---|
| components/notification/tost/SystemAlertToast.tsx:48-59 | The hide timer calls the `dismiss` closure of the render that scheduled it. That closure reads that render's `visible`, which is still `false` when an alert arrives at a hidden toast, so `dismiss` returns at once. | A first system alert arriving while the toast is hidden. Its 3.5 s timer fires and the toast stays on screen with the pointer still set. | The timer hides the toast after 3.5 s, as the header comment says. | not executed | SystemAlertToast.FirstToastStaysAsWritten | SystemAlertToast.SystemAlertToast.HideTimerFiresCorrected |
