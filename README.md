# Portfolio components: a verified model

This project models the logic inside a React portfolio site and its weather proxy function:

- the sign-up form's per-field validator and controlled-form state;
- the toast provider's list and one toast's close timers;
- the music card's playback clock and `m:ss` formatter;
- the weather widget's 24-hour location cache and fetch lifecycle;
- the serverless weather proxy's response decision table;
- the KPI card's chart geometry.

Each core source file has its own module:

| module | source |
|---|---|
| `FormTypes` | `src/components/Form/types.ts` |
| `Validators` | `src/components/Form/validators.ts` |
| `ControlledForm` | `src/components/Form/ControlledForm.tsx` |
| `ToastContainer` | `src/components/ToastContainer.tsx` |
| `ToastNotification` | `src/components/ToastNotification.tsx` |
| `MusicCard` | `src/components/MusicCard.tsx` |
| `Weather` | `src/components/Weather.tsx` |
| `WeatherApi` | `api/weather.js` |
| `KpiCard` | `src/components/KPICard.tsx` |

`Wrappers` holds `Option` and `Result`.

The modelling follows the form of the source:

- **Pure code becomes functions.** Validation, merging of errors, date arithmetic, the decision table and the chart geometry are functions with lemmas.
- **State becomes classes.** React state and the Node response object are classes whose methods change their fields:
  - form: `FormComponent`;
  - toasts: `ToastProvider` and `ToastLifecycle`;
  - music card: `Playback`;
  - weather: `LocationStorage` and `WeatherWidget`;
  - proxy: `ServerResponse`;
  - KPI card: `HoverState`.
- **Each method is tied to a specification function.** `HandleChange` is tied to `ApplyChange`/`MergeErrors`, `RemoveToast` to `Remove`, `GetUserLocation` to `ResolveLocation`, `Handler` to `Dispatch`, and so on. The properties are proved about that function.
- **Outside effects become parameters.**
  - Timers become an explicit millisecond clock with pending firing times.
  - `Date.now()` becomes a `now` parameter.
  - `crypto.randomUUID()` becomes an id parameter.
  - Browser storage becomes a map from keys to parsed stored text.
  - Geolocation, the weather fetch and the upstream fetch are given as their outcomes.

## Model

| member | source | states |
|---|---|---|
| `Validators.ValidateField` | src/components/Form/validators.ts:8-50 | At most the validated key is present, always with a message. The email rule fails iff the text has no '@'. A password under 8 characters gets exactly the length error. A longer one fails iff the email's part before the first '@' is non-empty and occurs in it, case-insensitively. confirmPassword fails iff it differs from `form.password`. acceptTerms fails iff the value is not `true`. |
| `Validators.Includes` | src/components/Form/validators.ts:29 | `includes` is true iff the substring occurs at some index. |
| `Validators.IncludesChar` | src/components/Form/validators.ts:12 | Including the string "@" is the same as containing the character '@'. |
| `Validators.EmailPart` | src/components/Form/validators.ts:25 | `split('@')[0]` is a prefix of the email without '@', ended by the first '@' when shorter than the email. |
| `Validators.ToLower` | src/components/Form/validators.ts:29 | Lowercasing keeps the length and lowers each character. |
| `Validators.ValidationMessages` | src/components/Form/validators.ts:11-47 | The exact message of each rule. |
| `Validators.ToLowerIdempotent` | src/components/Form/validators.ts:29 | Lowercasing twice is lowercasing once. |
| `Validators.PasswordRuleIgnoresCase` | src/components/Form/validators.ts:27-30 | Lowercasing the password never changes the password verdict. |
| `Validators.NoAtSignWholeEmailIsPart` | src/components/Form/validators.ts:25 | Without '@', the whole email is its own part. |
| `ControlledForm.EventValue` | src/components/Form/ControlledForm.tsx:22-23 | A checkbox gives its `checked` flag; any other input gives its text. |
| `ControlledForm.IsCheckbox` | src/components/Form/ControlledForm.tsx:23 | Only acceptTerms is a checkbox. A field is a text input iff it is email, password or confirmPassword. |
| `ControlledForm.ApplyChange` | src/components/Form/ControlledForm.tsx:25-26 | Only the named field changes, to the event's value. |
| `ControlledForm.MergeErrors` | src/components/Form/ControlledForm.tsx:34-38 | The validated key is always present with the validator's entry for it, or `undefined`. Every other key is in the result iff it was in either map, and a new entry wins over an old one. |
| `ControlledForm.MergeOverridesOneKey` | src/components/Form/ControlledForm.tsx:28-38 | After the merge, the validated key holds the validator's verdict (explicitly `undefined` when it passes). Every other key is present and valued as before. |
| `ControlledForm.Truthy` | src/components/Form/ControlledForm.tsx:45 | An error is falsy iff it is absent or the empty string. |
| `ControlledForm.FormComponent.constructor` | src/components/Form/ControlledForm.tsx:12-19 | Three empty texts, terms unticked, no errors, and so not valid. |
| `ControlledForm.NoErrors` | src/components/Form/ControlledForm.tsx:45 | Every value being falsy is the same as every field's `errors[name]` being falsy, whether the key is present or not. |
| `ControlledForm.IsFormValid` | src/components/Form/ControlledForm.tsx:44-49 | A valid form shows no error, has three non-empty texts, and passes the terms rule. |
| `ControlledForm.FormComponent.HandleChange` | src/components/Form/ControlledForm.tsx:21-42 | The new form is the changed form. The errors are the merge of the old errors with the validator's result, which was computed against the updated form. |
| `ControlledForm.FormComponent.HandleSubmit` | src/components/Form/ControlledForm.tsx:51-56 | The form is submitted iff it is valid, and what is submitted is the current form. |
| `ControlledForm.StepWithoutError` | src/components/Form/ControlledForm.tsx:34-38 | A change that passes its rule sets its key to `undefined` and keeps the others. |
| `ControlledForm.FillingInRun` | src/components/Form/ControlledForm.tsx:21-42 | Four acceptable changes in order give the filled form with every key `undefined`. |
| `ControlledForm.FillingInMakesFormValid` | src/components/Form/ControlledForm.tsx:44-49 | Filling in the four inputs acceptably makes the form valid. |
| `ControlledForm.StaleConfirmError` | src/components/Form/ControlledForm.tsx:34-38 | Typing the confirmation before the password leaves a stale "Passwords do not match" error even though the texts agree, so the form stays invalid. |
| `ToastContainer.WithId` | src/components/ToastContainer.tsx:34 | The caller's fields are kept and the new id is added. |
| `ToastContainer.Remove` | src/components/ToastContainer.tsx:38 | The filter keeps exactly the toasts whose id differs, and never grows the list. |
| `ToastContainer.RemoveIsSubsequence` | src/components/ToastContainer.tsx:38 | The survivors keep their order. |
| `ToastContainer.RemoveAppend` | src/components/ToastContainer.tsx:38 | The filter distributes over concatenation. |
| `ToastContainer.RemoveAbsent` | src/components/ToastContainer.tsx:38 | Removing an unused id changes nothing. |
| `ToastContainer.RemoveLeavesNoId` | src/components/ToastContainer.tsx:38 | No survivor has the removed id. |
| `ToastContainer.RemoveIdempotent` | src/components/ToastContainer.tsx:37-39 | Removing twice is removing once, so a second `onClose` for the same toast is harmless. |
| `ToastContainer.AddThenRemove` | src/components/ToastContainer.tsx:32-39 | Adding under a fresh id, then removing that id, restores the list. |
| `ToastContainer.AppendFreshKeepsDistinct` | src/components/ToastContainer.tsx:32-35 | Appending under a fresh id keeps ids pairwise distinct. |
| `ToastContainer.RemoveKeepsDistinct` | src/components/ToastContainer.tsx:37-39 | Removal keeps ids pairwise distinct. |
| `ToastContainer.ToastProvider.constructor` | src/components/ToastContainer.tsx:30 | The list starts empty. |
| `ToastContainer.ToastProvider.AddToast` | src/components/ToastContainer.tsx:32-35 | The new toast is appended at the end. Distinct ids stay distinct when the id is fresh. |
| `ToastContainer.ToastProvider.RemoveToast` | src/components/ToastContainer.tsx:37-39 | The list becomes the filtered list: an order-preserving subsequence without the id, with distinct ids kept distinct. |
| `ToastNotification.EffectiveVariant` | src/components/ToastNotification.tsx:44 | The variant defaults to info only when absent. |
| `ToastNotification.EffectiveDuration` | src/components/ToastNotification.tsx:45 | The duration defaults to 4000 only when absent. |
| `ToastNotification.ToLong` | src/components/ToastNotification.tsx:60-62 | The timeout converted to a Web IDL `long`: in the signed 32-bit range and equal to the timeout modulo 2^32. |
| `ToastNotification.TimerDelay` | src/components/ToastNotification.tsx:60-62 | A timeout in [0, 2^31) is waited in full. A negative one, or one in [2^31, 2^32) that wraps negative, fires at once. Any positive wait equals the timeout modulo 2^32 and stays below 2^31. |
| `ToastNotification.VariantStyle` | src/components/ToastNotification.tsx:13-38 | Each of the icons ℹ️, ✓, ⚠ and ✕ belongs to exactly one variant: info, success, warning and error respectively. |
| `ToastNotification.VariantIcons` | src/components/ToastNotification.tsx:13-38 | The icons are ℹ️, ✓, ⚠ and ✕, one per variant, pairwise distinct. |
| `ToastNotification.DueCount` | src/components/ToastNotification.tsx:53-55 | A single timer counts 1 iff it is due by `t`. No timer is due iff all fire after `t`, and all are due iff the count equals the number pending. Never more than the number pending. |
| `ToastNotification.DueCountAppend` | src/components/ToastNotification.tsx:53-55 | The due count of two runs of armed timers is the sum of their counts, so each due timer is counted once. |
| `ToastNotification.StillPending` | src/components/ToastNotification.tsx:53-55 | Exactly the timers firing after `t` remain, and due plus remaining equals pending. |
| `ToastNotification.ToastLifecycle.Visible` | src/components/ToastNotification.tsx:75 | A visible toast is mounted and not closing, and in a valid state it has no `onClose` timer pending. |
| `ToastNotification.ToastLifecycle.constructor` | src/components/ToastNotification.tsx:48-49 | The toast starts unmounted, not closing and not visible, with no timers. |
| `ToastNotification.ToastLifecycle.RunEffect` | src/components/ToastNotification.tsx:58-64 | The toast is mounted, and the auto-dismiss is re-armed at `now + TimerDelay(duration)`, the Web IDL `long` delay. |
| `ToastNotification.ToastLifecycle.HandleClose` | src/components/ToastNotification.tsx:51-56 | The toast is closing and invisible, and a 300 ms `onClose(id)` timer is armed. |
| `ToastNotification.ToastLifecycle.Unmount` | src/components/ToastNotification.tsx:63 | The cleanup clears the auto-dismiss and nothing else. |
| `ToastNotification.ToastLifecycle.Advance` | src/components/ToastNotification.tsx:51-64 | A due auto-dismiss runs `handleClose` at its own time. The calls made are the due 300 ms timers, and the rest stay pending. Callers stop at each `onClose` and call `Unmount`, as the provider's removal does. |
| `ToastNotification.AutoDismissScenario` | src/components/ToastNotification.tsx:51-64 | A default toast is visible for 4000 ms, then closes, and calls `onClose` exactly once 300 ms later. |
| `ToastNotification.ClickThenTimeoutScenario` | src/components/ToastNotification.tsx:51-64 | A toast added with no duration and clicked 200 ms before its timeout gets two `onClose` calls. At the first the provider drops it and the cleanup runs. The provider's second removal changes nothing. |
| `ToastNotification.MountAndClick` | src/components/ToastNotification.tsx:51-64 | Mounted at 0 with the default duration and clicked at 3800 ms, the toast is closing. Its `onClose` is armed for 4100 ms and the auto-dismiss stays armed for 4000 ms. |
| `ToastNotification.DismissAfterClick` | src/components/ToastNotification.tsx:51-64 | After that click, the auto-dismiss still fires at 4000 ms and arms a second `onClose` for 4300 ms. Exactly one call is made by 4100 ms. |
| `MusicCard.JsRemainder60` | src/components/MusicCard.tsx:113 | `%` takes the dividend's sign and pairs with the truncated quotient. |
| `MusicCard.PadStart` | src/components/MusicCard.tsx:114 | `padStart` reaches the width on the left and keeps the text as its suffix. |
| `MusicCard.NatToString` | src/components/MusicCard.tsx:114 | Decimal digits with no leading zero; a single digit exactly below 10. |
| `MusicCard.IntToString` | src/components/MusicCard.tsx:112-114 | `String(i)` starts with a minus sign iff `i` is negative. A non-negative `i` prints as digits that read back as `i`; for a negative one the digits after the sign read back as `-i`. |
| `MusicCard.ParseNatOfNatToString` | src/components/MusicCard.tsx:114 | The decimal text reads back as the number. |
| `MusicCard.SecondsTextShape` | src/components/MusicCard.tsx:113-114 | For a time of at least 0, the seconds text is two digits whose value is `time % 60`, below 60. |
| `MusicCard.Minutes` | src/components/MusicCard.tsx:112 | `Math.floor(time / 60)` is the `m` with `60m <= time < 60m + 60`, and it is at least 0 for a time of at least 0. |
| `MusicCard.Seconds` | src/components/MusicCard.tsx:113 | For a time of at least 0, `time % 60` is below 60 and adds to the whole minutes to give the time. For a negative time it lies in (-60, 0]. |
| `MusicCard.SecondsText` | src/components/MusicCard.tsx:114 | The padded seconds have at least two characters, exactly two for a time of at least 0. A negative remainder keeps its minus sign in front. |
| `MusicCard.FormatTime` | src/components/MusicCard.tsx:111-115 | For a time of at least 0 the text is digits, a colon, and exactly two digits. |
| `MusicCard.FormatTimeRoundTrip` | src/components/MusicCard.tsx:111-115 | For a time of at least 0, minutes·60 + seconds = time, and the `m:ss` text parses back to the time. |
| `MusicCard.NegativeTimeDisplay` | src/components/MusicCard.tsx:111-115 | At -5, minutes are -1 and seconds -5, and the two parts no longer add up. |
| `MusicCard.NextTime` | src/components/MusicCard.tsx:97-100 | A tick adds one second below the duration and sticks at the duration otherwise. |
| `MusicCard.DurationIsFixedPoint` | src/components/MusicCard.tsx:98 | Once at the duration, ticks stay there. |
| `MusicCard.TicksFromZero` | src/components/MusicCard.tsx:96-101 | k ticks from 0 reach min(k, duration) and never leave [0, duration]. |
| `MusicCard.Playback.constructor` | src/components/MusicCard.tsx:87-88 | The card starts paused at 0. |
| `MusicCard.Playback.TogglePlay` | src/components/MusicCard.tsx:171 | The button flips `isPlaying`, leaves the clock alone, and keeps the clock within the duration. |
| `MusicCard.Playback.Tick` | src/components/MusicCard.tsx:93-104 | A tick advances the clock only while playing, and the clock stays within [0, duration]. |
| `MusicCard.Playback.Labels` | src/components/MusicCard.tsx:163-166 | Both labels read back as the times they show. |
| `Weather.IsFresh` | src/components/Weather.tsx:29-32 | The hours test holds iff the entry is less than 86,400,000 ms old. |
| `Weather.GetWeather` | src/components/Weather.tsx:90-108 | Data comes only from an ok response. A non-ok response throws its `error` text, or "Error al obtener el clima" when that is missing or empty. A request that throws passes on what it threw. |
| `Weather.LocationStorage.GetStoredLocation` | src/components/Weather.tsx:22-44 | A fresh entry is returned and kept. A stale or unreadable one is removed and nothing is returned. An absent or empty one returns nothing and stays. |
| `Weather.LocationStorage.SaveLocation` | src/components/Weather.tsx:46-57 | The coordinates are stored stamped with `now`; a failed write changes nothing. |
| `Weather.LocationStorage.GetUserLocation` | src/components/Weather.tsx:59-88 | The location is `ResolveLocation` of the storage as it was, and the storage becomes `StorageAfter` of it. |
| `Weather.Cached` | src/components/Weather.tsx:24-34 | Storage answers iff it holds a location stored less than 86,400,000 ms ago. |
| `Weather.StorageAfter` | src/components/Weather.tsx:22-88 | No key but the location key changes. A cache hit leaves storage alone. Otherwise a granted position is written unless the write fails. In every other case the key stays only if it held the empty text. Afterwards the key never holds unreadable or stale text. |
| `Weather.ResolveLocation` | src/components/Weather.tsx:59-88 | Fresh cached coordinates come first. Otherwise: a position gives Ok; unsupported rejects with "Geolocalización no soportada"; a denial rejects with a non-`Error`. |
| `Weather.CacheShortCircuitsGeolocation` | src/components/Weather.tsx:60-64 | With a fresh entry the geolocation outcome does not matter. |
| `Weather.SavedLocationIsCached` | src/components/Weather.tsx:46-64 | Right after a save, the next lookup answers from the cache with the saved coordinates. |
| `Weather.SavedLocationExpires` | src/components/Weather.tsx:28-38 | A saved entry answers iff less than 24 hours have passed since it was saved. |
| `Weather.Render` | src/components/Weather.tsx:133-151 | Loading wins, then a non-empty error, then the weather, otherwise nothing is shown. |
| `Weather.ErrorMessage` | src/components/Weather.tsx:124 | The shown message of an `Error` is its message; anything else shows "Error al cargar el clima". |
| `Weather.FetchOutcome` | src/components/Weather.tsx:117-124 | The fetch succeeds iff the location resolves and the response is ok, with that response's data. A failed location is the error, before any request. Otherwise the request's error. |
| `Weather.ViewAfterFetch` | src/components/Weather.tsx:117-151 | After the fetch, success shows the new weather and an error shows its message. An error with an empty message shows the previous weather or nothing. |
| `Weather.WeatherWidget.constructor` | src/components/Weather.tsx:111-113 | The widget starts loading with no weather and no error. |
| `Weather.WeatherWidget.View` | src/components/Weather.tsx:133-151 | Loading shows the loading view, then a non-empty error its message, then the weather or nothing. |
| `Weather.WeatherWidget.FetchWeather` | src/components/Weather.tsx:116-128 | Loading ends on both paths. Success stores the data and leaves no error. Failure stores the message and keeps the old weather. The storage becomes `StorageAfter` of what it held. |
| `WeatherApi.Truthy` | api/weather.js:25 | A query value or key is falsy iff it is absent or the empty string. |
| `WeatherApi.ReachesUpstream` | api/weather.js:12-39 | The request gets past the guards iff it is a GET with non-empty `lat` and `lon` and the key is configured and non-empty. |
| `WeatherApi.UpstreamReply` | api/weather.js:46-59 | A thrown fetch gives 500. A non-ok response gives 500 when its body is JSON `null`, otherwise its status with `error.message` or the default text. An ok response forwards the JSON body with 200, or gives 500 when the body is unreadable. |
| `WeatherApi.Dispatch` | api/weather.js:11-59 | OPTIONS gives 200 with no body. Any other non-GET gives 405. Missing coordinates give 400. A missing key gives 500. Otherwise the upstream reply. Only the preflight has an empty body. |
| `WeatherApi.UpstreamOnlyWhenReached` | api/weather.js:11-39 | Before the upstream call, the reply does not depend on the upstream outcome. |
| `WeatherApi.SuccessIsPreflightOrPassThrough` | api/weather.js:11-59 | For a response in which `ok` means a 2xx status, a 200 reply is the preflight, or a request that reached the upstream, answered ok, and had its parsed body forwarded unchanged. |
| `WeatherApi.ServerResponse.SetHeader` | api/weather.js:7-9 | Sets one header; status and body are unchanged. |
| `WeatherApi.ServerResponse.Send` | api/weather.js:13 | Sets the status and the body; headers are unchanged. |
| `WeatherApi.Handler` | api/weather.js:5-61 | The three CORS headers are added whatever the outcome, and the sent status and body equal `Dispatch`. |
| `KpiCard.Min` | src/components/KPICard.tsx:30 | The minimum is one of the values and below or equal to all of them. |
| `KpiCard.Max` | src/components/KPICard.tsx:31 | The maximum is one of the values and above or equal to all of them. |
| `KpiCard.Range` | src/components/KPICard.tsx:32 | `max - min`, or 1 when all values are equal, and always positive. |
| `KpiCard.YPosition` | src/components/KPICard.tsx:48-49 | The drop from the bottom edge, times the range, is the value's distance above the minimum, times 100. |
| `KpiCard.YPositionEnds` | src/components/KPICard.tsx:48-49 | The minimum maps to 100. When the values differ the maximum maps to 0; when they are all equal every value maps to 100. |
| `KpiCard.YPositionReversesOrder` | src/components/KPICard.tsx:48-49 | v < w iff v is drawn lower than w. |
| `KpiCard.YPositionInChart` | src/components/KPICard.tsx:48-49 | Every data value is drawn within [0,100]. |
| `KpiCard.XPosition` | src/components/KPICard.tsx:281-283 | A single point sits at 50. Otherwise the first point is at 0 and the last at 100, and every point lies within [0,100]. |
| `KpiCard.XPositionStep` | src/components/KPICard.tsx:283 | Consecutive points are 100/(n-1) apart, left to right. |
| `KpiCard.HitArea` | src/components/KPICard.tsx:286-308 | The branch-by-branch rectangle spans exactly from the midpoint with the previous point to the midpoint with the next. |
| `KpiCard.AreaStart` | src/components/KPICard.tsx:290-307 | The first area starts at 0. Every later one starts half-way between the previous point and its own, within [0,100]. |
| `KpiCard.AreaEnd` | src/components/KPICard.tsx:290-307 | The last area ends at 100. Every earlier one ends half-way between its own point and the next, within [0,100]. |
| `KpiCard.SingleAreaIsWholeChart` | src/components/KPICard.tsx:287-288 | A single point's area is [0,100] around x = 50. |
| `KpiCard.AreasTile` | src/components/KPICard.tsx:290-307 | The first area starts at 0 and the last ends at 100; each ends where the next begins. |
| `KpiCard.PointInOwnArea` | src/components/KPICard.tsx:281-308 | Each point lies inside its own non-empty area. |
| `KpiCard.AreasOrdered` | src/components/KPICard.tsx:286-308 | Earlier areas end before later ones begin, so no two areas overlap. |
| `KpiCard.HitIsUnique` | src/components/KPICard.tsx:286-308 | Every position in [0,100) lies in exactly one area. |
| `KpiCard.AreaWidthsSumToChart` | src/components/KPICard.tsx:286-308 | The widths add up to 100. |
| `KpiCard.BarColourOf` | src/components/KPICard.tsx:146-148 | A bar is red iff its value is negative or below its predecessor. The first bar is red iff it is negative. |
| `KpiCard.IsDrop` | src/components/KPICard.tsx:147 | The first bar is never a drop. Any later bar is a drop iff it is below its predecessor. |
| `KpiCard.AllBlueIffNonNegativeNonDecreasing` | src/components/KPICard.tsx:199 | All bars are blue iff no value is negative and none falls below its predecessor. |
| `KpiCard.ZeroBaseline` | src/components/KPICard.tsx:38-43 | `hasNegativeValues` holds iff min < 0, and `zeroPositionFromTop = 1 - zeroPositionFromBottom`. With a negative value, zero sits at (0 - min) / barRange from the bottom. Without negatives the two are 0 and 1. |
| `KpiCard.BarRangeAsWritten` | src/components/KPICard.tsx:39 | With a negative value the scale is max - min, otherwise max. When every value is negative it is shorter than the distance from min up to zero. |
| `KpiCard.BarLayoutAsWritten` | src/components/KPICard.tsx:37-43 | The chart's own zero baseline on the scale `BarRangeAsWritten`, with zero at (0 - min) / barRange when a value is negative. |
| `KpiCard.AllNegativeZeroLineOffChart` | src/components/KPICard.tsx:39-43 | For [-10, -5] the zero line is twice the chart's height above its bottom and the -10 bar is 200% tall. |
| `KpiCard.BarRange` | src/components/KPICard.tsx:39 | The corrected scale is positive when a value is negative, covers both -min and max - min, and matches the chart unless every value is negative. |
| `KpiCard.BarLayoutOf` | src/components/KPICard.tsx:38-43 | The corrected baseline on the scale `BarRange`, with zero at (0 - min) / barRange. It puts the zero line inside the chart whenever a value is negative. |
| `KpiCard.ZeroInsideChart` | src/components/KPICard.tsx:42 | On the corrected scale, 0 < zeroPositionFromBottom ≤ 1. |
| `KpiCard.AsWrittenAgreesWithoutAllNegative` | src/components/KPICard.tsx:39 | When some value is not negative, the chart's layout equals the corrected one. |
| `KpiCard.HeightPercent` | src/components/KPICard.tsx:151 | The height times the scale is the value's magnitude times 100, and is never negative on a positive scale. |
| `KpiCard.BarFits` | src/components/KPICard.tsx:151-184 | A bar between min and max has a non-negative height. A negative bar ends above the chart's bottom and a positive one below its top. |
| `KpiCard.BarsFitInChart` | src/components/KPICard.tsx:151-184 | On the corrected layout every bar of the data stays inside the chart. |
| `KpiCard.HeaderBadge` | src/components/KPICard.tsx:79-84 | ▲ iff the percentage is ≥ 0, otherwise ▼, with the magnitude `Math.abs(percentage)`. |
| `KpiCard.ProgressToTarget` | src/components/KPICard.tsx:60-61 | `value / target * 100`. A zero target gives +∞, -∞ or NaN according to the value's sign. |
| `KpiCard.TargetText` | src/components/KPICard.tsx:93-101 | Shown only on line charts with a target. "Meta alcanzada" iff the progress is ≥ 100 (NaN never is); otherwise the progress. |
| `KpiCard.TargetReachedMeans` | src/components/KPICard.tsx:98-100 | Reached iff value ≥ target for a positive target, value ≤ target for a negative one, and value > 0 for a zero target. |
| `KpiCard.AtLeastHundred` | src/components/KPICard.tsx:98 | Holds for a finite progress iff it is at least 100, always for +∞, and never for NaN or -∞. |
| `KpiCard.HoverState.constructor` | src/components/KPICard.tsx:26-27 | Nothing is hovered and no position is recorded. |
| `KpiCard.HoverState.PointMouseEnter` | src/components/KPICard.tsx:311-329 | The point becomes hovered. Its position is recorded only when the screen transform is available, otherwise the old one stays. |
| `KpiCard.HoverState.SvgMouseLeave` | src/components/KPICard.tsx:227-230 | Hover index and position are cleared, so the tooltip hides. |
| `KpiCard.HoverState.BarMouseEnter` | src/components/KPICard.tsx:190-192 | The bar becomes hovered; the position is unchanged. |
| `KpiCard.HoverState.BarMouseLeave` | src/components/KPICard.tsx:193-195 | The hovered index is cleared; the position is unchanged. |
| `KpiCard.HoverState.TooltipShown` | src/components/KPICard.tsx:108 | The tooltip is only ever up on a line chart. There it is up iff a point is hovered and its position is known. |

## Findings

| source | as written | input that shows it | evidently intended | confidence | as-written member | corrected member |
|---|---|---|---|---|---|---|
| src/components/KPICard.tsx:39 | When some value is negative the bar scale is `max - min`, even when every value is negative, so the scale does not reach zero. With equal negative values it is 0 and line 42 divides by it. | bar data [-10, -5]: the zero line sits at 200% from the bottom (-100% from the top), and the -10 bar is 200% tall | the scale spans from the minimum to zero or the maximum, whichever is higher (`max(max, 0) - min`), so the zero line and every bar stay inside the chart | medium; not executed | `KpiCard.AllNegativeZeroLineOffChart` | `KpiCard.BarLayoutOf` |

`KpiCard.BarLayoutAsWritten` is the layout as written. `KpiCard.AsWrittenAgreesWithoutAllNegative` proves that the fix changes nothing as long as some value is not negative.

## Left out

- Rendering: JSX markup, CSS classes other than the toast variant table, and SVG attributes are not modelled. The KPI polyline point-string builder (KPICard.tsx:51-58) and the tooltip's screen coordinates from `getScreenCTM` are left out as well; the hover handler receives that position as a parameter.
- KPI hover: the circular hit area of radius 12 around each point (KPICard.tsx:344-351) overlaps its neighbours and is not modelled. The tiling results are about the rectangles only.
- Number formatting: `toLocaleString` and `toFixed` are not modelled. The target text keeps the progress as a number rather than its text.
- Floating point: the KPI geometry and the 24-hour age use exact reals. IEEE rounding, and NaN from non-numeric stored fields, are not modelled.
- KPI data is never empty in the model. `Math.min()` of no values is `Infinity`, which the model does not represent.
- `KpiCard.BarLayoutAsWritten`: requires that negative data not be all equal. There the chart divides by a zero scale and the zero line goes to infinity. The corrected layout has no such case.
- `KpiCard.HeightPercent`: requires a non-zero scale. Bar data that is all zeros divides 0 by 0 in the chart.
- `KpiCard.BarRange`: this is the corrected scale from the finding, a departure from the source on purpose. The source's scale is `KpiCard.BarRangeAsWritten`.
- Music card: `darkenColor` and the progress percentage are not modelled. They are floating-point colour arithmetic and a division by the duration. Times are whole seconds, so a fractional duration prop is not modelled.
- Toasts:
  - Timers are a clock advanced by `Advance`, and React's scheduling and batching are not modelled.
  - The `useToast` context lookup and its error outside a provider are not modelled.
  - A fractional or NaN duration is not modelled.
  - The id is a parameter: `crypto.randomUUID()` is not modelled, and its freshness is a hypothesis of the lemmas that need it.
- Form: `handleSubmit` logs the form with `console.log`; the model returns the logged form instead. `toLowerCase` lowers only ASCII letters. Lengths count characters, not UTF-16 code units. The inputs' types follow the rendered markup: only acceptTerms is a checkbox.
- Weather:
  - `localStorage` throwing on read or remove is not modelled; a failed write is a flag.
  - `JSON.parse` is a parsed stored value: a location, the empty string, or anything else. Other text that fails to parse, JSON `null`, and JSON whose `timestamp` is missing or does not convert to a number are all removed and give nothing; the model treats them as unreadable.
  - A stored JSON object with a fresh `timestamp` but a missing or non-numeric `lat` or `lon` (such as `{"timestamp": <now>}`) is not representable. The code returns it from the cache, and `getUserLocation` resolves with `lat`/`lon` set to `undefined`.
  - Between the cache check and the save, geolocation takes time; the model uses one `now` for both.
  - The weather request's URL, and which coordinates it carries, are not modelled. The response is an input.
- Weather proxy:
  - The request's method is a plain string.
  - `res.json` also sets a `Content-Type` header, which is not modelled.
  - The upstream URL and the key inside it are not modelled.
  - Logging (`console.error`, `console.warn`) is left out as I/O.
  - An ok response's body is forwarded as its text.
- UpstreamReply: an `error.message` that is truthy but not a string (a number, an object) is forwarded by the code as that value. The model only carries string messages, so such a body gets the default text.
