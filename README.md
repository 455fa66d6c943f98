# Adhan service worker — a Dafny model

This project models the service worker `sw.js` of an Islamic prayer-times web app. The worker does four things:

- It answers fetches from its cache first and falls back to the network.
- It accepts a `SCHEDULE_NOTIFICATIONS` message from the page.
- On that message it schedules one time-triggered notification per daily prayer.
- When a notification is clicked, it focuses an open window whose URL is exactly the notification's URL, or else opens a new window there. The worker's own notifications carry the bare origin as that URL, which no window URL equals, so for them a new window is always opened (see "## Findings").

The modules follow the parts of the worker:

- `Clock` (clock.dfy): abstract local time and the trigger-instant arithmetic. It also parses the leading `HH:MM` of a timing string such as `"17:45 (EET)"`.
- `Prayers` (prayers.dfy): the five prayers, their fixed order and their tags `adhan-<Prayer>`.
- `Fetch` (fetch.dfy): the cache-first fetch handler.
- `Messages` (messages.dfy): the message dispatch.
- `Click` (click.dfy): the choice of window on a notification click.
- `Scheduler` (scheduler.dfy): the scheduler. The worker's `self.registration` is the class `Registry`. Its `notifications` field is a map from tag to notification, and its methods change that map in place.

Each method is proved against a specification function:

- `Plan` is the run the scheduler makes.
- `Apply` is the resulting set of notifications.

The lemmas state what such a run guarantees.

What the worker does, and does not do:

- **Fetch:** one cache answers first for every request, with no network-first or stale-while-revalidate strategy and no offline page.
- **Tags:** a notification's tag is `adhan-<Prayer>`, without a timestamp.
- **Missing timing:** a missing entry throws out of the loop instead of being skipped.
- **Messages:** only `SCHEDULE_NOTIFICATIONS` is handled.
- **Click target:** the click handler compares full URLs, not paths.
- **Clearing:** the clear is a `getNotifications({tag: 'adhan-'})` query. Under the Notifications API Standard this returns only a notification whose tag EQUALS `adhan-`, so it never closes a prayer notification.
- **Re-scheduling:** two notifications for one prayer are still prevented, because a new notification replaces the one with the same tag (`Scheduler.RescheduleKeepsTags`).
- **Stale notifications:** a prayer whose new registration rejects, or is never reached, keeps its old notification (`Scheduler.StoreAfterRun`, `Scheduler.AbortKeepsLaterPrayers`).

Time is a whole number of milliseconds on the local wall clock. A day is always 86 400 000 ms long.

## Model

| member | source | states |
|---|---|---|
| Clock.Offset | sw.js:71 | HH:MM:00 is less than one day after midnight when HH < 24 and MM < 60 |
| Clock.SameDayAt | sw.js:71 | for a valid HH:MM the instant lies on the same local day as `now` at HH:MM:00.000; otherwise it is still not before that day's midnight |
| Clock.StartOfDay | sw.js:70-71 | the local midnight of `now` is at most `now`, less than a day before it, and a whole number of days |
| Clock.NextOccurrence | sw.js:71-76 | the trigger is never before `now`, and it is the same-day instant or that instant plus one day |
| Clock.RollForwardExactlyOneDay | sw.js:73-76 | the trigger is exactly 24 hours after the same-day instant if and only if that instant is strictly before `now`; otherwise it is the same-day instant |
| Clock.NextOccurrenceWithinADay | sw.js:71-76 | for a valid HH:MM the trigger lies in [now, now + 1 day) and its time of day is HH:MM:00.000 |
| Clock.NextOccurrenceIsUnique | sw.js:71-76 | the trigger is the only instant in [now, now + 1 day) whose time of day is HH:MM:00.000 |
| Clock.SplitFirst | sw.js:67-68 | the first field holds no separator; either there is no separator and the field is the whole text, or the text is field + separator + rest |
| Clock.ToNumber | sw.js:68 | a number comes out exactly for a text of decimal digits, and the empty text is 0 |
| Clock.ParseTime | sw.js:67-68 | a time is read only from a timing string that contains ':' |
| Clock.ParseTimeReads | sw.js:67-68 | a timing of the form H:M, optionally followed by ':'-led text without a space and then by a space and any text, with H and M decimal digits, parses to the time (value of H, value of M) |
| Clock.ParseTimeOnlyReadsShape | sw.js:67-68 | conversely, every timing that parses has that form, and the time is the value of its H and M fields |
| Clock.ParseFormatRoundTrip | sw.js:67-68 | parsing a zero-padded "HH:MM", optionally followed by a space and any text, gives back HH and MM |
| Prayers.Tag | sw.js:80 | every prayer tag is the prefix "adhan-" followed by at least one more character |
| Prayers.OrderListsEachPrayerOnce | sw.js:57 | the loop order has five entries, contains every prayer, and has no repeats |
| Prayers.TagIsInjective | sw.js:80 | two prayers share a tag if and only if they are the same prayer |
| Prayers.TagIsNotPrefix | sw.js:53 | no prayer tag equals the tag the clear queries |
| Fetch.Match | sw.js:24 | a cached response is found if and only if the request is a GET whose URL is in the cache, and it is the entry for that URL |
| Fetch.Choose | sw.js:25 | the cache serves the request if and only if the cache matches it, and then with the cached response |
| Fetch.HandleFetch | sw.js:22-27 | a cache hit is answered with the cached response; on a miss the reply is the network's response, and a network error if and only if the network fails |
| Fetch.CacheHitIgnoresNetwork | sw.js:22-27 | on a hit the reply is the cached response, whatever the network would answer |
| Fetch.CacheMissForwardsNetwork | sw.js:22-27 | on a miss the network's response is returned unchanged, and a network failure reaches the page as an error |
| Messages.Dispatch | sw.js:31-36 | scheduling starts if and only if the data is present and its type is exactly "SCHEDULE_NOTIFICATIONS", and it receives the message's timings |
| Click.TargetUrl | sw.js:114 | the target is the notification's non-empty data URL, or "/" when that is absent or empty |
| Click.FirstFit | sw.js:119-123 | the result is the first client from the start index whose URL equals the target and that can be focused; none means no client fits |
| Click.OnClick | sw.js:117-127 | the first fitting client is focused; a window is opened at the target if and only if none fits and openWindow exists; nothing happens if and only if none fits and it does not |
| Click.OriginTargetNeverFocuses | sw.js:120 | when the target is a bare origin and every open window is at a path below it, no window is focused: the click opens a new window at the origin, or does nothing without openWindow |
| Click.FirstAppClient | sw.js:119-123 | corrected test: the result is the first focusable client from the start index whose URL is the target or a path below it; none means no client fits |
| Click.OnAppClick | sw.js:117-127 | corrected click: the first such client is focused; otherwise a window is opened at the target if and only if openWindow exists |
| Click.OpenAppWindowIsFocused | sw.js:117-127 | with the corrected test, a click on a notification of the worker's origin focuses an open focusable window of that origin, and never one after it |
| Scheduler.Parses | sw.js:67-68 | absent timings hold no entry to read, so they always pass; when the timings pass, every present entry contains ':' |
| Scheduler.Matching | sw.js:53 | the query returns every tag for the empty filter and otherwise exactly the tag equal to the filter, if present |
| Scheduler.TimesOf | sw.js:67-68 | a prayer has a parsed time if and only if its timing entry is present |
| Scheduler.TimesOfParsesEachEntry | sw.js:67-68 | a prayer's parsed time is the leading HH:MM of its own timing entry |
| Scheduler.Attempt | sw.js:66-92 | an attempt is for its prayer, with tag "adhan-" + the prayer's name, the origin URL as data and a trigger not before that iteration's clock; it is accepted if and only if the call does not reject |
| Scheduler.Record | sw.js:78-92 | an accepted attempt adds or replaces its tag with its notification and keeps every other tag; a rejected attempt changes nothing |
| Scheduler.RegistrationFromAt | sw.js:66-93 | the k-th attempt of the loop from prayer i is the attempt for prayer i + k, whose entry is present |
| Scheduler.RegistrationsFromEnd | sw.js:66-67 | the loop ends at the end of the order, or else exactly at the first prayer whose entry is missing |
| Scheduler.Plan | sw.js:38-94 | a run closes only existing notifications and makes at most five attempts; it stops as not permitted if and only if permission is not granted, and as unsupported if and only if it is granted but triggers are not supported |
| Scheduler.ApplyRegistrations | sw.js:78-93 | applying the attempts leaves exactly the tags there were, plus the tags of the accepted attempts |
| Scheduler.Apply | sw.js:53-93 | after a run the tags are the old ones minus the closed ones, plus the tags of the accepted attempts |
| Scheduler.GuardsStopEverything | sw.js:39-48 | without permission, or without trigger support, nothing is closed, nothing is registered and the notifications are unchanged |
| Scheduler.PlanClearsOnlyClearTag | sw.js:53-54 | past the guards the clear closes what the "adhan-" query returns: at most the tag "adhan-", never a prayer tag |
| Scheduler.PlanRegistersInOrder | sw.js:66-88 | registration k is for the k-th prayer of the order, with its tag and the origin URL, and is accepted if and only if that call does not reject |
| Scheduler.PlanOutcome | sw.js:66-67 | the run completes, with all five registrations, if and only if every prayer has an entry; otherwise it stops at the first prayer without one |
| Scheduler.RegistrationTrigger | sw.js:70-84 | a trigger is never before its iteration's clock reading; for a valid HH:MM it is within a day of that reading, at HH:MM:00.000 |
| Scheduler.ApplyRegistrationsEffect | sw.js:78-92 | attempts with distinct tags add exactly the accepted tags, each with its own notification, and keep every other entry |
| Scheduler.StoreAfterRun | sw.js:53-93 | past the guards, "adhan-" is gone after a run, and the tags are the old ones without it plus the accepted prayer tags |
| Scheduler.StoreValuesAfterRun | sw.js:53-93 | past the guards, every accepted prayer holds its new notification, and every other notification except "adhan-" is kept as it was |
| Scheduler.UnreachedTagNotAdded | sw.js:66-67 | the tag of a prayer the loop did not reach is not among the tags the run adds |
| Scheduler.AbortKeepsLaterPrayers | sw.js:53-67 | a run that stops at a missing entry leaves that prayer's and every later prayer's old notification unchanged |
| Scheduler.RunAddsOnlyPrayerTags | sw.js:80 | every tag a run adds is the tag of a prayer, and never "adhan-" |
| Scheduler.CompletedRunHoldsEveryTag | sw.js:66-93 | a run that completes with no rejected call leaves a notification under every prayer tag and none under "adhan-" |
| Scheduler.RescheduleKeepsTags | sw.js:38-94 | after a run that registered all five prayers, any later run leaves exactly the same set of tags, so a prayer never gets a second notification |
| Scheduler.NotificationTime | sw.js:70-76 | the computed trigger is the next occurrence of HH:MM: not before now and, for a valid HH:MM, less than a day after it |
| Scheduler.Registry.Close | sw.js:54 | closing removes the notification with that tag and nothing else |
| Scheduler.Registry.ShowNotification | sw.js:79-88 | a shown notification replaces any notification with the same tag |
| Scheduler.Registry.CloseMatching | sw.js:53-54 | the tags closed are exactly those the query returns, and they are all removed from the notifications |
| Scheduler.Registry.RegisterPrayer | sw.js:67-92 | one iteration makes the attempt the specification gives for that prayer and records it in the notifications |
| Scheduler.Registry.RegisterPrayers | sw.js:66-93 | the loop makes exactly the specified attempts and ends with the specified outcome, leaving the notifications as those attempts make them |
| Scheduler.Registry.SchedulePrayerNotifications | sw.js:38-94 | the handler's run is the specified run on the old notifications, and the new notifications are that run applied to them |
| Scheduler.Registry.OnMessage | sw.js:31-36 | the scheduler runs if and only if the message is a scheduling message, with its timings; otherwise the notifications are unchanged |
| Scheduler.Registry.OnNotificationClick | sw.js:112-130 | the clicked notification is closed, and the window action is the one the click decision specifies |

## Left out

- The install and activate handlers (sw.js:10-20) and the asset list: they only populate the cache and claim clients, and the fetch model takes the cache as given.
- The push handler (sw.js:98-108): it is outside the modelled core.
- `event.waitUntil`, `respondWith` and the interleaving of asynchronous continuations: each handler is modelled as running to completion.
- Console logging and the notification's title, body, icon and badge: they do not affect what is scheduled or opened.
- Time zones and daylight-saving shifts: a local day is always 24 hours long.
- Hours or minutes out of range (such as "25:70") carry over into later days, as `Date` does, through plain integer arithmetic.
- The limits of JavaScript numbers and dates are not modelled. `Scheduler.Parses` accepts digit runs of any length, and the model computes their exact value. In the source, a value above 2^53 is rounded to a double. An instant beyond 8.64e15 ms from the epoch gives an Invalid Date, whose time is NaN. The model computes an exact instant instead.
- `TimestampTrigger` is modelled only as the trigger instant it carries. A notification firing at its trigger is not modelled.
- The clock reading in each iteration and the success or rejection of each `showNotification` call are inputs (`Env.now`, `Env.rejected`), not effects.
- Scheduler.Registry.SchedulePrayerNotifications: requires every present timing entry to have a leading `HH:MM` made of digits. The model does not cover `Number` texts that give NaN, signs, fractions or exponents, or the Invalid Date trigger that results from them.
- Scheduler.Registry.OnMessage: carries the same requirement on the timings of a scheduling message.
- Timing values that are not strings, which make the source throw at `split`: timings are modelled as a map from prayer name to text.
- Notifications without a tag, and the order in which `getNotifications` lists notifications: the notifications are a map from tag.
- `Fetch.Match` matches on method and URL only. Vary headers, URL fragments and `ignoreSearch` are not modelled.
- `Fetch.HandleFetch` returns the reply only. The handler never writes to the cache.
- The window client's `'focus' in client` test is a flag on the client. The `type: 'window'` and `includeUncontrolled` options of `matchAll` are folded into the client list given as input.

## Findings

| source | as written | input that shows it | evidently intended | confidence | as-written member | corrected member |
|---|---|---|---|---|---|---|
| sw.js:120 | the click handler focuses a window only when its URL equals the notification's URL exactly, and the scheduler sets that URL to `self.location.origin` (sw.js:86), which has no path | origin `https://host`, one open focusable window at `https://host/`: `"https://host/" == "https://host"` is false, so a second window is opened | focus an open window of the app's origin instead of opening another one | not executed | Click.OriginTargetNeverFocuses | Click.OnAppClick, Click.OpenAppWindowIsFocused |
