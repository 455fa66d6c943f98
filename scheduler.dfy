/**
 * The prayer-notification scheduler (sw.js:38-94) and the service-worker
 * registration whose notification list it changes.
 *
 * The registration's notifications are a map from tag to notification: a
 * `showNotification` under a tag already in use replaces that notification,
 * and `getNotifications({tag})` with a non-empty tag returns only the
 * notification whose tag is EQUAL to it (the Notifications API Standard).
 * The scheduler queries the tag "adhan-" but registers "adhan-Fajr" and so
 * on; its query therefore never returns one of its own notifications, and
 * what keeps a prayer from being scheduled twice is the per-prayer tag.
 */
module Scheduler {
  import opened Wrappers
  import opened Clock
  import opened Prayers
  import Messages
  import Click

  datatype Permission = Granted | Denied | Default

  /** A registered notification: its tag, its trigger instant and the URL in its data. */
  datatype Notification = Notification(tag: string, trigger: Instant, url: string)

  /** The registration's notifications, by tag. */
  type Store = map<string, Notification>

  /** What the scheduler reads from its surroundings: `Notification.permission`, whether
      `showTrigger` is supported, the clock reading taken in the iteration for each prayer,
      the prayers whose `showNotification` call rejects, and `self.location.origin`. */
  datatype Env = Env(
    permission: Permission,
    triggersSupported: bool,
    now: Prayer -> Instant,
    rejected: set<Prayer>,
    origin: string)

  /** One attempted `showNotification`; `accepted` is false when the call rejected. */
  datatype Registration = Registration(prayer: Prayer, notification: Notification, accepted: bool)

  /** How a run ends: stopped by a guard, finished the loop, or thrown out of it at a
      prayer whose timing entry is missing. */
  datatype Outcome = NotPermitted | TriggersUnsupported | Completed | Aborted(at: Prayer)

  /** A run: the tags it closed, the registrations it attempted in order, and how it ended. */
  datatype Run = Run(closed: set<string>, registrations: seq<Registration>, outcome: Outcome)

  /** The tag the scheduler passes to `getNotifications`. */
  const ClearTag: string := TagPrefix

  /** `getNotifications({tag: filter})`: every notification for the empty filter,
      otherwise the one whose tag equals the filter. */
  function Matching(s: Store, filter: string): (tags: set<string>)
    ensures forall t :: t in tags <==> t in s && (filter == "" || t == filter)
  {
    if filter == "" then s.Keys else s.Keys * {filter}
  }

  predicate Present(timings: Option<Timings>, p: Prayer) {
    timings.Some? && Name(p) in timings.value
  }

  /** Every timing entry that is present has a leading HH:MM the model can read. */
  predicate Parses(timings: Option<Timings>)
    ensures timings.None? ==> Parses(timings)
    ensures Parses(timings) ==> forall p :: Present(timings, p) ==> ':' in timings.value[Name(p)]
  {
    forall p: Prayer :: Present(timings, p) ==> ParseTime(timings.value[Name(p)]).Some?
  }

  /** The parsed HH:MM of each prayer whose timing entry is present. */
  type Times = map<Prayer, TimeOfDay>

  function TimesOf(timings: Option<Timings>): (times: Times)
    requires Parses(timings)
    ensures forall p :: p in times <==> Present(timings, p)
  {
    map p | p in Order && Present(timings, p) :: ParseTime(timings.value[Name(p)]).value
  }

  /** The registration attempted for a prayer whose timing entry is present. */
  function Attempt(env: Env, times: Times, p: Prayer): (r: Registration)
    requires p in times
    ensures r.prayer == p && r.notification.tag == Tag(p) && r.notification.url == env.origin
    ensures r.accepted <==> p !in env.rejected
    ensures r.notification.trigger >= env.now(p)
  {
    Registration(p, Notification(Tag(p), NextOccurrence(env.now(p), times[p]), env.origin), p !in env.rejected)
  }

  /** The loop from the `i`-th prayer on: registrations until the end of the order or until
      a prayer whose timing entry is missing, which throws out of the loop. */
  function RegistrationsFrom(env: Env, times: Times, i: nat): (r: (seq<Registration>, Outcome))
    requires i <= |Order|
    decreases |Order| - i
  {
    if i == |Order| then ([], Completed)
    else if Order[i] !in times then ([], Aborted(Order[i]))
    else
      var rest := RegistrationsFrom(env, times, i + 1);
      ([Attempt(env, times, Order[i])] + rest.0, rest.1)
  }

  /** A whole run of `schedulePrayerNotifications` on the notifications `s`, given the
      parsed times of the prayers whose entries are present. */
  function Plan(s: Store, env: Env, times: Times): (run: Run)
    ensures run.closed <= s.Keys
    ensures |run.registrations| <= |Order|
    ensures run.outcome == NotPermitted <==> env.permission != Granted
    ensures run.outcome == TriggersUnsupported <==> env.permission == Granted && !env.triggersSupported
  {
    if env.permission != Granted then Run({}, [], NotPermitted)
    else if !env.triggersSupported then Run({}, [], TriggersUnsupported)
    else
      var (registrations, outcome) := RegistrationsFrom(env, times, 0);
      Run(Matching(s, ClearTag), registrations, outcome)
  }

  /** The tags of the attempts that were accepted. */
  function AcceptedTags(regs: seq<Registration>): set<string> {
    set r | r in regs && r.accepted :: r.notification.tag
  }

  /** The notifications after the attempts `regs`, in order; a rejected attempt changes nothing. */
  function ApplyRegistrations(s: Store, regs: seq<Registration>): (after: Store)
    ensures after.Keys == s.Keys + AcceptedTags(regs)
    decreases |regs|
  {
    if regs == [] then s
    else
      var init := regs[..|regs| - 1];
      assert regs == init + [regs[|regs| - 1]];
      assert AcceptedTags(regs) == AcceptedTags(init) + AcceptedTags([regs[|regs| - 1]]);
      Record(ApplyRegistrations(s, init), regs[|regs| - 1])
  }

  /** One attempt: an accepted notification replaces any with its tag; a rejected one changes nothing. */
  function Record(s: Store, reg: Registration): (after: Store)
    ensures reg.accepted ==> after.Keys == s.Keys + {reg.notification.tag} && after[reg.notification.tag] == reg.notification
    ensures forall t :: t in s && (t != reg.notification.tag || !reg.accepted) ==> t in after && after[t] == s[t]
    ensures !reg.accepted ==> after == s
  {
    if reg.accepted then s[reg.notification.tag := reg.notification] else s
  }

  /** The notifications after a run: closed ones removed first, then the registrations. */
  function Apply(s: Store, run: Run): (after: Store)
    ensures after.Keys == (s.Keys - run.closed) + AcceptedTags(run.registrations)
  {
    ApplyRegistrations(s - run.closed, run.registrations)
  }

  // ---- Properties of a run ----

  /** The `k`-th registration of the loop from the `i`-th prayer is the attempt for the
      (i + k)-th prayer of the order, whose entry is present. */
  lemma {:induction false} RegistrationFromAt(env: Env, times: Times, i: nat, k: nat)
    requires i <= |Order|
    requires k < |RegistrationsFrom(env, times, i).0|
    ensures i + k < |Order| && Order[i + k] in times
    ensures RegistrationsFrom(env, times, i).0[k] == Attempt(env, times, Order[i + k])
    decreases k
  {
    var rest := RegistrationsFrom(env, times, i + 1);
    if k > 0 {
      RegistrationFromAt(env, times, i + 1, k - 1);
      assert rest.0[k - 1] == Attempt(env, times, Order[i + k]);
    }
  }

  /** One step of the loop: a prayer whose entry is present is attempted, then the loop goes on. */
  lemma RegistrationsFromStep(env: Env, times: Times, i: nat)
    requires i < |Order| && Order[i] in times
    ensures RegistrationsFrom(env, times, i).0 == [Attempt(env, times, Order[i])] + RegistrationsFrom(env, times, i + 1).0
    ensures RegistrationsFrom(env, times, i).1 == RegistrationsFrom(env, times, i + 1).1
  {
  }

  /** The loop invariant of the handler moves on by one prayer: the attempts made so far,
      followed by the attempts still to come, are the whole run's attempts. */
  lemma RegistrationsPrefixStep(env: Env, times: Times, i: nat, done: seq<Registration>)
    requires i < |Order| && Order[i] in times
    requires RegistrationsFrom(env, times, 0).0 == done + RegistrationsFrom(env, times, i).0
    requires RegistrationsFrom(env, times, 0).1 == RegistrationsFrom(env, times, i).1
    ensures RegistrationsFrom(env, times, 0).0 == (done + [Attempt(env, times, Order[i])]) + RegistrationsFrom(env, times, i + 1).0
    ensures RegistrationsFrom(env, times, 0).1 == RegistrationsFrom(env, times, i + 1).1
  {
    RegistrationsFromStep(env, times, i);
    var a, rest := Attempt(env, times, Order[i]), RegistrationsFrom(env, times, i + 1).0;
    calc {
      RegistrationsFrom(env, times, 0).0;
      done + RegistrationsFrom(env, times, i).0;
      done + ([a] + rest);
      (done + [a]) + rest;
    }
  }

  /** The loop from the `i`-th prayer ends at the end of the order or at the first prayer
      whose entry is missing. */
  lemma {:induction false} RegistrationsFromEnd(env: Env, times: Times, i: nat)
    requires i <= |Order|
    ensures var n := i + |RegistrationsFrom(env, times, i).0|;
      && n <= |Order|
      && (RegistrationsFrom(env, times, i).1 == Completed <==> n == |Order|)
      && (n < |Order| ==> RegistrationsFrom(env, times, i).1 == Aborted(Order[n]) && Order[n] !in times)
    decreases |Order| - i
  {
    if i < |Order| && Order[i] in times {
      RegistrationsFromEnd(env, times, i + 1);
    }
  }

  /** The parsed time of a prayer is the leading HH:MM of its timing entry. */
  lemma TimesOfParsesEachEntry(timings: Option<Timings>, p: Prayer)
    requires Parses(timings) && Present(timings, p)
    ensures p in TimesOf(timings)
    ensures Some(TimesOf(timings)[p]) == ParseTime(timings.value[Name(p)])
  {
    OrderListsEachPrayerOnce(p);
  }

  /** Either guard failing stops the run before it closes or registers anything. */
  lemma GuardsStopEverything(s: Store, env: Env, times: Times)
    requires env.permission != Granted || !env.triggersSupported
    ensures Plan(s, env, times).closed == {}
    ensures Plan(s, env, times).registrations == []
    ensures Plan(s, env, times).outcome == (if env.permission != Granted then NotPermitted else TriggersUnsupported)
    ensures Apply(s, Plan(s, env, times)) == s
  {
  }

  /** Past the guards the clear closes only a notification tagged exactly "adhan-", never
      one of the prayer notifications. */
  lemma PlanClearsOnlyClearTag(s: Store, env: Env, times: Times)
    requires env.permission == Granted && env.triggersSupported
    ensures Plan(s, env, times).closed == Matching(s, ClearTag)
    ensures Plan(s, env, times).closed <= {ClearTag}
    ensures forall p :: Tag(p) !in Plan(s, env, times).closed
  {
    forall p: Prayer ensures Tag(p) != ClearTag {
      TagIsNotPrefix(p);
    }
  }

  /** Past the guards, registration k is for the k-th prayer of the order, tagged "adhan-" +
      its name, carrying the origin, and accepted unless its call rejects. */
  lemma {:induction false} PlanRegistersInOrder(s: Store, env: Env, times: Times)
    requires env.permission == Granted && env.triggersSupported
    ensures |Plan(s, env, times).registrations| <= |Order|
    ensures forall k :: 0 <= k < |Plan(s, env, times).registrations| ==>
      var r := Plan(s, env, times).registrations[k];
      && Order[k] in times
      && r == Attempt(env, times, Order[k])
      && r.prayer == Order[k]
      && r.notification.tag == Tag(Order[k])
      && r.notification.url == env.origin
      && (r.accepted <==> Order[k] !in env.rejected)
  {
    forall k | 0 <= k < |Plan(s, env, times).registrations|
      ensures Order[k] in times && Plan(s, env, times).registrations[k] == Attempt(env, times, Order[k])
    {
      RegistrationFromAt(env, times, 0, k);
    }
    RegistrationsFromEnd(env, times, 0);
  }

  /** Past the guards, the run completes, with all five registrations, exactly when every
      prayer has a timing entry; otherwise it stops at the first prayer whose entry is missing. */
  lemma {:induction false} PlanOutcome(s: Store, env: Env, times: Times)
    requires env.permission == Granted && env.triggersSupported
    ensures var run := Plan(s, env, times);
      && (run.outcome == Completed <==> forall p :: p in times)
      && (run.outcome == Completed ==> |run.registrations| == |Order|)
      && (run.outcome != Completed ==>
            && |run.registrations| < |Order|
            && run.outcome == Aborted(Order[|run.registrations|])
            && run.outcome.at !in times
            && forall k :: 0 <= k < |run.registrations| ==> Order[k] in times)
  {
    RegistrationsFromEnd(env, times, 0);
    var run := Plan(s, env, times);
    forall k | 0 <= k < |run.registrations| ensures Order[k] in times {
      RegistrationFromAt(env, times, 0, k);
    }
    if run.outcome == Completed {
      forall p: Prayer ensures p in times {
        OrderListsEachPrayerOnce(p);
        var k :| 0 <= k < |Order| && Order[k] == p;
        assert Order[k] in times;
      }
    }
  }

  /** Each trigger is never before the clock reading of its iteration; for a valid HH:MM it
      lies within one day of that reading, at HH:MM:00.000. */
  lemma RegistrationTrigger(env: Env, times: Times, p: Prayer)
    requires p in times
    ensures var trigger := Attempt(env, times, p).notification.trigger;
      && trigger >= env.now(p)
      && (IsValid(times[p]) ==>
            && trigger < env.now(p) + MsPerDay
            && trigger % MsPerDay == Offset(times[p]))
  {
    if IsValid(times[p]) {
      NextOccurrenceWithinADay(env.now(p), times[p]);
    }
  }

  /** The attempts are applied in order: one more attempt records on top of the others. */
  lemma ApplyRegistrationsSnoc(s: Store, regs: seq<Registration>, reg: Registration)
    ensures ApplyRegistrations(s, regs + [reg]) == Record(ApplyRegistrations(s, regs), reg)
  {
    assert (regs + [reg])[..|regs|] == regs;
  }

  /** The notifications after a sequence of attempts with distinct tags: exactly the accepted
      tags are added, each holding its own notification, and every other entry is kept. */
  lemma {:induction false} ApplyRegistrationsEffect(s: Store, regs: seq<Registration>)
    requires forall i, j :: 0 <= i < j < |regs| ==> regs[i].notification.tag != regs[j].notification.tag
    ensures ApplyRegistrations(s, regs).Keys == s.Keys + AcceptedTags(regs)
    ensures forall k :: 0 <= k < |regs| && regs[k].accepted ==>
      ApplyRegistrations(s, regs)[regs[k].notification.tag] == regs[k].notification
    ensures forall t :: t in s && t !in AcceptedTags(regs) ==> ApplyRegistrations(s, regs)[t] == s[t]
  {
    if regs != [] {
      var init := regs[..|regs| - 1];
      ApplyRegistrationsEffect(s, init);
      assert regs == init + [regs[|regs| - 1]];
      assert AcceptedTags(regs) == AcceptedTags(init) + AcceptedTags([regs[|regs| - 1]]);
    }
  }

  /** Every tag a run adds is the tag of one of the prayers, never "adhan-" itself. */
  lemma {:induction false} RunAddsOnlyPrayerTags(s: Store, env: Env, times: Times)
    ensures forall t :: t in AcceptedTags(Plan(s, env, times).registrations) ==> exists p :: t == Tag(p)
    ensures ClearTag !in AcceptedTags(Plan(s, env, times).registrations)
  {
    var regs := Plan(s, env, times).registrations;
    forall t | t in AcceptedTags(regs) ensures t != ClearTag && exists p :: t == Tag(p) {
      var r :| r in regs && r.accepted && r.notification.tag == t;
      var j :| 0 <= j < |regs| && regs[j] == r;
      RegistrationFromAt(env, times, 0, j);
      TagIsNotPrefix(r.prayer);
    }
  }

  /** The tags after a run that passed the guards: "adhan-" is gone, every other tag is kept,
      and exactly the accepted prayer tags are added. */
  lemma {:induction false} StoreAfterRun(s: Store, env: Env, times: Times)
    requires env.permission == Granted && env.triggersSupported
    ensures ClearTag !in Apply(s, Plan(s, env, times))
    ensures Apply(s, Plan(s, env, times)).Keys == (s.Keys - {ClearTag}) + AcceptedTags(Plan(s, env, times).registrations)
  {
    var run := Plan(s, env, times);
    PlanClearsOnlyClearTag(s, env, times);
    RunAddsOnlyPrayerTags(s, env, times);
    assert s.Keys - run.closed == s.Keys - {ClearTag};
  }

  /** The notifications after a run that passed the guards: every accepted prayer holds its new
      notification, and every other notification but "adhan-" is kept as it was, including an
      earlier prayer notification whose new registration rejected or was never reached. */
  lemma {:induction false} StoreValuesAfterRun(s: Store, env: Env, times: Times)
    requires env.permission == Granted && env.triggersSupported
    ensures var run := Plan(s, env, times);
      var after := Apply(s, run);
      && (forall k :: 0 <= k < |run.registrations| && run.registrations[k].accepted ==>
            Tag(Order[k]) in after && after[Tag(Order[k])] == run.registrations[k].notification)
      && (forall t :: t in s && t != ClearTag && t !in AcceptedTags(run.registrations) ==>
            t in after && after[t] == s[t])
  {
    var run := Plan(s, env, times);
    PlanClearsOnlyClearTag(s, env, times);
    PlanRegistersInOrder(s, env, times);
    var regs := run.registrations;
    forall i, j | 0 <= i < j < |regs|
      ensures regs[i].notification.tag != regs[j].notification.tag
    {
      OrderListsEachPrayerOnce(Order[i]);
      TagIsInjective(Order[i], Order[j]);
    }
    ApplyRegistrationsEffect(s - run.closed, regs);
  }

  /** A prayer the run did not reach gets no new notification: its tag is not among the accepted. */
  lemma {:induction false} UnreachedTagNotAdded(s: Store, env: Env, times: Times, k: nat)
    requires env.permission == Granted && env.triggersSupported
    requires |Plan(s, env, times).registrations| <= k < |Order|
    ensures Tag(Order[k]) !in AcceptedTags(Plan(s, env, times).registrations)
  {
    var regs := RegistrationsFrom(env, times, 0).0;
    assert Plan(s, env, times).registrations == regs;
    OrderListsEachPrayerOnce(Order[k]);
    forall j | 0 <= j < |regs| ensures regs[j].notification.tag != Tag(Order[k]) {
      RegistrationFromAt(env, times, 0, j);
      TagIsInjective(Order[j], Order[k]);
    }
  }

  /** A run that stops at a missing entry leaves the notifications of that prayer and of every
      later prayer exactly as they were: the "adhan-" query does not reach them. */
  lemma {:induction false} AbortKeepsLaterPrayers(s: Store, env: Env, times: Times, k: nat)
    requires env.permission == Granted && env.triggersSupported
    requires Plan(s, env, times).outcome.Aborted?
    requires |Plan(s, env, times).registrations| <= k < |Order|
    requires Tag(Order[k]) in s
    ensures Tag(Order[k]) in Apply(s, Plan(s, env, times))
    ensures Apply(s, Plan(s, env, times))[Tag(Order[k])] == s[Tag(Order[k])]
  {
    StoreValuesAfterRun(s, env, times);
    UnreachedTagNotAdded(s, env, times, k);
    TagIsNotPrefix(Order[k]);
  }

  /** A run that completes with no rejected call leaves a notification under every prayer tag,
      and none under "adhan-". */
  lemma {:induction false} CompletedRunHoldsEveryTag(s: Store, env: Env, times: Times)
    requires Plan(s, env, times).outcome == Completed
    requires env.rejected == {}
    ensures forall p :: Tag(p) in Apply(s, Plan(s, env, times))
    ensures ClearTag !in Apply(s, Plan(s, env, times))
  {
    var run := Plan(s, env, times);
    PlanOutcome(s, env, times);
    StoreAfterRun(s, env, times);
    forall p: Prayer ensures Tag(p) in Apply(s, run) {
      OrderListsEachPrayerOnce(p);
      var k :| 0 <= k < |Order| && Order[k] == p;
      RegistrationFromAt(env, times, 0, k);
      assert run.registrations[k] in run.registrations;
      assert Tag(p) in AcceptedTags(run.registrations);
    }
  }

  /** Once a run has registered all five prayers, any later run (whatever its clock, times,
      guards or rejections) leaves the same set of tags: re-scheduling never adds a second
      notification for a prayer, so there stay exactly five. */
  lemma {:induction false} RescheduleKeepsTags(s: Store, env1: Env, times1: Times, env2: Env, times2: Times)
    requires Plan(s, env1, times1).outcome == Completed
    requires env1.rejected == {}
    ensures var s1 := Apply(s, Plan(s, env1, times1));
      && (forall p :: Tag(p) in s1)
      && Apply(s1, Plan(s1, env2, times2)).Keys == s1.Keys
  {
    var s1 := Apply(s, Plan(s, env1, times1));
    CompletedRunHoldsEveryTag(s, env1, times1);
    if env2.permission == Granted && env2.triggersSupported {
      StoreAfterRun(s1, env2, times2);
      RunAddsOnlyPrayerTags(s1, env2, times2);
      assert s1.Keys - {ClearTag} == s1.Keys;
    } else {
      GuardsStopEverything(s1, env2, times2);
    }
  }

  /** The trigger computed as the handler does it: today at HH:MM:00, then one more day
      when that is strictly before `now`. */
  method NotificationTime(now: Instant, time: TimeOfDay) returns (notificationTime: Instant)
    ensures notificationTime == NextOccurrence(now, time)
    ensures notificationTime >= now
    ensures IsValid(time) ==> notificationTime < now + MsPerDay
  {
    notificationTime := SameDayAt(now, time);
    if notificationTime < now {
      notificationTime := notificationTime + MsPerDay;
    }
    if IsValid(time) {
      NextOccurrenceWithinADay(now, time);
    }
  }

  // ---- The registration object ----

  /** `self.registration`: the notifications it holds change in place. */
  class Registry {
    var notifications: Store

    constructor ()
      ensures notifications == map[]
    {
      notifications := map[];
    }

    /** `notification.close()`: removes the notification with this tag. */
    method Close(tag: string)
      modifies this
      ensures notifications == old(notifications) - {tag}
    {
      notifications := notifications - {tag};
    }

    /** `showNotification` that resolves: the notification replaces any with the same tag. */
    method ShowNotification(n: Notification)
      modifies this
      ensures notifications == old(notifications)[n.tag := n]
    {
      notifications := notifications[n.tag := n];
    }

    /** `getNotifications({tag: filter})` followed by `close()` on each notification returned. */
    method CloseMatching(filter: string) returns (found: set<string>)
      modifies this
      ensures found == Matching(old(notifications), filter)
      ensures notifications == old(notifications) - found
    {
      found := Matching(notifications, filter);
      var open := found;
      while open != {}
        invariant open <= found
        invariant notifications == old(notifications) - (found - open)
        decreases open
      {
        var tag :| tag in open;
        Close(tag);
        open := open - {tag};
        assert found - open == (found - (open + {tag})) + {tag};
      }
    }

    /** One iteration of the loop for a prayer whose entry is present: the trigger from the
        leading HH:MM, then `showNotification`, which either resolves or rejects. */
    method RegisterPrayer(env: Env, timings: Option<Timings>, prayer: Prayer) returns (reg: Registration)
      requires Parses(timings) && Present(timings, prayer)
      modifies this
      ensures prayer in TimesOf(timings) && reg == Attempt(env, TimesOf(timings), prayer)
      ensures notifications == Record(old(notifications), reg)
    {
      var time := ParseTime(timings.value[Name(prayer)]).value;
      var notificationTime := NotificationTime(env.now(prayer), time);
      var n := Notification(Tag(prayer), notificationTime, env.origin);
      var accepted := prayer !in env.rejected;
      if accepted {
        ShowNotification(n);
      }
      reg := Registration(prayer, n, accepted);
      TimesOfParsesEachEntry(timings, prayer);
    }

    /** The `for` loop over the prayers: one registration attempt per prayer in order, a
        rejected attempt caught, a missing entry ending the loop. */
    method RegisterPrayers(env: Env, timings: Option<Timings>) returns (regs: seq<Registration>, outcome: Outcome)
      requires Parses(timings)
      modifies this
      ensures regs == RegistrationsFrom(env, TimesOf(timings), 0).0
      ensures outcome == RegistrationsFrom(env, TimesOf(timings), 0).1
      ensures notifications == ApplyRegistrations(old(notifications), regs)
    {
      ghost var times := TimesOf(timings);
      regs := [];
      var i := 0;
      assert regs + RegistrationsFrom(env, times, 0).0 == RegistrationsFrom(env, times, 0).0;
      while i < |Order| && Present(timings, Order[i])
        invariant 0 <= i <= |Order|
        invariant RegistrationsFrom(env, times, 0).0 == regs + RegistrationsFrom(env, times, i).0
        invariant RegistrationsFrom(env, times, 0).1 == RegistrationsFrom(env, times, i).1
        invariant notifications == ApplyRegistrations(old(notifications), regs)
      {
        var reg := RegisterPrayer(env, timings, Order[i]);
        RegistrationsPrefixStep(env, times, i, regs);
        ApplyRegistrationsSnoc(old(notifications), regs, reg);
        regs := regs + [reg];
        i := i + 1;
      }
      // The source throws out of the loop on reading the missing entry.
      outcome := if i < |Order| then Aborted(Order[i]) else Completed;
      assert RegistrationsFrom(env, times, i) == ([], outcome);
      assert regs + [] == regs;
    }

    /** `schedulePrayerNotifications(timings)`: check the two guards, close what the
        "adhan-" query returns, then attempt one registration per prayer in order. */
    method SchedulePrayerNotifications(env: Env, timings: Option<Timings>) returns (run: Run)
      requires Parses(timings)
      modifies this
      ensures run == Plan(old(notifications), env, TimesOf(timings))
      ensures notifications == Apply(old(notifications), run)
    {
      if env.permission != Granted {
        return Run({}, [], NotPermitted);
      }
      if !env.triggersSupported {
        return Run({}, [], TriggersUnsupported);
      }
      var found := CloseMatching(ClearTag);
      var regs, outcome := RegisterPrayers(env, timings);
      run := Run(found, regs, outcome);
    }

    /** The message handler: only a "SCHEDULE_NOTIFICATIONS" message runs the scheduler. */
    method OnMessage(data: Option<Messages.MessageData>, env: Env) returns (run: Option<Run>)
      requires Messages.Dispatch(data).Schedule? ==> Parses(Messages.Dispatch(data).timings)
      modifies this
      ensures run.Some? <==> Messages.Dispatch(data).Schedule?
      ensures run.None? ==> notifications == old(notifications)
      ensures run.Some? ==> run.value == Plan(old(notifications), env, TimesOf(Messages.Dispatch(data).timings))
      ensures run.Some? ==> notifications == Apply(old(notifications), run.value)
    {
      match Messages.Dispatch(data)
      case Schedule(timings) =>
        var r := SchedulePrayerNotifications(env, timings);
        run := Some(r);
      case Ignore =>
        run := None;
    }

    /** The click handler: close the clicked notification, then focus or open a window. */
    method OnNotificationClick(tag: string, dataUrl: Option<string>, clients: seq<Click.Client>, canOpenWindow: bool)
      returns (action: Click.ClickAction)
      modifies this
      ensures notifications == old(notifications) - {tag}
      ensures action == Click.OnClick(dataUrl, clients, canOpenWindow)
    {
      Close(tag);
      action := Click.OnClick(dataUrl, clients, canOpenWindow);
    }
  }
}
