/** The SOS panel: a ten-second countdown driven by an interval timer that
    broadcasts an emergency alert to the school's contacts, a cancel button,
    one-tap category messages and the dialling of a contact's number. */
module Sos {
  import opened Common
  import opened Text

  // ---------------------------------------------------------------- data

  datatype Contact = Contact(name: string, number: string, kind: string)

  const EmergencyContacts: seq<Contact> := [
    Contact("Emergency Services", "911", "Emergency"),
    Contact("School Security", "(555) 123-0001", "Security"),
    Contact("School Nurse", "(555) 123-0002", "Medical"),
    Contact("Campus Emergency", "(555) 123-0003", "Campus")
  ]

  /** Seconds between activation and the alert. */
  const CountdownStart: int := 10

  const AlertType: string := "General Emergency"
  const AlertUserId: string := "user_123"

  datatype Location = Location(lat: real, lng: real)

  /** The console lines standing in for the SMS and call APIs. */
  datatype LogEntry =
    | AlertSent(alertType: string, userId: string, location: Option<Location>)
    | Alerting(name: string, number: string)
    | MessageSent(kind: string, message: Option<string>, location: Option<Location>)

  /** One `setInterval` timer: whether it is still live, and the location
      that the alert function captured when the timer was created. */
  datatype Interval = Interval(live: bool, location: Option<Location>)

  datatype Sos = Sos(
    sosActive: bool,
    countdown: int,
    userLocation: Option<Location>,
    intervals: seq<Interval>,
    log: seq<LogEntry>)

  const Initial: Sos := Sos(false, 0, None, [], [])

  ghost predicate WellFormed(s: Sos) {
    0 <= s.countdown <= CountdownStart
  }

  // ---------------------------------------------------------------- log

  /** One console line per contact, in list order. */
  function ContactAlerts(cs: seq<Contact>): (r: seq<LogEntry>)
    ensures |r| == |cs|
    ensures forall i :: 0 <= i < |cs| ==> r[i] == Alerting(cs[i].name, cs[i].number)
  {
    if cs == [] then [] else ContactAlerts(cs[..|cs| - 1]) + [Alerting(cs[|cs| - 1].name, cs[|cs| - 1].number)]
  }

  /** Number of emergency alerts a log records. */
  function AlertsSent(log: seq<LogEntry>): (n: nat)
    ensures n <= |log|
  {
    if log == [] then 0
    else AlertsSent(log[..|log| - 1]) + (if log[|log| - 1].AlertSent? then 1 else 0)
  }

  lemma {:induction false} AlertsSentAppend(a: seq<LogEntry>, b: seq<LogEntry>)
    ensures AlertsSent(a + b) == AlertsSent(a) + AlertsSent(b)
  {
    if b != [] {
      AlertsSentAppend(a, b[..|b| - 1]);
      assert (a + b)[..|a + b| - 1] == a + b[..|b| - 1];
    } else {
      assert a + b == a;
    }
  }

  lemma {:induction false} ContactAlertsAreNotAlerts(cs: seq<Contact>)
    ensures AlertsSent(ContactAlerts(cs)) == 0
  {
    if cs != [] {
      var r := ContactAlerts(cs);
      ContactAlertsAreNotAlerts(cs[..|cs| - 1]);
      assert r[..|r| - 1] == ContactAlerts(cs[..|cs| - 1]);
    }
  }

  /** What one alert adds to the log: the alert itself, then every contact
      once, in list order. */
  function AlertLog(location: Option<Location>): (r: seq<LogEntry>)
    ensures |r| == 1 + |EmergencyContacts| && r[0] == AlertSent(AlertType, AlertUserId, location)
    ensures forall i :: 0 <= i < |EmergencyContacts| ==>
      r[i + 1] == Alerting(EmergencyContacts[i].name, EmergencyContacts[i].number)
  {
    [AlertSent(AlertType, AlertUserId, location)] + ContactAlerts(EmergencyContacts)
  }

  /** Logging the alert and then the contacts is appending AlertLog. */
  lemma AlertLogAppended(log: seq<LogEntry>, location: Option<Location>)
    ensures log + [AlertSent(AlertType, AlertUserId, location)] + ContactAlerts(EmergencyContacts) == log + AlertLog(location)
  {
  }

  lemma AlertLogSendsOneAlert(location: Option<Location>)
    ensures AlertsSent(AlertLog(location)) == 1
  {
    var head := [AlertSent(AlertType, AlertUserId, location)];
    AlertsSentAppend(head, ContactAlerts(EmergencyContacts));
    ContactAlertsAreNotAlerts(EmergencyContacts);
    assert head[..0] == [];
  }

  // ---------------------------------------------------------------- transitions

  function AfterActivate(s: Sos): (r: Sos)
    ensures r.sosActive && r.countdown == CountdownStart
    ensures r.intervals == s.intervals + [Interval(true, s.userLocation)]
    ensures r.log == s.log && r.userLocation == s.userLocation
  {
    s.(sosActive := true, countdown := CountdownStart, intervals := s.intervals + [Interval(true, s.userLocation)])
  }

  /** The cancel handler as written: it resets the flag and the counter but
      does not clear the interval. */
  function AfterCancel(s: Sos): (r: Sos)
    ensures !r.sosActive && r.countdown == 0
    ensures r.intervals == s.intervals && r.log == s.log && r.userLocation == s.userLocation
  {
    s.(sosActive := false, countdown := 0)
  }

  function AfterSendAlert(s: Sos, location: Option<Location>): (r: Sos)
    ensures !r.sosActive && r.log == s.log + AlertLog(location)
    ensures AlertsSent(r.log) == AlertsSent(s.log) + 1
    ensures r == s.(sosActive := false, log := r.log)
  {
    AlertsSentAppend(s.log, AlertLog(location));
    AlertLogSendsOneAlert(location);
    s.(sosActive := false, log := s.log + AlertLog(location))
  }

  /** Interval `id` fires. A cleared interval never fires; a live one runs the
      countdown updater, which at one second or less clears the interval,
      sends the alert with the location it captured and sets the count to 0. */
  function AfterFire(s: Sos, id: nat): (r: Sos)
    ensures id >= |s.intervals| || !s.intervals[id].live ==> r == s
    ensures id < |s.intervals| && s.intervals[id].live && s.countdown > 1 ==>
      r == s.(countdown := s.countdown - 1)
    ensures id < |s.intervals| && s.intervals[id].live && s.countdown <= 1 ==>
      && r.countdown == 0 && !r.sosActive
      && r.intervals == s.intervals[id := Interval(false, s.intervals[id].location)]
      && r.log == s.log + AlertLog(s.intervals[id].location)
      && r.userLocation == s.userLocation
  {
    if id < |s.intervals| && s.intervals[id].live then
      var timer := s.intervals[id];
      if s.countdown <= 1 then
        AfterSendAlert(s.(countdown := 0, intervals := s.intervals[id := timer.(live := false)]), timer.location)
      else s.(countdown := s.countdown - 1)
    else s
  }

  function AfterLocate(s: Sos, location: Location): (r: Sos)
    ensures r == s.(userLocation := Some(location))
  {
    s.(userLocation := Some(location))
  }

  function AfterQuickMessage(s: Sos, kind: string): (r: Sos)
    ensures r.log == s.log + [MessageSent(kind, QuickMessage(kind), s.userLocation)]
    ensures r == s.(log := r.log)
  {
    s.(log := s.log + [MessageSent(kind, QuickMessage(kind), s.userLocation)])
  }

  lemma StepsPreserveWellFormed(s: Sos, id: nat, location: Location, kind: string)
    requires WellFormed(s)
    ensures WellFormed(AfterActivate(s)) && WellFormed(AfterCancel(s))
    ensures WellFormed(AfterFire(s, id)) && WellFormed(AfterLocate(s, location))
    ensures WellFormed(AfterQuickMessage(s, kind))
  {
  }

  /** Interval `id` fires n times in a row. */
  function Fires(s: Sos, id: nat, n: nat): Sos {
    if n == 0 then s else AfterFire(Fires(s, id, n - 1), id)
  }

  /** A live interval that fires k times while the count stays above one
      lowers it by k and changes nothing else. */
  lemma {:induction false} FiresDecrement(s: Sos, id: nat, k: nat)
    requires id < |s.intervals| && s.intervals[id].live && k < s.countdown
    ensures Fires(s, id, k) == s.(countdown := s.countdown - k)
  {
    if k > 0 {
      FiresDecrement(s, id, k - 1);
    }
  }

  /** Within the first nine seconds after activation the count goes down by
      one per tick and nothing is sent. */
  lemma CountdownRuns(s: Sos, k: nat)
    requires k < CountdownStart
    ensures var a := AfterActivate(s);
      Fires(a, |s.intervals|, k) == a.(countdown := CountdownStart - k)
  {
    FiresDecrement(AfterActivate(s), |s.intervals|, k);
  }

  /** Without a cancel, the tenth tick sends exactly one alert, disarms the
      panel and clears the interval, so later ticks send nothing more. */
  lemma {:induction false} AlertOnTenthTick(s: Sos, extra: nat)
    ensures var a := AfterActivate(s);
      var id := |s.intervals|;
      var fired := Fires(a, id, CountdownStart);
      && AlertsSent(Fires(a, id, CountdownStart - 1).log) == AlertsSent(s.log)
      && fired.log == s.log + AlertLog(s.userLocation)
      && AlertsSent(fired.log) == AlertsSent(s.log) + 1
      && !fired.sosActive && fired.countdown == 0 && !fired.intervals[id].live
      && Fires(fired, id, extra) == fired
  {
    var a := AfterActivate(s);
    var id := |s.intervals|;
    CountdownRuns(s, CountdownStart - 1);
    var fired := Fires(a, id, CountdownStart);
    assert fired == AfterFire(a.(countdown := 1), id);
    DeadIntervalIsSilent(fired, id, extra);
  }

  lemma {:induction false} DeadIntervalIsSilent(s: Sos, id: nat, n: nat)
    requires id < |s.intervals| && !s.intervals[id].live
    ensures Fires(s, id, n) == s
  {
    if n > 0 {
      DeadIntervalIsSilent(s, id, n - 1);
    }
  }

  /** Activate, then cancel: the interval is still live and its next tick
      sees a count of 0, which is at most 1, so the alert goes out although
      the cancel message says it was cancelled. */
  lemma CancelThenTickSendsAlert(s: Sos, k: nat)
    requires k < CountdownStart
    ensures var id := |s.intervals|;
      var cancelled := AfterCancel(Fires(AfterActivate(s), id, k));
      && !cancelled.sosActive && id < |cancelled.intervals| && cancelled.intervals[id].live
      && AlertsSent(AfterFire(cancelled, id).log) == AlertsSent(s.log) + 1
  {
    CountdownRuns(s, k);
  }

  // ---------------------------------------------------------------- corrected cancel

  function ClearAll(intervals: seq<Interval>): (r: seq<Interval>)
    ensures |r| == |intervals|
    ensures forall i :: 0 <= i < |r| ==> r[i] == intervals[i].(live := false)
  {
    seq(|intervals|, i requires 0 <= i < |intervals| => intervals[i].(live := false))
  }

  /** The cancel the panel promises: reset, and also clear every interval. */
  function AfterCancelAndClear(s: Sos): (r: Sos)
    ensures !r.sosActive && r.countdown == 0 && r.log == s.log
    ensures forall i :: 0 <= i < |r.intervals| ==> !r.intervals[i].live
    ensures r.intervals == ClearAll(s.intervals) && r.userLocation == s.userLocation
  {
    AfterCancel(s).(intervals := ClearAll(s.intervals))
  }

  /** Every tick of a sequence of timer ticks, in order. */
  function FireAll(s: Sos, ids: seq<nat>): Sos
    decreases ids
  {
    if ids == [] then s else FireAll(AfterFire(s, ids[0]), ids[1..])
  }

  lemma {:induction false} FireAllAppend(s: Sos, x: seq<nat>, y: seq<nat>)
    ensures FireAll(s, x + y) == FireAll(FireAll(s, x), y)
    decreases x
  {
    if x == [] {
      assert x + y == y;
    } else {
      FireAllAppend(AfterFire(s, x[0]), x[1..], y);
      assert (x + y)[1..] == x[1..] + y;
    }
  }

  lemma FireTwo(s: Sos, x: nat, y: nat)
    ensures FireAll(s, [x, y]) == AfterFire(AfterFire(s, x), y)
  {
    assert [x, y][1..] == [y] && [y][1..] == [];
    var t := AfterFire(s, x);
    assert FireAll(s, [x, y]) == FireAll(t, [y]);
    assert FireAll(t, [y]) == FireAll(AfterFire(t, y), []);
  }

  /** n seconds of two one-second timers, `first` firing before `second`
      in every second. */
  function Alternating(first: nat, second: nat, n: nat): (r: seq<nat>)
    ensures |r| == 2 * n
  {
    if n == 0 then [] else Alternating(first, second, n - 1) + [first, second]
  }

  /** Two live timers each take one off the count per callback while it
      stays above one. */
  lemma {:induction false} AlternatingDecrement(s: Sos, first: nat, second: nat, n: nat)
    requires first < |s.intervals| && s.intervals[first].live
    requires second < |s.intervals| && s.intervals[second].live
    requires 2 * n < s.countdown
    ensures FireAll(s, Alternating(first, second, n)) == s.(countdown := s.countdown - 2 * n)
  {
    if n > 0 {
      AlternatingDecrement(s, first, second, n - 1);
      FireAllAppend(s, Alternating(first, second, n - 1), [first, second]);
      var t := s.(countdown := s.countdown - 2 * (n - 1));
      FireTwo(t, first, second);
    }
  }

  /** Activate, cancel within the countdown, activate again. The cancel left
      the first timer live, so two timers now call the updater, each once a
      second; the older one fires first in every second. The re-armed panel
      therefore sends its alert at its fifth second (the tenth callback)
      instead of its tenth, and the older timer's next callback sends a
      second alert. */
  lemma ReactivationAlertsTwice(s: Sos, k: nat)
    requires k < CountdownStart
    ensures var stale := |s.intervals|;
      var current := stale + 1;
      var r := AfterActivate(AfterCancel(Fires(AfterActivate(s), stale, k)));
      var nine := FireAll(r, Alternating(stale, current, 4) + [stale]);
      var ten := FireAll(r, Alternating(stale, current, 5));
      var eleven := FireAll(r, Alternating(stale, current, 5) + [stale]);
      && nine.sosActive && nine.countdown == 1 && nine.log == s.log
      && !ten.sosActive && ten.countdown == 0
      && ten.log == s.log + AlertLog(s.userLocation)
      && AlertsSent(ten.log) == AlertsSent(s.log) + 1
      && AlertsSent(eleven.log) == AlertsSent(s.log) + 2
  {
    var stale := |s.intervals|;
    var current := stale + 1;
    CountdownRuns(s, k);
    var r := AfterActivate(AfterCancel(Fires(AfterActivate(s), stale, k)));
    assert r.intervals[stale].live && r.intervals[current].live && r.countdown == 10;
    AlternatingDecrement(r, stale, current, 4);
    var eight := FireAll(r, Alternating(stale, current, 4));
    assert eight == r.(countdown := 2);
    FireAllAppend(r, Alternating(stale, current, 4), [stale]);
    assert FireAll(eight, [stale]) == AfterFire(eight, stale);
    var nine := AfterFire(eight, stale);
    assert nine == r.(countdown := 1);
    FireAllAppend(r, Alternating(stale, current, 4), [stale, current]);
    FireTwo(eight, stale, current);
    var ten := AfterFire(nine, current);
    assert ten.intervals[stale].live && ten.countdown == 0;
    FireAllAppend(r, Alternating(stale, current, 5), [stale]);
    assert FireAll(ten, [stale]) == AfterFire(ten, stale);
    AlertsSentAppend(ten.log, AlertLog(ten.intervals[stale].location));
    AlertLogSendsOneAlert(ten.intervals[stale].location);
  }

  /** After the corrected cancel no tick of any timer sends anything. */
  lemma {:induction false} NoAlertAfterClearingCancel(s: Sos, ids: seq<nat>)
    ensures FireAll(AfterCancelAndClear(s), ids) == AfterCancelAndClear(s)
    ensures AlertsSent(FireAll(AfterCancelAndClear(s), ids).log) == AlertsSent(s.log)
  {
    if ids != [] {
      NoAlertAfterClearingCancel(s, ids[1..]);
    }
  }

  // ---------------------------------------------------------------- dialling and quick messages

  /** `number.replace(/[^\d]/g, '')`: keeps the ASCII digits in order. */
  function StripNonDigits(s: string): (r: string)
    ensures |r| <= |s|
  {
    if s == [] then []
    else (if IsDigit(s[0]) then [s[0]] else []) + StripNonDigits(s[1..])
  }

  lemma {:induction false} StripYieldsDigits(s: string)
    ensures AllDigits(StripNonDigits(s))
  {
    if s != [] {
      StripYieldsDigits(s[1..]);
    }
  }

  lemma {:induction false} StripConcat(a: string, b: string)
    ensures StripNonDigits(a + b) == StripNonDigits(a) + StripNonDigits(b)
  {
    if a == [] {
      assert a + b == b;
    } else {
      var head := if IsDigit(a[0]) then [a[0]] else [];
      assert (a + b)[0] == a[0] && (a + b)[1..] == a[1..] + b;
      assert StripNonDigits(a + b) == head + StripNonDigits(a[1..] + b);
      StripConcat(a[1..], b);
      assert StripNonDigits(a) == head + StripNonDigits(a[1..]);
    }
  }

  lemma {:induction false} StripKeepsDigits(s: string)
    requires AllDigits(s)
    ensures StripNonDigits(s) == s
  {
    if s != [] {
      StripKeepsDigits(s[1..]);
    }
  }

  lemma StripIdempotent(s: string)
    ensures StripNonDigits(StripNonDigits(s)) == StripNonDigits(s)
  {
    StripYieldsDigits(s);
    StripKeepsDigits(StripNonDigits(s));
  }

  /** The `tel:` link the call button opens. */
  function DialUri(number: string): (r: string)
    ensures |r| >= 4 && r[..4] == "tel:" && AllDigits(r[4..])
    ensures r[4..] == StripNonDigits(number)
  {
    StripYieldsDigits(number);
    "tel:" + StripNonDigits(number)
  }

  lemma {:induction false} StripDropsNonDigits(s: string)
    requires forall i :: 0 <= i < |s| ==> !IsDigit(s[i])
    ensures StripNonDigits(s) == ""
  {
    if s != [] {
      StripDropsNonDigits(s[1..]);
    }
  }

  /** The parts of School Security's number, "(555) 123-0001". */
  lemma StripAreaCode()
    ensures StripNonDigits("(555) ") == "555"
  {
  }

  lemma StripExchange()
    ensures StripNonDigits("123-") == "123"
  {
  }

  /** School Security's number is dialled as its ten digits. */
  lemma SecurityNumberDialled()
    ensures StripNonDigits("(555) " + "123-" + "0001") == "5551230001"
  {
    StripConcat("(555) ", "123-");
    StripConcat("(555) " + "123-", "0001");
    StripAreaCode();
    StripExchange();
    StripKeepsDigits("0001");
  }

  /** The emergency number has nothing to strip. */
  lemma EmergencyNumberDialled()
    ensures DialUri("911") == "tel:911"
  {
    StripKeepsDigits("911");
  }

  /** The canned text of each quick-message category. */
  const EmergencyMessages: map<string, string> := map[
    "medical" := "MEDICAL EMERGENCY: Student/staff needs immediate medical attention.",
    "fire" := "FIRE EMERGENCY: Fire detected, immediate evacuation required.",
    "security" := "SECURITY THREAT: Potential security incident, lockdown procedures initiated.",
    "weather" := "SEVERE WEATHER: Dangerous weather conditions, shelter procedures activated."
  ]

  /** The lookup `emergencyMessages[type]`: undefined for any other category. */
  function QuickMessage(kind: string): (r: Option<string>)
    ensures r.Some? <==> kind in EmergencyMessages
    ensures r.Some? ==> r.value == EmergencyMessages[kind]
  {
    if kind in EmergencyMessages then Some(EmergencyMessages[kind]) else None
  }

  lemma QuickMessageCategories()
    ensures EmergencyMessages.Keys == {"medical", "fire", "security", "weather"}
    ensures QuickMessage("fire") == Some("FIRE EMERGENCY: Fire detected, immediate evacuation required.")
    ensures QuickMessage("flood") == None
  {
  }

  /** The notification title after a quick message. */
  function QuickAlertTitle(kind: string): (r: string)
    ensures |r| == |kind| + 13
    ensures r[2..2 + |kind|] == ToUpper(kind)
    ensures r[..2] == "🚨 " && r[2 + |kind|..] == " ALERT SENT"
  {
    "🚨 " + ToUpper(kind) + " ALERT SENT"
  }

  lemma FireAlertTitle()
    ensures QuickAlertTitle("fire") == "🚨 FIRE ALERT SENT"
  {
    assert ToUpper("fire") == "FIRE";
  }

  // ---------------------------------------------------------------- page

  class SosPage {
    var sosActive: bool
    var countdown: int
    var userLocation: Option<Location>
    var intervals: seq<Interval>
    var log: seq<LogEntry>

    function State(): Sos
      reads this
    {
      Sos(sosActive, countdown, userLocation, intervals, log)
    }

    constructor ()
      ensures State() == Initial
    {
      sosActive := false;
      countdown := 0;
      userLocation := None;
      intervals := [];
      log := [];
    }

    /** The geolocation callback delivers a position. */
    method LocationResolved(location: Location)
      modifies this
      ensures State() == AfterLocate(old(State()), location)
    {
      userLocation := Some(location);
    }

    /** Starts the countdown and a new interval; returns the interval's id. */
    method ActivateSos() returns (timer: nat)
      modifies this
      ensures State() == AfterActivate(old(State()))
      ensures timer == old(|intervals|)
    {
      sosActive := true;
      countdown := CountdownStart;
      timer := |intervals|;
      intervals := intervals + [Interval(true, userLocation)];
    }

    method CancelSos()
      modifies this
      ensures State() == AfterCancel(old(State()))
    {
      sosActive := false;
      countdown := 0;
    }

    /** The cancel that also clears every interval. */
    method CancelSosAndClear()
      modifies this
      ensures State() == AfterCancelAndClear(old(State()))
    {
      sosActive := false;
      countdown := 0;
      var cleared: seq<Interval> := [];
      var i := 0;
      while i < |intervals|
        invariant 0 <= i <= |intervals|
        invariant cleared == ClearAll(intervals[..i])
      {
        cleared := cleared + [intervals[i].(live := false)];
        i := i + 1;
      }
      assert intervals[..|intervals|] == intervals;
      intervals := cleared;
    }

    /** Disarms the panel, logs the alert and then alerts each contact. */
    method SendSosAlert(location: Option<Location>)
      modifies this
      ensures State() == AfterSendAlert(old(State()), location)
    {
      sosActive := false;
      log := log + [AlertSent(AlertType, AlertUserId, location)];
      NotifyContacts(EmergencyContacts);
      AlertLogAppended(old(log), location);
    }

    /** `contacts.forEach(...)`: one console line per contact, in order. */
    method NotifyContacts(contacts: seq<Contact>)
      modifies this
      ensures log == old(log) + ContactAlerts(contacts)
      ensures State() == old(State()).(log := log)
    {
      var i := 0;
      while i < |contacts|
        invariant 0 <= i <= |contacts|
        invariant log == old(log) + ContactAlerts(contacts[..i])
        invariant State() == old(State()).(log := log)
      {
        var contact := contacts[i];
        assert contacts[..i + 1][..i] == contacts[..i];
        log := log + [Alerting(contact.name, contact.number)];
        i := i + 1;
      }
      assert contacts[..|contacts|] == contacts;
    }

    /** The interval callback of timer `id`. */
    method FireInterval(id: nat)
      modifies this
      ensures State() == AfterFire(old(State()), id)
    {
      if id < |intervals| && intervals[id].live {
        var timer := intervals[id];
        if countdown <= 1 {
          intervals := intervals[id := timer.(live := false)];
          countdown := 0;
          SendSosAlert(timer.location);
        } else {
          countdown := countdown - 1;
        }
      }
    }

    method SendQuickMessage(kind: string)
      modifies this
      ensures State() == AfterQuickMessage(old(State()), kind)
    {
      log := log + [MessageSent(kind, QuickMessage(kind), userLocation)];
    }
  }
}
