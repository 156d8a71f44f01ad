/**
  The day-log store: day logs kept in a map keyed by "<userId>:<day>", the
  read path that reports a day, and the append path that records a segment
  under the over-allocation guard. The calendar day is a parameter here;
  the service reads it from the clock.
 */
module DayStore {
  import opened DayModel
  import opened Budget

  type Store = map<string, DayLog>

  function Key(userId: string, day: string): string {
    userId + ":" + day
  }

  /** An ISO date such as "2024-01-01" has no colon in it. */
  predicate ColonFree(day: string) {
    forall i :: 0 <= i < |day| ==> day[i] != ':'
  }

  /** In a key with a colon-free day, the user id is everything before the
      last colon and the day everything after it. */
  lemma KeyShape(userId: string, day: string)
    requires ColonFree(day)
    ensures var k := Key(userId, day);
      && k[|userId|] == ':'
      && (forall i :: |userId| < i < |k| ==> k[i] != ':')
      && k[..|userId|] == userId
      && k[|userId| + 1..] == day
  {
  }

  /** With colon-free days, distinct (user, day) pairs never share a key. */
  lemma KeyInjective(u1: string, d1: string, u2: string, d2: string)
    requires ColonFree(d1) && ColonFree(d2)
    requires Key(u1, d1) == Key(u2, d2)
    ensures u1 == u2 && d1 == d2
  {
    KeyShape(u1, d1);
    KeyShape(u2, d2);
  }

  /** The stored log for the pair, or a fresh default one. */
  function LoadOrDefault(store: Store, userId: string, day: string): DayLog {
    var key := Key(userId, day);
    if key in store then store[key] else DefaultLog(userId, day)
  }

  /** Every stored log fits inside its day. */
  ghost predicate AllWithinDay(store: Store) {
    forall k :: k in store ==> WithinDay(store[k])
  }

  /** What the read path reports for one user's day. */
  datatype TodayView = TodayView(log: DayLog, otherMinutes: nat, summary: Summary)

  /** The read path: load or default, then derive remainder and summary. */
  function GetToday(store: Store, userId: string, day: string): (r: TodayView)
    ensures Key(userId, day) in store ==> r.log == store[Key(userId, day)]
    ensures Key(userId, day) !in store ==>
      r.log == DefaultLog(userId, day) && r.otherMinutes == 840
    ensures WithinDay(r.log) ==> r.otherMinutes + Used(r.log) == DayMinutes
    ensures !WithinDay(r.log) ==> r.otherMinutes == 0
    ensures r.summary.sleep <= 100 && r.summary.buffer <= 100 && r.summary.other <= 100
    ensures WithinDay(r.log) ==> r.summary.tracked <= 100
    ensures r.summary == SummaryOf(r.log)
  {
    var log := LoadOrDefault(store, userId, day);
    TodayView(log, Other(log), SummaryOf(log))
  }

  /** A successful append: the new store, the saved log and its remainder. */
  datatype Appended = Appended(store: Store, log: DayLog, otherMinutes: nat)

  /** The append path: load or default, append the segment as the last one,
      refuse with 409 when the guard fires, otherwise write back that key only. */
  function AddSegment(store: Store, userId: string, day: string, seg: Segment): (r: Result<Appended>)
    ensures var before := LoadOrDefault(store, userId, day);
      r.Err? <==> Used(before) + seg.minutes > DayMinutes
    ensures r.Err? ==> r.error == DayOverAllocated && r.error.Status() == 409
    ensures r.Ok? ==>
      var before := LoadOrDefault(store, userId, day);
      && r.value.log.userId == before.userId
      && r.value.log.day == before.day
      && r.value.log.sleepMinutes == before.sleepMinutes
      && r.value.log.bufferMinutes == before.bufferMinutes
      && |r.value.log.segments| == |before.segments| + 1
      && r.value.log.segments[..|before.segments|] == before.segments
      && r.value.log.segments[|before.segments|] == seg
    ensures r.Ok? ==> WithinDay(r.value.log) && r.value.otherMinutes + Used(r.value.log) == DayMinutes
    ensures r.Ok? ==>
      && r.value.store.Keys == store.Keys + {Key(userId, day)}
      && r.value.store[Key(userId, day)] == r.value.log
      && forall k :: k in store && k != Key(userId, day) ==> r.value.store[k] == store[k]
  {
    var key := Key(userId, day);
    var log := LoadOrDefault(store, userId, day);
    var updated := log.(segments := log.segments + [seg]);
    TrackedAppend(log.segments, seg);
    if OverAllocated(updated) then Err(DayOverAllocated)
    else Ok(Appended(store[key := updated], updated, Other(updated)))
  }

  /** The store after an append: the new one on success, the old one on refusal. */
  function StoreAfter(store: Store, userId: string, day: string, seg: Segment): Store {
    var r := AddSegment(store, userId, day, seg);
    if r.Ok? then r.value.store else store
  }

  /** No append, successful or refused, lets a stored log exceed its day. */
  lemma AddSegmentKeepsAllWithinDay(store: Store, userId: string, day: string, seg: Segment)
    requires AllWithinDay(store)
    ensures AllWithinDay(StoreAfter(store, userId, day, seg))
  {
  }

  /** A refused append leaves the store, and so every later read, as it was. */
  lemma RefusedAddChangesNothing(store: Store, userId: string, day: string, seg: Segment,
                                 u: string, d: string)
    requires AddSegment(store, userId, day, seg).Err?
    ensures StoreAfter(store, userId, day, seg) == store
    ensures GetToday(StoreAfter(store, userId, day, seg), u, d) == GetToday(store, u, d)
  {
  }

  /** Reading back a successful append shows the saved log and the returned remainder. */
  lemma AddThenGet(store: Store, userId: string, day: string, seg: Segment)
    requires AddSegment(store, userId, day, seg).Ok?
    ensures var a := AddSegment(store, userId, day, seg).value;
      GetToday(a.store, userId, day).log == a.log
      && GetToday(a.store, userId, day).otherMinutes == a.otherMinutes
  {
  }

  /** An append never changes what another user or another day reads. */
  lemma AddSegmentIsolation(store: Store, userId: string, day: string, seg: Segment,
                            u: string, d: string)
    requires ColonFree(day) && ColonFree(d)
    requires (u, d) != (userId, day)
    ensures GetToday(StoreAfter(store, userId, day, seg), u, d) == GetToday(store, u, d)
  {
    if Key(u, d) == Key(userId, day) {
      KeyInjective(u, d, userId, day);
    }
  }

  /** An append that brings the day to exactly 1440 minutes is accepted with nothing left. */
  lemma ExactFillSucceeds(store: Store, userId: string, day: string, seg: Segment)
    requires Used(LoadOrDefault(store, userId, day)) + seg.minutes == DayMinutes
    ensures AddSegment(store, userId, day, seg).Ok?
    ensures AddSegment(store, userId, day, seg).value.otherMinutes == 0
  {
    var before := LoadOrDefault(store, userId, day);
    TrackedAppend(before.segments, seg);
  }

  /** A day already at 480 + 120 + 840 minutes refuses one more minute. */
  lemma FullDayRefusesOneMinute()
    ensures var full := DayLog("u", "2024-01-01", 480, 120, [Segment(1, 840, None)]);
      var store := map[Key("u", "2024-01-01") := full];
      AddSegment(store, "u", "2024-01-01", Segment(2, 1, None)) == Err(DayOverAllocated)
      && StoreAfter(store, "u", "2024-01-01", Segment(2, 1, None)) == store
  {
  }

  /** An unknown pair reads as sleep 480, buffer 120, no segments, 840 minutes
      left, and a summary of 33/8/0/58 that totals 99. */
  lemma DefaultDayView(store: Store, userId: string, day: string)
    requires Key(userId, day) !in store
    ensures var v := GetToday(store, userId, day);
      v.log == DayLog(userId, day, 480, 120, [])
      && v.otherMinutes == 840
      && v.summary == Summary(33, 8, 0, 58)
  {
  }
}
