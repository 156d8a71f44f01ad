/**
  The time-budget calculator: how many minutes of a day log are tracked,
  how many are accounted in total, what remains ("other"), and the
  whole-percent summary of the four buckets.
 */
module Budget {
  import opened DayModel

  /** Sum of the minutes of the segments, added front to back. */
  function Tracked(segs: seq<Segment>): (r: nat)
    ensures forall i :: 0 <= i < |segs| ==> segs[i].minutes <= r
    ensures r <= |segs| * DayMinutes
  {
    if |segs| == 0 then 0 else segs[0].minutes + Tracked(segs[1..])
  }

  /** Appending a segment adds exactly its minutes to the tracked total. */
  lemma {:induction false} TrackedAppend(segs: seq<Segment>, seg: Segment)
    ensures Tracked(segs + [seg]) == Tracked(segs) + seg.minutes
  {
    if |segs| == 0 {
      assert segs + [seg] == [seg];
    } else {
      assert (segs + [seg])[1..] == segs[1..] + [seg];
      TrackedAppend(segs[1..], seg);
    }
  }

  /** Minutes the log accounts for: sleep, buffer and all segments. */
  function Used(log: DayLog): nat {
    log.sleepMinutes + log.bufferMinutes + Tracked(log.segments)
  }

  /** The log does not claim more than one day. */
  predicate WithinDay(log: DayLog) {
    Used(log) <= DayMinutes
  }

  /** The unaccounted remainder of the day, floored at zero. */
  function Other(log: DayLog): (r: nat)
    ensures r <= DayMinutes
    ensures WithinDay(log) ==> r + Used(log) == DayMinutes
    ensures !WithinDay(log) ==> r == 0
    ensures r == 0 <==> Used(log) >= DayMinutes
  {
    var used := Used(log);
    if DayMinutes - used > 0 then DayMinutes - used else 0
  }

  /** The over-allocation guard exactly as the service writes it. */
  predicate OverAllocated(log: DayLog) {
    Other(log) == 0 && Used(log) > DayMinutes
  }

  /** The first half of the guard is implied by the second: the guard fires
      exactly when the log claims more than one day. */
  lemma GuardIsOverflow(log: DayLog)
    ensures OverAllocated(log) <==> !WithinDay(log)
  {
  }

  /** p is the whole percent nearest to mins * 100 / DayMinutes, an exact
      half going to the even neighbour. */
  predicate NearestPercent(mins: nat, p: nat) {
    var diff := mins * 100 - p * DayMinutes;
    && -(DayMinutes / 2) <= diff <= DayMinutes / 2
    && (diff == DayMinutes / 2 || diff == -(DayMinutes / 2) ==> p % 2 == 0)
  }

  /** Python's round() of mins * 100 / 1440: nearest whole percent, ties to even. */
  function Pct(mins: nat): (r: nat)
    ensures NearestPercent(mins, r)
    ensures mins <= DayMinutes ==> r <= 100
  {
    var q := (mins * 100) / DayMinutes;
    var rem := (mins * 100) % DayMinutes;
    if 2 * rem < DayMinutes then q
    else if 2 * rem > DayMinutes then q + 1
    else if q % 2 == 0 then q
    else q + 1
  }

  /** Nearest-with-ties-to-even determines the percentage uniquely. */
  lemma PctUnique(mins: nat, p: nat)
    requires NearestPercent(mins, p)
    ensures p == Pct(mins)
  {
  }

  /** More minutes never yield a smaller percentage. */
  lemma PctMonotone(a: nat, b: nat)
    requires a <= b
    ensures Pct(a) <= Pct(b)
  {
  }

  /** The four percentages of the day summary. */
  datatype Summary = Summary(sleep: nat, buffer: nat, tracked: nat, other: nat)

  /** Each bucket is rounded on its own; the four need not add up to 100. */
  function SummaryOf(log: DayLog): (r: Summary)
    ensures r.sleep <= 100 && r.buffer <= 100 && r.other <= 100
    ensures Tracked(log.segments) <= DayMinutes ==> r.tracked <= 100
    ensures NearestPercent(log.sleepMinutes, r.sleep)
    ensures NearestPercent(log.bufferMinutes, r.buffer)
    ensures NearestPercent(Tracked(log.segments), r.tracked)
    ensures NearestPercent(Other(log), r.other)
  {
    Summary(
      Pct(log.sleepMinutes),
      Pct(log.bufferMinutes),
      Pct(Tracked(log.segments)),
      Pct(Other(log)))
  }

  /** The sleep and buffer percentages depend on nothing but their own field:
      adding segments leaves them alone. */
  lemma SummaryBucketsIndependent(log: DayLog, segs: seq<Segment>)
    ensures SummaryOf(log.(segments := segs)).sleep == SummaryOf(log).sleep
    ensures SummaryOf(log.(segments := segs)).buffer == SummaryOf(log).buffer
  {
  }

  /** Sleep 480, buffer 120 and one 300-minute segment: 33/8/21/38, other 540. */
  lemma SummaryExample()
    ensures var log := DayLog("u", "2024-01-01", 480, 120, [Segment(1, 300, None)]);
      Other(log) == 540 && SummaryOf(log) == Summary(33, 8, 21, 38)
  {
  }

  /** Independent rounding can total 101: sleep 10, buffer 10, one 10-minute segment. */
  lemma SummaryCanExceed100()
    ensures var log := DayLog("u", "2024-01-01", 10, 10, [Segment(1, 10, None)]);
      var s := SummaryOf(log);
      s == Summary(1, 1, 1, 98) && s.sleep + s.buffer + s.tracked + s.other == 101
  {
  }
}
