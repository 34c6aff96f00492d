/** The server's choice of the type of a new punch (the 16-hour rotation
    policy), written identically in `scanQR` and in the serverless scan
    endpoint: look at the employee's last log only; a first punch, or one 16
    hours or more after the last, is an ENTRY; otherwise the day rotates
    ENTRY -> LUNCH_START -> LUNCH_END -> EXIT -> ENTRY. */
module Classifier {
  import opened Common
  import opened Clock
  import opened Events

  /** Below this gap since the last log the day keeps rotating. */
  const RotationWindowMs: int := 16 * MsPerHour

  /** The last log as the history query returns it: its type and its instant. */
  datatype PriorLog = PriorLog(eventType: string, timestamp: int)

  /** `(current - last) / 3600000 < 16` on real numbers is exactly this integer test. */
  predicate WithinWindow(last: int, now: int)
    ensures now <= last ==> WithinWindow(last, now)
    ensures now >= last + 16 * 60 * 60 * 1000 ==> !WithinWindow(last, now)
  {
    now - last < RotationWindowMs
  }

  /** The type the server writes for a punch at `now`, given the last log. */
  function Classify(last: Option<PriorLog>, now: int): (r: EventCode)
    ensures last.None? ==> r == Entry
    ensures last.Some? && !WithinWindow(last.value.timestamp, now) ==> r == Entry
    ensures last.Some? && WithinWindow(last.value.timestamp, now) && ParseCode(last.value.eventType).Some?
      ==> r == Next(ParseCode(last.value.eventType).value)
    ensures r == Entry <==> (last.None? || !WithinWindow(last.value.timestamp, now)
                             || last.value.eventType !in [Code(Entry), Code(LunchStart), Code(LunchEnd)])
  {
    match last
    case None => Entry
    case Some(p) =>
      if WithinWindow(p.timestamp, now) then
        match ParseCode(p.eventType)
        case Some(c) => Next(c)
        case None => Entry  // the switch has no default: the initial ENTRY stays
      else Entry
  }

  /** Within the window, a last type the switch does not know (a Spanish label,
      a lower-case code) restarts the day. */
  lemma UnknownTypeRestarts(p: PriorLog, now: int)
    requires WithinWindow(p.timestamp, now)
    requires forall c :: p.eventType != Code(c)
    ensures Classify(Some(p), now) == Entry
  {
  }

  /** A punch stamped before the last log has a negative gap, which is inside the
      window, so the day rotates instead of restarting. */
  lemma EarlierPunchRotates(c: EventCode, last: int, now: int)
    requires now < last
    ensures Classify(Some(PriorLog(Code(c), last)), now) == Next(c)
  {
  }

  /** The types given to successive punches at `times`, each punch seeing the
      previous one as its last log. That is the newest log by timestamp only
      when the instants rise; `Rapid` below demands it. */
  function ScanTypes(last: Option<PriorLog>, times: seq<int>): (types: seq<EventCode>)
    ensures |types| == |times|
    decreases |times|
  {
    if |times| == 0 then []
    else
      var c := Classify(last, times[0]);
      [c] + ScanTypes(Some(PriorLog(Code(c), times[0])), times[1..])
  }

  /** Consecutive punches, each later than the one before and less than 16
      hours after it. Strictly rising instants make the previous punch the
      newest log, which is the log the query picks. */
  predicate Rapid(times: seq<int>)
  {
    forall k :: 0 < k < |times| ==> times[k - 1] < times[k] && WithinWindow(times[k - 1], times[k])
  }

  /** The punches after the first are rapid too, and the second is inside the
      window of the first. */
  lemma RapidTail(times: seq<int>)
    requires |times| > 1 && Rapid(times)
    ensures Rapid(times[1..]) && times[0] < times[1..][0] && WithinWindow(times[0], times[1..][0])
  {
    var rest := times[1..];
    forall i | 0 < i < |rest| ensures rest[i - 1] < rest[i] && WithinWindow(rest[i - 1], rest[i]) {
      assert rest[i - 1] == times[i] && rest[i] == times[i + 1];
    }
  }

  /** Every punch after the first is classified against the punch before it. */
  lemma ScanTypesTail(last: Option<PriorLog>, times: seq<int>, k: nat)
    requires 0 < k < |times|
    ensures ScanTypes(last, times)[k]
         == ScanTypes(Some(PriorLog(Code(Classify(last, times[0])), times[0])), times[1..])[k - 1]
  {
  }

  /** Stepping once to `Next(c)` and then `k` more places lands where `k + 1`
      steps from `c` land. */
  lemma RotationShift(c: EventCode, k: nat)
    ensures DayOrder[(Position(Next(c)) + 1 + k) % 4] == DayOrder[(Position(c) + 1 + (k + 1)) % 4]
  {
    assert Position(Next(c)) == (Position(c) + 1) % 4;
  }

  /** A punch inside the window of a recognised last log takes the next type,
      and the punches after it see that punch as their last log. */
  lemma RotationStep(c: EventCode, t: int, times: seq<int>)
    requires |times| > 0 && WithinWindow(t, times[0])
    ensures ScanTypes(Some(PriorLog(Code(c), t)), times)
         == [Next(c)] + ScanTypes(Some(PriorLog(Code(Next(c)), times[0])), times[1..])
  {
  }

  /** The next `n` types of the daily rotation after `c`. */
  function Rotation(c: EventCode, n: nat): (r: seq<EventCode>)
    ensures |r| == n
    decreases n
  {
    if n == 0 then [] else [Next(c)] + Rotation(Next(c), n - 1)
  }

  /** The `k`-th type of the rotation after `c` stands `k + 1` places past it. */
  lemma {:induction false} RotationAt(c: EventCode, n: nat, k: nat)
    requires k < n
    ensures Rotation(c, n)[k] == DayOrder[(Position(c) + 1 + k) % 4]
    decreases k
  {
    if k > 0 {
      RotationAt(Next(c), n - 1, k - 1);
      RotationShift(c, k - 1);
    }
  }

  /** Rising punches, each inside the window of the one before, follow the
      rotation from the type of the last log. */
  lemma {:induction false} RapidScansRotate(c: EventCode, t: int, times: seq<int>)
    requires |times| > 0 && t < times[0] && WithinWindow(t, times[0]) && Rapid(times)
    ensures ScanTypes(Some(PriorLog(Code(c), t)), times) == Rotation(c, |times|)
    decreases |times|
  {
    RotationStep(c, t, times);
    if |times| > 1 {
      RapidTail(times);
      RapidScansRotate(Next(c), times[0], times[1..]);
    }
  }

  /** Punches that keep inside the window continue the rotation from `c`. */
  lemma {:induction false} RotationContinues(c: EventCode, t: int, times: seq<int>, k: nat)
    requires |times| > 0 && t < times[0] && WithinWindow(t, times[0]) && Rapid(times)
    requires k < |times|
    ensures ScanTypes(Some(PriorLog(Code(c), t)), times)[k] == DayOrder[(Position(c) + 1 + k) % 4]
    decreases k
  {
    RapidScansRotate(c, t, times);
    RotationAt(c, |times|, k);
  }

  /** The first punches of an employee with no history, each less than 16 hours
      after the previous one, are ENTRY, LUNCH_START, LUNCH_END, EXIT, ENTRY, ... */
  lemma {:induction false} FirstShiftRotation(times: seq<int>, k: nat)
    requires Rapid(times) && k < |times|
    ensures ScanTypes(None, times)[k] == DayOrder[k % 4]
  {
    GapRestartsRotation(None, times, k);
  }

  /** Whatever came before, a punch 16 hours or more after the last starts a new rotation. */
  lemma {:induction false} GapRestartsRotation(last: Option<PriorLog>, times: seq<int>, k: nat)
    requires |times| > 0 && (last.None? || !WithinWindow(last.value.timestamp, times[0]))
    requires Rapid(times) && k < |times|
    ensures ScanTypes(last, times)[k] == DayOrder[k % 4]
  {
    if k > 0 {
      assert Classify(last, times[0]) == Entry;
      RapidTail(times);
      ScanTypesTail(last, times, k);
      RotationContinues(Entry, times[0], times[1..], k - 1);
    }
  }
}
