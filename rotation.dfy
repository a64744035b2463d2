/**
 * The `Rotator` of app/core/log.py: a size limit and a daily deadline that
 * loguru consults before every write to the log file. Time is integer
 * seconds on a local clock without daylight-saving jumps; the file is seen
 * through its end offset and its read/write position.
 */
module Rotation {

  const Day: int := 86400

  /** `datetime.time`: hour, minute and second of a day. */
  datatype TimeOfDay = TimeOfDay(hour: int, minute: int, second: int)
  {
    predicate Valid()
    {
      0 <= hour < 24 && 0 <= minute < 60 && 0 <= second < 60
    }

    function Seconds(): (s: int)
      requires Valid()
      ensures 0 <= s < Day
    {
      hour * 3600 + minute * 60 + second
    }
  }

  /**
   * The deadline `__init__` computes at clock time `now`: today at `at`, or
   * tomorrow when `now` is already at or past that time. It falls at the
   * time of day `at`, strictly after `now` and at most one day ahead, so a
   * process started late in the day does not rotate at once.
   */
  function InitialDeadline(now: int, at: TimeOfDay): (t: int)
    requires at.Valid()
    ensures t % Day == at.Seconds()
    ensures now < t <= now + Day
  {
    var today := now - now % Day + at.Seconds();
    DayStartPlus(now / Day, at.Seconds());
    DayStartPlus(now / Day + 1, at.Seconds());
    if now >= today then today + Day else today
  }

  /** A time of day added to the start of day `q` is that time of day. */
  lemma DayStartPlus(q: int, s: int)
    requires 0 <= s < Day
    ensures (Day * q + s) % Day == s
  {
  }

  /** The two persistent parameters of a rotator. */
  datatype RotationState = RotationState(sizeLimit: int, timeLimit: int)

  /** What one `should_rotate` call answers and the state it leaves. */
  datatype Decision = Decision(rotate: bool, next: RotationState)

  /** The size trigger: the message would take the file past the limit. */
  predicate SizeFires(st: RotationState, fileEnd: int, messageLen: int)
  {
    fileEnd + messageLen > st.sizeLimit
  }

  /**
   * One `should_rotate` call. The size trigger is tested first and never
   * touches the deadline; otherwise a record strictly after the deadline
   * rotates and moves the deadline one day on.
   */
  function Decide(st: RotationState, fileEnd: int, messageLen: int, recordTime: int): (d: Decision)
    ensures d.next.sizeLimit == st.sizeLimit
    ensures d.rotate <==> SizeFires(st, fileEnd, messageLen) || recordTime > st.timeLimit
    ensures d.next.timeLimit == st.timeLimit || d.next.timeLimit == st.timeLimit + Day
    ensures d.next.timeLimit == st.timeLimit + Day <==>
      !SizeFires(st, fileEnd, messageLen) && recordTime > st.timeLimit
  {
    if fileEnd + messageLen > st.sizeLimit then Decision(true, st)
    else if recordTime > st.timeLimit then Decision(true, st.(timeLimit := st.timeLimit + Day))
    else Decision(false, st)
  }

  /** The file handle `should_rotate` seeks: its end offset and its position. */
  class LogFile
  {
    var end: nat
    var position: nat

    constructor(size: nat)
      ensures end == size && position == size
    {
      end := size;
      position := size;
    }
  }

  class Rotator
  {
    var sizeLimit: int
    var timeLimit: int

    function State(): RotationState
      reads this
    {
      RotationState(sizeLimit, timeLimit)
    }

    /**
     * `Rotator(size=..., at=...)` at clock time `now`: the deadline is today
     * at `at`, or tomorrow when `now` is already at or past that time, so it
     * lies strictly after `now` and at most one day ahead.
     */
    constructor(size: int, at: TimeOfDay, now: int)
      requires at.Valid()
      ensures sizeLimit == size
      ensures timeLimit == InitialDeadline(now, at)
    {
      var limit := now - now % Day + at.Seconds();
      if now >= limit {
        limit := limit + Day;
      }
      sizeLimit, timeLimit := size, limit;
    }

    /**
     * `should_rotate(message, file)`: seeks the file to its end, then decides
     * by `Decide` on the end offset, the message length and the record time.
     */
    method ShouldRotate(messageLen: nat, file: LogFile, recordTime: int) returns (rotate: bool)
      modifies this`timeLimit, file`position
      ensures Decision(rotate, State()) == Decide(old(State()), file.end, messageLen, recordTime)
      ensures file.end == old(file.end) && file.position == file.end
    {
      file.position := file.end;
      if file.position + messageLen > sizeLimit {
        return true;
      }
      if recordTime > timeLimit {
        timeLimit := timeLimit + Day;
        return true;
      }
      return false;
    }
  }

  /** One write attempt: end offset of the file, message length, record time. */
  datatype Write = Write(fileEnd: int, messageLen: int, recordTime: int)

  function Step(st: RotationState, w: Write): Decision
  {
    Decide(st, w.fileEnd, w.messageLen, w.recordTime)
  }

  /** The state after consulting the rotator for every write in order. */
  function Final(st: RotationState, ws: seq<Write>): RotationState
    decreases |ws|
  {
    if ws == [] then st else Final(Step(st, ws[0]).next, ws[1..])
  }

  /** The write rotates on the time trigger: the size trigger is quiet and the record is past the deadline. */
  predicate TimeFires(st: RotationState, w: Write)
  {
    !SizeFires(st, w.fileEnd, w.messageLen) && w.recordTime > st.timeLimit
  }

  /** How many of the writes rotated on the time trigger. */
  function TimeCuts(st: RotationState, ws: seq<Write>): nat
    decreases |ws|
  {
    if ws == [] then 0
    else (if TimeFires(st, ws[0]) then 1 else 0) + TimeCuts(Step(st, ws[0]).next, ws[1..])
  }

  /**
   * Over any run of writes the size limit never changes, the deadline never
   * moves back, and it has moved by exactly one day per time-triggered
   * rotation, at most one per write.
   */
  lemma {:induction false} DeadlineCountsTimeCuts(st: RotationState, ws: seq<Write>)
    ensures Final(st, ws).sizeLimit == st.sizeLimit
    ensures Final(st, ws).timeLimit == st.timeLimit + Day * TimeCuts(st, ws)
    ensures TimeCuts(st, ws) <= |ws|
    ensures Final(st, ws).timeLimit >= st.timeLimit
    decreases |ws|
  {
    if ws != [] {
      var d := Step(st, ws[0]);
      DeadlineCountsTimeCuts(d.next, ws[1..]);
    }
  }

  /**
   * Once the time trigger has fired, a second record that is still within a
   * day of the old deadline does not rotate again (unless the size trigger
   * fires), and the deadline does not move twice.
   */
  lemma OneCutPerCrossing(st: RotationState, w1: Write, w2: Write)
    requires !SizeFires(st, w1.fileEnd, w1.messageLen) && w1.recordTime > st.timeLimit
    requires !SizeFires(st, w2.fileEnd, w2.messageLen) && w2.recordTime <= st.timeLimit + Day
    ensures Step(st, w1).rotate
    ensures !Step(Step(st, w1).next, w2).rotate
    ensures Step(Step(st, w1).next, w2).next.timeLimit == st.timeLimit + Day
  {
  }

  /**
   * A record far past the deadline (clock skew) still moves the deadline by
   * one day only, so the next such record rotates again.
   */
  lemma SkewMovesOneDay(st: RotationState, w: Write)
    requires !SizeFires(st, w.fileEnd, w.messageLen) && w.recordTime > st.timeLimit + Day
    ensures Step(st, w).next.timeLimit == st.timeLimit + Day < w.recordTime
    ensures Step(Step(st, w).next, w).rotate
  {
  }

  /** When the size trigger fires the deadline is left alone, whatever the record time. */
  lemma SizeWinsWithoutStateChange(st: RotationState, w: Write)
    requires SizeFires(st, w.fileEnd, w.messageLen)
    ensures Step(st, w) == Decision(true, st)
  {
  }

  /** Reaching the size limit exactly does not rotate on size. */
  lemma ExactLimitDoesNotRotate(st: RotationState, w: Write)
    requires w.fileEnd + w.messageLen == st.sizeLimit && w.recordTime <= st.timeLimit
    ensures Step(st, w) == Decision(false, st)
  {
  }
}
