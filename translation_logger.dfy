/**
 * The translation logger: a single-slot debouncer that turns the stream of
 * partial updates of one translation turn (keyed by its message id) into one
 * log line, written when the id changes, when the turn has been stable for
 * `stableMs`, or when the logger stops.
 *
 * Times are integer milliseconds of the wall clock the logger reads. The log
 * file is the sequence of `LogRecord`s appended so far; `LogLine` renders one
 * record as the text line the file receives.
 */
module TranslationLogging {
  import opened Wrappers
  import opened Fields

  /** The logger's default stability window, 10 s. */
  const DefaultStableMs: nat := 10000

  /** One element of a Yukacone `textList`: its "Lang" and "Text" keys, either of which may be absent. */
  datatype TextEntry = TextEntry(lang: Option<string>, text: Option<string>)

  /**
   * A Yukacone message as the logger reads it: `messageId` is None when
   * "MessageID" is absent or null; `textList` is [] when that key is absent,
   * null or empty.
   */
  datatype YukaconeMessage = YukaconeMessage(messageId: Option<string>, textList: seq<TextEntry>)

  /** The logger's internal record {MsgID, Lang1, Text1, Lang2, Text2}. */
  datatype Turn = Turn(msgId: string, lang1: string, text1: string, lang2: string, text2: string)

  /** `d.get(key, "")` on a string-valued key. */
  function OrEmpty(v: Option<string>): string
  {
    if v.Some? then v.value else ""
  }

  /**
   * Conversion to the internal format: rejected without a message id or with
   * fewer than two textList entries; otherwise the id and the language and
   * text of the first two entries, "" standing for a missing key.
   */
  function ConvertToInternalFormat(m: YukaconeMessage): (r: Option<Turn>)
    ensures r.None? <==> m.messageId.None? || |m.textList| < 2
    ensures r.Some? ==> r.value.msgId == m.messageId.value
    ensures r.Some? ==> r.value.lang1 == OrEmpty(m.textList[0].lang) && r.value.text1 == OrEmpty(m.textList[0].text)
    ensures r.Some? ==> r.value.lang2 == OrEmpty(m.textList[1].lang) && r.value.text2 == OrEmpty(m.textList[1].text)
  {
    if m.messageId.None? || |m.textList| < 2 then None
    else
      var e1, e2 := m.textList[0], m.textList[1];
      Some(Turn(m.messageId.value, OrEmpty(e1.lang), OrEmpty(e1.text), OrEmpty(e2.lang), OrEmpty(e2.text)))
  }

  /** Entries after the second never influence the converted record. */
  lemma ConversionIgnoresLaterEntries(m: YukaconeMessage, extra: seq<TextEntry>)
    requires |m.textList| >= 2
    ensures ConvertToInternalFormat(m.(textList := m.textList + extra)) == ConvertToInternalFormat(m)
  {
    var m' := m.(textList := m.textList + extra);
    assert m'.textList[0] == m.textList[0] && m'.textList[1] == m.textList[1];
  }

  // ---------------------------------------------------------------------
  // The log line
  // ---------------------------------------------------------------------

  /** The line `"{ts},{lang1}:{text1},{lang2}:{text2}"` written for a turn flushed at timestamp `ts`. */
  function LogLine(ts: string, t: Turn): string
  {
    ts + "," + t.lang1 + ":" + t.text1 + "," + t.lang2 + ":" + t.text2
  }

  /** The fields a log line carries (the message id is not written). */
  datatype LineFields = LineFields(timestamp: string, lang1: string, text1: string, lang2: string, text2: string)

  /** Reads a log line back: timestamp up to the first ',', then "lang:text" twice. */
  function ParseLogLine(line: string): Option<LineFields>
  {
    var (ts, rest1) := SplitFirst(line, ',');
    if rest1.None? then None
    else
      var (pair1, rest2) := SplitFirst(rest1.value, ',');
      if rest2.None? then None
      else
        var (l1, t1) := SplitFirst(pair1, ':');
        var (l2, t2) := SplitFirst(rest2.value, ':');
        if t1.None? || t2.None? then None
        else Some(LineFields(ts, l1, t1.value, l2, t2.value))
  }

  /**
   * A log line determines the timestamp, both languages and both texts as long
   * as the timestamp, the first language and the first text hold no comma and
   * neither language holds a colon (the second text may hold anything).
   */
  lemma LogLineRoundTrip(ts: string, t: Turn)
    requires ',' !in ts && ',' !in t.lang1 && ',' !in t.text1
    requires ':' !in t.lang1 && ':' !in t.lang2
    ensures ParseLogLine(LogLine(ts, t)) == Some(LineFields(ts, t.lang1, t.text1, t.lang2, t.text2))
  {
    var pair1 := t.lang1 + ":" + t.text1;
    var pair2 := t.lang2 + ":" + t.text2;
    assert ',' !in pair1 by {
      assert forall i :: 0 <= i < |pair1| ==> pair1[i] != ',' by {
        forall i | 0 <= i < |pair1| ensures pair1[i] != ',' {
          if i < |t.lang1| { assert pair1[i] == t.lang1[i]; }
          else if i > |t.lang1| { assert pair1[i] == t.text1[i - |t.lang1| - 1]; }
        }
      }
    }
    assert LogLine(ts, t) == ts + [','] + (pair1 + [','] + pair2);
    SplitFirstAt(ts, ',', pair1 + [','] + pair2);
    SplitFirstAt(pair1, ',', pair2);
    assert pair1 == t.lang1 + [':'] + t.text1;
    assert pair2 == t.lang2 + [':'] + t.text2;
    SplitFirstAt(t.lang1, ':', t.text1);
    SplitFirstAt(t.lang2, ':', t.text2);
  }

  // ---------------------------------------------------------------------
  // The debouncer as a state machine
  // ---------------------------------------------------------------------

  /** Nothing pending, or one pending turn and the time of its latest update. */
  datatype LoggerState = Idle | Pending(turn: Turn, lastUpdate: int)

  /** One line of the log file: the turn and the clock reading when it was flushed. */
  datatype LogRecord = LogRecord(at: int, turn: Turn)

  /** The state after an operation and the records it appended to the log. */
  datatype Step = Step(next: LoggerState, out: seq<LogRecord>)

  /**
   * Flushing writes the pending turn (if any) as one record and always ends
   * Idle, also when the write fails (`written` false) and nothing reaches the file.
   */
  function FlushStep(s: LoggerState, now: int, written: bool): (r: Step)
    ensures r.next == Idle
    ensures s.Idle? ==> r.out == []
    ensures s.Pending? ==> r.out == if written then [LogRecord(now, s.turn)] else []
  {
    match s
    case Idle => Step(Idle, [])
    case Pending(t, _) => Step(Idle, if written then [LogRecord(now, t)] else [])
  }

  /**
   * Admitting a converted turn: the newest turn is always the one pending
   * afterwards, timed `now`; the previous turn is flushed first exactly when
   * it carries a different id.
   */
  function AddStep(s: LoggerState, t: Turn, now: int, written: bool): (r: Step)
    ensures r.next == Pending(t, now)
    ensures r.out == if s.Pending? && s.turn.msgId != t.msgId then FlushStep(s, now, written).out else []
  {
    match s
    case Idle => Step(Pending(t, now), [])
    case Pending(current, _) =>
      if t.msgId != current.msgId then Step(Pending(t, now), FlushStep(s, now, written).out)
      else Step(Pending(t, now), [])
  }

  /** A raw message: a rejected one changes nothing, a converted one is admitted. */
  function AddMessageStep(s: LoggerState, m: YukaconeMessage, now: int, written: bool): (r: Step)
    ensures ConvertToInternalFormat(m).None? ==> r == Step(s, [])
    ensures ConvertToInternalFormat(m).Some? ==> r.next == Pending(ConvertToInternalFormat(m).value, now)
  {
    match ConvertToInternalFormat(m)
    case None => Step(s, [])
    case Some(t) => AddStep(s, t, now, written)
  }

  /** One stability check of the periodic loop. */
  function TickStep(s: LoggerState, now: int, stableMs: int, written: bool): Step
  {
    match s
    case Idle => Step(Idle, [])
    case Pending(_, lastUpdate) =>
      if now - lastUpdate >= stableMs then FlushStep(s, now, written) else Step(s, [])
  }

  /**
   * The stability check does nothing without a pending turn; otherwise it
   * flushes exactly when at least `stableMs` have passed since the turn's last
   * update, and leaves the state untouched when not.
   */
  lemma StabilityCheck(s: LoggerState, now: int, stableMs: int, written: bool)
    ensures s.Idle? ==> TickStep(s, now, stableMs, written) == Step(Idle, [])
    ensures s.Pending? ==> (TickStep(s, now, stableMs, written).next == Idle <==> now - s.lastUpdate >= stableMs)
    ensures s.Pending? && now - s.lastUpdate >= stableMs ==> TickStep(s, now, stableMs, written) == FlushStep(s, now, written)
    ensures s.Pending? && now - s.lastUpdate < stableMs ==> TickStep(s, now, stableMs, written) == Step(s, [])
  {
  }

  /** The operations a caller or the background thread applies, each with its clock reading. */
  datatype Event =
    | Add(message: YukaconeMessage, now: int, written: bool)
    | Tick(now: int, written: bool)
    | Stop(now: int, written: bool)

  function Apply(s: LoggerState, stableMs: int, e: Event): Step
  {
    match e
    case Add(m, now, written) => AddMessageStep(s, m, now, written)
    case Tick(now, written) => TickStep(s, now, stableMs, written)
    case Stop(now, written) => FlushStep(s, now, written)
  }

  /** Applying a step function to events in order; the log is the concatenation of what each step appends. */
  function RunWith(f: (LoggerState, Event) -> Step, s: LoggerState, evs: seq<Event>): Step
    decreases |evs|
  {
    if evs == [] then Step(s, [])
    else
      var first := f(s, evs[0]);
      var rest := RunWith(f, first.next, evs[1..]);
      Step(rest.next, first.out + rest.out)
  }

  /** The logger's operations as one step function, for a given stability window. */
  function StepOf(stableMs: int): (LoggerState, Event) -> Step
  {
    (st: LoggerState, e: Event) => Apply(st, stableMs, e)
  }

  /** The logger applied to events in order. */
  function Run(s: LoggerState, stableMs: int, evs: seq<Event>): Step
  {
    RunWith(StepOf(stableMs), s, evs)
  }

  /** A non-empty run is its first event followed by the run of the rest. */
  lemma RunFirst(s: LoggerState, stableMs: int, evs: seq<Event>)
    requires evs != []
    ensures Run(s, stableMs, evs).next == Run(Apply(s, stableMs, evs[0]).next, stableMs, evs[1..]).next
    ensures Run(s, stableMs, evs).out
            == Apply(s, stableMs, evs[0]).out + Run(Apply(s, stableMs, evs[0]).next, stableMs, evs[1..]).out
  {
    assert StepOf(stableMs)(s, evs[0]) == Apply(s, stableMs, evs[0]);
  }

  /** A run of one event is that event's step. */
  lemma RunSingle(s: LoggerState, stableMs: int, e: Event)
    ensures Run(s, stableMs, [e]) == Apply(s, stableMs, e)
  {
    RunFirst(s, stableMs, [e]);
    assert [e][1..] == [];
  }

  /** Running `a + b` with any step function is running `a`, then `b` from where `a` ended. */
  lemma {:induction false} RunWithAppend(f: (LoggerState, Event) -> Step, s: LoggerState, a: seq<Event>, b: seq<Event>)
    ensures RunWith(f, s, a + b).next == RunWith(f, RunWith(f, s, a).next, b).next
    ensures RunWith(f, s, a + b).out == RunWith(f, s, a).out + RunWith(f, RunWith(f, s, a).next, b).out
    decreases |a|
  {
    if a == [] {
      assert a + b == b;
    } else {
      assert (a + b)[0] == a[0] && (a + b)[1..] == a[1..] + b;
      RunWithAppend(f, f(s, a[0]).next, a[1..], b);
    }
  }

  /** Running `a + b` is running `a`, then `b` from where `a` ended. */
  lemma RunAppend(s: LoggerState, stableMs: int, a: seq<Event>, b: seq<Event>)
    ensures Run(s, stableMs, a + b).next == Run(Run(s, stableMs, a).next, stableMs, b).next
    ensures Run(s, stableMs, a + b).out == Run(s, stableMs, a).out + Run(Run(s, stableMs, a).next, stableMs, b).out
  {
    RunWithAppend(StepOf(stableMs), s, a, b);
  }

  function PendingCount(s: LoggerState): nat
  {
    if s.Pending? then 1 else 0
  }

  /** 1 when the event admits a turn under a new id, that is, opens a new turn. */
  function Opens(s: LoggerState, e: Event): nat
  {
    if e.Add? && ConvertToInternalFormat(e.message).Some?
       && (s.Idle? || s.turn.msgId != ConvertToInternalFormat(e.message).value.msgId)
    then 1 else 0
  }

  /** The number of turns opened along a run. */
  function OpenedIn(s: LoggerState, stableMs: int, evs: seq<Event>): nat
    decreases |evs|
  {
    if evs == [] then 0
    else Opens(s, evs[0]) + OpenedIn(Apply(s, stableMs, evs[0]).next, stableMs, evs[1..])
  }

  predicate AllWritten(evs: seq<Event>)
  {
    forall i :: 0 <= i < |evs| ==> evs[i].written
  }

  /**
   * Exactly once: along any run, every opened turn is either written once or
   * still pending at the end — never written twice. Failed writes can only
   * lose records, never duplicate them.
   */
  lemma {:induction false} EachTurnLoggedAtMostOnce(s: LoggerState, stableMs: int, evs: seq<Event>)
    ensures |Run(s, stableMs, evs).out| + PendingCount(Run(s, stableMs, evs).next)
            <= PendingCount(s) + OpenedIn(s, stableMs, evs)
    ensures AllWritten(evs) ==>
            |Run(s, stableMs, evs).out| + PendingCount(Run(s, stableMs, evs).next)
            == PendingCount(s) + OpenedIn(s, stableMs, evs)
    decreases |evs|
  {
    if evs != [] {
      var first := Apply(s, stableMs, evs[0]);
      EachTurnLoggedAtMostOnce(first.next, stableMs, evs[1..]);
      assert AllWritten(evs) ==> AllWritten(evs[1..]) by {
        if AllWritten(evs) {
          forall i | 0 <= i < |evs[1..]| ensures evs[1..][i].written { assert evs[1..][i] == evs[i + 1]; }
        }
      }
      assert AllWritten(evs) ==> evs[0].written;
    }
  }

  /** Every event of `evs` adds a message converting to a turn with id `id`. */
  predicate SameIdBurst(evs: seq<Event>, id: string)
  {
    forall i :: 0 <= i < |evs| ==>
      evs[i].Add? && ConvertToInternalFormat(evs[i].message).Some?
      && ConvertToInternalFormat(evs[i].message).value.msgId == id
  }

  /**
   * Newest wins: a burst of updates of one turn writes nothing, and leaves
   * pending exactly the last update, timed by its arrival.
   */
  lemma {:induction false} BurstKeepsLatest(s: LoggerState, stableMs: int, evs: seq<Event>, id: string)
    requires evs != [] && SameIdBurst(evs, id)
    requires s.Idle? || s.turn.msgId == id
    ensures Run(s, stableMs, evs).out == []
    ensures Run(s, stableMs, evs).next
            == Pending(ConvertToInternalFormat(evs[|evs| - 1].message).value, evs[|evs| - 1].now)
    decreases |evs|
  {
    var e := evs[0];
    var first := Apply(s, stableMs, e);
    var t := ConvertToInternalFormat(e.message).value;
    assert first == AddStep(s, t, e.now, e.written);
    assert first.out == [] && first.next == Pending(t, e.now);
    RunFirst(s, stableMs, evs);
    if |evs| > 1 {
      assert SameIdBurst(evs[1..], id) by {
        forall i | 0 <= i < |evs[1..]| ensures evs[1..][i] == evs[i + 1] { }
      }
      BurstKeepsLatest(first.next, stableMs, evs[1..], id);
      assert evs[1..][|evs[1..]| - 1] == evs[|evs| - 1];
    }
  }

  /** The events that end a burst of id `id` whose last update arrived at `last`. */
  predicate Closes(e: Event, id: string, last: int, stableMs: int)
  {
    || (e.Tick? && e.now - last >= stableMs)
    || (e.Add? && ConvertToInternalFormat(e.message).Some? && ConvertToInternalFormat(e.message).value.msgId != id)
    || e.Stop?
  }

  /**
   * A burst of updates of one turn followed by a stability timeout, a
   * different id or stop writes exactly one record: the last update.
   */
  lemma BurstThenCloseLogsLastOnce(stableMs: int, evs: seq<Event>, id: string, close: Event)
    requires evs != [] && SameIdBurst(evs, id)
    requires Closes(close, id, evs[|evs| - 1].now, stableMs) && close.written
    ensures Run(Idle, stableMs, evs + [close]).out
            == [LogRecord(close.now, ConvertToInternalFormat(evs[|evs| - 1].message).value)]
  {
    BurstKeepsLatest(Idle, stableMs, evs, id);
    RunAppend(Idle, stableMs, evs, [close]);
    RunSingle(Run(Idle, stableMs, evs).next, stableMs, close);
  }

  // ---------------------------------------------------------------------
  // The logger object
  // ---------------------------------------------------------------------

  class TranslationLogger {
    /** Seconds without an update after which a turn is final, in milliseconds. */
    const stableMs: nat

    var currentId: Option<string>
    var lastData: Option<Turn>
    var lastUpdateTime: Option<int>

    /** The background thread exists / has been asked to stop. */
    var threadStarted: bool
    var stopRequested: bool

    /** The log file: every record written so far. */
    var log: seq<LogRecord>

    /** The three slot fields are all unset or all set, and the id is the pending turn's id. */
    ghost predicate Valid()
      reads this
    {
      || (currentId.None? && lastData.None? && lastUpdateTime.None?)
      || (lastData.Some? && lastUpdateTime.Some? && currentId == Some(lastData.value.msgId))
    }

    ghost function State(): LoggerState
      reads this
      requires Valid()
    {
      if lastData.Some? then Pending(lastData.value, lastUpdateTime.value) else Idle
    }

    constructor (stableMs: nat := DefaultStableMs)
      ensures Valid() && State() == Idle && log == []
      ensures this.stableMs == stableMs && !threadStarted && !stopRequested
    {
      this.stableMs := stableMs;
      currentId, lastData, lastUpdateTime := None, None, None;
      threadStarted, stopRequested := false, false;
      log := [];
    }

    /** Starts the background check once; a logger that has been started is never started again. */
    method Start()
      modifies this`threadStarted, this`stopRequested
      ensures threadStarted
      ensures stopRequested == (old(threadStarted) && old(stopRequested))
    {
      if threadStarted {
        return;
      }
      stopRequested := false;
      threadStarted := true;
    }

    /** Writes the pending turn as one record and resets the slot, even when the write fails. */
    method FlushLocked(now: int, written: bool)
      requires Valid()
      modifies this`currentId, this`lastData, this`lastUpdateTime, this`log
      ensures Valid() && State() == Idle
      ensures log == old(log) + FlushStep(old(State()), now, written).out
    {
      if lastData.None? {
        return;
      }
      if written {
        log := log + [LogRecord(now, lastData.value)];
      }
      currentId, lastData, lastUpdateTime := None, None, None;
    }

    /** Admits a converted turn, flushing the previous one first when its id differs. */
    method AddMessageInternal(t: Turn, now: int, written: bool)
      requires Valid()
      modifies this`currentId, this`lastData, this`lastUpdateTime, this`log
      ensures Valid()
      ensures State() == AddStep(old(State()), t, now, written).next
      ensures log == old(log) + AddStep(old(State()), t, now, written).out
    {
      if currentId.None? {
        currentId, lastData, lastUpdateTime := Some(t.msgId), Some(t), Some(now);
        return;
      }
      if t.msgId != currentId.value {
        FlushLocked(now, written);
        currentId, lastData, lastUpdateTime := Some(t.msgId), Some(t), Some(now);
      } else {
        lastData, lastUpdateTime := Some(t), Some(now);
      }
    }

    /** Entry point for a raw Yukacone message: rejected messages change nothing. */
    method AddYukaconeMessage(m: YukaconeMessage, now: int, written: bool)
      requires Valid()
      modifies this`currentId, this`lastData, this`lastUpdateTime, this`log
      ensures Valid()
      ensures State() == AddMessageStep(old(State()), m, now, written).next
      ensures log == old(log) + AddMessageStep(old(State()), m, now, written).out
    {
      var converted := ConvertToInternalFormat(m);
      if converted.None? {
        return;
      }
      AddMessageInternal(converted.value, now, written);
    }

    /** One pass of the periodic loop: flush when the pending turn has been stable long enough. */
    method Tick(now: int, written: bool)
      requires Valid()
      modifies this`currentId, this`lastData, this`lastUpdateTime, this`log
      ensures Valid()
      ensures State() == TickStep(old(State()), now, stableMs, written).next
      ensures log == old(log) + TickStep(old(State()), now, stableMs, written).out
    {
      if currentId.None? || lastUpdateTime.None? {
        return;
      }
      if now - lastUpdateTime.value >= stableMs {
        FlushLocked(now, written);
      }
    }

    /**
     * The background loop over a schedule of wake-ups: one stability check
     * per wake-up while the thread runs; nothing once stop has been requested
     * or when the thread was never started.
     */
    method PeriodicFlushLoop(wakeups: seq<Event>)
      requires Valid()
      requires forall i :: 0 <= i < |wakeups| ==> wakeups[i].Tick?
      modifies this`currentId, this`lastData, this`lastUpdateTime, this`log
      ensures Valid()
      ensures threadStarted && !stopRequested ==>
                State() == Run(old(State()), stableMs, wakeups).next
                && log == old(log) + Run(old(State()), stableMs, wakeups).out
      ensures !threadStarted || stopRequested ==> State() == old(State()) && log == old(log)
    {
      if !threadStarted || stopRequested {
        return;
      }
      var i := 0;
      while i < |wakeups| && !stopRequested
        invariant 0 <= i <= |wakeups|
        invariant Valid()
        invariant State() == Run(old(State()), stableMs, wakeups[..i]).next
        invariant log == old(log) + Run(old(State()), stableMs, wakeups[..i]).out
      {
        RunAppend(old(State()), stableMs, wakeups[..i], [wakeups[i]]);
        RunSingle(State(), stableMs, wakeups[i]);
        assert wakeups[..i + 1] == wakeups[..i] + [wakeups[i]];
        Tick(wakeups[i].now, wakeups[i].written);
        i := i + 1;
      }
      assert stopRequested || wakeups[..i] == wakeups;
    }

    /** Requests the loop to stop, then forces a final flush whatever the elapsed time. */
    method Stop(now: int, written: bool)
      requires Valid()
      modifies this
      ensures Valid() && State() == Idle && stopRequested
      ensures threadStarted == old(threadStarted)
      ensures log == old(log) + FlushStep(old(State()), now, written).out
    {
      stopRequested := true;
      FlushLocked(now, written);
    }
  }
}
