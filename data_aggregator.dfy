/**
 * The pending-snapshot aggregator of the bridges' data WebSocket
 * (`on_message`, `flush_pending`, `arm_timer`, the timer's timeout and
 * `cleanup`). It keeps the latest message of the current turn and writes it
 * to the data log once: when a message with another id arrives, or when no
 * update arrived for one second.
 *
 * The state is the closure variables `pending_message` and `pending_id`, the
 * global mirror `last_message_data`, and the live timer, given by the clock
 * reading at which it fires. Times are integer milliseconds.
 */
module DataAggregator {
  import opened Wrappers
  import opened Messages

  /** The quiet period after which the pending snapshot is written: one second. */
  const TimerMs: nat := 1000

  datatype Session = Session(
    pendingMessage: Option<Message>,
    pendingId: Option<string>,
    lastMessageData: Option<Message>,
    deadline: Option<int>)

  /** Nothing pending, no live timer: the state before the first message. */
  const Empty: Session := Session(None, None, None, None)

  /** One data-log entry: the finalised snapshot and the clock reading when it was written. */
  datatype DataRecord = DataRecord(at: int, message: Message)

  /** What an operation sends out: data-log entries and overlay notifications. */
  datatype Effects = Effects(logged: seq<DataRecord>, notified: seq<string>)

  const NoEffects: Effects := Effects([], [])

  datatype Outcome = Outcome(session: Session, effects: Effects)

  /**
   * The aggregator's invariant: the mirror equals the snapshot, the pending id
   * is the snapshot's id, a live timer exists only for a snapshot, and every
   * non-empty snapshot has one (so it cannot be forgotten).
   */
  predicate Inv(s: Session)
  {
    && s.lastMessageData == s.pendingMessage
    && s.pendingId == (if s.pendingMessage.Some? then s.pendingMessage.value.messageId else None)
    && (s.deadline.Some? ==> s.pendingMessage.Some?)
    && (HasTruthyPending(s) ==> s.deadline.Some?)
  }

  predicate HasTruthyPending(s: Session)
  {
    s.pendingMessage.Some? && Truthy(s.pendingMessage.value)
  }

  /**
   * `flush_pending`: with no snapshot or an empty one, nothing happens;
   * otherwise the snapshot is written once, possibly notified, and the
   * snapshot, id, mirror and timer are all cleared.
   */
  function FlushStep(s: Session, ctx: NotifyContext, now: int): (r: Outcome)
    ensures !HasTruthyPending(s) ==> r == Outcome(s, NoEffects)
    ensures HasTruthyPending(s) ==>
      && r.session == Empty
      && r.effects.logged == [DataRecord(now, s.pendingMessage.value)]
      && r.effects.notified == Notifications(ctx, s.pendingMessage.value)
  {
    if !HasTruthyPending(s) then Outcome(s, NoEffects)
    else
      var m := s.pendingMessage.value;
      Outcome(Empty, Effects([DataRecord(now, m)], Notifications(ctx, m)))
  }

  /** A message adopted as the snapshot at `now`, mirrored, with a fresh one-second timer. */
  function Adopt(m: Message, now: int): Session
  {
    Session(Some(m), m.messageId, Some(m), Some(now + TimerMs))
  }

  /**
   * `on_message`: a frame that is not a JSON object changes nothing. With no
   * pending id the message becomes the snapshot; with the same id it replaces
   * the snapshot; with another id the old snapshot is flushed first. The
   * timer is re-armed in all three cases.
   */
  function OnMessageStep(s: Session, frame: Frame, ctx: NotifyContext, now: int): Outcome
  {
    match frame
    case Malformed => Outcome(s, NoEffects)
    case Object(m) =>
      if s.pendingId.None? then Outcome(Adopt(m, now), NoEffects)
      else if m.messageId == s.pendingId then
        Outcome(Session(Some(m), s.pendingId, Some(m), Some(now + TimerMs)), NoEffects)
      else Outcome(Adopt(m, now), FlushStep(s, ctx, now).effects)
  }

  /** The timer firing: once its time has come it is spent, and `flush_pending` runs. */
  function TimeoutStep(s: Session, ctx: NotifyContext, now: int): Outcome
  {
    if s.deadline.Some? && s.deadline.value <= now then FlushStep(s.(deadline := None), ctx, now)
    else Outcome(s, NoEffects)
  }

  /** `cleanup`: writes the mirrored snapshot if it is non-empty; it clears nothing. */
  function CleanupRecords(s: Session, now: int): (r: seq<DataRecord>)
    ensures |r| <= 1
    ensures r != [] <==> s.lastMessageData.Some? && Truthy(s.lastMessageData.value)
    ensures r != [] ==> r[0] == DataRecord(now, s.lastMessageData.value)
  {
    if s.lastMessageData.Some? && Truthy(s.lastMessageData.value) then [DataRecord(now, s.lastMessageData.value)]
    else []
  }

  // ---------------------------------------------------------------------
  // Properties of single operations
  // ---------------------------------------------------------------------

  /** Every operation keeps the invariant, starting from the empty session. */
  lemma OperationsPreserveInv(s: Session, frame: Frame, ctx: NotifyContext, now: int)
    requires Inv(s)
    ensures Inv(Empty)
    ensures Inv(OnMessageStep(s, frame, ctx, now).session)
    ensures Inv(TimeoutStep(s, ctx, now).session)
    ensures Inv(FlushStep(s, ctx, now).session)
  {
  }

  /**
   * Newest wins: a decoded message always becomes the snapshot and the
   * mirror, with the timer re-armed to fire one second after it; a frame that
   * does not decode leaves everything as it was.
   */
  lemma LatestMessageWins(s: Session, frame: Frame, ctx: NotifyContext, now: int)
    ensures frame.Object? ==> OnMessageStep(s, frame, ctx, now).session == Adopt(frame.message, now)
    ensures frame.Malformed? ==> OnMessageStep(s, frame, ctx, now) == Outcome(s, NoEffects)
  {
  }

  /**
   * A message writes something exactly when an identified turn is pending
   * and the message carries another id (or none); it then writes the old
   * snapshot, once, before the new message is adopted.
   */
  lemma CutOverWritesPreviousOnce(s: Session, m: Message, ctx: NotifyContext, now: int)
    requires Inv(s)
    ensures var r := OnMessageStep(s, Object(m), ctx, now);
      && (r.effects.logged != [] <==> s.pendingId.Some? && m.messageId != s.pendingId)
      && (r.effects.logged != [] ==> r.effects.logged == [DataRecord(now, s.pendingMessage.value)])
  {
  }

  /**
   * A snapshot without an id never triggers a cut-over: the next message
   * replaces it through the first branch and it is never written.
   */
  lemma UnidentifiedSnapshotIsReplaced(s: Session, m: Message, ctx: NotifyContext, now: int)
    requires Inv(s) && s.pendingMessage.Some? && s.pendingMessage.value.messageId.None?
    ensures OnMessageStep(s, Object(m), ctx, now) == Outcome(Adopt(m, now), NoEffects)
  {
  }

  /**
   * Flushing is idempotent: once flushed, a second flush, a timeout and
   * cleanup write nothing.
   */
  lemma FlushIsIdempotent(s: Session, ctx: NotifyContext, now: int, later: int)
    requires Inv(s)
    ensures var f := FlushStep(s, ctx, now).session;
      && FlushStep(f, ctx, later).effects == NoEffects
      && TimeoutStep(f, ctx, later).effects == NoEffects
      && CleanupRecords(f, later) == []
  {
  }

  /** A non-empty snapshot is written by its own timer: the timeout at its deadline writes it once. */
  lemma TimerWritesPendingSnapshot(s: Session, ctx: NotifyContext)
    requires Inv(s) && HasTruthyPending(s)
    ensures TimeoutStep(s, ctx, s.deadline.value).effects.logged
            == [DataRecord(s.deadline.value, s.pendingMessage.value)]
    ensures TimeoutStep(s, ctx, s.deadline.value).session == Empty
  {
  }

  /** Before its deadline the timer does nothing. */
  lemma TimerWaitsForQuiet(s: Session, ctx: NotifyContext, now: int)
    requires s.deadline.Some? && now < s.deadline.value
    ensures TimeoutStep(s, ctx, now) == Outcome(s, NoEffects)
  {
  }

  // ---------------------------------------------------------------------
  // Runs of events
  // ---------------------------------------------------------------------

  /** A message arriving, or the timer's thread waking up. */
  datatype Event = Receive(frame: Frame, now: int) | Fire(now: int)

  function Apply(s: Session, ctx: NotifyContext, e: Event): Outcome
  {
    match e
    case Receive(frame, now) => OnMessageStep(s, frame, ctx, now)
    case Fire(now) => TimeoutStep(s, ctx, now)
  }

  /** The state after a run of events and the data-log records written along it. */
  function Run(s: Session, ctx: NotifyContext, evs: seq<Event>): (Session, seq<DataRecord>)
    decreases |evs|
  {
    if evs == [] then (s, [])
    else
      var first := Apply(s, ctx, evs[0]);
      var rest := Run(first.session, ctx, evs[1..]);
      (rest.0, first.effects.logged + rest.1)
  }

  /** Running `a + b` is running `a`, then `b` from where `a` ended. */
  lemma {:induction false} RunAppend(s: Session, ctx: NotifyContext, a: seq<Event>, b: seq<Event>)
    ensures Run(s, ctx, a + b).0 == Run(Run(s, ctx, a).0, ctx, b).0
    ensures Run(s, ctx, a + b).1 == Run(s, ctx, a).1 + Run(Run(s, ctx, a).0, ctx, b).1
    decreases |a|
  {
    if a == [] {
      assert a + b == b;
    } else {
      RunAppendStep(s, ctx, a, b);
    }
  }

  lemma {:induction false} RunAppendStep(s: Session, ctx: NotifyContext, a: seq<Event>, b: seq<Event>)
    requires a != []
    ensures Run(s, ctx, a + b).0 == Run(Run(s, ctx, a).0, ctx, b).0
    ensures Run(s, ctx, a + b).1 == Run(s, ctx, a).1 + Run(Run(s, ctx, a).0, ctx, b).1
    decreases |a|, 0
  {
    assert (a + b)[0] == a[0] && (a + b)[1..] == a[1..] + b;
    RunAppend(Apply(s, ctx, a[0]).session, ctx, a[1..], b);
  }

  /** Every event of `evs` delivers a message object with id `id`. */
  predicate SameIdBurst(evs: seq<Event>, id: string)
  {
    forall i :: 0 <= i < |evs| ==> evs[i].Receive? && evs[i].frame.Object? && evs[i].frame.message.messageId == Some(id)
  }

  /**
   * A burst of updates of one turn, starting with nothing pending or that
   * turn pending, writes nothing and leaves the last update as the snapshot,
   * its timer set one second after the last arrival.
   */
  lemma {:induction false} BurstKeepsLatest(s: Session, ctx: NotifyContext, evs: seq<Event>, id: string)
    requires Inv(s) && evs != [] && SameIdBurst(evs, id)
    requires s.pendingId.None? || s.pendingId == Some(id)
    ensures Run(s, ctx, evs).1 == []
    ensures Run(s, ctx, evs).0 == Adopt(evs[|evs| - 1].frame.message, evs[|evs| - 1].now)
    decreases |evs|
  {
    var first := Apply(s, ctx, evs[0]);
    assert first.effects.logged == [] && first.session == Adopt(evs[0].frame.message, evs[0].now);
    if |evs| > 1 {
      assert SameIdBurst(evs[1..], id) by {
        forall i | 0 <= i < |evs[1..]| ensures evs[1..][i] == evs[i + 1] { }
      }
      BurstKeepsLatest(first.session, ctx, evs[1..], id);
      assert evs[1..][|evs[1..]| - 1] == evs[|evs| - 1];
    }
  }

  /** The events that end a burst of id `id` whose last update arrived at `last`. */
  predicate Closes(e: Event, id: string, last: int)
  {
    || (e.Fire? && e.now >= last + TimerMs)
    || (e.Receive? && e.frame.Object? && e.frame.message.messageId != Some(id))
  }

  /**
   * Exactly once: a burst of updates of one turn followed by a second of
   * quiet or by a message with another id writes one record, the last update.
   */
  lemma BurstThenCloseWritesLastOnce(ctx: NotifyContext, evs: seq<Event>, id: string, close: Event)
    requires evs != [] && SameIdBurst(evs, id)
    requires Closes(close, id, evs[|evs| - 1].now)
    ensures Run(Empty, ctx, evs + [close]).1 == [DataRecord(close.now, evs[|evs| - 1].frame.message)]
  {
    BurstKeepsLatest(Empty, ctx, evs, id);
    RunAppend(Empty, ctx, evs, [close]);
    var last := evs[|evs| - 1].frame.message;
    assert Truthy(last);
  }

  // ---------------------------------------------------------------------
  // The closure and globals as an object
  // ---------------------------------------------------------------------

  class DataSession {
    var pendingMessage: Option<Message>
    var pendingId: Option<string>
    var lastMessageData: Option<Message>
    /** When the live timer fires; None when no timer is alive. */
    var timerDeadline: Option<int>

    /** The data log file and the overlay notifications sent, in order. */
    var dataLog: seq<DataRecord>
    var notifications: seq<string>

    ghost function Abs(): Session
      reads this
    {
      Session(pendingMessage, pendingId, lastMessageData, timerDeadline)
    }

    ghost predicate Valid()
      reads this
    {
      Inv(Abs())
    }

    constructor ()
      ensures Valid() && Abs() == Empty && dataLog == [] && notifications == []
    {
      pendingMessage, pendingId, lastMessageData, timerDeadline := None, None, None, None;
      dataLog, notifications := [], [];
    }

    /** `flush_pending`: writes and clears a non-empty snapshot, cancelling its timer. */
    method FlushPending(ctx: NotifyContext, now: int)
      modifies this
      ensures Abs() == FlushStep(old(Abs()), ctx, now).session
      ensures dataLog == old(dataLog) + FlushStep(old(Abs()), ctx, now).effects.logged
      ensures notifications == old(notifications) + FlushStep(old(Abs()), ctx, now).effects.notified
    {
      if pendingMessage.None? || !Truthy(pendingMessage.value) {
        return;
      }
      dataLog := dataLog + [DataRecord(now, pendingMessage.value)];
      notifications := notifications + Notifications(ctx, pendingMessage.value);
      pendingMessage, pendingId, lastMessageData := None, None, None;
      timerDeadline := None;
    }

    /** `arm_timer`: cancels any live timer and starts a one-second one. */
    method ArmTimer(now: int)
      modifies this`timerDeadline
      ensures timerDeadline == Some(now + TimerMs)
    {
      timerDeadline := Some(now + TimerMs);
    }

    /** `on_message` for one WebSocket frame. */
    method OnMessage(frame: Frame, ctx: NotifyContext, now: int)
      requires Valid()
      modifies this
      ensures Valid()
      ensures Abs() == OnMessageStep(old(Abs()), frame, ctx, now).session
      ensures dataLog == old(dataLog) + OnMessageStep(old(Abs()), frame, ctx, now).effects.logged
      ensures notifications == old(notifications) + OnMessageStep(old(Abs()), frame, ctx, now).effects.notified
    {
      if frame.Malformed? {
        return;
      }
      var data := frame.message;
      var incomingId := data.messageId;
      if pendingId.None? {
        pendingMessage, pendingId, lastMessageData := Some(data), incomingId, Some(data);
        ArmTimer(now);
        return;
      }
      if incomingId == pendingId {
        pendingMessage, lastMessageData := Some(data), Some(data);
        ArmTimer(now);
        return;
      }
      FlushPending(ctx, now);
      pendingMessage, pendingId, lastMessageData := Some(data), incomingId, Some(data);
      ArmTimer(now);
    }

    /** The timer thread: fires at its deadline, then runs `flush_pending`. */
    method Timeout(ctx: NotifyContext, now: int)
      requires Valid()
      modifies this
      ensures Valid()
      ensures Abs() == TimeoutStep(old(Abs()), ctx, now).session
      ensures dataLog == old(dataLog) + TimeoutStep(old(Abs()), ctx, now).effects.logged
      ensures notifications == old(notifications) + TimeoutStep(old(Abs()), ctx, now).effects.notified
    {
      if timerDeadline.None? || now < timerDeadline.value {
        return;
      }
      timerDeadline := None;
      FlushPending(ctx, now);
    }

    /** `cleanup`: writes the mirrored snapshot if non-empty, and leaves the state as it is. */
    method Cleanup(now: int)
      requires Valid()
      modifies this`dataLog
      ensures Valid() && Abs() == old(Abs())
      ensures dataLog == old(dataLog) + CleanupRecords(Abs(), now)
    {
      if lastMessageData.Some? && Truthy(lastMessageData.value) {
        dataLog := dataLog + [DataRecord(now, lastMessageData.value)];
      }
    }
  }
}
