# YukaconeXSOBridge translation-turn aggregation, modelled in Dafny

YukaconeXSOBridge connects a speech-translation engine (Yukacone / YukaNEO) to the XSOverlay VR overlay.
The engine streams partial updates of each translation turn. Each update is keyed by a `MessageID`.
The bridge keeps only the newest update of the current turn and writes the turn to a log once, when the turn is over.
It also lets media keys mute the engine and cycle between translation profiles, and it shows its state in a tray tooltip.

This project models that core and proves what it promises:

- `TranslationLogging` (`translation_logger.dfy`) is the `TranslationLogger` class.
  - It is a single-slot debouncer with a stability window.
  - It has a pure state machine (`AddStep`, `FlushStep`, `TickStep`, `Run`).
  - A `TranslationLogger` class's methods are proved equal to that machine.
- `DataAggregator` (`data_aggregator.dfy`) is the pending-snapshot closure of `connect_to_data_ws`.
  - It covers `on_message`, `flush_pending`, `arm_timer` and the timer's timeout, and the global `cleanup`.
  - The closure is identical in both bridge scripts and is modelled once.
  - The state machine is `OnMessageStep`, `FlushStep` and `TimeoutStep`. The `DataSession` class implements it.
- `Messages` (`messages.dfy`) covers the message shape and Python truthiness, `get_translated_text`, the notification rule and the data-log line.
- `Profiles` (`profiles.dfy`) covers Python indexing, the `(i ± 1) % n` profile cycling and `update_translation`.
- `Control` (`controller.dfy`) covers `media_key_listener.on_press` in both bridges and `update_tray_status`. The `Controller` class holds the bridge globals.
- `Registry` (`registry.dfy`) covers `get_registry_hive_from_name`.
- `Fields` (`fields.dfy`) and `Wrappers` (`wrappers.dfy`) hold shared helpers: splitting at a separator, `str.join`, decimal rendering, and `Option`/`Result`.

**Time and effects**

- Time is an integer count of milliseconds read from the clock.
- The threads, the `threading.Timer` and the periodic loop become explicit operations called with that reading: `Tick`, `Timeout`, `PeriodicFlushLoop`.
- Log files, engine HTTP requests and overlay messages become sequences of records that the operations append to.
- Whether a file write succeeded is an input (`written`). The logger resets its state whether or not the write succeeded.

**Behaviour of the code worth noting**

- Both aggregators hold one pending turn. A different id always cuts over.
- A record is the turn plus the clock reading. No speaker, reason or elapsed time is written.
- A turn can be lost. The logger discards a turn whose write fails. A bridge snapshot without `MessageID` is replaced without being written, and an empty message object `{}` is never written.
- `cleanup` writes the mirrored snapshot but does not clear it.
- A cycling key moves the profile index before `update_translation` runs. So the index moves even when the profile cannot be applied.

## Model

| member | source | states |
|---|---|---|
| TranslationLogging.ConvertToInternalFormat | translation_logger.py:72-100 | rejected iff MessageID is absent or textList has fewer than two entries; otherwise the id plus Lang/Text of the first two entries, "" for a missing key |
| TranslationLogging.ConversionIgnoresLaterEntries | translation_logger.py:84-93 | entries after the second never change the converted record |
| TranslationLogging.LogLineRoundTrip | translation_logger.py:144-151 | the line "{ts},{lang1}:{text1},{lang2}:{text2}" gives back all five fields when the timestamp, first language and first text hold no comma and the languages no colon |
| TranslationLogging.FlushStep | translation_logger.py:140-163 | a flush of nothing writes nothing; otherwise exactly one record of the pending turn when the write succeeds, none when it fails, and the state is reset in both cases |
| TranslationLogging.AddStep | translation_logger.py:102-126 | the new turn is always pending, timed now; a record is written only when a turn with another id was pending, and then it is that turn |
| TranslationLogging.AddMessageStep | translation_logger.py:58-67 | a message rejected by conversion changes nothing and writes nothing; an accepted one becomes pending |
| TranslationLogging.StabilityCheck | translation_logger.py:128-138 | a check with nothing pending does nothing; a pending turn is flushed iff now - last update >= stable window, otherwise the state is unchanged |
| TranslationLogging.RunAppend | translation_logger.py:102-163 | running two event sequences in a row is running their concatenation |
| TranslationLogging.EachTurnLoggedAtMostOnce | translation_logger.py:102-163 | over any run, records written plus turns still pending never exceed turns opened (plus one pending at the start), with equality when every write succeeds |
| TranslationLogging.BurstKeepsLatest | translation_logger.py:123-126 | a burst of updates with one id writes nothing and leaves exactly the last update pending, timed by its arrival |
| TranslationLogging.BurstThenCloseLogsLastOnce | translation_logger.py:49-56 | a burst followed by stability timeout, a new id or stop writes exactly one record: the last update |
| TranslationLogging.TranslationLogger.constructor | translation_logger.py:18-35 | starts idle with an empty log, no thread and no stop request |
| TranslationLogging.TranslationLogger.Start | translation_logger.py:40-47 | a second start is a no-op; a first start clears the stop flag |
| TranslationLogging.TranslationLogger.FlushLocked | translation_logger.py:140-163 | the three slot fields end None and the log grows by the flush's record |
| TranslationLogging.TranslationLogger.AddMessageInternal | translation_logger.py:102-126 | keeps the all-None-or-all-set invariant and moves state and log as AddStep says |
| TranslationLogging.TranslationLogger.AddYukaconeMessage | translation_logger.py:58-67 | converts, then adds; state and log move as AddMessageStep says |
| TranslationLogging.TranslationLogger.Tick | translation_logger.py:131-138 | one stability check, as TickStep says |
| TranslationLogging.TranslationLogger.PeriodicFlushLoop | translation_logger.py:128-138 | the loop over its wake-ups leaves state and log as Run over those checks; a stopped or unstarted logger does nothing |
| TranslationLogging.TranslationLogger.Stop | translation_logger.py:49-56 | requests stop and forces a flush whatever time has passed |
| Messages.TranslatedText | YncneoXSOBridge.py:315-324 | None iff every key equals the source language; otherwise the text of the first key that differs |
| Messages.Notifications | YncneoXSOBridge.py:492-499 | at most one notification; one iff the current profile exists and enables notifications, the translated text is non-empty and the overlay socket exists; it carries that text |
| Messages.LogMessageToFile | YncneoXSOBridge.py:292-312 | nothing for None, otherwise exactly the line "{MessageID},{timestamp},{textList json}", which reads back to id, timestamp and json when id and timestamp hold no comma |
| Messages.DataLineRoundTrip | XSOYukaconeBridge.py:142-162 | the line "{MessageID},{timestamp},{textList json}" gives back id, timestamp and the whole json text when id and timestamp hold no comma |
| DataAggregator.FlushStep | YncneoXSOBridge.py:484-509 | no-op without a non-empty snapshot; otherwise writes it once, sends its notification, and clears snapshot, id, mirror and timer |
| DataAggregator.CleanupRecords | YncneoXSOBridge.py:207-216 | cleanup writes the mirrored snapshot once iff it is non-empty |
| DataAggregator.OperationsPreserveInv | YncneoXSOBridge.py:524-556 | every operation keeps: mirror equals snapshot, pending id is the snapshot's id, a non-empty snapshot always has a live timer |
| DataAggregator.LatestMessageWins | YncneoXSOBridge.py:528-556 | a decoded message always becomes snapshot and mirror with the timer re-armed one second later; an undecodable frame changes nothing |
| DataAggregator.CutOverWritesPreviousOnce | XSOYukaconeBridge.py:391-403 | a message writes something iff an identified turn is pending and the message has another id, and then exactly the old snapshot |
| DataAggregator.UnidentifiedSnapshotIsReplaced | YncneoXSOBridge.py:533-542 | a snapshot without MessageID is overwritten by the next message without being written |
| DataAggregator.FlushIsIdempotent | XSOYukaconeBridge.py:331-356 | after a flush, another flush, a timeout and cleanup write nothing |
| DataAggregator.TimerWritesPendingSnapshot | YncneoXSOBridge.py:511-522 | the timer firing at its deadline writes the non-empty snapshot once and clears the session |
| DataAggregator.TimerWaitsForQuiet | XSOYukaconeBridge.py:358-369 | before its deadline the timer does nothing |
| DataAggregator.RunAppend | YncneoXSOBridge.py:524-556 | running two event sequences in a row is running their concatenation |
| DataAggregator.BurstKeepsLatest | YncneoXSOBridge.py:545-549 | a burst with one id writes nothing and leaves the last update as snapshot, timed one second after it |
| DataAggregator.BurstThenCloseWritesLastOnce | XSOYukaconeBridge.py:371-403 | a burst followed by a second of quiet or another id writes exactly one record: the last update |
| DataAggregator.DataSession.constructor | YncneoXSOBridge.py:480-482 | starts with nothing pending and empty logs |
| DataAggregator.DataSession.FlushPending | YncneoXSOBridge.py:484-509 | state and effects move as FlushStep says |
| DataAggregator.DataSession.ArmTimer | YncneoXSOBridge.py:511-522 | the live timer now fires one second from now |
| DataAggregator.DataSession.OnMessage | YncneoXSOBridge.py:524-556 | keeps the invariant; state and effects move as OnMessageStep says |
| DataAggregator.DataSession.Timeout | XSOYukaconeBridge.py:358-369 | keeps the invariant; state and effects move as TimeoutStep says |
| DataAggregator.DataSession.Cleanup | XSOYukaconeBridge.py:40-52 | appends CleanupRecords and leaves the session unchanged |
| Profiles.Subscript | YncneoXSOBridge.py:344 | Python indexing succeeds iff -n <= i < n |
| Profiles.NextIndex | YncneoXSOBridge.py:427 | fails iff there are no profiles; otherwise lands in [0, n) |
| Profiles.PreviousIndex | XSOYukaconeBridge.py:286 | fails iff there are no profiles; lands in [0, n), and 0 wraps to n - 1 |
| Profiles.NextPreviousInverse | YncneoXSOBridge.py:427-438 | next and previous undo each other on every valid index |
| Profiles.NextTimesIsOffset | XSOYukaconeBridge.py:276 | k presses of next from i land on (i + k) % n |
| Profiles.UpdateTranslationContract | YncneoXSOBridge.py:339-369 | recognition is requested once iff the profile has a language different from the last one sent, which is then recorded; the index is adopted iff lookup and all keys succeed; mute untouched |
| Profiles.RepeatedUpdateSkipsRecognition | XSOYukaconeBridge.py:199-208 | applying the same profile twice never re-sends the recognition language |
| Control.PlayPauseToggles | XSOYukaconeBridge.py:268-273 | play/pause flips mute, sends the matching mute request and calls send_xso_status with the new flag; twice restores the state |
| Control.CyclingContract | YncneoXSOBridge.py:425-447 | next/previous move the index by one modulo n, apply that profile, un-mute with a final MuteOff and call send_xso_status with the new index; with no profiles nothing happens |
| Control.PressKeepsIndexInRange | XSOYukaconeBridge.py:274-293 | a valid profile index stays valid under every key |
| Control.NextThenPreviousReturns | YncneoXSOBridge.py:425-447 | next then previous returns to the starting profile, un-muted |
| Control.ReportMatchesState | XSOYukaconeBridge.py:265-295 | each completed press calls send_xso_status once with the new index and mute flag; an aborted one changes nothing |
| Control.TooltipShape | YncneoXSOBridge.py:185-201 | the tooltip is "{app} - Mute/Online", then " \| XSO:p", " \| HTTP:p", " \| WS:p" for known ports in that order, then " \| DEBUG:ON/OFF" |
| Control.Controller.constructor | YncneoXSOBridge.py:19-38 | first profile, muted, recognition "ja", tooltip "Initializing..." |
| Control.Controller.UpdateTranslation | XSOYukaconeBridge.py:189-219 | state and requests move as UpdateTranslationStep says |
| Control.Controller.OnPress | XSOYukaconeBridge.py:265-295 | state, requests and send_xso_status calls move as PressStep says |
| Control.Controller.UpdateTrayStatus | YncneoXSOBridge.py:180-204 | the list built part by part and joined with " \| " is the tooltip of the current state |
| Control.Controller.OnPressWithTray | YncneoXSOBridge.py:415-448 | as OnPress, and the tooltip is refreshed iff the press completed |
| Fields.JoinSnoc | YncneoXSOBridge.py:189-201 | appending a part appends separator and part to the joined string |
| Registry.HiveFromNameCaseInsensitive | YncneoXSOBridge.py:103-113 | a name selects a hive iff its upper-cased form is one of that hive's two names; any other name is refused with the ValueError text "未知のレジストリハイブ名: " followed by the name |
| Registry.HiveFromNameIgnoresCase | YncneoXSOBridge.py:103-113 | names that differ only in letter case give the same outcome |
| Registry.NonAsciiLettersCountAsAscii | YncneoXSOBridge.py:103-113 | a dotless ı counts as I and a long ſ as S anywhere in a name, as under Python's upper |

## Left out

- Sockets, HTTP requests, pynput key listening, the pystray tray icon and `winreg` reads are left out; they are I/O.
  - Their requests and messages are recorded as values (`ApiCall`, `StatusReport`, notifications), not sent.
  - The XSOverlay payload JSON is not built.
  - The tray icon's title is the `trayStatus` field.
- Threads, locks and the `threading.Timer` are left out. Every operation runs atomically under the lock the source holds.
  - Interleavings between the timer thread and `on_message` are not modelled.
  - A timer is its deadline, and `Timeout` is called by the environment with the clock reading.
- Float seconds are replaced by integer milliseconds: `stable_sec`, `flush_interval` and the 1.0 s timer. The `time.sleep(0.5)` pauses are left out.
- `datetime.strftime` timestamps and `json.dumps(textList)` are opaque string parameters. The log line functions take them as given.
- Configuration loading, logger setup, `sys.exit`, `is_running`, signal handling and tray shutdown in `cleanup` are left out.
- `extract_port_from_url` (`urlparse`) is not part of this model. Ports reach the tooltip as optional naturals.
- The dead first `cleanup` definition at YncneoXSOBridge.py:52 is not modelled, since the later one replaces it.
- A JSON frame that decodes to something other than an object raises at YncneoXSOBridge.py:533, before the lock. It is a `Malformed` frame in the model and leaves the state untouched, as in the source. The exception reaching the WebSocket library is not modelled.
- Messages.TranslatedText: `Message.textList` holds only an object. A list-shaped textList makes `get_translated_text` raise AttributeError at `.items()`; it is caught at YncneoXSOBridge.py:500, so no notification is sent and the flush still completes. The model does not represent that input.
- TranslationLogging.ConvertToInternalFormat: `YukaconeMessage.textList` holds only a list. An object-shaped textList with two or more keys raises KeyError at translation_logger.py:89, which escapes `add_yukacone_message`. The model does not represent that input.
- Non-string `MessageID` and text values are not modelled. Ids and texts are strings, and an id that is absent or null is None.
- The null case of `Lang`/`Text` in the logger is not modelled. `.get(k, "")` returns the stored null there.
- `config["yukacone_endpoint"]` is assumed present. In the source a missing endpoint aborts `on_press` and `update_translation` after the key checks.
- Registry.Upper: keeps every character other than a-z, ı and ſ, where Python's `str.upper` may change it (é to É, ß to SS). None of those changes can produce a letter of HKEY_CURRENT_USER, HKCU, HKEY_LOCAL_MACHINE or HKLM, so the hive lookup's outcome is the same.
- TranslationLogging.TranslationLogger.PeriodicFlushLoop: runs over a finite sequence of wake-ups. The source loops until stopped, and the sleep between wake-ups is left to the caller.
- `send_xso_status` payload contents are not modelled. `StatusReport` records the call with its index and mute flag only. The call sends nothing when its own profile lookup raises: IndexError with no profiles, or KeyError for a profile without "name" or "translation_param"."engine" (XSOYukaconeBridge.py:225-239). `ws.send` failures are caught there too.
