/**
 * The media-key controller of both bridges (`media_key_listener.on_press`
 * and `update_translation`) and the tray tooltip of the YNC bridge
 * (`update_tray_status`).
 *
 * Play/pause toggles the mute flag; next/previous cycle through the
 * translation profiles, apply the new one and un-mute. Each handled key
 * ends by calling `send_xso_status` with the profile index and mute flag.
 */
module Control {
  import opened Wrappers
  import opened Fields
  import opened Profiles

  datatype Key = PlayPause | NextTrack | PreviousTrack | OtherKey

  /**
   * A call of `send_xso_status` with a profile index and the mute flag. The
   * call itself sends nothing when its own profile lookup fails.
   */
  datatype StatusReport = StatusReport(index: int, muted: bool)

  /** The state after a key press, the engine requests issued and the `send_xso_status` calls made, in order. */
  datatype Press = Press(next: ControlState, calls: seq<ApiCall>, reports: seq<StatusReport>)

  /** The state of both bridges at start-up: first profile, muted, recognition language "ja". */
  const InitialControl: ControlState := ControlState(0, true, DefaultRecognitionLanguage)

  function MuteCall(muted: bool): ApiCall
  {
    if muted then MuteOn else MuteOff
  }

  /** Whether a key press runs to its end; a cycling key with no profiles raises ZeroDivisionError. */
  predicate Completes(profiles: seq<Profile>, key: Key)
  {
    key.PlayPause? || ((key.NextTrack? || key.PreviousTrack?) && |profiles| > 0)
  }

  /**
   * `on_press`. A cycling key stores the new index before applying the
   * profile, so the index moves even when the profile cannot be applied.
   */
  function PressStep(profiles: seq<Profile>, s: ControlState, key: Key): Press
  {
    match key
    case OtherKey => Press(s, [], [])
    case PlayPause =>
      var muted := !s.muted;
      Press(s.(muted := muted), [MuteCall(muted)], [StatusReport(s.index, muted)])
    case _ =>
      var moved := if key.NextTrack? then NextIndex(s.index, |profiles|) else PreviousIndex(s.index, |profiles|);
      match moved
      case None => Press(s, [], [])
      case Some(j) =>
        var u := UpdateTranslationStep(profiles, s.(index := j), j);
        var t := u.next.(muted := false);
        Press(t, u.calls + [MuteOff], [StatusReport(t.index, false)])
  }

  /**
   * Play/pause flips the mute flag, tells the engine the new flag, passes
   * it to `send_xso_status`, and touches nothing else; pressing it twice restores the state.
   */
  lemma PlayPauseToggles(profiles: seq<Profile>, s: ControlState)
    ensures var r := PressStep(profiles, s, PlayPause);
      && r.next == s.(muted := !s.muted)
      && r.calls == [if s.muted then MuteOff else MuteOn]
      && r.reports == [StatusReport(s.index, !s.muted)]
    ensures PressStep(profiles, PressStep(profiles, s, PlayPause).next, PlayPause).next == s
  {
  }

  /**
   * A cycling key with at least one profile moves to the next or previous
   * index modulo the number of profiles, applies that profile's settings,
   * un-mutes with a final MuteOff request and passes the new state to
   * `send_xso_status`. With no profiles it does nothing at all.
   */
  lemma CyclingContract(profiles: seq<Profile>, s: ControlState, key: Key)
    requires key.NextTrack? || key.PreviousTrack?
    ensures var r := PressStep(profiles, s, key);
      if |profiles| == 0 then r == Press(s, [], [])
      else
        var j := if key.NextTrack? then (s.index + 1) % |profiles| else (s.index - 1) % |profiles|;
        var u := UpdateTranslationStep(profiles, s.(index := j), j);
        && r.next == ControlState(j, false, u.next.recognitionLanguage)
        && r.calls == u.calls + [MuteOff]
        && r.reports == [StatusReport(j, false)]
  {
    if |profiles| > 0 {
      var j := if key.NextTrack? then (s.index + 1) % |profiles| else (s.index - 1) % |profiles|;
      UpdateTranslationContract(profiles, s.(index := j), j);
    }
  }

  /** Once the index is a valid profile position, every key press keeps it one. */
  lemma PressKeepsIndexInRange(profiles: seq<Profile>, s: ControlState, key: Key)
    requires 0 <= s.index < |profiles|
    ensures 0 <= PressStep(profiles, s, key).next.index < |profiles|
  {
    if key.NextTrack? || key.PreviousTrack? {
      CyclingContract(profiles, s, key);
    }
  }

  /** Next followed by previous comes back to the profile it started on, un-muted. */
  lemma NextThenPreviousReturns(profiles: seq<Profile>, s: ControlState)
    requires 0 <= s.index < |profiles|
    ensures var back := PressStep(profiles, PressStep(profiles, s, NextTrack).next, PreviousTrack).next;
      back.index == s.index && !back.muted
  {
    var n := |profiles|;
    CyclingContract(profiles, s, NextTrack);
    var mid := PressStep(profiles, s, NextTrack).next;
    CyclingContract(profiles, mid, PreviousTrack);
    NextPreviousInverse(s.index, n);
  }

  /** Every press that completes calls `send_xso_status` once, with the new index and mute flag. */
  lemma ReportMatchesState(profiles: seq<Profile>, s: ControlState, key: Key)
    ensures var r := PressStep(profiles, s, key);
      if Completes(profiles, key) then r.reports == [StatusReport(r.next.index, r.next.muted)]
      else r == Press(s, [], [])
  {
    if key.NextTrack? || key.PreviousTrack? {
      CyclingContract(profiles, s, key);
    }
  }

  // ---------------------------------------------------------------------
  // Tray tooltip
  // ---------------------------------------------------------------------

  function StatusWord(muted: bool): string
  {
    if muted then "Mute" else "Online"
  }

  function OnOff(b: bool): string
  {
    if b then "ON" else "OFF"
  }

  /** A port part of the tooltip, "tag:port". */
  function PortPart(tag: string, port: nat): string
  {
    tag + ":" + DecimalString(port)
  }

  /** `parts` with the part for `port` appended when the port is known. */
  function WithPort(parts: seq<string>, tag: string, port: Option<nat>): seq<string>
  {
    if port.Some? then parts + [PortPart(tag, port.value)] else parts
  }

  /** The parts of the tooltip: the head, one part per known port in the order XSO, HTTP, WS, then the debug flag. */
  function TrayParts(appName: string, muted: bool, xso: Option<nat>, http: Option<nat>, ws: Option<nat>, debug: bool): seq<string>
  {
    WithPort(WithPort(WithPort([appName + " - " + StatusWord(muted)], "XSO", xso), "HTTP", http), "WS", ws)
    + ["DEBUG:" + OnOff(debug)]
  }

  function Tooltip(appName: string, muted: bool, xso: Option<nat>, http: Option<nat>, ws: Option<nat>, debug: bool): string
  {
    Join(TrayParts(appName, muted, xso, http, ws, debug), " | ")
  }

  /** " | tag:port" for a known port, nothing for an unknown one. */
  function PortSegment(tag: string, port: Option<nat>): string
  {
    if port.Some? then " | " + PortPart(tag, port.value) else ""
  }

  lemma JoinWithPort(parts: seq<string>, tag: string, port: Option<nat>)
    requires parts != []
    ensures WithPort(parts, tag, port) != []
    ensures Join(WithPort(parts, tag, port), " | ") == Join(parts, " | ") + PortSegment(tag, port)
  {
    if port.Some? {
      JoinSnoc(parts, PortPart(tag, port.value), " | ");
    }
  }

  /**
   * The tooltip spelled out as one string: the head, a segment per known
   * port, and the debug flag, each after a " | ".
   */
  lemma TooltipShape(appName: string, muted: bool, xso: Option<nat>, http: Option<nat>, ws: Option<nat>, debug: bool)
    ensures Tooltip(appName, muted, xso, http, ws, debug)
      == appName + " - " + StatusWord(muted)
         + PortSegment("XSO", xso) + PortSegment("HTTP", http) + PortSegment("WS", ws)
         + " | DEBUG:" + OnOff(debug)
  {
    var head := appName + " - " + StatusWord(muted);
    var p1 := WithPort([head], "XSO", xso);
    var p2 := WithPort(p1, "HTTP", http);
    var p3 := WithPort(p2, "WS", ws);
    JoinWithPort([head], "XSO", xso);
    JoinWithPort(p1, "HTTP", http);
    JoinWithPort(p2, "WS", ws);
    JoinSnoc(p3, "DEBUG:" + OnOff(debug), " | ");
  }

  // ---------------------------------------------------------------------
  // The bridge globals as an object
  // ---------------------------------------------------------------------

  class Controller {
    const profiles: seq<Profile>
    const appName: string
    const xsoPort: Option<nat>
    const httpPort: Option<nat>
    const wsPort: Option<nat>
    const debugMode: bool

    var currentIndex: int
    var isMuted: bool
    var lastRecognitionLanguage: string

    /** Requests sent to the engine's HTTP API and `send_xso_status` calls made, in order. */
    var apiCalls: seq<ApiCall>
    var statusReports: seq<StatusReport>
    var trayStatus: string

    function State(): ControlState
      reads this
    {
      ControlState(currentIndex, isMuted, lastRecognitionLanguage)
    }

    constructor (profiles: seq<Profile>, appName: string, xsoPort: Option<nat>, httpPort: Option<nat>, wsPort: Option<nat>, debugMode: bool)
      ensures this.profiles == profiles && this.appName == appName && this.debugMode == debugMode
      ensures this.xsoPort == xsoPort && this.httpPort == httpPort && this.wsPort == wsPort
      ensures State() == InitialControl
      ensures apiCalls == [] && statusReports == [] && trayStatus == "Initializing..."
    {
      this.profiles, this.appName, this.debugMode := profiles, appName, debugMode;
      this.xsoPort, this.httpPort, this.wsPort := xsoPort, httpPort, wsPort;
      currentIndex, isMuted, lastRecognitionLanguage := 0, true, DefaultRecognitionLanguage;
      apiCalls, statusReports, trayStatus := [], [], "Initializing...";
    }

    /** `update_translation(config, index)`. */
    method UpdateTranslation(index: int)
      modifies this`currentIndex, this`lastRecognitionLanguage, this`apiCalls
      ensures State() == UpdateTranslationStep(profiles, old(State()), index).next
      ensures apiCalls == old(apiCalls) + UpdateTranslationStep(profiles, old(State()), index).calls
    {
      var setting := Subscript(profiles, index);
      if setting.None? {
        return;
      }
      var p := setting.value;
      if p.recognitionLanguage.None? {
        return;
      }
      var newLanguage := p.recognitionLanguage.value;
      if newLanguage != lastRecognitionLanguage {
        apiCalls := apiCalls + [SetRecognitionParam(newLanguage)];
        lastRecognitionLanguage := newLanguage;
      }
      if p.translationParam.None? {
        return;
      }
      var tp := p.translationParam.value;
      apiCalls := apiCalls + [SetTranslationParam(tp.slot, tp.language, tp.engine)];
      currentIndex := index;
    }

    /** `on_press` of the XSO bridge, which has no tray. */
    method OnPress(key: Key)
      modifies this`currentIndex, this`isMuted, this`lastRecognitionLanguage, this`apiCalls, this`statusReports
      ensures State() == PressStep(profiles, old(State()), key).next
      ensures apiCalls == old(apiCalls) + PressStep(profiles, old(State()), key).calls
      ensures statusReports == old(statusReports) + PressStep(profiles, old(State()), key).reports
    {
      if key.PlayPause? {
        isMuted := !isMuted;
        apiCalls := apiCalls + [MuteCall(isMuted)];
        statusReports := statusReports + [StatusReport(currentIndex, isMuted)];
      } else if key.NextTrack? || key.PreviousTrack? {
        var n := |profiles|;
        if n == 0 {
          return;
        }
        if key.NextTrack? {
          currentIndex := (currentIndex + 1) % n;
        } else {
          currentIndex := (currentIndex - 1) % n;
        }
        UpdateTranslation(currentIndex);
        isMuted := false;
        apiCalls := apiCalls + [MuteCall(isMuted)];
        statusReports := statusReports + [StatusReport(currentIndex, isMuted)];
      }
    }

    /** `update_tray_status`: builds the parts list step by step and joins it. */
    method UpdateTrayStatus()
      modifies this`trayStatus
      ensures trayStatus == Tooltip(appName, isMuted, xsoPort, httpPort, wsPort, debugMode)
    {
      var parts := [appName + " - " + StatusWord(isMuted)];
      if xsoPort.Some? {
        parts := parts + [PortPart("XSO", xsoPort.value)];
      }
      if httpPort.Some? {
        parts := parts + [PortPart("HTTP", httpPort.value)];
      }
      if wsPort.Some? {
        parts := parts + [PortPart("WS", wsPort.value)];
      }
      parts := parts + ["DEBUG:" + OnOff(debugMode)];
      trayStatus := Join(parts, " | ");
    }

    /** `on_press` of the YNC bridge: the same press, then the tooltip is refreshed when the press completed. */
    method OnPressWithTray(key: Key)
      modifies this
      ensures State() == PressStep(profiles, old(State()), key).next
      ensures apiCalls == old(apiCalls) + PressStep(profiles, old(State()), key).calls
      ensures statusReports == old(statusReports) + PressStep(profiles, old(State()), key).reports
      ensures trayStatus == if Completes(profiles, key)
                            then Tooltip(appName, isMuted, xsoPort, httpPort, wsPort, debugMode)
                            else old(trayStatus)
    {
      OnPress(key);
      if Completes(profiles, key) {
        UpdateTrayStatus();
      }
    }
  }
}
