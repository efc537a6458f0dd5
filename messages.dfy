/**
 * The translation-log messages the bridges receive from the engine's data
 * WebSocket, the translated text they pick for overlay notifications, and
 * the data-log line they write for a finalised message.
 */
module Messages {
  import opened Wrappers
  import opened Fields
  import opened Profiles

  /** A JSON object language code -> text, in the order its keys were parsed. */
  type TextList = seq<(string, string)>

  /**
   * A decoded message object. `messageId` is None when "MessageID" is absent
   * or null, `textList` is None when "textList" is absent or null, and
   * `otherKeys` records whether the object has any key besides a non-null
   * MessageID and textList (so that Python's truth value of the object can be
   * told: `{}` is false).
   */
  datatype Message = Message(messageId: Option<string>, textList: Option<TextList>, otherKeys: bool)

  /** Python's truth value of the message object: false only for `{}`. */
  predicate Truthy(m: Message)
  {
    m.messageId.Some? || m.textList.Some? || m.otherKeys
  }

  /**
   * A WebSocket frame: a JSON object, or anything else. Text that is not JSON
   * returns at the decode; JSON that is not an object raises at its first
   * `.get`. Both happen before the lock is taken, so neither touches the state.
   */
  datatype Frame = Malformed | Object(message: Message)

  /**
   * `get_translated_text` on a text list: the text of the first entry whose
   * language differs from `sourceLang`, None when every entry is in the source language.
   */
  function TranslatedText(textList: TextList, sourceLang: string): (r: Option<string>)
    ensures r.None? <==> forall i :: 0 <= i < |textList| ==> textList[i].0 == sourceLang
    ensures r.Some? ==> exists i :: 0 <= i < |textList| && textList[i].0 != sourceLang && r.value == textList[i].1
                           && forall j :: 0 <= j < i ==> textList[j].0 == sourceLang
  {
    if textList == [] then None
    else if textList[0].0 != sourceLang then Some(textList[0].1)
    else
      assert forall i :: 1 <= i < |textList| ==> textList[i] == textList[1..][i - 1];
      TranslatedText(textList[1..], sourceLang)
  }

  /**
   * `get_translated_text(data, source_lang)`: a missing textList reads as `{}`
   * and gives None. (A null textList raises instead; the only caller catches
   * that and sends nothing, which None gives as well.)
   */
  function GetTranslatedText(m: Message, sourceLang: string): Option<string>
  {
    if m.textList.None? then None else TranslatedText(m.textList.value, sourceLang)
  }

  /** What flush_pending reads besides the message: the configuration and two control globals. */
  datatype NotifyContext = NotifyContext(
    profiles: seq<Profile>,
    currentIndex: int,
    recognitionLanguage: string,
    overlayConnected: bool)

  /**
   * The overlay notifications sent when `m` is finalised: its translated
   * text, once, when the current profile exists and enables notifications,
   * the text is non-empty and the overlay socket exists; otherwise none.
   */
  function Notifications(ctx: NotifyContext, m: Message): (r: seq<string>)
    ensures |r| <= 1
    ensures r != [] <==>
      && Subscript(ctx.profiles, ctx.currentIndex).Some?
      && Subscript(ctx.profiles, ctx.currentIndex).value.xsoNotification
      && GetTranslatedText(m, ctx.recognitionLanguage).Some?
      && GetTranslatedText(m, ctx.recognitionLanguage).value != ""
      && ctx.overlayConnected
    ensures r != [] ==> r[0] == GetTranslatedText(m, ctx.recognitionLanguage).value
  {
    match Subscript(ctx.profiles, ctx.currentIndex)
    case None => []
    case Some(profile) =>
      if !profile.xsoNotification then []
      else
        match GetTranslatedText(m, ctx.recognitionLanguage)
        case None => []
        case Some(text) => if text != "" && ctx.overlayConnected then [text] else []
  }

  // ---------------------------------------------------------------------
  // The data-log line
  // ---------------------------------------------------------------------

  /** Python's `f"{message_id}"`: an absent id is written as "None". */
  function IdText(id: Option<string>): string
  {
    if id.Some? then id.value else "None"
  }

  /** `"{MessageID},{timestamp},{serialised textList}"`. */
  function DataLine(m: Message, timestamp: string, textJson: string): string
  {
    IdText(m.messageId) + "," + timestamp + "," + textJson
  }

  /**
   * `log_message_to_file(data)`: nothing for None, otherwise one line.
   * `timestamp` is the formatted clock reading and `textJson` the serialised
   * textList.
   */
  function LogMessageToFile(data: Option<Message>, timestamp: string, textJson: string): (lines: seq<string>)
    ensures data.None? <==> lines == []
    ensures data.Some? ==> lines == [DataLine(data.value, timestamp, textJson)]
    ensures data.Some? && ',' !in IdText(data.value.messageId) && ',' !in timestamp ==>
              ParseDataLine(lines[0]) == Some((IdText(data.value.messageId), timestamp, textJson))
  {
    if data.None? then []
    else if ',' !in IdText(data.value.messageId) && ',' !in timestamp then
      DataLineRoundTrip(data.value, timestamp, textJson);
      [DataLine(data.value, timestamp, textJson)]
    else [DataLine(data.value, timestamp, textJson)]
  }

  /** Reads a data-log line back into id text, timestamp and the rest. */
  function ParseDataLine(line: string): Option<(string, string, string)>
  {
    var (id, rest1) := SplitFirst(line, ',');
    if rest1.None? then None
    else
      var (ts, rest2) := SplitFirst(rest1.value, ',');
      if rest2.None? then None else Some((id, ts, rest2.value))
  }

  /**
   * A logged line gives back the id, the timestamp and the serialised
   * textList whole (it may contain commas), as long as the id and the
   * timestamp hold no comma.
   */
  lemma DataLineRoundTrip(m: Message, timestamp: string, textJson: string)
    requires ',' !in IdText(m.messageId) && ',' !in timestamp
    ensures ParseDataLine(DataLine(m, timestamp, textJson)) == Some((IdText(m.messageId), timestamp, textJson))
  {
    var id := IdText(m.messageId);
    assert DataLine(m, timestamp, textJson) == id + [','] + (timestamp + [','] + textJson);
    SplitFirstAt(id, ',', timestamp + [','] + textJson);
    SplitFirstAt(timestamp, ',', textJson);
  }
}
