/** What the two generations of the diary's read page compute alike: the
    text copied or shared for a diary, the icons shown when a diary has no
    weather or mood, which optional fields are shown, and the payload of a
    screenshot's data URL. */
module ReadCommon {
  import opened Wrappers
  import opened Text

  /** The text copied to the clipboard or shared: the content, headed by
      the title on a line of its own when there is a title. A null content
      without a title stays null. */
  function CopyContent(title: Option<string>, content: Option<string>): (r: Option<string>)
    ensures r.None? <==> IsNullOrEmpty(title) && content.None?
  {
    if IsNullOrEmpty(title) then content else Some(title.value + "\n" + OrEmpty(content))
  }

  /** When the title has no line break, the copied text gives back the
      title as its first line and the content as the rest, and without a
      title it is the content itself. */
  lemma CopyContentLines(title: Option<string>, content: Option<string>)
    requires title.Some? ==> '\n' !in title.value
    ensures IsNullOrEmpty(title) ==> CopyContent(title, content) == content
    ensures !IsNullOrEmpty(title) ==>
      var text := CopyContent(title, content).value;
      BeforeFirst(text, '\n') == title.value && AfterFirst(text, '\n') == OrEmpty(content)
  {
    if !IsNullOrEmpty(title) {
      var t, c := title.value, OrEmpty(content);
      var text := t + "\n" + c;
      SplitConcat(t, c, '\n');
      SplitNone(t, '\n');
      assert text[..|t|] == t && text[|t|] == '\n';
      IndexOfAt(text, '\n', |t|);
      assert text[|t| + 1..] == c;
    }
  }

  /** A field such as the title, weather, mood or location is shown when
      it is neither null nor empty, that is, exactly when it would render
      as some text. */
  function IsShown(field: Option<string>): (shown: bool)
    ensures shown <==> OrEmpty(field) != ""
  {
    !IsNullOrEmpty(field)
  }

  /** The weather icon: a cloud for a blank key, otherwise the icon the
      icon service gives for the key (`serviceIcon`). */
  function WeatherIcon(key: Option<string>, serviceIcon: string): (icon: string)
    ensures IsNullOrWhiteSpace(key) ==> icon == "mdi-weather-cloudy"
    ensures !IsNullOrWhiteSpace(key) ==> icon == serviceIcon
  {
    if IsNullOrWhiteSpace(key) then "mdi-weather-cloudy" else serviceIcon
  }

  /** The mood icon: a plain face for a blank key, otherwise the icon
      service's. */
  function MoodIcon(key: Option<string>, serviceIcon: string): (icon: string)
    ensures IsNullOrWhiteSpace(key) ==> icon == "mdi-emoticon-outline"
    ensures !IsNullOrWhiteSpace(key) ==> icon == serviceIcon
  {
    if IsNullOrWhiteSpace(key) then "mdi-emoticon-outline" else serviceIcon
  }

  /** The base64 part of the screenshot's data URL: what follows the first
      comma, or the whole string when there is no comma. */
  function ScreenshotPayload(dataUrl: string): (payload: string)
    ensures ',' !in dataUrl ==> payload == dataUrl
    ensures ',' in dataUrl ==> dataUrl == BeforeFirst(dataUrl, ',') + "," + payload
  {
    AfterFirst(dataUrl, ',')
  }

  /** A data URL `header,payload` whose header has no comma gives back its
      payload, commas in the payload included. */
  lemma DataUrlPayload(header: string, payload: string)
    requires ',' !in header
    ensures ScreenshotPayload(header + "," + payload) == payload
  {
    var s := header + "," + payload;
    assert s[..|header|] == header && s[|header|] == ',';
    IndexOfAt(s, ',', |header|);
    assert s[|header| + 1..] == payload;
  }
}
