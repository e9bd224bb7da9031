/** The read page of SwashbucklerDiary: the menu entries whose text and
    icon follow a flag, the toggles behind them, the export dialog and the
    word counter. */
module SwashbucklerReadPage {
  import opened Wrappers
  import opened Text
  import opened Models
  import opened ReadCommon

  // ----- menu texts and icons (translation keys and icon names) -----

  function TopText(isTop: bool): (r: string)
    ensures r in {"Diary.CancelTop", "Diary.Top"} && (r == "Diary.CancelTop" <==> isTop)
  {
    if isTop then "Diary.CancelTop" else "Diary.Top"
  }

  function MarkdownText(markdown: bool): (r: string)
    ensures r in {"Diary.Text", "Diary.Markdown"} && (r == "Diary.Text" <==> markdown)
  {
    if markdown then "Diary.Text" else "Diary.Markdown"
  }

  function MarkdownIcon(markdown: bool): (r: string)
    ensures r in {"mdi-format-text", "mdi-language-markdown-outline"} && (r == "mdi-format-text" <==> markdown)
  {
    if markdown then "mdi-format-text" else "mdi-language-markdown-outline"
  }

  function PrivateText(isPrivate: bool): (r: string)
    ensures r in {"Read.ClosePrivacy", "Read.OpenPrivacy"} && (r == "Read.ClosePrivacy" <==> isPrivate)
  {
    if isPrivate then "Read.ClosePrivacy" else "Read.OpenPrivacy"
  }

  function PrivateIcon(isPrivate: bool): (r: string)
    ensures r in {"mdi-lock-open-variant-outline", "mdi-lock-outline"}
    ensures r == "mdi-lock-open-variant-outline" <==> isPrivate
  {
    if isPrivate then "mdi-lock-open-variant-outline" else "mdi-lock-outline"
  }

  /** Each menu entry shows a different text and icon once its flag flips. */
  lemma SelectorsFollowFlag(b: bool)
    ensures TopText(b) != TopText(!b)
    ensures MarkdownText(b) != MarkdownText(!b) && MarkdownIcon(b) != MarkdownIcon(!b)
    ensures PrivateText(b) != PrivateText(!b) && PrivateIcon(b) != PrivateIcon(!b)
  {
  }

  // ----- word counter -----

  /** The count the counter shows: none for blank content; otherwise the
      word or character count of the trimmed content (`wordCount`,
      `characterCount`), as the translation of `Write.WordCountType`
      (`countType`) selects, and none for any other type. */
  function CountOf(content: Option<string>, countType: string, wordCount: nat, characterCount: nat): (n: nat)
    ensures IsNullOrWhiteSpace(content) || countType !in {"Word", "Character"} ==> n == 0
    ensures !IsNullOrWhiteSpace(content) && countType == "Word" ==> n == wordCount
    ensures !IsNullOrWhiteSpace(content) && countType == "Character" ==> n == characterCount
  {
    if IsNullOrWhiteSpace(content) then 0
    else if countType == "Word" then wordCount
    else if countType == "Character" then characterCount
    else 0
  }

  /** `CounterValue`: the count, a space, and the unit. */
  function CounterValue(content: Option<string>, countType: string, unit: string,
                        wordCount: nat, characterCount: nat): (r: string)
    ensures IsNullOrWhiteSpace(content) ==> r == "0 " + unit
  {
    IntToString(CountOf(content, countType, wordCount, characterCount)) + " " + unit
  }

  /** The counter's text starts with the count, which reads back. */
  lemma CounterValueReadsBack(content: Option<string>, countType: string, unit: string,
                              wordCount: nat, characterCount: nat)
    ensures var r := CounterValue(content, countType, unit, wordCount, characterCount);
      ParseInt(BeforeFirst(r, ' ')) == Some(CountOf(content, countType, wordCount, characterCount) as int)
  {
    var n := CountOf(content, countType, wordCount, characterCount);
    var digits := IntToString(n);
    assert ' ' !in digits by {
      assert IsDigits(digits);
    }
    SplitConcat(digits, unit, ' ');
    SplitNone(digits, ' ');
    assert CounterValue(content, countType, unit, wordCount, characterCount) == digits + [' '] + unit;
    IntToStringRoundTrip(n);
  }

  /** The calls the page makes on its services. */
  datatype ServiceCall = UpdateDiary | SaveMarkdownSetting(value: bool) | DeleteDiary

  class ReadPage {
    var ShowDelete: bool
    var ShowExport: bool
    var Markdown: bool
    var Diary: DiaryModel
    var ExportDiaries: seq<DiaryModel>
    var serviceCalls: seq<ServiceCall>
    /** The alerts shown, by translation key. */
    var alerts: seq<string>
    /** How many times the page navigated back. */
    var backs: nat

    constructor (diary: DiaryModel, markdown: bool)
      ensures Diary == diary && Markdown == markdown
      ensures !ShowDelete && !ShowExport && ExportDiaries == [] && serviceCalls == [] && alerts == [] && backs == 0
    {
      Diary, Markdown := diary, markdown;
      ShowDelete, ShowExport, ExportDiaries, serviceCalls, alerts, backs := false, false, [], [], [], 0;
    }

    /** The diary's tags, or none when the diary has no tag list. */
    function Tags(): (tags: seq<TagModel>)
      reads this, Diary
      ensures Diary.Tags.None? ==> tags == []
      ensures Diary.Tags.Some? ==> tags == Diary.Tags.value
    {
      Diary.Tags.GetOr([])
    }

    method OpenDeleteDialog()
      modifies this`ShowDelete
      ensures ShowDelete
    {
      ShowDelete := true;
    }

    /** The confirmed deletion: close the dialog, delete the diary
        (`deleted` is the diary service's answer) and say how it went; the
        page goes back only when the diary is gone. */
    method HandleDelete(deleted: bool)
      modifies this`ShowDelete, this`serviceCalls, this`alerts, this`backs
      ensures !ShowDelete
      ensures serviceCalls == old(serviceCalls) + [DeleteDiary]
      ensures alerts == old(alerts) + [if deleted then "Share.DeleteSuccess" else "Share.DeleteFail"]
      ensures backs == old(backs) + (if deleted then 1 else 0)
    {
      ShowDelete := false;
      serviceCalls := serviceCalls + [DeleteDiary];
      if deleted {
        alerts := alerts + ["Share.DeleteSuccess"];
        backs := backs + 1;
      } else {
        alerts := alerts + ["Share.DeleteFail"];
      }
    }

    /** Pins or unpins the diary and stores it. */
    method OnTopping()
      modifies Diary`Top, this`serviceCalls
      ensures Diary.Top == !old(Diary.Top)
      ensures serviceCalls == old(serviceCalls) + [UpdateDiary]
    {
      Diary.Top := !Diary.Top;
      serviceCalls := serviceCalls + [UpdateDiary];
    }

    /** Switches between markdown and plain text and saves the setting. */
    method MarkdownChanged()
      modifies this`Markdown, this`serviceCalls
      ensures Markdown == !old(Markdown)
      ensures serviceCalls == old(serviceCalls) + [SaveMarkdownSetting(Markdown)]
    {
      Markdown := !Markdown;
      serviceCalls := serviceCalls + [SaveMarkdownSetting(Markdown)];
    }

    /** Makes the diary private or public, stamps it with the time `now`,
        stores it and says so. */
    method DiaryPrivacyChanged(now: int)
      modifies Diary`Private, Diary`UpdateTime, this`serviceCalls, this`alerts
      ensures Diary.Private == !old(Diary.Private) && Diary.UpdateTime == now
      ensures serviceCalls == old(serviceCalls) + [UpdateDiary]
      ensures alerts == old(alerts) + ["Read.PrivacyAlert"]
    {
      Diary.Private := !Diary.Private;
      Diary.UpdateTime := now;
      serviceCalls := serviceCalls + [UpdateDiary];
      alerts := alerts + ["Read.PrivacyAlert"];
    }

    /** Opens the export dialog for this diary alone. */
    method OpenExportDialog()
      modifies this`ExportDiaries, this`ShowExport
      ensures ExportDiaries == [Diary] && ShowExport
    {
      var diary := Diary;
      ExportDiaries := [diary];
      ShowExport := true;
    }
  }

  /** Each toggle undoes itself: using it twice restores the flag. */
  method ToggleTwiceRestores(page: ReadPage)
    modifies page, page.Diary
    ensures page.Diary == old(page.Diary)
    ensures page.Diary.Top == old(page.Diary.Top) && page.Diary.Private == old(page.Diary.Private)
    ensures page.Markdown == old(page.Markdown)
  {
    page.OnTopping();
    page.OnTopping();
    page.MarkdownChanged();
    page.MarkdownChanged();
    page.DiaryPrivacyChanged(0);
    page.DiaryPrivacyChanged(0);
  }
}
