# SwashbucklerDiary page logic in Dafny

This project models the decision and string logic in the pages and components of SwashbucklerDiary, a cross-platform diary app built on Blazor. It also covers NoDecentDiary, the app's earlier generation. Each C# component whose methods update fields becomes a Dafny `class`. Each method states its new state outright. Expression-bodied helpers become functions, and lemmas prove what the pages promise about them.

The modules are:

- `IndexDiary`: the diary list page.
  - Its tab index comes from the `View` query parameter.
  - The add-tag dialog rejects blank and repeated names and puts a new tag in front.
  - The greeting is chosen by the hour, and its hour buckets partition the day.
- `MarkdownEdit`: the markdown editor component.
  - It turns media files into markdown or HTML snippets, one line per resource.
  - It filters dropped files before inserting them.
  - It focuses the editor before inserting into empty content.
  - It builds its CSS class list, editor language and theme from settings.
- `MediaWaterfall`: the scroll-keeping state machine of the image/audio/video waterfall.
  - Leaving the page stops recording and shows the loading state; coming back restores the position.
  - It also chooses the responsive gap and column count.
- `ImageSettingPage`: pruning deleted images from the list in place, then deleting their files one by one.
- `ReadCommon`: what both generations of the read page compute alike.
  - The copied text is the title line, then the content.
  - Blank weather and mood keys get default icons.
  - Optional fields are shown when present.
  - The screenshot payload is what follows the first comma of its data URL.
- `SwashbucklerReadPage`: the current read page.
  - Its label and icon selectors, its toggles, and its delete and export dialogs.
  - The counter text.
- `NoDecentReadPage`: the earlier read page. Its `ShowDelete` setter keeps this invariant: a closed dialog has no pending delete action.
- `MainLayout`: NoDecentDiary's bottom navigation.
  - The bar is shown exactly on the pages of its three buttons, whatever the query string.
  - The selected button shows its filled icon.
- `AchievementModel`: the translation keys of an achievement. They read back unambiguously as its type and step count.
- Helper modules:
  - `Text` models the .NET string operations used: `IsNullOrEmpty`, `IsNullOrWhiteSpace`, `IndexOf`, `Split`, `Replace`, `string.Join` and integer formatting.
  - `Models` holds the records the pages share.
  - `Wrappers` holds `Option`, which models C#'s nullable references.

Alerts, toasts, navigation and most service calls that change stored data are recorded in trace fields of the classes. The answers the services give are method parameters. A few calls that create or delete stored data are kept only as their answers; "## Left out" names them.

## Model

| member | source | states |
|---|---|---|
| IndexDiary.WelcomeText | SwashbucklerDiary/Pages/IndexPage/IndexDiary.razor.cs:95-119 | the `if` chain over the hour never reaches the "Hello World" fallback, for any integer hour |
| IndexDiary.WelcomeKey | SwashbucklerDiary/Pages/IndexPage/IndexDiary.razor.cs:100-118 | every greeting but the fallback is an "Index.Welcome." translation key, and the fallback is not |
| IndexDiary.WelcomeTextPartitionsDay | SwashbucklerDiary/Pages/IndexPage/IndexDiary.razor.cs:97-118 | for hours 0..23 the greeting is the one whose bucket holds the hour: 6-10 morning, 11-12 noon, 13-17 afternoon, 18-22 night, 23 and 0-5 before dawn; no other bucket holds it |
| IndexDiary.TagsAfterAdd | SwashbucklerDiary/Pages/IndexPage/IndexDiary.razor.cs:65-93 | the list is unchanged unless the tag is added; an added tag is at index 0 with the old list after it in order |
| IndexDiary.AddTagPath | SwashbucklerDiary/Pages/IndexPage/IndexDiary.razor.cs:68-91 | the name is rejected as blank exactly when it is null or white space; the tag service is asked exactly when the name is neither blank nor taken |
| IndexDiary.AlertsOf | SwashbucklerDiary/Pages/IndexPage/IndexDiary.razor.cs:68-90 | one alert on every path except a blank name, and a success alert exactly when the tag is added |
| IndexDiary.AddedIff | SwashbucklerDiary/Pages/IndexPage/IndexDiary.razor.cs:68-91 | a tag is added exactly when the name is neither null nor whitespace, no tag already has it, and the tag service reports success |
| IndexDiary.AddKeepsNamesUnique | SwashbucklerDiary/Pages/IndexPage/IndexDiary.razor.cs:73-91 | when tag names were unique, they stay unique after `SaveAddTag` |
| IndexDiary.IndexDiary.InitTab | SwashbucklerDiary/Pages/IndexPage/IndexDiary.razor.cs:49-57 | a null or empty `View` becomes "All"; `tab` is the position of `View` in ["All","Tags"], -1 exactly when it is not there |
| IndexDiary.IndexDiary.SaveAddTag | SwashbucklerDiary/Pages/IndexPage/IndexDiary.razor.cs:65-93 | `ShowAddTag` is false on every path; the tags, alerts and tag-service requests are those of the path taken |
| MarkdownEdit.CreateInsertContent | src/SwashbucklerDiary.Rcl/Components/MarkdownEdit/MarkdownEdit.razor.cs:237-246 | null exactly for a kind other than image, audio or video; otherwise the snippet parses back to its URI and kind |
| MarkdownEdit.ParseFramed | src/SwashbucklerDiary.Rcl/Components/MarkdownEdit/MarkdownEdit.razor.cs:241-243 | the image, audio and video snippet templates each read back as their URI and kind |
| MarkdownEdit.InsertContentInjective | src/SwashbucklerDiary.Rcl/Components/MarkdownEdit/MarkdownEdit.razor.cs:237-246 | two media files with the same snippet have the same URI and kind |
| MarkdownEdit.Snippets | src/SwashbucklerDiary.Rcl/Components/MarkdownEdit/MarkdownEdit.razor.cs:251 | one snippet per resource, in order; a null URI is written as empty |
| MarkdownEdit.CreateInsertContents | src/SwashbucklerDiary.Rcl/Components/MarkdownEdit/MarkdownEdit.razor.cs:248-253 | the joined text is empty, so nothing is inserted, exactly when there are no resources or a single one of unknown kind |
| MarkdownEdit.InsertContentsLines | src/SwashbucklerDiary.Rcl/Components/MarkdownEdit/MarkdownEdit.razor.cs:248-253 | when no URI has a line break, the newline-joined text has one line per resource, in resource order; a resource of unknown kind gives an empty line, and every other line parses back to its resource |
| MarkdownEdit.SnippetHasNoLineBreak | src/SwashbucklerDiary.Rcl/Components/MarkdownEdit/MarkdownEdit.razor.cs:241-243 | a snippet has no line break when its URI has none |
| MarkdownEdit.MediaInsertion | src/SwashbucklerDiary.Rcl/Components/MarkdownEdit/MarkdownEdit.razor.cs:222-235 | something is inserted exactly when `src` is neither null nor empty, its kind is known and the requested kind has a snippet; what is inserted parses back to `src` |
| MarkdownEdit.ToolbarKind | src/SwashbucklerDiary.Rcl/Components/MarkdownEdit/MarkdownEdit.razor.cs:188-202 | exactly the buttons "image", "audio" and "video" add media |
| MarkdownEdit.CollectedPaths | src/SwashbucklerDiary.Rcl/Components/MarkdownEdit/MarkdownEdit.razor.cs:263-280 | at most one path per dropped file; none exactly when no file is accepted, one per file exactly when every file is |
| MarkdownEdit.CollectedPathsExact | src/SwashbucklerDiary.Rcl/Components/MarkdownEdit/MarkdownEdit.razor.cs:263-280 | a path is collected exactly when it is the temporary copy of a dropped file of known kind whose stream opened within the size limit and whose copy succeeded |
| MarkdownEdit.CollectFilePaths | src/SwashbucklerDiary.Rcl/Components/MarkdownEdit/MarkdownEdit.razor.cs:262-280 | the loop collects the accepted files' paths, in the order dropped |
| MarkdownEdit.InsertCalls | src/SwashbucklerDiary.Rcl/Components/MarkdownEdit/MarkdownEdit.razor.cs:60-68 | two calls when `Value` is null or empty, one otherwise; the editor is focused exactly in the first case, and the insertion always comes last |
| MarkdownEdit.EditorLang | src/SwashbucklerDiary.Rcl/Components/MarkdownEdit/MarkdownEdit.razor.cs:91 | the culture name with every '-' replaced by '_', position by position |
| MarkdownEdit.Theme | src/SwashbucklerDiary.Rcl/Components/MarkdownEdit/MarkdownEdit.razor.cs:92 | "dark" exactly when dark mode is on, else "light" |
| MarkdownEdit.InternalClassOf | src/SwashbucklerDiary.Rcl/Components/MarkdownEdit/MarkdownEdit.razor.cs:80 | as a class list, the editor has the caller's classes, then "first-line-indent" and "task-list-line-through" exactly when their settings are on |
| MarkdownEdit.MarkdownEdit.InternalClass | src/SwashbucklerDiary.Rcl/Components/MarkdownEdit/MarkdownEdit.razor.cs:80 | each setting's class is applied to the editor exactly when the setting is on or the caller passed that class |
| MarkdownEdit.MarkdownEdit.InsertValueAsync | src/SwashbucklerDiary.Rcl/Components/MarkdownEdit/MarkdownEdit.razor.cs:60-68 | appends the focus-then-insert calls of `InsertCalls` |
| MarkdownEdit.MarkdownEdit.ReadSettings | src/SwashbucklerDiary.Rcl/Components/MarkdownEdit/MarkdownEdit.razor.cs:82-87 | the three flags are the stored settings |
| MarkdownEdit.MarkdownEdit.SetOptions | src/SwashbucklerDiary.Rcl/Components/MarkdownEdit/MarkdownEdit.razor.cs:89-172 | the options carry the derived language and theme, the line-number flag, the 512 MiB upload limit and the three accepted media types |
| MarkdownEdit.MarkdownEdit.OnInitialized | src/SwashbucklerDiary.Rcl/Components/MarkdownEdit/MarkdownEdit.razor.cs:72-78 | settings are read before the options are built from them |
| MarkdownEdit.MarkdownEdit.AddMediaFileAsync | src/SwashbucklerDiary.Rcl/Components/MarkdownEdit/MarkdownEdit.razor.cs:222-235 | inserts the snippet when there is one and makes no call on the editor otherwise |
| MarkdownEdit.MarkdownEdit.HandleToolbarButtonClick | src/SwashbucklerDiary.Rcl/Components/MarkdownEdit/MarkdownEdit.razor.cs:188-220 | the media buttons insert a file of their own kind; every other button makes no editor call |
| MarkdownEdit.MarkdownEdit.LoadFiles | src/SwashbucklerDiary.Rcl/Components/MarkdownEdit/MarkdownEdit.razor.cs:260-293 | more than 10 dropped files make `GetMultipleFiles()` throw, so no path is collected and nothing is inserted; otherwise returns the collected paths and inserts the joined snippets unless no path was collected or the text is empty |
| MediaWaterfall.Gap | src/SwashbucklerDiary.Rcl/Components/Waterfall/MediaWaterfallBase.cs:36 | 16 on the extra-small breakpoint, 24 otherwise |
| MediaWaterfall.Cols | src/SwashbucklerDiary.Rcl/Components/Waterfall/MediaWaterfallBase.cs:38 | 2 columns on the extra-small breakpoint, 3 otherwise |
| MediaWaterfall.StopRecord | src/SwashbucklerDiary.Rcl/Components/Waterfall/MediaWaterfallBase.cs:81-87 | only appends to the script calls; one call more exactly when there is a scrolling element, and then loading is on |
| MediaWaterfall.Restore | src/SwashbucklerDiary.Rcl/Components/Waterfall/MediaWaterfallBase.cs:89-96 | only appends to the script calls; one call more exactly when there is a scrolling element, and then loading is off |
| MediaWaterfall.LocationChanged | src/SwashbucklerDiary.Rcl/Components/Waterfall/MediaWaterfallBase.cs:69-79 | appends at most one script call, and changes nothing without a scrolling element |
| MediaWaterfall.AfterRender | src/SwashbucklerDiary.Rcl/Components/Waterfall/MediaWaterfallBase.cs:49-57 | never touches loading or re-renders; appends one record call exactly on the first render with a scrolling element |
| MediaWaterfall.BreakpointChanged | src/SwashbucklerDiary.Rcl/Components/Waterfall/MediaWaterfallBase.cs:59-67 | makes no script call and leaves loading alone; re-renders exactly when the extra-small breakpoint changed |
| MediaWaterfall.LocationChangedEffect | src/SwashbucklerDiary.Rcl/Components/Waterfall/MediaWaterfallBase.cs:69-96 | with a scrolling element: exactly one script call, stop-recording when the path differs from the page's and restore when it equals it; loading is on exactly after leaving |
| MediaWaterfall.LocationChangedWithoutElement | src/SwashbucklerDiary.Rcl/Components/Waterfall/MediaWaterfallBase.cs:81-96 | with a null or empty element id a location change changes nothing |
| MediaWaterfall.HandlersKeepSelector | src/SwashbucklerDiary.Rcl/Components/Waterfall/MediaWaterfallBase.cs:49-96 | every script call the handlers make uses the selector "#" + the element id |
| MediaWaterfall.AwayAndBack | src/SwashbucklerDiary.Rcl/Components/Waterfall/MediaWaterfallBase.cs:69-96 | leaving and returning stops and then restores the same element, ending with loading off |
| MediaWaterfall.MediaWaterfallBase.OnInitialized | src/SwashbucklerDiary.Rcl/Components/Waterfall/MediaWaterfallBase.cs:40-47 | the page's own path is recorded |
| MediaWaterfall.MediaWaterfallBase.OnAfterRenderAsync | src/SwashbucklerDiary.Rcl/Components/Waterfall/MediaWaterfallBase.cs:49-57 | recording starts only on the first render and only with a scrolling element |
| MediaWaterfall.MediaWaterfallBase.HandleBreakpointChange | src/SwashbucklerDiary.Rcl/Components/Waterfall/MediaWaterfallBase.cs:59-67 | re-renders only when the extra-small breakpoint changed |
| MediaWaterfall.MediaWaterfallBase.NavigationManagerOnLocationChanged | src/SwashbucklerDiary.Rcl/Components/Waterfall/MediaWaterfallBase.cs:69-79 | the new state is the location-change transition from the old one |
| MediaWaterfall.MediaWaterfallBase.StopRecordScrollInfo | src/SwashbucklerDiary.Rcl/Components/Waterfall/MediaWaterfallBase.cs:81-87 | with an element: one stop call, loading on, one re-render; without an element nothing changes |
| MediaWaterfall.MediaWaterfallBase.RestoreScrollPosition | src/SwashbucklerDiary.Rcl/Components/Waterfall/MediaWaterfallBase.cs:89-96 | with an element: one restore call, loading off, one re-render; without an element nothing changes |
| ImageSettingPage.RemoveAllMembers | SwashbucklerDiary/Pages/Mine/Settings/ImageSettingPage.razor.cs:37 | an item remains exactly when it was in the list and no deleted resource has its URI |
| ImageSettingPage.RemoveAllKeepsOrder | SwashbucklerDiary/Pages/Mine/Settings/ImageSettingPage.razor.cs:37 | the items that remain keep their relative order |
| ImageSettingPage.RemoveAllIdempotent | SwashbucklerDiary/Pages/Mine/Settings/ImageSettingPage.razor.cs:37 | pruning twice with the same deletions is pruning once |
| ImageSettingPage.IsDeleted | SwashbucklerDiary/Pages/Mine/Settings/ImageSettingPage.razor.cs:37 | an item counts as deleted exactly when its URI is one whose file is deleted |
| ImageSettingPage.RemoveAll | SwashbucklerDiary/Pages/Mine/Settings/ImageSettingPage.razor.cs:37 | the list never grows, and no item that remains has a deleted URI |
| ImageSettingPage.RemoveAllCounts | SwashbucklerDiary/Pages/Mine/Settings/ImageSettingPage.razor.cs:37 | every copy of an item whose URI was not deleted remains, and no copy of a deleted one |
| ImageSettingPage.UrisOf | SwashbucklerDiary/Pages/Mine/Settings/ImageSettingPage.razor.cs:38-41 | one URI per deleted resource, in the order returned |
| ImageSettingPage.ImageSettingPage.DeleteUnusedImageResource | SwashbucklerDiary/Pages/Mine/Settings/ImageSettingPage.razor.cs:31-44 | the confirmation closes on every path; a null or empty result changes nothing else; otherwise the list is pruned, one file deletion is issued per resource in order, and success is reported |
| ReadCommon.CopyContent | SwashbucklerDiary/Pages/ReadPage.razor.cs:279-287 | null exactly when there is no title and the content is null; NoDecentDiary/Pages/ReadPage.razor.cs:68-78 computes the same text |
| ReadCommon.CopyContentLines | SwashbucklerDiary/Pages/ReadPage.razor.cs:279-287 | without a title the copy text is the content; with a one-line title, the text before the first line break is the title and the rest is the content |
| ReadCommon.IsShown | SwashbucklerDiary/Pages/ReadPage.razor.cs:79-85 | a title, weather, mood or location is shown exactly when it renders as some text; NoDecentDiary/Pages/ReadPage.razor.cs:64-67 is the same |
| ReadCommon.WeatherIcon | SwashbucklerDiary/Pages/ReadPage.razor.cs:213-221 | a null or whitespace key gives "mdi-weather-cloudy", any other key the icon service's icon; NoDecentDiary/Pages/ReadPage.razor.cs:184-191 is the same |
| ReadCommon.MoodIcon | SwashbucklerDiary/Pages/ReadPage.razor.cs:223-231 | a null or whitespace key gives "mdi-emoticon-outline", any other key the icon service's icon; NoDecentDiary/Pages/ReadPage.razor.cs:193-200 is the same |
| ReadCommon.ScreenshotPayload | SwashbucklerDiary/Pages/ReadPage.razor.cs:201 | the whole string when it has no comma; otherwise what follows the first comma |
| ReadCommon.DataUrlPayload | NoDecentDiary/Pages/ReadPage.razor.cs:173 | a data URL whose header has no comma gives back its payload, even when the payload has commas |
| SwashbucklerReadPage.TopText | SwashbucklerDiary/Pages/ReadPage.razor.cs:87 | "Diary.CancelTop" exactly when the diary is pinned, else "Diary.Top" |
| SwashbucklerReadPage.MarkdownText | SwashbucklerDiary/Pages/ReadPage.razor.cs:89 | "Diary.Text" exactly in markdown mode, else "Diary.Markdown" |
| SwashbucklerReadPage.MarkdownIcon | SwashbucklerDiary/Pages/ReadPage.razor.cs:91 | "mdi-format-text" exactly in markdown mode, else the markdown icon |
| SwashbucklerReadPage.PrivateText | SwashbucklerDiary/Pages/ReadPage.razor.cs:93 | "Read.ClosePrivacy" exactly for a private diary, else "Read.OpenPrivacy" |
| SwashbucklerReadPage.PrivateIcon | SwashbucklerDiary/Pages/ReadPage.razor.cs:95 | the open-lock icon exactly for a private diary, else the closed lock |
| SwashbucklerReadPage.SelectorsFollowFlag | SwashbucklerDiary/Pages/ReadPage.razor.cs:87-95 | flipping the flag flips every label and icon |
| SwashbucklerReadPage.CounterValue | SwashbucklerDiary/Pages/ReadPage.razor.cs:248-255 | null or whitespace content reads "0 " followed by the unit |
| SwashbucklerReadPage.CountOf | SwashbucklerDiary/Pages/ReadPage.razor.cs:248-269 | zero for blank content or an unknown count type; otherwise the word count for "Word" and the character count for "Character" |
| SwashbucklerReadPage.CounterValueReadsBack | SwashbucklerDiary/Pages/ReadPage.razor.cs:248-269 | the text before the first space is the count, which parses back |
| SwashbucklerReadPage.ReadPage.Tags | SwashbucklerDiary/Pages/ReadPage.razor.cs:73 | empty when the diary's tag list is null, else that list |
| SwashbucklerReadPage.ReadPage.OpenDeleteDialog | SwashbucklerDiary/Pages/ReadPage.razor.cs:144-148 | the delete dialog is open |
| SwashbucklerReadPage.ReadPage.HandleDelete | SwashbucklerDiary/Pages/ReadPage.razor.cs:150-163 | the dialog closes and the diary service is asked to delete; success or failure is reported; the page goes back only on success |
| SwashbucklerReadPage.ReadPage.OnTopping | SwashbucklerDiary/Pages/ReadPage.razor.cs:170-175 | negates the diary's `Top`, changes no other diary field, and stores the diary |
| SwashbucklerReadPage.ReadPage.MarkdownChanged | SwashbucklerDiary/Pages/ReadPage.razor.cs:233-238 | negates `Markdown` and saves the new value |
| SwashbucklerReadPage.ReadPage.DiaryPrivacyChanged | SwashbucklerDiary/Pages/ReadPage.razor.cs:240-246 | negates the diary's `Private`, stamps the update time, stores the diary and reports it |
| SwashbucklerReadPage.ReadPage.OpenExportDialog | SwashbucklerDiary/Pages/ReadPage.razor.cs:271-277 | the diaries to export are exactly the shown diary, and the export dialog is open |
| SwashbucklerReadPage.ToggleTwiceRestores | SwashbucklerDiary/Pages/ReadPage.razor.cs:170-246 | using each toggle twice restores `Top`, `Private` and `Markdown` |
| NoDecentReadPage.ReadPage.SetShowDelete | NoDecentDiary/Pages/ReadPage.razor.cs:50-61 | hiding the dialog drops the pending action; showing it keeps it; a closed dialog never has a pending action |
| NoDecentReadPage.ReadPage.OpenDeleteDialog | NoDecentDiary/Pages/ReadPage.razor.cs:110-136 | the action that deletes this diary is added to the pending ones, and the dialog is open |
| NoDecentReadPage.ReadPage.RunDeleteAction | NoDecentDiary/Pages/ReadPage.razor.cs:112-133 | the dialog closes, so nothing stays pending; the diary is deleted; a success or failure toast is shown; the page goes back either way |
| NoDecentReadPage.ReadPage.OnTopping | NoDecentDiary/Pages/ReadPage.razor.cs:143-148 | negates the given diary's `Top`, changes no other diary field, and stores the diary |
| NoDecentReadPage.ReadPage.MarkdownChanged | NoDecentDiary/Pages/ReadPage.razor.cs:202-206 | negates `Markdown` and saves the new value under "Markdown" |
| MainLayout.GetIcon | NoDecentDiary/Shared/MainLayout.razor.cs:66-69 | the selected icon exactly when the selected item is the button's id, else the plain icon |
| MainLayout.NavigationButtons | NoDecentDiary/Shared/MainLayout.razor.cs:30-35 | three buttons; each id is the button's position and no target has a query string |
| MainLayout.ShowBottomNavigation | NoDecentDiary/Shared/MainLayout.razor.cs:76-80 | the bar is shown exactly when the path is some button's target, alone or followed by "?" and a query |
| MainLayout.ShownOnButtonPages | NoDecentDiary/Shared/MainLayout.razor.cs:76-80 | the bar is shown exactly when the path before the first '?' is "", "History" or "Mine" |
| MainLayout.QueryIgnored | NoDecentDiary/Shared/MainLayout.razor.cs:79 | a path p and p + "?" + q show or hide the bar alike |
| MainLayout.ShownOnRootAndButtons | NoDecentDiary/Shared/MainLayout.razor.cs:30-35 | the root, "History" and "Mine" show the bar |
| MainLayout.OneButtonSelected | NoDecentDiary/Shared/MainLayout.razor.cs:30-69 | the table's ids are distinct, so at most one button shows its selected icon |
| AchievementModel.NewAchievement | SwashbucklerDiary/Models/Data/AchievementModel.cs:12-19 | id, type and steps are the arguments; the name and description keys parse back to the type's name, the steps, and "Name" or "Description" |
| AchievementModel.Key | SwashbucklerDiary/Models/Data/AchievementModel.cs:15-17 | a key whose segment has no dot parses back to the type name, the steps and the segment |
| AchievementModel.KeyRoundTrip | SwashbucklerDiary/Models/Data/AchievementModel.cs:15-17 | the text "Achievement.{type}.{steps}.{segment}" reads back unambiguously, even when the type name has dots |
| AchievementModel.KeysInjective | SwashbucklerDiary/Models/Data/AchievementModel.cs:15-17 | two achievements whose keys for the same segment are equal have the same type and steps, so neither names nor descriptions collide; this holds for declared enum members, because every undefined value is the one type with the empty name |
| AchievementModel.NameAndDescriptionDiffer | SwashbucklerDiary/Models/Data/AchievementModel.cs:15-17 | the two keys share the stem "Achievement.{type}.{steps}." and differ in the last segment |

## Left out

- `INavigateController` (src/SwashbucklerDiary.Rcl/Essentials/NavigateController/INavigateController.cs) declares navigation methods only; it has no implementation to model.
- Services and platform calls are not modelled. This covers the diary, tag, resource, settings and app-data services, the media and file managers, the clipboard, sharing, file writes and base64 decoding. Their answers are parameters (`serviceAdds`, `resources`, `reportedKind`, `BrowserFile.Kind`, `BrowserFile.TempPath`). The calls to the diary, tag, settings and app-data services that store, delete or report something are appended to trace fields, except those named on the next line.
- Some calls create or delete stored data, and the model keeps only their answers. It does not record that they are made or in what order. In the image settings page, `ResourceService.DeleteUnusedResourcesAsync` deletes the unused image records. In the markdown editor:
  - `MediaResourceManager.AddImageAsync` and `CreateMediaResourceFilesAsync` create media resource files;
  - `AppFileManager.CreateTempFileAsync` writes a temporary file;
  - `GetResourceKind` only classifies a file name, and is also kept as its answer.
- IndexDiary.IndexDiary.SaveAddTag: the page's `Tags` is a `[Parameter]` list that belongs to the parent page, and `Tags.Insert(0, tag)` changes the parent's list too. The model keeps the page's own copy of the list, so that aliasing is not captured.
- Culture-sensitive text operations are modelled by their invariant-culture forms. `IndexOf(",")` on the screenshot's data URL is a culture-sensitive string search; the model searches for the character. `{steps}` in the achievement keys and `len + " "` in the counter format with the current culture; the model writes plain decimal digits with a leading '-'.
- JS interop and the vditor editor are left out. The script calls of the waterfall and the editor (focus, insert) are trace entries. The vditor option dictionaries are reduced to the fields derived from the component's state: language, theme, line numbers, upload limit and accepted types.
- Timing and async plumbing are left out: `Task.Delay`, `async void` handlers, `StateHasChanged`/`InvokeAsync` (counted as re-renders in the waterfall), and event subscription and disposal. Each handler runs to completion before the next one starts, so interleavings of awaits are not modelled.
- `DateTime.Now` is left out. The hour and the privacy toggle's time stamp are parameters. `Convert.ToInt16` of a two-digit hour cannot overflow, so it is not modelled.
- I18n lookups are left out: a translated text is its key, and the culture name, unit and counter type are parameters.
- SwashbucklerReadPage.CounterValue: the `WordCount()` and `CharacterCount()` extensions and `Trim()` are not part of this model. The non-empty counts are parameters, so only the empty-content case and the number format are stated.
- `StringNumber` (MainLayout's selected item) is modelled as an integer id.
- MarkdownEdit.CollectedPathsExact: the size limit is applied to a file's length in bytes, as the browser's `OpenReadStream` does. A throwing copy is modelled by a `None` temporary path, and logging of the error is left out.
- MarkdownEdit.MarkdownEdit.LoadFiles: the `InvalidOperationException` that `GetMultipleFiles()` throws for more than 10 files escapes the `async void` handler. The model ends the handler there with nothing done and does not model the escaping exception.
- MarkdownEdit.Snippets: the null-forgiving `ResourceUri!` is modelled as interpolating a null URI as the empty string.
- The NoDecentDiary delete action is a closure over the page. It is modelled as a `DeleteHandler` value holding the diary id, and the multicast delegate as a list of such values. Running one handler is `RunDeleteAction`; invoking all of them is not modelled.
- NoDecentDiary's `UpdateDiary`, `UpdateTag`, `LoadSettings`, `OnEdit`, `OnCopy`, `ShareText` and `ShareImage` are left out. They are service calls around the modelled copy text, payload and icons. The same holds for the corresponding members of the current read page, except `HandleDelete`.
- AchievementModel: `Enum.GetName` is modelled by the type's declared name. An undefined enum value (null name, formatted as empty) is a type whose name is empty. So all undefined values are one type in the model, although in the source two different undefined values have the same keys, such as "Achievement..{steps}.Name".
- Text: `char.IsWhiteSpace` is modelled by the fixed set of Unicode white-space characters .NET recognises. Strings are sequences of characters, without normalisation or case folding.
