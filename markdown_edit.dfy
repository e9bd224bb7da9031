/** The markdown editor component: how it turns media files into markdown
    or HTML snippets and hands them to the editor widget, the CSS classes
    its settings add, and the language and theme it configures. */
module MarkdownEdit {
  import opened Wrappers
  import opened Text
  import opened Models

  /** The largest file, in bytes, the editor reads or uploads. */
  const MaxAllowedSize: int := 512 * 1024 * 1024

  /** The most files `GetMultipleFiles()` hands out by default; it throws
      when more were dropped. */
  const MaxFileCount: int := 10

  // ----- snippets -----

  /** The text inserted for a media file at `src`: a markdown image, or an
      HTML audio or video element; nothing for any other kind. */
  function CreateInsertContent(src: string, mediaResource: MediaResource): (r: Option<string>)
    ensures r.None? <==> mediaResource == Unknown
    ensures r.Some? ==> ParseInsertContent(r.value) == Some((src, mediaResource))
  {
    var r := match mediaResource
      case Image => Some("![](" + src + ")")
      case Audio => Some("<audio src=\"" + src + "\" controls ></audio>")
      case Video => Some("<video src=\"" + src + "\" controls ></video>")
      case Unknown => None;
    ParseFramed(src, mediaResource);
    r
  }

  /** Whether `t` starts with `pre` and ends with `suf`, apart. */
  predicate Framed(t: string, pre: string, suf: string) {
    |t| >= |pre| + |suf| && t[..|pre|] == pre && t[|t| - |suf|..] == suf
  }

  /** What `t` holds between `pre` and `suf`. */
  function Inside(t: string, pre: string, suf: string): string
    requires Framed(t, pre, suf)
  {
    t[|pre|..|t| - |suf|]
  }

  /** Reads a snippet back: which kind of element it is and what source it
      names. The reference against which `CreateInsertContent` is checked. */
  function ParseInsertContent(t: string): Option<(string, MediaResource)> {
    if Framed(t, "![](", ")") then Some((Inside(t, "![](", ")"), Image))
    else if Framed(t, "<audio src=\"", "\" controls ></audio>") then
      Some((Inside(t, "<audio src=\"", "\" controls ></audio>"), Audio))
    else if Framed(t, "<video src=\"", "\" controls ></video>") then
      Some((Inside(t, "<video src=\"", "\" controls ></video>"), Video))
    else None
  }

  lemma FramedInside(pre: string, src: string, suf: string)
    ensures Framed(pre + src + suf, pre, suf) && Inside(pre + src + suf, pre, suf) == src
  {
    var t := pre + src + suf;
    assert t[..|pre|] == pre;
    assert t[|t| - |suf|..] == suf;
    assert t[|pre|..|t| - |suf|] == src;
  }

  lemma ParseFramed(src: string, mediaResource: MediaResource)
    ensures mediaResource == Image ==> ParseInsertContent("![](" + src + ")") == Some((src, Image))
    ensures mediaResource == Audio ==>
      ParseInsertContent("<audio src=\"" + src + "\" controls ></audio>") == Some((src, Audio))
    ensures mediaResource == Video ==>
      ParseInsertContent("<video src=\"" + src + "\" controls ></video>") == Some((src, Video))
  {
    match mediaResource
    case Image =>
      FramedInside("![](", src, ")");
    case Audio =>
      var t := "<audio src=\"" + src + "\" controls ></audio>";
      assert t[0] == '<';
      FramedInside("<audio src=\"", src, "\" controls ></audio>");
    case Video =>
      var t := "<video src=\"" + src + "\" controls ></video>";
      assert t[0] == '<' && t[1] == 'v';
      FramedInside("<video src=\"", src, "\" controls ></video>");
    case Unknown =>
  }

  /** Different files or kinds never give the same snippet. */
  lemma InsertContentInjective(src1: string, kind1: MediaResource, src2: string, kind2: MediaResource)
    requires kind1 != Unknown
    requires CreateInsertContent(src1, kind1) == CreateInsertContent(src2, kind2)
    ensures src1 == src2 && kind1 == kind2
  {
  }

  /** The snippet of each resource, in order (`resources.Select(...)`); a
      null URI is written as the empty string. */
  function Snippets(resources: seq<ResourceModel>): (r: seq<Option<string>>)
    ensures |r| == |resources|
    ensures forall i :: 0 <= i < |resources| ==>
      r[i] == CreateInsertContent(OrEmpty(resources[i].ResourceUri), resources[i].ResourceType)
  {
    seq(|resources|, i requires 0 <= i < |resources| =>
      CreateInsertContent(OrEmpty(resources[i].ResourceUri), resources[i].ResourceType))
  }

  /** The text inserted for the resources the media manager created from a
      batch of files: their snippets, one per line. It is empty, so that
      nothing is inserted, only for no resources or a single one of
      unknown kind. */
  function CreateInsertContents(resources: seq<ResourceModel>): (r: string)
    ensures r == "" <==> resources == [] || (|resources| == 1 && resources[0].ResourceType == Unknown)
  {
    Join("\n", Snippets(resources))
  }

  /** When no URI holds a line break, the inserted text has one line per
      resource, in order: an empty line for a resource of unknown kind, and
      otherwise a line that reads back as that resource. */
  lemma {:induction false} InsertContentsLines(resources: seq<ResourceModel>)
    requires |resources| > 0
    requires forall i :: 0 <= i < |resources| ==> '\n' !in OrEmpty(resources[i].ResourceUri)
    ensures var lines := Split(CreateInsertContents(resources), '\n');
      |lines| == |resources| &&
      forall i :: 0 <= i < |resources| ==>
        && (resources[i].ResourceType == Unknown ==> lines[i] == "")
        && (resources[i].ResourceType != Unknown ==>
              ParseInsertContent(lines[i]) == Some((OrEmpty(resources[i].ResourceUri), resources[i].ResourceType)))
  {
    var snippets := Snippets(resources);
    var lines := seq(|resources|, i requires 0 <= i < |resources| => OrEmpty(snippets[i]));
    forall i | 0 <= i < |resources| ensures '\n' !in lines[i] {
      if resources[i].ResourceType != Unknown {
        SnippetHasNoLineBreak(OrEmpty(resources[i].ResourceUri), resources[i].ResourceType);
      }
    }
    JoinOrEmpty("\n", snippets, lines);
    SplitJoin(lines, '\n');
  }

  lemma SnippetHasNoLineBreak(src: string, kind: MediaResource)
    requires kind != Unknown && '\n' !in src
    ensures '\n' !in CreateInsertContent(src, kind).value
  {
    match kind {
      case Image =>
        NoCharInConcat("![](", src, ")", '\n');
      case Audio =>
        NoCharInConcat("<audio src=\"", src, "\" controls ></audio>", '\n');
      case Video =>
        NoCharInConcat("<video src=\"", src, "\" controls ></video>", '\n');
    }
  }

  /** A character in none of three strings is not in their concatenation. */
  lemma NoCharInConcat(a: string, b: string, d: string, c: char)
    requires c !in a && c !in b && c !in d
    ensures c !in a + b + d
  {
  }

  // ----- what reaches the editor -----

  /** A media file picked from the toolbar, as `AddMediaFileAsync` treats
      it: nothing without a source, nothing when the media manager does not
      recognise the file (`reportedKind`), nothing for an unknown button
      kind, otherwise the snippet. */
  function MediaInsertion(src: Option<string>, reportedKind: MediaResource, mediaResource: MediaResource): (r: Option<string>)
    ensures r.Some? <==> !IsNullOrEmpty(src) && reportedKind != Unknown && mediaResource != Unknown
    ensures r.Some? ==> ParseInsertContent(r.value) == Some((src.value, mediaResource))
  {
    if IsNullOrEmpty(src) then None
    else if reportedKind == Unknown then None
    else CreateInsertContent(src.value, mediaResource)
  }

  /** The toolbar buttons that add media, by name. */
  function ToolbarKind(btnName: string): (k: MediaResource)
    ensures k != Unknown <==> btnName in {"image", "audio", "video"}
  {
    match btnName
    case "image" => Image
    case "audio" => Audio
    case "video" => Video
    case _ => Unknown
  }

  /** A file the user dropped on the editor. `Kind` is what the media
      manager says of its name; `TempPath` is the temporary copy the file
      manager makes of it, `None` when that throws. */
  datatype BrowserFile = BrowserFile(Name: string, Size: nat, Kind: MediaResource, TempPath: Option<string>)

  /** A dropped file is kept when its kind is known, its stream can be
      opened (the browser refuses files over the size limit) and the copy
      succeeds. */
  predicate Accepted(f: BrowserFile) {
    f.Kind != Unknown && f.Size <= MaxAllowedSize && f.TempPath.Some?
  }

  /** The temporary paths of the accepted files, in the order dropped:
      none exactly when no file is accepted, one per file exactly when all
      are. */
  function CollectedPaths(files: seq<BrowserFile>): (r: seq<string>)
    ensures |r| <= |files|
    ensures r == [] <==> forall i :: 0 <= i < |files| ==> !Accepted(files[i])
    ensures |r| == |files| <==> forall i :: 0 <= i < |files| ==> Accepted(files[i])
  {
    if files == [] then []
    else
      var init := files[..|files| - 1];
      var last := files[|files| - 1];
      assert forall i :: 0 <= i < |init| ==> init[i] == files[i];
      CollectedPaths(init) + (if Accepted(last) then [last.TempPath.value] else [])
  }

  /** Every collected path is the copy of an accepted file, and every
      accepted file's copy is collected. */
  lemma {:induction false} CollectedPathsExact(files: seq<BrowserFile>, p: string)
    ensures p in CollectedPaths(files) <==>
      exists i :: 0 <= i < |files| && Accepted(files[i]) && files[i].TempPath == Some(p)
  {
    if files != [] {
      var init := files[..|files| - 1];
      CollectedPathsExact(init, p);
      if p in CollectedPaths(files) && p !in CollectedPaths(init) {
        assert Accepted(files[|files| - 1]) && files[|files| - 1].TempPath == Some(p);
      }
      if exists i :: 0 <= i < |files| && Accepted(files[i]) && files[i].TempPath == Some(p) {
        var i :| 0 <= i < |files| && Accepted(files[i]) && files[i].TempPath == Some(p);
        if i < |files| - 1 {
          assert init[i] == files[i];
        }
      }
    }
  }

  /** One more dropped file adds its path when it is accepted. */
  lemma CollectedPathsStep(files: seq<BrowserFile>, i: int)
    requires 0 <= i < |files|
    ensures CollectedPaths(files[..i + 1]) ==
      CollectedPaths(files[..i]) + (if Accepted(files[i]) then [files[i].TempPath.value] else [])
  {
    assert files[..i + 1][..i] == files[..i];
  }

  /** The first half of `LoadFiles`: one pass over the dropped files that
      keeps the temporary path of each accepted one. */
  method CollectFilePaths(files: seq<BrowserFile>) returns (filePaths: seq<string>)
    ensures filePaths == CollectedPaths(files)
  {
    filePaths := [];
    var i := 0;
    while i < |files|
      invariant 0 <= i <= |files|
      invariant filePaths == CollectedPaths(files[..i])
    {
      var browserFile := files[i];
      CollectedPathsStep(files, i);
      if browserFile.Kind == Unknown {
        i := i + 1;
        continue;
      }

      if browserFile.Size <= MaxAllowedSize && browserFile.TempPath.Some? {
        filePaths := filePaths + [browserFile.TempPath.value];
      }
      i := i + 1;
    }
    assert files[..i] == files;
  }

  /** The calls the component makes on the editor widget. */
  datatype EditorCall = Focus | Insert(text: string)

  /** `InsertValueAsync`: focus the widget first when the document is
      empty, then insert. */
  function InsertCalls(value: Option<string>, text: string): (r: seq<EditorCall>)
    ensures |r| == (if IsNullOrEmpty(value) then 2 else 1)
    ensures r[|r| - 1] == Insert(text)
    ensures Focus in r <==> IsNullOrEmpty(value)
  {
    (if IsNullOrEmpty(value) then [Focus] else []) + [Insert(text)]
  }

  /** The stored editor settings the component reads. */
  datatype Settings = Settings(FirstLineIndent: bool, CodeLineNumber: bool, TaskListLineThrough: bool)

  /** The options handed to the editor widget that depend on the
      component's state. */
  datatype EditorOptions = EditorOptions(lang: string, theme: string, lineNumber: bool, uploadMax: int, accept: seq<string>)

  /** The widget's language code: the culture name with `_` for `-`. */
  function EditorLang(cultureName: string): (r: string)
    ensures |r| == |cultureName| && '-' !in r
    ensures forall i :: 0 <= i < |r| && cultureName[i] == '-' ==> r[i] == '_'
    ensures forall i :: 0 <= i < |r| && cultureName[i] != '-' ==> r[i] == cultureName[i]
  {
    ReplaceChar(cultureName, '-', '_')
  }

  function Theme(dark: bool): (r: string)
    ensures r == "dark" <==> dark
    ensures r in {"dark", "light"}
  {
    if dark then "dark" else "light"
  }

  /** The CSS classes of the editor: the caller's classes, then one class
      per enabled setting, separated by spaces. Read as a class list, it
      holds the caller's classes and exactly the classes of the enabled
      settings, in this order. */
  function InternalClassOf(cls: Option<string>, firstLineIndent: bool, taskListLineThrough: bool): (r: string)
    ensures Words(r) ==
      Words(OrEmpty(cls))
      + (if firstLineIndent then ["first-line-indent"] else [])
      + (if taskListLineThrough then ["task-list-line-through"] else [])
  {
    var a := if firstLineIndent then "first-line-indent" else "";
    var b := if taskListLineThrough then "task-list-line-through" else "";
    ClassNameIsOneWord(a);
    ClassNameIsOneWord(b);
    SpacedWords(OrEmpty(cls), a, b);
    OrEmpty(cls) + " " + a + " " + b
  }

  /** A string followed by two space-separated names has the names as its
      last words, where they are not empty. */
  lemma SpacedWords(x: string, a: string, b: string)
    requires ' ' !in a && ' ' !in b
    ensures Words(x + " " + a + " " + b) ==
      Words(x) + (if a == "" then [] else [a]) + (if b == "" then [] else [b])
  {
    var wa := if a == "" then [] else [a];
    var wb := if b == "" then [] else [b];
    assert x + " " + a + " " + b == x + " " + (a + " " + b);
    WordsConcat(x, a + " " + b);
    WordsConcat(a, b);
    WordsOfWord(a);
    WordsOfWord(b);
    assert Words(a + " " + b) == wa + wb;
    assert Words(x) + (wa + wb) == Words(x) + wa + wb;
  }

  lemma ClassNameIsOneWord(name: string)
    requires name in {"", "first-line-indent", "task-list-line-through"}
    ensures ' ' !in name
  {
  }

  class MarkdownEdit {
    var Dark: bool
    var Value: Option<string>
    var Class: Option<string>
    var firstLineIndent: bool
    var codeLineNumber: bool
    var taskListLineThrough: bool
    var options: Option<EditorOptions>
    /** The calls made on the editor widget so far. */
    var editorCalls: seq<EditorCall>

    constructor (dark: bool, value: Option<string>, cls: Option<string>)
      ensures Dark == dark && Value == value && Class == cls
      ensures !firstLineIndent && !codeLineNumber && !taskListLineThrough
      ensures options == None && editorCalls == []
    {
      Dark, Value, Class := dark, value, cls;
      firstLineIndent, codeLineNumber, taskListLineThrough := false, false, false;
      options, editorCalls := None, [];
    }

    /** The editor's class attribute: each setting's class is applied
        exactly when the setting is on or the caller asked for it. */
    function InternalClass(): (r: string)
      reads this
      ensures "first-line-indent" in Words(r) <==>
        firstLineIndent || "first-line-indent" in Words(OrEmpty(Class))
      ensures "task-list-line-through" in Words(r) <==>
        taskListLineThrough || "task-list-line-through" in Words(OrEmpty(Class))
    {
      InternalClassOf(Class, firstLineIndent, taskListLineThrough)
    }

    method InsertValueAsync(value: string)
      modifies this`editorCalls
      ensures editorCalls == old(editorCalls) + InsertCalls(Value, value)
    {
      if IsNullOrEmpty(Value) {
        editorCalls := editorCalls + [Focus];
      }
      editorCalls := editorCalls + [Insert(value)];
    }

    method ReadSettings(settings: Settings)
      modifies this`firstLineIndent, this`codeLineNumber, this`taskListLineThrough
      ensures firstLineIndent == settings.FirstLineIndent
      ensures codeLineNumber == settings.CodeLineNumber
      ensures taskListLineThrough == settings.TaskListLineThrough
    {
      firstLineIndent := settings.FirstLineIndent;
      codeLineNumber := settings.CodeLineNumber;
      taskListLineThrough := settings.TaskListLineThrough;
    }

    /** Builds the widget options for the current culture and theme. */
    method SetOptions(cultureName: string)
      modifies this`options
      ensures options == Some(EditorOptions(EditorLang(cultureName), Theme(Dark), codeLineNumber,
        MaxAllowedSize, ["image/*", "audio/*", "video/*"]))
    {
      var lang := ReplaceChar(cultureName, '-', '_');
      var theme := if Dark then "dark" else "light";
      options := Some(EditorOptions(lang, theme, codeLineNumber, MaxAllowedSize, ["image/*", "audio/*", "video/*"]));
    }

    method OnInitialized(settings: Settings, cultureName: string)
      modifies this`firstLineIndent, this`codeLineNumber, this`taskListLineThrough, this`options
      ensures firstLineIndent == settings.FirstLineIndent && taskListLineThrough == settings.TaskListLineThrough
      ensures codeLineNumber == settings.CodeLineNumber
      ensures options == Some(EditorOptions(EditorLang(cultureName), Theme(Dark), settings.CodeLineNumber,
        MaxAllowedSize, ["image/*", "audio/*", "video/*"]))
    {
      ReadSettings(settings);
      SetOptions(cultureName);
    }

    /** Inserts the snippet for a media file picked from the toolbar;
        `reportedKind` is what the media manager says of `src`. */
    method AddMediaFileAsync(src: Option<string>, reportedKind: MediaResource, mediaResource: MediaResource)
      modifies this`editorCalls
      ensures editorCalls == old(editorCalls) +
        (match MediaInsertion(src, reportedKind, mediaResource)
         case None => []
         case Some(t) => InsertCalls(Value, t))
    {
      if IsNullOrEmpty(src) {
        return;
      }
      if reportedKind == Unknown {
        return;
      }

      var insertContent := CreateInsertContent(src.value, mediaResource);
      if insertContent.None? {
        return;
      }

      InsertValueAsync(insertContent.value);
    }

    /** A toolbar button: the three media buttons ask the media manager for
        a file (`src`, whose kind it reports as `reportedKind`) and insert
        it; other buttons do nothing here. */
    method HandleToolbarButtonClick(btnName: string, src: Option<string>, reportedKind: MediaResource)
      modifies this`editorCalls
      ensures ToolbarKind(btnName) == Unknown ==> editorCalls == old(editorCalls)
      ensures editorCalls == old(editorCalls) +
        (match MediaInsertion(src, reportedKind, ToolbarKind(btnName))
         case None => []
         case Some(t) => InsertCalls(Value, t))
    {
      match btnName
      case "image" => AddMediaFileAsync(src, reportedKind, Image);
      case "audio" => AddMediaFileAsync(src, reportedKind, Audio);
      case "video" => AddMediaFileAsync(src, reportedKind, Video);
      case _ =>
    }

    /** Files dropped on the editor: their accepted copies are turned into
        media resources by the media manager (`resources` is what it
        returns for them) and the snippets inserted in one go; nothing is
        inserted when no file was accepted or the text is empty. More than
        `MaxFileCount` files make `GetMultipleFiles()` throw before any file
        is read: no path is collected and nothing is inserted. */
    method LoadFiles(files: seq<BrowserFile>, resources: seq<ResourceModel>) returns (filePaths: seq<string>)
      modifies this`editorCalls
      ensures |files| > MaxFileCount ==> filePaths == [] && editorCalls == old(editorCalls)
      ensures |files| <= MaxFileCount ==> filePaths == CollectedPaths(files)
      ensures filePaths == [] || CreateInsertContents(resources) == "" ==> editorCalls == old(editorCalls)
      ensures filePaths != [] && CreateInsertContents(resources) != "" ==>
        editorCalls == old(editorCalls) + InsertCalls(Value, CreateInsertContents(resources))
    {
      if |files| > MaxFileCount {
        return [];
      }

      filePaths := CollectFilePaths(files);
      if |filePaths| == 0 {
        return;
      }

      var insertContent := CreateInsertContents(resources);
      if insertContent == "" {
        return;
      }

      InsertValueAsync(insertContent);
    }
  }
}
