/** The waterfall (masonry) list of media shared by the media pages: its
    layout per screen size, and how it keeps the scroll position of its
    scrolling element while the user visits another page and comes back. */
module MediaWaterfall {
  import opened Wrappers
  import opened Text

  /** Space between items, in pixels: tighter on extra-small screens. */
  function Gap(xs: bool): (g: int)
    ensures xs ==> g == 16
    ensures !xs ==> g == 24
  {
    if xs then 16 else 24
  }

  /** Number of columns: two on extra-small screens, three otherwise. */
  function Cols(xs: bool): (n: int)
    ensures xs ==> n == 2
    ensures !xs ==> n == 3
  {
    if xs then 2 else 3
  }

  /** The calls into the waterfall's script module, each naming the
      scrolling element by a CSS selector. */
  datatype JsCall =
    | RecordScrollInfo(selector: string)
    | StopRecordScrollInfo(selector: string)
    | RestoreScrollPosition(selector: string)

  /** The CSS selector of the element with this id. */
  function Selector(id: string): string {
    "#" + id
  }

  /** What the component's scroll handling changes: the loading flag, the
      script calls made so far, and the number of re-renders requested. */
  datatype ScrollState = ScrollState(contentLoading: bool, jsCalls: seq<JsCall>, renders: nat)

  /** Leaving the page: stop recording and show the loading state, when
      there is a scrolling element. */
  function StopRecord(st: ScrollState, scrollElementId: Option<string>): (r: ScrollState)
    ensures st.jsCalls <= r.jsCalls && r.renders >= st.renders
    ensures |r.jsCalls| == |st.jsCalls| + (if IsNullOrEmpty(scrollElementId) then 0 else 1)
    ensures !IsNullOrEmpty(scrollElementId) ==> r.contentLoading
  {
    if IsNullOrEmpty(scrollElementId) then st
    else ScrollState(true, st.jsCalls + [StopRecordScrollInfo(Selector(scrollElementId.value))], st.renders + 1)
  }

  /** Coming back: restore the recorded position (after the settle delay)
      and clear the loading state, when there is a scrolling element. */
  function Restore(st: ScrollState, scrollElementId: Option<string>): (r: ScrollState)
    ensures st.jsCalls <= r.jsCalls && r.renders >= st.renders
    ensures |r.jsCalls| == |st.jsCalls| + (if IsNullOrEmpty(scrollElementId) then 0 else 1)
    ensures !IsNullOrEmpty(scrollElementId) ==> !r.contentLoading
  {
    if IsNullOrEmpty(scrollElementId) then st
    else ScrollState(false, st.jsCalls + [RestoreScrollPosition(Selector(scrollElementId.value))], st.renders + 1)
  }

  /** A location change: the page's own path against the current one. */
  function LocationChanged(st: ScrollState, thisPagePath: Option<string>, currentPath: string,
                           scrollElementId: Option<string>): (r: ScrollState)
    ensures st.jsCalls <= r.jsCalls && |r.jsCalls| <= |st.jsCalls| + 1
    ensures IsNullOrEmpty(scrollElementId) ==> r == st
  {
    if thisPagePath != Some(currentPath) then StopRecord(st, scrollElementId)
    else Restore(st, scrollElementId)
  }

  /** After a render: recording starts on the first one only. */
  function AfterRender(st: ScrollState, firstRender: bool, scrollElementId: Option<string>): (r: ScrollState)
    ensures r.contentLoading == st.contentLoading && r.renders == st.renders && st.jsCalls <= r.jsCalls
    ensures |r.jsCalls| == |st.jsCalls| + (if firstRender && !IsNullOrEmpty(scrollElementId) then 1 else 0)
    ensures |r.jsCalls| > |st.jsCalls| ==> r.jsCalls[|st.jsCalls|].RecordScrollInfo?
  {
    if firstRender && !IsNullOrEmpty(scrollElementId)
    then st.(jsCalls := st.jsCalls + [RecordScrollInfo(Selector(scrollElementId.value))])
    else st
  }

  /** A breakpoint change re-renders only when it crosses the extra-small
      boundary, the only one the layout depends on. */
  function BreakpointChanged(st: ScrollState, xsChanged: bool): (r: ScrollState)
    ensures r.contentLoading == st.contentLoading && r.jsCalls == st.jsCalls
    ensures r.renders == st.renders + (if xsChanged then 1 else 0)
  {
    if xsChanged then st.(renders := st.renders + 1) else st
  }

  /** With a scrolling element, a location change makes exactly one script
      call: stop-recording when the page was left, restore when it is the
      page's own path; the loading flag then says which. */
  lemma LocationChangedEffect(st: ScrollState, thisPagePath: Option<string>, currentPath: string,
                              scrollElementId: Option<string>)
    requires !IsNullOrEmpty(scrollElementId)
    ensures var st' := LocationChanged(st, thisPagePath, currentPath, scrollElementId);
      var sel := "#" + scrollElementId.value;
      && st'.jsCalls == st.jsCalls + [if thisPagePath != Some(currentPath)
                                      then StopRecordScrollInfo(sel) else RestoreScrollPosition(sel)]
      && (st'.contentLoading <==> thisPagePath != Some(currentPath))
      && st'.renders == st.renders + 1
  {
  }

  /** Without a scrolling element nothing happens on a location change. */
  lemma LocationChangedWithoutElement(st: ScrollState, thisPagePath: Option<string>, currentPath: string,
                                      scrollElementId: Option<string>)
    requires IsNullOrEmpty(scrollElementId)
    ensures LocationChanged(st, thisPagePath, currentPath, scrollElementId) == st
  {
  }

  /** Every script call names the element `#id`. */
  predicate CallsFor(calls: seq<JsCall>, id: string) {
    forall i :: 0 <= i < |calls| ==> calls[i].selector == "#" + id
  }

  /** The handlers only ever address the component's own element. */
  lemma {:induction false} HandlersKeepSelector(st: ScrollState, thisPagePath: Option<string>, currentPath: string,
                                                firstRender: bool, id: string)
    requires CallsFor(st.jsCalls, id)
    ensures CallsFor(LocationChanged(st, thisPagePath, currentPath, Some(id)).jsCalls, id)
    ensures CallsFor(AfterRender(st, firstRender, Some(id)).jsCalls, id)
  {
    var st' := LocationChanged(st, thisPagePath, currentPath, Some(id));
    if id != "" {
      assert st'.jsCalls[|st.jsCalls|].selector == "#" + id;
    }
    assert forall i :: 0 <= i < |st.jsCalls| ==> st'.jsCalls[i] == st.jsCalls[i];
  }

  /** Leaving the page and coming back restores the position recorded for
      the same element and ends with the content shown. */
  lemma AwayAndBack(st: ScrollState, pagePath: string, otherPath: string, id: string)
    requires otherPath != pagePath && id != ""
    ensures var away := LocationChanged(st, Some(pagePath), otherPath, Some(id));
      var back := LocationChanged(away, Some(pagePath), pagePath, Some(id));
      && away.contentLoading && !back.contentLoading
      && back.jsCalls == st.jsCalls + [StopRecordScrollInfo("#" + id), RestoreScrollPosition("#" + id)]
  {
    var away := LocationChanged(st, Some(pagePath), otherPath, Some(id));
    assert away.jsCalls == st.jsCalls + [StopRecordScrollInfo("#" + id)];
  }

  /** The scroll-keeping part of the waterfall component. `thisPagePath`
      is the page's path when it was created (null before). */
  class MediaWaterfallBase {
    var contentLoading: bool
    var thisPagePath: Option<string>
    const ScrollElementId: Option<string>
    var jsCalls: seq<JsCall>
    var renders: nat

    constructor (scrollElementId: Option<string>)
      ensures ScrollElementId == scrollElementId && thisPagePath == None
      ensures State() == ScrollState(false, [], 0)
    {
      ScrollElementId := scrollElementId;
      contentLoading, thisPagePath, jsCalls, renders := false, None, [], 0;
    }

    function State(): ScrollState
      reads this
    {
      ScrollState(contentLoading, jsCalls, renders)
    }

    /** Remembers the page's own path (the navigation manager's current
        absolute path). */
    method OnInitialized(absolutePath: string)
      modifies this`thisPagePath
      ensures thisPagePath == Some(absolutePath)
    {
      thisPagePath := Some(absolutePath);
    }

    method OnAfterRenderAsync(firstRender: bool)
      modifies this`jsCalls
      ensures State() == AfterRender(old(State()), firstRender, ScrollElementId)
    {
      if firstRender && !IsNullOrEmpty(ScrollElementId) {
        jsCalls := jsCalls + [RecordScrollInfo("#" + ScrollElementId.value)];
      }
    }

    method HandleBreakpointChange(xsChanged: bool)
      modifies this`renders
      ensures State() == BreakpointChanged(old(State()), xsChanged)
    {
      if !xsChanged {
        return;
      }

      renders := renders + 1;
    }

    /** `currentPath` is the navigation manager's absolute path after the
        change. */
    method NavigationManagerOnLocationChanged(currentPath: string)
      modifies this`contentLoading, this`jsCalls, this`renders
      ensures State() == LocationChanged(old(State()), thisPagePath, currentPath, ScrollElementId)
    {
      if thisPagePath != Some(currentPath) {
        StopRecordScrollInfo();
      } else {
        RestoreScrollPosition();
      }
    }

    method StopRecordScrollInfo()
      modifies this`contentLoading, this`jsCalls, this`renders
      ensures State() == StopRecord(old(State()), ScrollElementId)
    {
      if IsNullOrEmpty(ScrollElementId) {
        return;
      }
      jsCalls := jsCalls + [JsCall.StopRecordScrollInfo("#" + ScrollElementId.value)];
      contentLoading := true;
      renders := renders + 1;
    }

    method RestoreScrollPosition()
      modifies this`contentLoading, this`jsCalls, this`renders
      ensures State() == Restore(old(State()), ScrollElementId)
    {
      if IsNullOrEmpty(ScrollElementId) {
        return;
      }
      jsCalls := jsCalls + [JsCall.RestoreScrollPosition("#" + ScrollElementId.value)];
      contentLoading := false;
      renders := renders + 1;
    }
  }
}
