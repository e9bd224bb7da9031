/** The diary list on the index page: its two tabs, the dialog that adds a
    tag, and the greeting chosen by the hour of the day. */
module IndexDiary {
  import opened Wrappers
  import opened Text
  import opened Models

  /** The tabs of the page, by the name used in the `View` query parameter. */
  const Views: seq<string> := ["All", "Tags"]

  // ----- greeting -----

  /** The translation keys the greeting can show; `HelloWorld` is the
      literal fallback after the last `else if`. */
  datatype Greeting = Morning | Noon | Afternoon | Night | BeforeDawn | HelloWorld

  /** The greeting for an hour, as the `if` chain of `GetWelcomeText` picks
      it. The last test catches every hour the earlier ones missed, so the
      fallback is never returned, whatever the integer. */
  function WelcomeText(hour: int): (g: Greeting)
    ensures g != HelloWorld
  {
    if 6 <= hour < 11 then Morning
    else if 11 <= hour < 13 then Noon
    else if 13 <= hour < 18 then Afternoon
    else if 18 <= hour < 23 then Night
    else if hour >= 23 || hour < 6 then BeforeDawn
    else HelloWorld
  }

  /** The key handed to the translator, or the fallback text itself; only
      the fallback is not an `Index.Welcome` key. */
  function WelcomeKey(g: Greeting): (r: string)
    ensures g != HelloWorld <==> "Index.Welcome." <= r
  {
    match g
    case Morning => "Index.Welcome.Morning"
    case Noon => "Index.Welcome.Noon"
    case Afternoon => "Index.Welcome.Afternoon"
    case Night => "Index.Welcome.Night"
    case BeforeDawn => "Index.Welcome.BeforeDawn"
    case HelloWorld => "Hello World"
  }

  /** The part of the day each greeting is meant for, hour by hour. */
  predicate InBucket(g: Greeting, hour: int) {
    match g
    case Morning => hour in {6, 7, 8, 9, 10}
    case Noon => hour in {11, 12}
    case Afternoon => hour in {13, 14, 15, 16, 17}
    case Night => hour in {18, 19, 20, 21, 22}
    case BeforeDawn => hour in {23, 0, 1, 2, 3, 4, 5}
    case HelloWorld => false
  }

  /** Every hour of the day lies in exactly one bucket, and the greeting
      shown is that bucket's. */
  lemma WelcomeTextPartitionsDay(hour: int)
    requires 0 <= hour < 24
    ensures InBucket(WelcomeText(hour), hour)
    ensures forall g :: InBucket(g, hour) ==> g == WelcomeText(hour)
  {
  }

  // ----- adding a tag -----

  /** Whether some tag of the list has this name (`Tags.Any(...)`). */
  predicate HasTagNamed(tags: seq<TagModel>, name: string) {
    exists i :: 0 <= i < |tags| && tags[i].Name == name
  }

  /** No two tags of the list share a name. */
  predicate UniqueNames(tags: seq<TagModel>) {
    forall i, j :: 0 <= i < j < |tags| ==> tags[i].Name != tags[j].Name
  }

  /** How a request to add a tag ends. */
  datatype AddTagOutcome = Blank | Repeat | AddFail | Added

  /** The alerts the page raises; their texts are translation keys. */
  datatype Alert = Warning(title: string, content: string) | Error(message: string) | Success(message: string)

  /** Which path `SaveAddTag` takes, given what the tag service answers. */
  function AddTagPath(tags: seq<TagModel>, tagName: Option<string>, serviceAdds: bool): (r: AddTagOutcome)
    ensures r == Blank <==> IsNullOrWhiteSpace(tagName)
    ensures r in {AddFail, Added} <==> !IsNullOrWhiteSpace(tagName) && !HasTagNamed(tags, tagName.value)
  {
    if IsNullOrWhiteSpace(tagName) then Blank
    else if HasTagNamed(tags, tagName.value) then Repeat
    else if !serviceAdds then AddFail
    else Added
  }

  /** The tag list after `SaveAddTag`: the new tag in front on success,
      the old list on every other path. */
  function TagsAfterAdd(tags: seq<TagModel>, tagName: Option<string>, serviceAdds: bool): (r: seq<TagModel>)
    ensures AddTagPath(tags, tagName, serviceAdds) != Added ==> r == tags
    ensures AddTagPath(tags, tagName, serviceAdds) == Added ==>
      tagName.Some? && |r| == |tags| + 1 && r[0] == TagModel(tagName.value) && r[1..] == tags
  {
    if AddTagPath(tags, tagName, serviceAdds) == Added then [TagModel(tagName.value)] + tags else tags
  }

  /** The alerts each path raises: one on every path but a blank name, a
      success exactly when the tag is added. */
  function AlertsOf(outcome: AddTagOutcome): (r: seq<Alert>)
    ensures |r| == (if outcome == Blank then 0 else 1)
    ensures |r| == 1 ==> (r[0].Success? <==> outcome == Added)
  {
    match outcome
    case Blank => []
    case Repeat => [Warning("Tag.Repeat.Title", "Tag.Repeat.Content")]
    case AddFail => [Error("Share.AddFail")]
    case Added => [Success("Share.AddSuccess")]
  }

  /** A tag is added exactly when the name is not blank, is not taken, and
      the service stores it. */
  lemma AddedIff(tags: seq<TagModel>, tagName: Option<string>, serviceAdds: bool)
    ensures AddTagPath(tags, tagName, serviceAdds) == Added <==>
      tagName.Some? && !IsNullOrWhiteSpace(tagName) && !HasTagNamed(tags, tagName.value) && serviceAdds
  {
  }

  /** Adding a tag keeps the names unique. */
  lemma {:induction false} AddKeepsNamesUnique(tags: seq<TagModel>, tagName: Option<string>, serviceAdds: bool)
    requires UniqueNames(tags)
    ensures UniqueNames(TagsAfterAdd(tags, tagName, serviceAdds))
  {
    var r := TagsAfterAdd(tags, tagName, serviceAdds);
    if AddTagPath(tags, tagName, serviceAdds) == Added {
      forall i, j | 0 <= i < j < |r| ensures r[i].Name != r[j].Name {
        if i == 0 {
          assert r[j] == tags[j - 1];
        } else {
          assert r[i] == tags[i - 1] && r[j] == tags[j - 1];
        }
      }
    }
  }

  /** The index page's state: the selected tab, the add-tag dialog, its
      own copy of the tag list its parent passes in, and what it asked of
      the outside world (alerts shown, tags handed to the tag service). */
  class IndexDiary {
    var View: Option<string>
    var tab: int
    var ShowAddTag: bool
    var Tags: seq<TagModel>
    var alerts: seq<Alert>
    var addRequests: seq<TagModel>

    constructor (view: Option<string>, tags: seq<TagModel>)
      ensures View == view && Tags == tags && tab == 0 && !ShowAddTag
      ensures alerts == [] && addRequests == []
    {
      View, Tags, tab, ShowAddTag := view, tags, 0, false;
      alerts, addRequests := [], [];
    }

    /** Falls back to the first view when none is given, then selects the
        tab of that view (-1 when it is not one of `Views`). */
    method InitTab()
      modifies this`View, this`tab
      ensures IsNullOrEmpty(old(View)) ==> View == Some(Views[0])
      ensures !IsNullOrEmpty(old(View)) ==> View == old(View)
      ensures View.Some? && tab == ListIndexOf(Views, View.value)
      ensures -1 <= tab < |Views| && (tab == -1 <==> View.value !in Views)
      ensures tab >= 0 ==> Views[tab] == View.value
    {
      if IsNullOrEmpty(View) {
        View := Some(Views[0]);
      }
      tab := ListIndexOf(Views, View.value);
    }

    /** Closes the dialog, then adds a tag named `tagName` in front of the
        list unless the name is blank or taken or `serviceAdds` (the tag
        service's answer) is false. */
    method SaveAddTag(tagName: Option<string>, serviceAdds: bool)
      modifies this`ShowAddTag, this`Tags, this`alerts, this`addRequests
      ensures !ShowAddTag
      ensures Tags == TagsAfterAdd(old(Tags), tagName, serviceAdds)
      ensures alerts == old(alerts) + AlertsOf(AddTagPath(old(Tags), tagName, serviceAdds))
      ensures addRequests == old(addRequests) +
        (if AddTagPath(old(Tags), tagName, serviceAdds) in {AddFail, Added} then [TagModel(tagName.value)] else [])
    {
      ShowAddTag := false;
      if IsNullOrWhiteSpace(tagName) {
        return;
      }

      if HasTagNamed(Tags, tagName.value) {
        alerts := alerts + [Warning("Tag.Repeat.Title", "Tag.Repeat.Content")];
        return;
      }

      var tag := TagModel(tagName.value);
      addRequests := addRequests + [tag];
      if !serviceAdds {
        alerts := alerts + [Error("Share.AddFail")];
        return;
      }

      alerts := alerts + [Success("Share.AddSuccess")];
      Tags := [tag] + Tags;
    }
  }
}
