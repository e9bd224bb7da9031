/** The records the pages work on. Only the fields the modelled components
    read or write are kept. */
module Models {
  import opened Wrappers

  /** A tag: `TagModel` with the one field the index page sets. */
  datatype TagModel = TagModel(Name: string)

  /** The kinds of media file the editor and the resource store know about. */
  datatype MediaResource = Unknown | Image | Audio | Video

  /** A stored media resource; `ResourceUri` may be null. */
  datatype ResourceModel = ResourceModel(ResourceUri: Option<string>, ResourceType: MediaResource)

  /** A diary entry. The read pages change `Top`, `Private` and `UpdateTime`
      in place, so it is an object. */
  class DiaryModel {
    var Title: Option<string>
    var Content: Option<string>
    var Weather: Option<string>
    var Mood: Option<string>
    var Location: Option<string>
    var Top: bool
    var Private: bool
    var Tags: Option<seq<TagModel>>
    var UpdateTime: int

    /** `new DiaryModel()`: every reference field null, every flag false. */
    constructor ()
      ensures Title == None && Content == None && Weather == None && Mood == None && Location == None
      ensures !Top && !Private && Tags == None && UpdateTime == 0
    {
      Title, Content, Weather, Mood, Location := None, None, None, None, None;
      Top, Private, Tags, UpdateTime := false, false, None, 0;
    }
  }
}
