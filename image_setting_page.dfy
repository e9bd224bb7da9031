/** The image settings page: the list of stored images and the command
    that deletes the ones no diary uses any more. */
module ImageSettingPage {
  import opened Wrappers
  import opened Models

  /** Whether some deleted resource has the item's URI
      (`resources.Any(x => x.ResourceUri == item.ResourceUri)`); two null
      URIs are equal. An item is deleted exactly when its URI is among
      those whose files are deleted. */
  function IsDeleted(item: ResourceModel, resources: seq<ResourceModel>): (b: bool)
    ensures b <==> item.ResourceUri in UrisOf(resources)
  {
    exists i :: 0 <= i < |resources| && resources[i].ResourceUri == item.ResourceUri
  }

  /** `items.RemoveAll(...)`: the items whose URI no deleted resource has,
      in their order. */
  function RemoveAll(items: seq<ResourceModel>, resources: seq<ResourceModel>): (r: seq<ResourceModel>)
    ensures |r| <= |items|
    ensures forall i :: 0 <= i < |r| ==> !IsDeleted(r[i], resources)
  {
    if items == [] then []
    else (if IsDeleted(items[0], resources) then [] else [items[0]]) + RemoveAll(items[1..], resources)
  }

  /** An item stays exactly when it was there and its URI was not deleted:
      no deleted URI survives and every other item is kept. */
  lemma {:induction false} RemoveAllMembers(items: seq<ResourceModel>, resources: seq<ResourceModel>, x: ResourceModel)
    ensures x in RemoveAll(items, resources) <==> x in items && !IsDeleted(x, resources)
  {
    if items != [] {
      RemoveAllMembers(items[1..], resources, x);
      assert x in items <==> x == items[0] || x in items[1..];
    }
  }

  /** Every copy of an item whose URI was not deleted stays, and no copy of
      a deleted one. */
  lemma {:induction false} RemoveAllCounts(items: seq<ResourceModel>, resources: seq<ResourceModel>, x: ResourceModel)
    ensures multiset(RemoveAll(items, resources))[x] == if IsDeleted(x, resources) then 0 else multiset(items)[x]
  {
    if items != [] {
      RemoveAllCounts(items[1..], resources, x);
      var head := if IsDeleted(items[0], resources) then [] else [items[0]];
      var rest := RemoveAll(items[1..], resources);
      assert RemoveAll(items, resources) == head + rest;
      assert multiset(RemoveAll(items, resources)) == multiset(head) + multiset(rest);
      assert items == [items[0]] + items[1..];
      assert multiset(items) == multiset([items[0]]) + multiset(items[1..]);
    }
  }

  /** `a` is `b` with some elements left out, the rest in order. */
  predicate IsSubsequence(a: seq<ResourceModel>, b: seq<ResourceModel>)
    decreases |b|
  {
    a == [] || (b != [] && (if a[0] == b[0] then IsSubsequence(a[1..], b[1..]) else IsSubsequence(a, b[1..])))
  }

  /** A subsequence of a list stays one when an element is put in front. */
  lemma {:induction false} SubsequenceOfTail(a: seq<ResourceModel>, b: seq<ResourceModel>, y: ResourceModel)
    requires IsSubsequence(a, b)
    ensures IsSubsequence(a, [y] + b)
    decreases |b|, 1
  {
    var yb := [y] + b;
    assert yb[0] == y && yb[1..] == b;
    if a != [] && a[0] == y {
      SubsequenceDropFirst(a, b);
    }
  }

  /** Dropping the first element of a subsequence leaves a subsequence. */
  lemma {:induction false} SubsequenceDropFirst(a: seq<ResourceModel>, b: seq<ResourceModel>)
    requires a != [] && IsSubsequence(a, b)
    ensures IsSubsequence(a[1..], b)
    decreases |b|, 0
  {
    assert b != [];
    assert [b[0]] + b[1..] == b;
    if a[0] == b[0] {
      SubsequenceOfTail(a[1..], b[1..], b[0]);
    } else {
      SubsequenceDropFirst(a, b[1..]);
      SubsequenceOfTail(a[1..], b[1..], b[0]);
    }
  }

  /** The items kept are in their original relative order. */
  lemma {:induction false} RemoveAllKeepsOrder(items: seq<ResourceModel>, resources: seq<ResourceModel>)
    ensures IsSubsequence(RemoveAll(items, resources), items)
  {
    if items != [] {
      RemoveAllKeepsOrder(items[1..], resources);
      var rest := RemoveAll(items[1..], resources);
      var r := RemoveAll(items, resources);
      if IsDeleted(items[0], resources) {
        assert r == rest;
        SubsequenceOfTail(rest, items[1..], items[0]);
        assert [items[0]] + items[1..] == items;
      } else {
        assert r == [items[0]] + rest;
        assert r[0] == items[0] && r[1..] == rest;
      }
    }
  }

  /** Pruning twice removes nothing more. */
  lemma {:induction false} RemoveAllIdempotent(items: seq<ResourceModel>, resources: seq<ResourceModel>)
    ensures RemoveAll(RemoveAll(items, resources), resources) == RemoveAll(items, resources)
  {
    if items != [] {
      RemoveAllIdempotent(items[1..], resources);
      var r := RemoveAll(items, resources);
      if IsDeleted(items[0], resources) {
        assert r == RemoveAll(items[1..], resources);
      } else {
        assert r == [items[0]] + RemoveAll(items[1..], resources);
        assert r[0] == items[0] && r[1..] == RemoveAll(items[1..], resources);
      }
    }
  }

  /** The URIs of the deleted resources, one file deletion each. */
  function UrisOf(resources: seq<ResourceModel>): (r: seq<Option<string>>)
    ensures |r| == |resources|
    ensures forall i :: 0 <= i < |resources| ==> r[i] == resources[i].ResourceUri
  {
    seq(|resources|, i requires 0 <= i < |resources| => resources[i].ResourceUri)
  }

  class ImageSettingPage {
    var ShowConfimDelete: bool
    var ImageResources: seq<ResourceModel>
    /** The URIs passed to the app-data service's file deletion, in order. */
    var deletedFiles: seq<Option<string>>
    /** The success alerts shown, by translation key. */
    var alerts: seq<string>

    constructor (imageResources: seq<ResourceModel>)
      ensures ImageResources == imageResources && !ShowConfimDelete
      ensures deletedFiles == [] && alerts == []
    {
      ImageResources := imageResources;
      ShowConfimDelete, deletedFiles, alerts := false, [], [];
    }

    /** Closes the confirmation, then drops from the list every image the
        resource service reports deleted (`resources`, possibly null) and
        deletes each one's file. */
    method DeleteUnusedImageResource(resources: Option<seq<ResourceModel>>)
      modifies this`ShowConfimDelete, this`ImageResources, this`deletedFiles, this`alerts
      ensures !ShowConfimDelete
      ensures resources == None || resources.value == [] ==>
        ImageResources == old(ImageResources) && deletedFiles == old(deletedFiles) && alerts == old(alerts)
      ensures resources != None && resources.value != [] ==>
        && ImageResources == RemoveAll(old(ImageResources), resources.value)
        && deletedFiles == old(deletedFiles) + UrisOf(resources.value)
        && alerts == old(alerts) + ["Share.DeleteSuccess"]
    {
      ShowConfimDelete := false;
      if resources.Some? && |resources.value| > 0 {
        var rs := resources.value;
        ImageResources := RemoveAll(ImageResources, rs);
        var i := 0;
        while i < |rs|
          invariant 0 <= i <= |rs|
          invariant deletedFiles == old(deletedFiles) + UrisOf(rs[..i])
          invariant !ShowConfimDelete && alerts == old(alerts)
          invariant ImageResources == RemoveAll(old(ImageResources), rs)
        {
          deletedFiles := deletedFiles + [rs[i].ResourceUri];
          i := i + 1;
        }
        assert rs[..i] == rs;
        alerts := alerts + ["Share.DeleteSuccess"];
      }
    }
  }
}
