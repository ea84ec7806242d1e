/**
 * The two image pickers embedded in the organization editor: the logo picker
 * (ht-organization-editor-image) and the avatar picker
 * (ht-organization-editor-avatar). Both keep one `data` field and accept a
 * selection from the storage browser only when it is a 512x512 image of an
 * allowed format; they differ in the allowed formats alone.
 */
module Pickers {
  import opened Events

  /** One asset of the storage browser, as `getSelectedItems()` reports it. */
  datatype Item = Item(publicId: string, version: string, format: string, width: int, height: int)

  /**
   * The value held in a picker's `data` field.
   * Empty is the empty object `{}` (truthy in JavaScript); Undefined is what a
   * stored organization without an `image` field puts there (falsy);
   * Picked is a selected asset, stored wholesale.
   */
  datatype ImageValue = Empty | Undefined | Picked(item: Item)

  const RequiredSide := 512
  const LogoFormats: set<string> := {"jpg"}
  const AvatarFormats: set<string> := {"jpg", "png"}
  const RejectText := "Изображение не соотвествует требованиям"

  /** The acceptance rule of `_insertImage`: exact size and an allowed format. */
  predicate Acceptable(item: Item, allowed: set<string>)
  {
    item.format in allowed && item.width == RequiredSide && item.height == RequiredSide
  }

  /** What one confirmation leaves behind: the new `data` and the number of toasts raised. */
  datatype Confirmed = Confirmed(data: ImageValue, toasts: nat)

  /**
   * The effect of `_insertImage` on `data` for a given selection: only the
   * first selected item is looked at; it replaces `data` when acceptable and
   * otherwise one toast is raised.
   */
  function Confirm(data: ImageValue, selected: seq<Item>, allowed: set<string>): (r: Confirmed)
    ensures r.toasts <= 1
    ensures r.data == data || (|selected| > 0 && r.data == Picked(selected[0]))
    ensures |selected| > 0 && Acceptable(selected[0], allowed) ==> r.data == Picked(selected[0])
    ensures r.toasts == 1 <==> |selected| > 0 && !Acceptable(selected[0], allowed)
    ensures r.data != data ==> Acceptable(selected[0], allowed)
  {
    if |selected| == 0 then Confirmed(data, 0)
    else if Acceptable(selected[0], allowed) then Confirmed(Picked(selected[0]), 0)
    else Confirmed(data, 1)
  }

  class ImagePicker {
    const allowedFormats: set<string>
    var data: ImageValue

    /** ht-organization-editor-image: jpg only, starts with `data = {}`. */
    constructor Logo()
      ensures allowedFormats == LogoFormats && data == Empty
    {
      allowedFormats := LogoFormats;
      data := Empty;
    }

    /** ht-organization-editor-avatar: jpg or png, starts with `data = {}`. */
    constructor Avatar()
      ensures allowedFormats == AvatarFormats && data == Empty
    {
      allowedFormats := AvatarFormats;
      data := Empty;
    }

    /**
     * `_insertImage`: `selected` is what the storage browser reports as selected;
     * the returned events are the toasts dispatched.
     */
    method InsertImage(selected: seq<Item>) returns (events: seq<Event>)
      modifies this
      ensures |selected| == 0 ==> data == old(data) && events == []
      ensures |selected| > 0 && Acceptable(selected[0], allowedFormats) ==>
                data == Picked(selected[0]) && events == []
      ensures |selected| > 0 && !Acceptable(selected[0], allowedFormats) ==>
                data == old(data) && events == [ShowToast(RejectText)]
      ensures Confirm(old(data), selected, allowedFormats) == Confirmed(data, |events|)
    {
      events := [];
      if |selected| == 0 {
        return;
      }
      var item := selected[0];
      if Acceptable(item, allowedFormats) {
        data := Picked(item);
      } else {
        events := [ShowToast(RejectText)];
      }
    }

    /** `reset`: forget the current image, whatever it was. */
    method Reset()
      modifies this
      ensures data == Empty
    {
      data := Empty;
    }
  }

  /** Only the first selected item is examined: selections that start alike confirm alike. */
  lemma OnlyFirstItemMatters(data: ImageValue, s1: seq<Item>, s2: seq<Item>, allowed: set<string>)
    requires |s1| > 0 && |s2| > 0 && s1[0] == s2[0]
    ensures Confirm(data, s1, allowed) == Confirm(data, s2, allowed)
  {
  }

  /** The scenarios of the two pickers that tell their rules apart. */
  lemma RuleExamples()
    ensures !Acceptable(Item("a", "1", "png", 512, 512), LogoFormats)
    ensures Acceptable(Item("a", "1", "png", 512, 512), AvatarFormats)
    ensures !Acceptable(Item("a", "1", "gif", 512, 512), AvatarFormats)
    ensures !Acceptable(Item("a", "1", "png", 512, 256), AvatarFormats)
    ensures Acceptable(Item("a", "1", "jpg", 512, 512), LogoFormats)
  {
  }

  /** Every image the logo picker accepts, the avatar picker accepts too. */
  lemma LogoAcceptedByAvatar(item: Item)
    ensures Acceptable(item, LogoFormats) ==> Acceptable(item, AvatarFormats)
  {
  }

  /** ... but not conversely: exactly png at 512x512 separates them. */
  lemma AvatarOnlyIsPng(item: Item)
    ensures Acceptable(item, AvatarFormats) && !Acceptable(item, LogoFormats) <==>
              item.format == "png" && item.width == 512 && item.height == 512
  {
  }
}
