/**
 * components/mainComponents/publicar/subirImagen.tsx: the photo picker of the publish form, a row
 * of `maxImages` slots over a list of picked image uris.
 */
module ImageUpload {
  import opened Wrappers
  import JsText

  const DefaultMaxImages := 5

  /** What expo-image-picker's library dialog settles with: cancelled, or the uris of the assets. */
  datatype PickerResult = Canceled | Picked(assetUris: seq<string>)

  /** An `Alert.alert(title, message)` dialog. */
  datatype Alert = Alert(title: string, message: string)

  /** The dialog `pickImage` shows when the list is full. */
  function LimitAlert(maxImages: int): Alert {
    Alert("Límite alcanzado", "Solo puedes subir " + JsText.IntToString(maxImages) + " imágenes")
  }

  /** One rendered slot: the image at that index (a truthy uri), or the upload placeholder. */
  datatype Slot = Filled(uri: string) | Empty

  /** `images.filter((_, i) => i !== index)`: the element at `index`, if there is one, is dropped. */
  function RemoveAt(images: seq<string>, index: int): (r: seq<string>)
    ensures |r| == if 0 <= index < |images| then |images| - 1 else |images|
  {
    if images == [] then []
    else (if index == 0 then [] else [images[0]]) + RemoveAt(images[1..], index - 1)
  }

  /** Removing keeps the rest in order: the list is the prefix before the index and the suffix after it. */
  lemma {:induction false} RemoveAtSplits(images: seq<string>, index: int)
    requires 0 <= index < |images|
    ensures RemoveAt(images, index) == images[..index] + images[index + 1..]
  {
    if index == 0 {
      assert RemoveAt(images, index) == RemoveAt(images[1..], -1);
      RemoveAtOutOfRange(images[1..], -1);
    } else {
      var rest := images[1..];
      RemoveAtSplits(rest, index - 1);
      assert RemoveAt(images, index) == [images[0]] + RemoveAt(rest, index - 1);
      assert images[..index] == [images[0]] + rest[..index - 1];
      assert images[index + 1..] == rest[index..];
    }
  }

  /** An index outside the list removes nothing. */
  lemma {:induction false} RemoveAtOutOfRange(images: seq<string>, index: int)
    requires index < 0 || |images| <= index
    ensures RemoveAt(images, index) == images
  {
    if images != [] {
      RemoveAtOutOfRange(images[1..], index - 1);
      assert images == [images[0]] + images[1..];
    }
  }

  /** `Array.from({length: maxImages})`: a negative length counts as zero. */
  function SlotCount(maxImages: int): (n: nat)
    ensures n as int == maxImages || (maxImages < 0 && n == 0)
  {
    if maxImages < 0 then 0 else maxImages
  }

  /** `renderUploadSlot(i)` for each index: filled iff `images[i]` is a truthy uri. */
  function Slots(images: seq<string>, maxImages: int): (r: seq<Slot>)
    ensures |r| == SlotCount(maxImages)
    ensures forall i :: 0 <= i < |r| ==> (r[i].Filled? <==> i < |images| && images[i] != "")
    ensures forall i :: 0 <= i < |r| && r[i].Filled? ==> r[i].uri == images[i]
  {
    seq(SlotCount(maxImages), i requires 0 <= i => if i < |images| && images[i] != "" then Filled(images[i]) else Empty)
  }

  class ImageUploader {
    const maxImages: int
    var images: seq<string>
    /** The dialogs shown so far. */
    var alerts: seq<Alert>

    /** The list never outgrows the slot row. */
    predicate Valid()
      reads this
    {
      images == [] || |images| <= maxImages
    }

    constructor (maxImages: int)
      ensures this.maxImages == maxImages && images == [] && alerts == [] && Valid()
    {
      this.maxImages := maxImages;
      images, alerts := [], [];
    }

    /**
     * `pickImage`: `pick` is what the dialog would settle with. `shown` says whether the dialog was
     * shown at all and `notified` what `onImagesChange` received.
     */
    method PickImage(pick: PickerResult) returns (shown: bool, notified: Option<seq<string>>)
      requires Valid()
      modifies this
      ensures Valid()
      ensures shown <==> |old(images)| < maxImages
      ensures shown && pick.Picked? && pick.assetUris != [] ==>
        images == old(images) + [pick.assetUris[0]] && notified == Some(images)
      ensures !(shown && pick.Picked? && pick.assetUris != []) ==> images == old(images) && notified == None
      ensures alerts == if shown then old(alerts) else old(alerts) + [LimitAlert(maxImages)]
    {
      if |images| >= maxImages {
        alerts := alerts + [LimitAlert(maxImages)];
        return false, None;
      }
      shown := true;
      if pick.Picked? && pick.assetUris != [] {
        var newImages := images + [pick.assetUris[0]];
        images := newImages;
        notified := Some(newImages);
      } else {
        notified := None;
      }
    }

    /** `removeImage(index)`: `notified` is what `onImagesChange` received. */
    method RemoveImage(index: int) returns (notified: seq<string>)
      requires Valid()
      modifies this
      ensures Valid()
      ensures images == RemoveAt(old(images), index) && notified == images && alerts == old(alerts)
    {
      var newImages := RemoveAt(images, index);
      images := newImages;
      notified := newImages;
    }

    /**
     * Pressing slot `index`: a filled slot removes its image, an empty one opens the picker.
     * `removed` says which of the two happened.
     */
    method PressSlot(index: nat, pick: PickerResult) returns (removed: bool)
      requires Valid() && index < SlotCount(maxImages)
      modifies this
      ensures Valid()
      ensures removed <==> Slots(old(images), maxImages)[index].Filled?
      ensures removed ==> images == RemoveAt(old(images), index)
      ensures !removed && pick.Picked? && pick.assetUris != [] && |old(images)| < maxImages ==>
        images == old(images) + [pick.assetUris[0]]
      ensures !removed && !(pick.Picked? && pick.assetUris != [] && |old(images)| < maxImages) ==> images == old(images)
      ensures removed ==> alerts == old(alerts)
      ensures !removed ==> alerts == if |old(images)| < maxImages then old(alerts) else old(alerts) + [LimitAlert(maxImages)]
    {
      if index < |images| && images[index] != "" {
        removed := true;
        var _ := RemoveImage(index);
      } else {
        removed := false;
        var _, _ := PickImage(pick);
      }
    }
  }
}
