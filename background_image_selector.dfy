/**
 * The background-image picker of the settings window: it validates the chosen
 * file's type and size, hands a valid file to persistent storage and, on
 * success, publishes a fresh object URL through the background-image store.
 */
module BackgroundImageSelector {
  import opened Interfaces
  import BackgroundImageStore

  const AllowedImageTypes: seq<string> := ["image/jpeg", "image/png", "image/webp", "image/svg+xml"]

  /** 5 MiB. */
  const MaxFileSize := 5 * 1024 * 1024

  const InvalidTypeError := "Invalid file type. Please use JPEG, PNG, WebP, or SVG."
  const TooLargeError := "File too large. Maximum size is 5MB."
  const SaveFailedError := "Failed to save background image. Please try again."

  /** What the picker reads of a chosen file. */
  datatype ImageFile = ImageFile(mimeType: string, size: nat)

  /** The validation in front of the save: the type is checked first, then the size. */
  function Validate(file: ImageFile): (error: Option<string>)
    ensures error.None? <==> file.mimeType in AllowedImageTypes && file.size <= MaxFileSize
    ensures file.mimeType !in AllowedImageTypes ==> error == Some(InvalidTypeError)
    ensures file.mimeType in AllowedImageTypes && file.size > MaxFileSize ==> error == Some(TooLargeError)
  {
    if file.mimeType !in AllowedImageTypes then Some(InvalidTypeError)
    else if file.size > MaxFileSize then Some(TooLargeError)
    else None
  }

  /** A file of exactly 5 MiB passes; one byte more does not. */
  lemma SizeBoundIsInclusive(mimeType: string)
    requires mimeType in AllowedImageTypes
    ensures Validate(ImageFile(mimeType, MaxFileSize)) == None
    ensures Validate(ImageFile(mimeType, MaxFileSize + 1)) == Some(TooLargeError)
  {
  }

  class Selector {
    var error: Option<string>

    constructor ()
      ensures error == None
    {
      error := None;
    }

    /**
     * The file input's change handler up to the awaited save. `file` is the
     * first selected file. The error is cleared, then set by the first
     * failing check; the result says whether the save is started.
     */
    method BeginFileSelect(file: Option<ImageFile>) returns (saveAttempted: bool)
      modifies this
      ensures file.None? ==> !saveAttempted && error == old(error)
      ensures file.Some? ==> (saveAttempted <==> Validate(file.value).None?) && error == Validate(file.value)
    {
      if file.None? {
        return false;
      }
      error := None;
      var f := file.value;
      if f.mimeType !in AllowedImageTypes {
        error := Some(InvalidTypeError);
        return false;
      }
      if f.size > MaxFileSize {
        error := Some(TooLargeError);
        return false;
      }
      saveAttempted := true;
    }

    /**
     * The change handler once the save has answered: `saved` is that answer
     * and `objectUrl` the URL the browser creates for the file. Success
     * publishes the URL through the store, failure sets the save error; the
     * input's value is reset either way.
     */
    method CompleteFileSelect(store: BackgroundImageStore.Store, saved: bool, objectUrl: string)
      returns (inputReset: bool)
      requires store.Valid()
      modifies this, store`backgroundImageUrl, store`revoked
      ensures store.Valid()
      ensures inputReset
      ensures saved ==> error == old(error) && store.backgroundImageUrl == Some(objectUrl)
      ensures saved && BackgroundImageStore.IsBlobUrl(old(store.backgroundImageUrl)) ==>
        store.revoked == old(store.revoked) + [old(store.backgroundImageUrl).value]
      ensures saved && !BackgroundImageStore.IsBlobUrl(old(store.backgroundImageUrl)) ==>
        store.revoked == old(store.revoked)
      ensures !saved ==>
        error == Some(SaveFailedError)
        && store.backgroundImageUrl == old(store.backgroundImageUrl) && store.revoked == old(store.revoked)
      ensures store.isLoading == old(store.isLoading)
    {
      if saved {
        store.SetBackgroundImageUrl(Some(objectUrl));
      } else {
        error := Some(SaveFailedError);
      }
      inputReset := true;
    }

    /**
     * The whole change handler when nothing else runs while the save is
     * awaited. Returns whether a save was attempted and whether the input's
     * value was reset.
     */
    method HandleFileSelect(store: BackgroundImageStore.Store, file: Option<ImageFile>, saved: bool, objectUrl: string)
      returns (saveAttempted: bool, inputReset: bool)
      requires store.Valid()
      modifies this, store`backgroundImageUrl, store`revoked
      ensures store.Valid()
      ensures inputReset == saveAttempted
      ensures file.None? ==>
        !saveAttempted && error == old(error)
        && store.backgroundImageUrl == old(store.backgroundImageUrl) && store.revoked == old(store.revoked)
      ensures file.Some? && Validate(file.value).Some? ==>
        !saveAttempted && error == Validate(file.value)
        && store.backgroundImageUrl == old(store.backgroundImageUrl) && store.revoked == old(store.revoked)
      ensures file.Some? && Validate(file.value).None? ==> saveAttempted
      ensures file.Some? && Validate(file.value).None? && saved ==>
        error == None && store.backgroundImageUrl == Some(objectUrl)
      ensures file.Some? && Validate(file.value).None? && saved && BackgroundImageStore.IsBlobUrl(old(store.backgroundImageUrl)) ==>
        store.revoked == old(store.revoked) + [old(store.backgroundImageUrl).value]
      ensures file.Some? && Validate(file.value).None? && saved && !BackgroundImageStore.IsBlobUrl(old(store.backgroundImageUrl)) ==>
        store.revoked == old(store.revoked)
      ensures file.Some? && Validate(file.value).None? && !saved ==>
        error == Some(SaveFailedError)
        && store.backgroundImageUrl == old(store.backgroundImageUrl) && store.revoked == old(store.revoked)
      ensures store.isLoading == old(store.isLoading)
    {
      saveAttempted := BeginFileSelect(file);
      if !saveAttempted {
        return false, false;
      }
      inputReset := CompleteFileSelect(store, saved, objectUrl);
    }

    /**
     * The remove button's handler. Clearing never raises, so the error always
     * ends up cleared and the failure message is never shown.
     */
    method HandleRemove(store: BackgroundImageStore.Store, deleted: bool)
      requires store.Valid()
      modifies this, store`backgroundImageUrl, store`revoked
      ensures store.Valid()
      ensures error == None
      ensures deleted ==> store.backgroundImageUrl == None
      ensures deleted && BackgroundImageStore.IsBlobUrl(old(store.backgroundImageUrl)) ==>
        store.revoked == old(store.revoked) + [old(store.backgroundImageUrl).value]
      ensures deleted && !BackgroundImageStore.IsBlobUrl(old(store.backgroundImageUrl)) ==>
        store.revoked == old(store.revoked)
      ensures !deleted ==> store.backgroundImageUrl == old(store.backgroundImageUrl) && store.revoked == old(store.revoked)
      ensures store.isLoading == old(store.isLoading)
    {
      store.ClearBackgroundImage(deleted);
      error := None;
    }
  }
}
