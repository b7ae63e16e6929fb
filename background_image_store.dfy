/**
 * The background-image store: the current display URL and a loading flag.
 * Replacing or clearing the URL revokes the old one when it is a `blob:` URL;
 * the revocations are recorded in a ghost log. Persistent storage is an
 * outside party whose answers arrive as parameters.
 */
module BackgroundImageStore {
  import opened Interfaces

  const BlobScheme := "blob:"

  predicate StartsWith(s: string, prefix: string)
  {
    |prefix| <= |s| && s[..|prefix|] == prefix
  }

  /** The guard before revocation: a non-empty URL beginning with "blob:". */
  predicate IsBlobUrl(url: Option<string>)
  {
    url.Some? && url.value != "" && StartsWith(url.value, BlobScheme)
  }

  /** The answer of the persistent store to a load: an optional URL, or a rejection. */
  datatype LoadOutcome = Loaded(url: Option<string>) | LoadFailed

  class Store {
    var backgroundImageUrl: Option<string>
    var isLoading: bool
    /** Every URL revoked so far, in order. */
    ghost var revoked: seq<string>

    /** Only blob URLs are ever revoked. */
    ghost predicate Valid()
      reads this
    {
      forall i :: 0 <= i < |revoked| ==> StartsWith(revoked[i], BlobScheme)
    }

    constructor ()
      ensures Valid()
      ensures backgroundImageUrl == None && isLoading && revoked == []
    {
      backgroundImageUrl := None;
      isLoading := true;
      revoked := [];
    }

    /** Load, up to the awaited read: the loading flag goes up. */
    method BeginLoad()
      modifies this`isLoading
      ensures isLoading
    {
      isLoading := true;
    }

    /** Load, once the read has answered: the URL is taken on success and kept on failure; nothing is revoked. */
    method CompleteLoad(outcome: LoadOutcome)
      modifies this`backgroundImageUrl, this`isLoading
      ensures !isLoading
      ensures outcome.Loaded? ==> backgroundImageUrl == outcome.url
      ensures outcome.LoadFailed? ==> backgroundImageUrl == old(backgroundImageUrl)
    {
      match outcome {
        case Loaded(url) =>
          backgroundImageUrl := url;
          isLoading := false;
        case LoadFailed =>
          isLoading := false;
      }
    }

    /** Replace the URL, revoking the old one when it is a blob URL, even when it equals the new one. */
    method SetBackgroundImageUrl(url: Option<string>)
      requires Valid()
      modifies this`backgroundImageUrl, this`revoked
      ensures Valid()
      ensures backgroundImageUrl == url
      ensures IsBlobUrl(old(backgroundImageUrl)) ==> revoked == old(revoked) + [old(backgroundImageUrl).value]
      ensures !IsBlobUrl(old(backgroundImageUrl)) ==> revoked == old(revoked)
      ensures isLoading == old(isLoading)
    {
      if IsBlobUrl(backgroundImageUrl) {
        revoked := revoked + [backgroundImageUrl.value];
      }
      backgroundImageUrl := url;
    }

    /**
     * Clear, from the point where the awaited delete has answered (nothing
     * before that await touches the store): after a successful delete the URL
     * is revoked (when it is a blob URL) and dropped; after a failed delete
     * nothing changes and no error escapes.
     */
    method ClearBackgroundImage(deleted: bool)
      requires Valid()
      modifies this`backgroundImageUrl, this`revoked
      ensures Valid()
      ensures deleted ==> backgroundImageUrl == None
      ensures deleted && IsBlobUrl(old(backgroundImageUrl)) ==> revoked == old(revoked) + [old(backgroundImageUrl).value]
      ensures deleted && !IsBlobUrl(old(backgroundImageUrl)) ==> revoked == old(revoked)
      ensures !deleted ==> backgroundImageUrl == old(backgroundImageUrl) && revoked == old(revoked)
      ensures isLoading == old(isLoading)
    {
      if deleted {
        SetBackgroundImageUrl(None);
      }
    }
  }

  /** Setting the URL it already holds leaves the store showing a revoked blob URL. */
  method SetSameBlobUrl(s: Store, url: string)
    requires s.Valid() && s.backgroundImageUrl == Some(url) && IsBlobUrl(Some(url))
    modifies s
    ensures s.backgroundImageUrl == Some(url) && url in s.revoked
  {
    s.SetBackgroundImageUrl(Some(url));
    assert s.revoked[|s.revoked| - 1] == url;
  }
}
