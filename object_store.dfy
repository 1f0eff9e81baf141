/**
 * The S3 bucket as the gallery sees it, and the two scans over an object
 * listing that the gallery performs: the preview lookup and the photo list.
 */
module ObjectStore {
  import opened Wrappers

  /**
   * The bucket's state, fixed for one request.
   * - `albumFolders`: the `CommonPrefixes` of listing `photos/` with delimiter
   *   `/` (a missing `CommonPrefixes` entry is the empty list), or the
   *   exception that listing threw;
   * - `objects`: the keys listed under a prefix, in the order the store
   *   returns them (one page), or the exception that listing threw;
   * - `url`: `getObjectUrl` for the configured bucket.
   */
  datatype Store = Store(
    albumFolders: Result<seq<string>>,
    objects: string -> Result<seq<string>>,
    url: string -> string)

  /** `listObjectsV2` under `prefix`, with `MaxKeys` when `maxKeys` is given. */
  function ListObjects(store: Store, prefix: string, maxKeys: Option<nat>): (r: Result<seq<string>>)
    ensures r.Failure? <==> store.objects(prefix).Failure?
    ensures r.Ok? ==> r.value <= store.objects(prefix).value
    ensures r.Ok? && maxKeys.Some? ==> |r.value| == Min(maxKeys.value, |store.objects(prefix).value|)
    ensures r.Ok? && maxKeys.None? ==> r.value == store.objects(prefix).value
  {
    match store.objects(prefix)
    case Failure => Failure
    case Ok(keys) =>
      match maxKeys
      case None => Ok(keys)
      case Some(n) => Ok(keys[..Min(n, |keys|)])
  }

  /** The number of keys fetched to find an album's preview (`MaxKeys`). */
  const PreviewMaxKeys: nat := 5

  /**
   * A key whose last byte is `/` is a folder marker, not a photo. The empty key
   * has no last byte (`substr('', -1)` is `''`), so it counts as a photo.
   */
  predicate IsDirectoryMarker(key: string)
  {
    |key| > 0 && key[|key| - 1] == '/'
  }

  /** The position of the first key that is not a folder marker, if any. */
  function FirstPhoto(keys: seq<string>): (i: Option<nat>)
    ensures i.Some? ==> i.value < |keys| && !IsDirectoryMarker(keys[i.value])
    ensures i.Some? ==> forall j :: 0 <= j < i.value ==> IsDirectoryMarker(keys[j])
    ensures i.None? <==> forall j :: 0 <= j < |keys| ==> IsDirectoryMarker(keys[j])
  {
    if keys == [] then None
    else if !IsDirectoryMarker(keys[0]) then Some(0)
    else
      match FirstPhoto(keys[1..])
      case None => None
      case Some(k) => Some(k + 1)
  }

  /** The preview URL a listing yields: the first photo's URL, or '' without one. */
  function PreviewOf(store: Store, keys: seq<string>): (url: string)
  {
    match FirstPhoto(keys)
    case None => ""
    case Some(i) => store.url(keys[i])
  }

  /** The preview an album folder gets, or the failure of its capped listing. */
  function Preview(store: Store, prefix: string): (r: Result<string>)
  {
    match ListObjects(store, prefix, Some(PreviewMaxKeys))
    case Failure => Failure
    case Ok(keys) => Ok(PreviewOf(store, keys))
  }

  /**
   * The preview is the URL of the key that is the first one not a folder
   * marker, and '' when every key is one.
   */
  lemma PreviewIsFirstPhotoUrl(store: Store, keys: seq<string>)
    ensures (forall j :: 0 <= j < |keys| ==> IsDirectoryMarker(keys[j])) ==> PreviewOf(store, keys) == ""
    ensures forall i ::
      (0 <= i < |keys| && !IsDirectoryMarker(keys[i]) && forall j :: 0 <= j < i ==> IsDirectoryMarker(keys[j]))
      ==> PreviewOf(store, keys) == store.url(keys[i])
  {
  }

  /** An album's preview comes from the first five keys of its listing, and fails with it. */
  lemma PreviewOfFirstFive(store: Store, prefix: string)
    ensures Preview(store, prefix).Failure? <==> store.objects(prefix).Failure?
    ensures store.objects(prefix).Ok? ==>
      Preview(store, prefix) == Ok(PreviewOf(store, store.objects(prefix).value[..Min(5, |store.objects(prefix).value|)]))
  {
  }

  /**
   * Lists at most five keys under `prefix` and takes the URL of the first one
   * that is not a folder marker, stopping there; '' when there is none.
   */
  method ResolvePreview(store: Store, prefix: string) returns (r: Result<string>)
    ensures r == Preview(store, prefix)
    ensures r.Failure? <==> store.objects(prefix).Failure?
  {
    var listing := ListObjects(store, prefix, Some(PreviewMaxKeys));
    if listing.Failure? {
      return Failure;
    }
    var keys := listing.value;
    var preview := "";
    var i := 0;
    while i < |keys|
      invariant 0 <= i <= |keys|
      invariant forall j :: 0 <= j < i ==> IsDirectoryMarker(keys[j])
      invariant preview == ""
    {
      if !IsDirectoryMarker(keys[i]) {
        preview := store.url(keys[i]);
        break;
      }
      i := i + 1;
    }
    return Ok(preview);
  }

  /**
   * Only the first five keys of a folder are looked at: when they are all
   * folder markers the preview is '' whatever photos follow them.
   */
  lemma PreviewSeesOnlyFirstFive(store: Store, prefix: string)
    requires store.objects(prefix).Ok?
    requires forall j :: 0 <= j < |store.objects(prefix).value| && j < PreviewMaxKeys ==>
               IsDirectoryMarker(store.objects(prefix).value[j])
    ensures Preview(store, prefix) == Ok("")
  {
    var keys := ListObjects(store, prefix, Some(PreviewMaxKeys)).value;
    assert forall j :: 0 <= j < |keys| ==> keys[j] == store.objects(prefix).value[j];
  }

  /** The listed keys that are photos, in listing order. */
  function PhotoKeys(keys: seq<string>): (photos: seq<string>)
    ensures |photos| <= |keys|
    ensures forall k :: k in photos <==> k in keys && !IsDirectoryMarker(k)
  {
    if keys == [] then []
    else
      var last := keys[|keys| - 1];
      var rest := PhotoKeys(keys[..|keys| - 1]);
      assert keys == keys[..|keys| - 1] + [last];
      if IsDirectoryMarker(last) then rest else rest + [last]
  }

  /** Filtering commutes with concatenation, so listing order is kept. */
  lemma {:induction false} PhotoKeysOfConcat(a: seq<string>, b: seq<string>)
    ensures PhotoKeys(a + b) == PhotoKeys(a) + PhotoKeys(b)
  {
    if b != [] {
      var b' := b[..|b| - 1];
      assert (a + b)[..|a + b| - 1] == a + b';
      PhotoKeysOfConcat(a, b');
    } else {
      assert a + b == a;
    }
  }

  /** Every folder of `folders` lists without an exception. */
  predicate AllListed(store: Store, folders: seq<string>)
  {
    folders == [] || (AllListed(store, folders[..|folders| - 1]) && store.objects(folders[|folders| - 1]).Ok?)
  }

  /** `AllListed` holds exactly when no folder's listing throws. */
  lemma {:induction false} AllListedMeans(store: Store, folders: seq<string>)
    ensures AllListed(store, folders) <==> forall j :: 0 <= j < |folders| ==> store.objects(folders[j]).Ok?
  {
    if folders != [] {
      var init := folders[..|folders| - 1];
      AllListedMeans(store, init);
      assert forall j :: 0 <= j < |init| ==> init[j] == folders[j];
    }
  }
}
