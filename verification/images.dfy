/** Image storage: the Cloudinary media store as a set of public ids, and the upload and
    delete operations of the image service, with the public-id extraction from an image URL. */
module Images {
  import opened Common
  import opened Text

  /** The first position of s holding a character of cs, or |s| when there is none. */
  function IndexOfAny(s: string, cs: set<char>): (r: nat)
    ensures r <= |s|
    ensures forall i :: 0 <= i < r ==> s[i] !in cs
    ensures r < |s| ==> s[r] in cs
  {
    if s == [] then 0
    else if s[0] in cs then 0
    else 1 + IndexOfAny(s[1..], cs)
  }

  /** `new URL(imageUrl).getPath()` for an http or https URL; None where Java throws
      MalformedURLException. The path runs from the first '/' after the host up to a query
      or fragment, and is empty when the URL names no path. */
  function UrlPath(url: string): (path: Option<string>)
    ensures path.Some? ==> path.value == "" || path.value[0] == '/'
    ensures path.Some? ==> '?' !in path.value && '#' !in path.value
  {
    var s := Trim(url);
    if "https://" <= s then Some(PathAfterScheme(s[8..]))
    else if "http://" <= s then Some(PathAfterScheme(s[7..]))
    else None
  }

  /** The path part of what follows `scheme://`: from the first '/' after the host up to a
      query or fragment, or empty when the host is followed by no '/'. */
  function PathAfterScheme(rest: string): (path: string)
    ensures path == "" || path[0] == '/'
    ensures '?' !in path && '#' !in path
  {
    var a := IndexOfAny(rest, {'/', '?', '#'});
    if a < |rest| && rest[a] == '/' then
      var tail := rest[a..];
      var q := IndexOfAny(tail, {'?', '#'});
      assert forall c :: c in tail[..q] ==> c != '?' && c != '#';
      tail[..q]
    else ""
  }

  /** The public id named by a file name: the name up to its last '.', when that dot is not
      the first character; otherwise the whole name. */
  function StripExtension(segment: string): (r: string)
    ensures r <= segment
    ensures r == segment || (r != "" && segment[|r|] == '.' && '.' !in segment[|r| + 1..])
  {
    var dot := LastIndexOf(segment, '.');
    if dot > 0 then segment[..dot] else segment
  }

  /** The public id `deleteImage` derives from a non-blank image URL: the extension-stripped last
      element of `path.split("/")`. A malformed URL is an IOException; a path made only of
      slashes splits into nothing, and indexing its last element fails. */
  function ExtractPublicId(imageUrl: string): Result<string>
  {
    match UrlPath(imageUrl)
    case None => Err(IOFailure)
    case Some(path) =>
      var segments := JavaSplit(path, '/');
      if segments == [] then Err(RuntimeFailure) else Ok(StripExtension(segments[|segments| - 1]))
  }

  /** Splitting with trailing empty strings removed: nothing is left exactly when s holds the
      separator and nothing else is left once its trailing separators are stripped; otherwise the
      last element is the last non-empty segment. */
  lemma JavaSplitLast(s: string, c: char)
    ensures JavaSplit(s, c) == [] <==> c in s && StripTrailing(s, c) == ""
    ensures JavaSplit(s, c) != [] ==>
      JavaSplit(s, c)[|JavaSplit(s, c)| - 1] == AfterLast(StripTrailing(s, c), c)
  {
    if c in s {
      SplitAllLast(s, c);
    } else {
      assert StripTrailing(s, c) == s by {
        if s != [] {
          assert s[|s| - 1] in s;
        }
      }
    }
  }

  lemma {:induction false} SplitAllLast(s: string, c: char)
    ensures var parts := DropTrailingEmpty(SplitAll(s, c));
            (parts == [] <==> StripTrailing(s, c) == "") &&
            (parts != [] ==> parts[|parts| - 1] == AfterLast(StripTrailing(s, c), c))
    decreases |s|
  {
    if s == [] {
      assert SplitAll(s, c) == [""];
      assert DropTrailingEmpty([""]) == DropTrailingEmpty([]);
    } else if s[|s| - 1] == c {
      var init := s[..|s| - 1];
      assert s[|s| - 1] in s;
      assert LastIndexOf(s, c) == |s| - 1;
      assert s[..|s| - 1] == init && s[|s|..] == "";
      assert SplitAll(s, c) == SplitAll(init, c) + [""];
      DropEmptyLast(SplitAll(init, c));
      assert StripTrailing(s, c) == StripTrailing(init, c);
      SplitAllLast(init, c);
    } else {
      SplitAllOfUnterminated(s, c);
      assert StripTrailing(s, c) == s;
    }
  }

  /** An empty last piece is dropped. */
  lemma DropEmptyLast(parts: seq<string>)
    ensures DropTrailingEmpty(parts + [""]) == DropTrailingEmpty(parts)
  {
    assert (parts + [""])[..|parts|] == parts;
  }

  /** A split of a string that does not end in the separator keeps every piece, and its last
      piece is what follows the last separator. */
  lemma SplitAllOfUnterminated(s: string, c: char)
    requires s != [] && s[|s| - 1] != c
    ensures DropTrailingEmpty(SplitAll(s, c)) == SplitAll(s, c)
    ensures SplitAll(s, c)[|SplitAll(s, c)| - 1] == AfterLast(s, c)
  {
    var parts := SplitAll(s, c);
    if c in s {
      var i := LastIndexOf(s, c);
      assert parts[|parts| - 1] == s[i + 1..];
      assert s[|s| - 1] == s[i + 1..][|s| - 2 - i];
    } else {
      assert AfterLast(s, c) == s[0..] == s;
    }
    assert parts[|parts| - 1] != "";
  }

  /** The public id of a well-formed URL, stated through its path. */
  lemma ExtractPublicIdOfPath(imageUrl: string, path: string)
    requires UrlPath(imageUrl) == Some(path)
    ensures ExtractPublicId(imageUrl) ==
      if '/' in path && StripTrailing(path, '/') == "" then Err(RuntimeFailure)
      else Ok(StripExtension(AfterLast(StripTrailing(path, '/'), '/')))
  {
    JavaSplitLast(path, '/');
  }

  /** Characters that may appear in one segment of a Cloudinary URL path. */
  predicate SegmentChars(s: string)
  {
    forall i :: 0 <= i < |s| ==> ' ' < s[i] && s[i] != '/' && s[i] != '?' && s[i] != '#'
  }

  /** The `secure_url` Cloudinary reports for an upload. */
  function SecureUrl(cloudName: string, version: string, publicId: string, format: string): string
  {
    "https://" + CloudinaryHost + SecurePath(cloudName, version, publicId, format)
  }

  /** The host Cloudinary serves images from. */
  const CloudinaryHost: string := "res.cloudinary.com"

  /** The part after the last c of x + [c] + y, when y holds no c, is y. */
  lemma AfterLastOfJoin(x: string, c: char, y: string)
    requires c !in y
    ensures AfterLast(x + [c] + y, c) == y
  {
    var s := x + [c] + y;
    assert s[|x|] == c;
    assert forall j :: |x| < j < |s| ==> s[j] == y[j - |x| - 1];
    assert LastIndexOf(s, c) == |x|;
    assert s[|x| + 1..] == y;
  }

  /** A file name made of a non-empty public id, a dot and a dot-free format names that id. */
  lemma StripExtensionOfName(publicId: string, format: string)
    requires publicId != "" && '.' !in format
    ensures StripExtension(publicId + "." + format) == publicId
  {
    var name := publicId + "." + format;
    assert name[|publicId|] == '.';
    assert forall j :: |publicId| < j < |name| ==> name[j] == format[j - |publicId| - 1];
    assert LastIndexOf(name, '.') == |publicId|;
    assert name[..|publicId|] == publicId;
  }

  /** The path of a secure URL. */
  function SecurePath(cloudName: string, version: string, publicId: string, format: string): string
  {
    "/" + cloudName + "/image/upload/v" + version + "/" + publicId + "." + format
  }

  /** A file name "id.format" built from two path segments is itself a path segment. */
  lemma NameChars(publicId: string, format: string)
    requires SegmentChars(publicId) && SegmentChars(format)
    ensures SegmentChars(publicId + "." + format)
  {
    var name := publicId + "." + format;
    forall i | 0 <= i < |name| ensures ' ' < name[i] && name[i] != '/' && name[i] != '?' && name[i] != '#' {
      if i < |publicId| {
        assert name[i] == publicId[i];
      } else if i > |publicId| {
        assert name[i] == format[i - |publicId| - 1];
      }
    }
  }

  lemma NoQueryInSecurePath(cloudName: string, version: string, publicId: string, format: string)
    requires SegmentChars(cloudName) && SegmentChars(version) && SegmentChars(publicId) && SegmentChars(format)
    ensures SegmentChars(publicId + "." + format)
    ensures forall i :: 0 <= i < |SecurePath(cloudName, version, publicId, format)| ==>
      SecurePath(cloudName, version, publicId, format)[i] !in {'?', '#'}
  {
    var name := publicId + "." + format;
    NameChars(publicId, format);
    var pre := "/" + cloudName + "/image/upload/v" + version + "/";
    var path := SecurePath(cloudName, version, publicId, format);
    assert path == pre + name;
    forall i | 0 <= i < |path| ensures path[i] !in {'?', '#'} {
      if i >= |pre| {
        assert path[i] == name[i - |pre|];
      } else if 1 <= i < 1 + |cloudName| {
        assert path[i] == cloudName[i - 1];
      } else if 1 + |cloudName| + 15 <= i < |pre| - 1 {
        assert path[i] == version[i - 1 - |cloudName| - 15];
      }
    }
  }

  /** Scanning past a prefix free of the wanted characters adds its length. */
  lemma {:induction false} IndexOfAnyAfter(x: string, y: string, cs: set<char>)
    requires forall i :: 0 <= i < |x| ==> x[i] !in cs
    ensures IndexOfAny(x + y, cs) == |x| + IndexOfAny(y, cs)
    decreases |x|
  {
    if x == [] {
      assert x + y == y;
    } else {
      assert (x + y)[1..] == x[1..] + y;
      IndexOfAnyAfter(x[1..], y, cs);
    }
  }

  /** The URL parser finds the path of an https URL whose host holds no separator. */
  lemma UrlPathOfHttps(host: string, path: string)
    requires forall i :: 0 <= i < |host| ==> host[i] !in {'/', '?', '#'}
    requires path != "" && path[0] == '/' && !IsTrimmed(path[|path| - 1])
    requires forall i :: 0 <= i < |path| ==> path[i] !in {'?', '#'}
    ensures UrlPath("https://" + host + path) == Some(path)
  {
    var rest := host + path;
    var url := "https://" + rest;
    assert url == "https://" + host + path;
    assert TrimStart(url) == url;
    assert url[|url| - 1] == path[|path| - 1];
    assert Trim(url) == url;
    assert "https://" <= url && url[8..] == rest;
    PathAfterHost(host, path);
  }

  /** Behind a host without '/', '?' or '#', the path is everything from the first '/'. */
  lemma PathAfterHost(host: string, path: string)
    requires forall i :: 0 <= i < |host| ==> host[i] !in {'/', '?', '#'}
    requires path != "" && path[0] == '/'
    requires forall i :: 0 <= i < |path| ==> path[i] !in {'?', '#'}
    ensures PathAfterScheme(host + path) == path
  {
    var rest := host + path;
    IndexOfAnyAfter(host, path, {'/', '?', '#'});
    assert rest[|host|..] == path;
    IndexOfAnyAfter(path, [], {'?', '#'});
    assert path + [] == path;
  }

  /** The URL parser finds the path of a secure URL. */
  lemma UrlPathOfSecureUrl(cloudName: string, version: string, publicId: string, format: string)
    requires SegmentChars(cloudName) && SegmentChars(version) && SegmentChars(publicId) && SegmentChars(format)
    ensures UrlPath(SecureUrl(cloudName, version, publicId, format)) == Some(SecurePath(cloudName, version, publicId, format))
  {
    var path := SecurePath(cloudName, version, publicId, format);
    NoQueryInSecurePath(cloudName, version, publicId, format);
    var name := publicId + "." + format;
    assert path[|path| - 1] == name[|name| - 1];
    UrlPathOfHttps(CloudinaryHost, path);
  }

  /** A URL whose path ends in a separator and a non-empty name names that file. */
  lemma PublicIdOfPathEnd(url: string, pre: string, name: string)
    requires UrlPath(url) == Some(pre + ['/'] + name)
    requires name != "" && '/' !in name
    ensures ExtractPublicId(url) == Ok(StripExtension(name))
  {
    var path := pre + ['/'] + name;
    ExtractPublicIdOfPath(url, path);
    assert path[|path| - 1] == name[|name| - 1];
    assert StripTrailing(path, '/') == path;
    AfterLastOfJoin(pre, '/', name);
  }

  /** Round trip: deleting by a URL the media store reported finds the public id it was
      uploaded under. */
  lemma PublicIdOfSecureUrl(cloudName: string, version: string, publicId: string, format: string)
    requires SegmentChars(cloudName) && SegmentChars(version) && SegmentChars(publicId) && SegmentChars(format)
    requires publicId != "" && '.' !in format
    ensures ExtractPublicId(SecureUrl(cloudName, version, publicId, format)) == Ok(publicId)
  {
    var name := publicId + "." + format;
    var pre := "/" + cloudName + "/image/upload/v" + version;
    UrlPathOfSecureUrl(cloudName, version, publicId, format);
    assert SecurePath(cloudName, version, publicId, format) == pre + ['/'] + name;
    NameChars(publicId, format);
    assert '/' !in name by {
      assert forall i :: 0 <= i < |name| ==> name[i] != '/';
    }
    PublicIdOfPathEnd(SecureUrl(cloudName, version, publicId, format), pre, name);
    StripExtensionOfName(publicId, format);
  }

  /** The Cloudinary account: the public ids of the images it holds. */
  class MediaStore {
    const cloudName: string
    var publicIds: set<string>

    constructor (cloudName: string)
      ensures this.cloudName == cloudName && publicIds == {}
    {
      this.cloudName := cloudName;
      publicIds := {};
    }

    /** `uploader().upload(bytes, …)`: stores an image under the public id and format Cloudinary
        assigns and reports its secure URL. */
    method Upload(publicId: string, format: string, version: string) returns (secureUrl: string)
      modifies this`publicIds
      ensures publicIds == old(publicIds) + {publicId}
      ensures secureUrl == SecureUrl(cloudName, version, publicId, format)
    {
      publicIds := publicIds + {publicId};
      secureUrl := SecureUrl(cloudName, version, publicId, format);
    }

    /** `uploader().destroy(publicId, …)`: "ok" when the image existed and is now gone,
        "not found" otherwise. */
    method Destroy(publicId: string) returns (result: string)
      modifies this`publicIds
      ensures publicIds == old(publicIds) - {publicId}
      ensures result == (if publicId in old(publicIds) then "ok" else "not found")
    {
      if publicId in publicIds {
        publicIds := publicIds - {publicId};
        result := "ok";
      } else {
        result := "not found";
      }
    }
  }

  /** The outcome of `deleteImage` on a non-blank URL when the media store holds `ids`. */
  function DeleteOutcome(imageUrl: string, ids: set<string>): Outcome
  {
    match ExtractPublicId(imageUrl)
    case Err(e) => Fail(e)
    case Ok(id) => if id in ids then Done else Fail(IOFailure)
  }

  /** The outcome of `deleteImage(imageUrl)` when the media store holds ids: nothing to do for a
      null or blank URL. */
  function DeleteImageOutcome(imageUrl: Option<string>, ids: set<string>): Outcome
  {
    if imageUrl.None? || IsBlank(imageUrl.value) then Done else DeleteOutcome(imageUrl.value, ids)
  }

  /** The public ids the media store holds after `deleteImage(imageUrl)` on a store holding ids:
      the extracted id is gone, and nothing else changes. */
  function AfterDelete(imageUrl: Option<string>, ids: set<string>): (r: set<string>)
    ensures r <= ids
    ensures ids - r <= (if imageUrl.Some? && ExtractPublicId(imageUrl.value).Ok? then {ExtractPublicId(imageUrl.value).value} else {})
  {
    if imageUrl.None? || IsBlank(imageUrl.value) then ids
    else match ExtractPublicId(imageUrl.value)
      case Err(_) => ids
      case Ok(id) => ids - {id}
  }

  /** The image service. */
  class ImageUploadService {
    const media: MediaStore

    constructor (media: MediaStore)
      ensures this.media == media
    {
      this.media := media;
    }

    /** `uploadImage(file)`: an empty file is refused before the media store is contacted;
        otherwise the image is stored and its secure URL returned. The public id, format and
        version are the ones the media store assigns. */
    method UploadImage(file: seq<bv8>, publicId: string, format: string, version: string) returns (r: Result<string>)
      modifies media`publicIds
      ensures |file| == 0 ==> r == Err(IllegalArgument) && media.publicIds == old(media.publicIds)
      ensures |file| > 0 ==> r == Ok(SecureUrl(media.cloudName, version, publicId, format))
      ensures |file| > 0 ==> media.publicIds == old(media.publicIds) + {publicId}
    {
      if |file| == 0 {
        return Err(IllegalArgument);
      }
      var url := media.Upload(publicId, format, version);
      r := Ok(url);
    }

    /** `deleteImage(imageUrl)`: nothing happens for a null or blank URL; otherwise the public id
        is extracted and destroyed, and a failed extraction or a destroy result other than "ok"
        is an error. Only the extracted id can leave the media store. */
    method DeleteImage(imageUrl: Option<string>) returns (o: Outcome)
      modifies media`publicIds
      ensures imageUrl.None? || IsBlank(imageUrl.value) ==> o == Done && media.publicIds == old(media.publicIds)
      ensures o == DeleteImageOutcome(imageUrl, old(media.publicIds))
      ensures media.publicIds == AfterDelete(imageUrl, old(media.publicIds))
    {
      if imageUrl.None? || IsBlank(imageUrl.value) {
        return Done;
      }
      var publicId := ExtractPublicId(imageUrl.value);
      if publicId.Err? {
        return Fail(publicId.error);
      }
      var result := media.Destroy(publicId.value);
      if result == "ok" {
        o := Done;
      } else {
        o := Fail(IOFailure);
      }
    }
  }

  /** Deleting an uploaded image by the URL the upload returned removes exactly that image. */
  lemma DeleteAfterUpload(cloudName: string, version: string, publicId: string, format: string, ids: set<string>)
    requires SegmentChars(cloudName) && SegmentChars(version) && SegmentChars(publicId) && SegmentChars(format)
    requires publicId != "" && '.' !in format
    ensures DeleteOutcome(SecureUrl(cloudName, version, publicId, format), ids + {publicId}) == Done
  {
    PublicIdOfSecureUrl(cloudName, version, publicId, format);
  }
}
