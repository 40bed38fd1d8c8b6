/**
 The data the application displays: one record per processed image, holding
 the two image URLs and the backend's analysis, which the frontend passes
 through to its charts without interpreting it.
 */
module Records {
  import opened Basics

  /** One histogram bin as the backend reports it. */
  datatype Bin = Bin(value: int, original: int, upscaled: int)

  /** The backend's analysis of one original/upscaled pair (opaque to the frontend). */
  datatype Analysis = Analysis(histogram: seq<Bin>, psnr: real, ssim: real, edgeQuality: real)

  /** One carousel entry: where to fetch both images, and their analysis. */
  datatype ImageRecord = ImageRecord(original: string, upscaled: string, analysis: Analysis)

  /** The path segment between the backend's base URL and an image's file name. */
  const ImagePath: string := "/image/"

  /** The URL under which the backend serves the image stored as `name`. */
  function ImageUrl(backend: string, name: string): (url: string)
    ensures |url| == |backend| + |ImagePath| + |name|
    ensures url[..|backend|] == backend
    ensures url[|backend|..|backend| + |ImagePath|] == ImagePath
    ensures url[|backend| + |ImagePath|..] == name
  {
    backend + ImagePath + name
  }

  /** The file name an image URL refers to, if it is an image URL of `backend` at all. */
  function FilenameOf(backend: string, url: string): (name: Option<string>)
    ensures name.Some? <==> |url| >= |backend + ImagePath| && url[..|backend + ImagePath|] == backend + ImagePath
    ensures name.Some? ==> |name.value| == |url| - |backend| - |ImagePath|
  {
    var prefix := backend + ImagePath;
    if |url| >= |prefix| && url[..|prefix|] == prefix then Some(url[|prefix|..]) else None
  }

  /** Recovering the file name from the URL built for it gives that name back. */
  lemma FilenameOfImageUrl(backend: string, name: string)
    ensures FilenameOf(backend, ImageUrl(backend, name)) == Some(name)
  {
    var url := ImageUrl(backend, name);
    var prefix := backend + ImagePath;
    assert url == prefix + name;
    assert url[..|prefix|] == prefix;
    assert url[|prefix|..] == name;
  }

  /** Conversely, every URL `FilenameOf` accepts is the image URL of the name it returns. */
  lemma ImageUrlOfFilename(backend: string, url: string)
    requires FilenameOf(backend, url).Some?
    ensures ImageUrl(backend, FilenameOf(backend, url).value) == url
  {
    var prefix := backend + ImagePath;
    assert url == url[..|prefix|] + url[|prefix|..];
  }

  /** Distinct file names give distinct URLs. */
  lemma ImageUrlInjective(backend: string, a: string, b: string)
    requires ImageUrl(backend, a) == ImageUrl(backend, b)
    ensures a == b
  {
    FilenameOfImageUrl(backend, a);
    FilenameOfImageUrl(backend, b);
  }
}
