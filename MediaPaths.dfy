/**
 * The media-path resolver of the course catalog: absolute URLs of a course's
 * cover image and preview videos, composed from the configured base URL.
 *
 * The environment is not read here. `publicUrl` stands for PUBLIC_URL
 * (None when the variable is unset); the debug switches appear only in
 * `Env`, for the logging variant of the video-path builder.
 */
module MediaPaths {
  import opened Wrappers
  import Decimal

  /** The origin used when PUBLIC_URL is unset or empty. */
  const DefaultOrigin: string := "https://www.design-ecourses.com"

  /** The series name every video file is named after. */
  const SeriesTitle: string := "Web Design with WordPress Everything from Beginning to End Derri"

  /** The one cover image every course shares. */
  const PlaceholderImage: string := "img_8.jpg"

  const VideosDir: string := "/videos/"
  const ImagesDir: string := "/images/"
  const SegmentOpen: string := " ("
  const SegmentClose: string := ").mp4"

  /**
   * `PUBLIC_URL || DefaultOrigin`. JavaScript's `||` treats the empty
   * string as false, so an empty PUBLIC_URL falls back as an unset one does.
   */
  function BaseUrl(publicUrl: Option<string>): (base: string)
    ensures publicUrl.Some? && publicUrl.value != "" ==> base == publicUrl.value
    ensures publicUrl.None? || publicUrl.value == "" ==> base == DefaultOrigin
    ensures base != ""
  {
    match publicUrl
    case Some(url) => if url != "" then url else DefaultOrigin
    case None => DefaultOrigin
  }

  /** The returned value of getVideoPath: the file under the videos directory of the base URL. */
  function VideoPath(publicUrl: Option<string>, filename: string): (url: string)
    ensures |url| == |BaseUrl(publicUrl)| + |VideosDir| + |filename|
    ensures url[..|BaseUrl(publicUrl)|] == BaseUrl(publicUrl)
    ensures url[|BaseUrl(publicUrl)|..|BaseUrl(publicUrl)| + |VideosDir|] == VideosDir
    ensures url[|url| - |filename|..] == filename
  {
    BaseUrl(publicUrl) + VideosDir + filename
  }

  /** `url` starts with `base`: the resource is served from that origin. */
  predicate ServedFrom(base: string, url: string) {
    |base| <= |url| && url[..|base|] == base
  }

  /** The process environment getVideoPath consults. */
  datatype Env = Env(publicUrl: Option<string>, debugVideos: Option<string>, nodeEnv: Option<string>)

  /**
   * The condition of getVideoPath's diagnostic block: REACT_APP_DEBUG_VIDEOS
   * is exactly "true" (other truthy values do not count) or NODE_ENV is
   * "development". With both variables unset it is off.
   */
  predicate DebugEnabled(env: Env): (on: bool)
    ensures env.debugVideos == Some("true") ==> on
    ensures env.nodeEnv == Some("development") ==> on
    ensures on ==> env.debugVideos.Some? || env.nodeEnv.Some?
  {
    env.debugVideos == Some("true") || env.nodeEnv == Some("development")
  }

  /** How console.log shows an environment variable: "undefined" when it is unset. */
  function Shown(v: Option<string>): string {
    match v
    case Some(s) => s
    case None => "undefined"
  }

  /**
   * getVideoPath with its diagnostic output made explicit: the returned path
   * and the lines written to the console, each line being the console.log
   * arguments joined by a space.
   */
  function VideoPathLogged(env: Env, filename: string): (r: (string, seq<string>))
    ensures r.0 == VideoPath(env.publicUrl, filename)
    ensures !DebugEnabled(env) ==> r.1 == []
    ensures DebugEnabled(env) ==> |r.1| == 6 && r.1[1] == "- Filename: " + filename
                                  && r.1[4] == "- Final path: " + r.0
  {
    var fullPath := VideoPath(env.publicUrl, filename);
    if DebugEnabled(env) then
      (fullPath, [ "\U{1F3AC} Video Debug Info:",
                   "- Filename: " + filename,
                   "- PUBLIC_URL: " + Shown(env.publicUrl),
                   "- Fallback URL: " + DefaultOrigin,
                   "- Final path: " + fullPath,
                   "- Environment: " + Shown(env.nodeEnv) ])
    else
      (fullPath, [])
  }

  /** The logging switches never change the path that is returned. */
  lemma LoggingDoesNotChangePath(e1: Env, e2: Env, filename: string)
    requires e1.publicUrl == e2.publicUrl
    ensures VideoPathLogged(e1, filename).0 == VideoPathLogged(e2, filename).0
  {
  }

  /**
   * The file name of video segment `n` of the series: the series title, then
   * the number in parentheses, as canonical digits (no leading zero) that
   * read back as `n`, then ".mp4".
   */
  function VideoFileName(n: nat): (name: string)
    ensures |name| > |SeriesTitle + SegmentOpen| + |SegmentClose|
    ensures name[..|SeriesTitle + SegmentOpen|] == SeriesTitle + SegmentOpen
    ensures name[|name| - |SegmentClose|..] == SegmentClose
    ensures Decimal.Canonical(name[|SeriesTitle + SegmentOpen|..|name| - |SegmentClose|])
    ensures Decimal.ToNat(name[|SeriesTitle + SegmentOpen|..|name| - |SegmentClose|]) == Some(n)
  {
    var digits := Decimal.FromNat(n);
    var name := SeriesTitle + SegmentOpen + digits + SegmentClose;
    Decimal.ToNatFromNat(n);
    assert name[|SeriesTitle + SegmentOpen|..|name| - |SegmentClose|] == digits;
    name
  }

  /** The part of every segment URL that comes before the segment number. */
  function SegmentPrefix(publicUrl: Option<string>): string {
    BaseUrl(publicUrl) + VideosDir + SeriesTitle + SegmentOpen
  }

  /**
   * The segment number a video URL names, read back out of it; None when
   * the URL is not a segment URL under this base, or when its number is not
   * written as a number is rendered (no sign, no leading zero). Stated only
   * to specify the resolver: the source has no such parser.
   */
  function SegmentOf(publicUrl: Option<string>, url: string): Option<nat>
  {
    var prefix := SegmentPrefix(publicUrl);
    if |url| < |prefix| + |SegmentClose| then None
    else if url[..|prefix|] != prefix || url[|url| - |SegmentClose|..] != SegmentClose then None
    else
      var digits := url[|prefix|..|url| - |SegmentClose|];
      if Decimal.Canonical(digits) then Decimal.ToNat(digits) else None
  }

  /** A segment URL is the segment prefix, the number's digits and the closing ").mp4". */
  lemma SegmentUrlShape(publicUrl: Option<string>, n: nat)
    ensures VideoPath(publicUrl, VideoFileName(n)) == SegmentPrefix(publicUrl) + Decimal.FromNat(n) + SegmentClose
  {
    Regroup(BaseUrl(publicUrl), VideosDir, SeriesTitle, SegmentOpen, Decimal.FromNat(n), SegmentClose);
  }

  /** Concatenation regrouped: a file name appended to a path is the path followed by each part. */
  lemma Regroup<T>(a: seq<T>, b: seq<T>, c: seq<T>, d: seq<T>, e: seq<T>, f: seq<T>)
    ensures a + b + (c + d + e + f) == a + b + c + d + e + f
  {
  }

  /** The segment number is recovered from the URL built for it. */
  lemma SegmentOfVideoPath(publicUrl: Option<string>, n: nat)
    ensures SegmentOf(publicUrl, VideoPath(publicUrl, VideoFileName(n))) == Some(n)
  {
    SegmentUrlShape(publicUrl, n);
    SlicesAround(SegmentPrefix(publicUrl), Decimal.FromNat(n), SegmentClose);
    Decimal.ToNatFromNat(n);
  }

  /** The parts of `p + m + c` are recovered by slicing at the lengths of `p` and `c`. */
  lemma SlicesAround<T>(p: seq<T>, m: seq<T>, c: seq<T>)
    ensures var s := p + m + c;
            s[..|p|] == p && s[|s| - |c|..] == c && s[|p|..|s| - |c|] == m
  {
  }

  /** A sequence that starts with `p` and ends with `c` is `p`, its middle, and `c`. */
  lemma SplitAround<T>(s: seq<T>, p: seq<T>, c: seq<T>)
    requires |s| >= |p| + |c| && s[..|p|] == p && s[|s| - |c|..] == c
    ensures s == p + s[|p|..|s| - |c|] + c
  {
  }

  /** A URL SegmentOf accepts is exactly the URL built for the number it reads. */
  lemma SegmentOfSound(publicUrl: Option<string>, url: string)
    requires SegmentOf(publicUrl, url).Some?
    ensures url == VideoPath(publicUrl, VideoFileName(SegmentOf(publicUrl, url).value))
  {
    var prefix := SegmentPrefix(publicUrl);
    var digits := url[|prefix|..|url| - |SegmentClose|];
    SplitAround(url, prefix, SegmentClose);
    Decimal.FromNatToNat(digits);
    SegmentUrlShape(publicUrl, SegmentOf(publicUrl, url).value);
  }

  /** SegmentOf is the exact inverse of the segment URL builder: it accepts those URLs and no others. */
  lemma SegmentOfIsInverse(publicUrl: Option<string>, url: string, n: nat)
    ensures SegmentOf(publicUrl, url) == Some(n) <==> url == VideoPath(publicUrl, VideoFileName(n))
  {
    SegmentOfVideoPath(publicUrl, n);
    if SegmentOf(publicUrl, url) == Some(n) {
      SegmentOfSound(publicUrl, url);
    }
  }

  /** Distinct segment numbers give distinct URLs. */
  lemma VideoPathSegmentInjective(publicUrl: Option<string>, m: nat, n: nat)
    ensures VideoPath(publicUrl, VideoFileName(m)) == VideoPath(publicUrl, VideoFileName(n)) <==> m == n
  {
    SegmentOfVideoPath(publicUrl, m);
    SegmentOfVideoPath(publicUrl, n);
  }

  /** getProductImage: every course shows the shared placeholder, whatever its id and index. */
  function ProductImage(publicUrl: Option<string>, productId: int, imageIndex: int): (url: string)
    ensures |url| == |BaseUrl(publicUrl)| + |ImagesDir + PlaceholderImage|
    ensures url[..|BaseUrl(publicUrl)|] == BaseUrl(publicUrl)
    ensures url[|BaseUrl(publicUrl)|..] == ImagesDir + PlaceholderImage
  {
    BaseUrl(publicUrl) + ImagesDir + PlaceholderImage
  }

  /** The image URL depends on neither the product id nor the image index. */
  lemma ProductImageIgnoresArguments(publicUrl: Option<string>, id1: int, index1: int, id2: int, index2: int)
    ensures ProductImage(publicUrl, id1, index1) == ProductImage(publicUrl, id2, index2)
  {
  }

  /** An image URL is never a video URL under the same base. */
  lemma ImageIsNotVideo(publicUrl: Option<string>, productId: int, imageIndex: int, filename: string)
    ensures ProductImage(publicUrl, productId, imageIndex) != VideoPath(publicUrl, filename)
  {
    var k := |BaseUrl(publicUrl)| + 1;
    var image, video := ProductImage(publicUrl, productId, imageIndex), VideoPath(publicUrl, filename);
    assert image[k] == ImagesDir[1] == 'i';
    assert video[k] == VideosDir[1] == 'v';
  }

  /** getProductImages: the one-element list of the default image (index 1). */
  function ProductImages(publicUrl: Option<string>, productId: int): (urls: seq<string>)
    ensures |urls| == 1 && urls[0] == ProductImage(publicUrl, productId, 1)
  {
    [ProductImage(publicUrl, productId, 1)]
  }

  /** getProductVideo: the preview video of a course, present only for ids 1 to 30. */
  function ProductVideo(publicUrl: Option<string>, productId: int): (r: Option<string>)
    ensures r.Some? <==> 1 <= productId <= 30
    ensures r.Some? ==> r.value == VideoPath(publicUrl, VideoFileName(productId))
  {
    if productId >= 1 && productId <= 30 then
      Some(VideoPath(publicUrl, VideoFileName(productId)))
    else
      None
  }

  /** The URL of the preview video names the course's id as its segment number. */
  lemma ProductVideoNamesId(publicUrl: Option<string>, productId: int)
    requires ProductVideo(publicUrl, productId).Some?
    ensures SegmentOf(publicUrl, ProductVideo(publicUrl, productId).value) == Some(productId)
  {
    SegmentOfVideoPath(publicUrl, productId);
  }

  /** Distinct courses have distinct preview videos. */
  lemma ProductVideoInjective(publicUrl: Option<string>, id1: int, id2: int)
    requires ProductVideo(publicUrl, id1).Some? && ProductVideo(publicUrl, id2).Some?
    ensures ProductVideo(publicUrl, id1) == ProductVideo(publicUrl, id2) <==> id1 == id2
  {
    VideoPathSegmentInjective(publicUrl, id1, id2);
  }

  /**
   * createVideoPath, the helper local to getProductVideos: a URL served from
   * the base that names segment `num`.
   */
  function SegmentVideo(publicUrl: Option<string>, num: nat): (url: string)
    ensures ServedFrom(BaseUrl(publicUrl), url)
    ensures SegmentOf(publicUrl, url) == Some(num)
  {
    SegmentOfVideoPath(publicUrl, num);
    VideoPath(publicUrl, VideoFileName(num))
  }

  /** The URLs of a list of segments, in the same order: createVideoPath applied to each. */
  function SegmentVideos(publicUrl: Option<string>, nums: seq<nat>): (urls: seq<string>)
    ensures |urls| == |nums|
    ensures forall i :: 0 <= i < |nums| ==> urls[i] == SegmentVideo(publicUrl, nums[i])
  {
    if nums == [] then [] else [SegmentVideo(publicUrl, nums[0])] + SegmentVideos(publicUrl, nums[1..])
  }

  /**
   * The hand-maintained table inside getProductVideos: the segment numbers
   * each multi-video course plays, in presentation order.
   */
  function VideoSegments(productId: int): (r: Option<seq<nat>>)
    ensures r.Some? <==> 5 <= productId <= 11
    ensures r.Some? ==> |r.value| == (if productId <= 7 then 2 else if productId <= 10 then 3 else 4)
    ensures r.Some? ==> forall i :: 0 <= i < |r.value| ==> 1 <= r.value[i] <= 30
    ensures r.Some? ==> forall i, j :: 0 <= i < j < |r.value| ==> r.value[i] != r.value[j]
  {
    if productId == 5 then Some([12, 17])
    else if productId == 6 then Some([14, 15])
    else if productId == 7 then Some([16, 19])
    else if productId == 8 then Some([20, 21, 22])
    else if productId == 9 then Some([23, 24, 25])
    else if productId == 10 then Some([26, 28, 29])
    else if productId == 11 then Some([30, 1, 2, 3])
    else None
  }

  /** getProductVideos: createVideoPath applied to each segment of the course's table entry. */
  function ProductVideos(publicUrl: Option<string>, productId: int): (r: Option<seq<string>>)
    ensures r.Some? <==> 5 <= productId <= 11
  {
    match VideoSegments(productId)
    case Some(nums) => Some(SegmentVideos(publicUrl, nums))
    case None => None
  }

  /** The segment numbers named by a list of video URLs; None if any of them is not a segment URL. */
  function SegmentsOf(publicUrl: Option<string>, urls: seq<string>): (r: Option<seq<nat>>)
    ensures r.Some? ==> |r.value| == |urls|
  {
    if urls == [] then Some([])
    else match (SegmentOf(publicUrl, urls[0]), SegmentsOf(publicUrl, urls[1..]))
      case (Some(n), Some(ns)) => Some([n] + ns)
      case _ => None
  }

  /** A list of URLs each naming its segment decodes to the list of those segments. */
  lemma {:induction false} SegmentsOfEach(publicUrl: Option<string>, urls: seq<string>, nums: seq<nat>)
    requires |urls| == |nums|
    requires forall i :: 0 <= i < |urls| ==> SegmentOf(publicUrl, urls[i]) == Some(nums[i])
    ensures SegmentsOf(publicUrl, urls) == Some(nums)
  {
    if urls != [] {
      SegmentsOfEach(publicUrl, urls[1..], nums[1..]);
      assert nums == [nums[0]] + nums[1..];
    }
  }

  /** Reading the segment numbers back out of a list of segment URLs gives the list of numbers. */
  lemma SegmentsOfSegmentVideos(publicUrl: Option<string>, nums: seq<nat>)
    ensures SegmentsOf(publicUrl, SegmentVideos(publicUrl, nums)) == Some(nums)
  {
    SegmentsOfEach(publicUrl, SegmentVideos(publicUrl, nums), nums);
  }

  /** Each multi-video course's URLs name exactly the segments of its table entry, in order. */
  lemma ProductVideosNameSegments(publicUrl: Option<string>, productId: int)
    requires 5 <= productId <= 11
    ensures SegmentsOf(publicUrl, ProductVideos(publicUrl, productId).value) == VideoSegments(productId)
  {
    SegmentsOfSegmentVideos(publicUrl, VideoSegments(productId).value);
  }

  /** Every URL of a multi-video course is the preview video of the segment it plays. */
  lemma ProductVideosArePreviews(publicUrl: Option<string>, productId: int, i: int)
    requires ProductVideos(publicUrl, productId).Some?
    requires 0 <= i < |ProductVideos(publicUrl, productId).value|
    ensures ProductVideo(publicUrl, VideoSegments(productId).value[i]) == Some(ProductVideos(publicUrl, productId).value[i])
  {
  }

  /** No multi-video course lists the same URL twice. */
  lemma ProductVideosDistinct(publicUrl: Option<string>, productId: int)
    requires ProductVideos(publicUrl, productId).Some?
    ensures var urls := ProductVideos(publicUrl, productId).value;
            forall i, j :: 0 <= i < j < |urls| ==> urls[i] != urls[j]
  {
    var urls, nums := ProductVideos(publicUrl, productId).value, VideoSegments(productId).value;
    forall i, j | 0 <= i < j < |urls| ensures urls[i] != urls[j] {
      VideoPathSegmentInjective(publicUrl, nums[i], nums[j]);
    }
  }
}
