/** The generation client of lib/seedream-api.ts: the records it produces, the
    normalisation of webhook replies, the mapping of failures to messages, the
    client object that keeps its own image and video histories, and the names
    under which downloads are saved. */
module SeedreamApi {
  import opened Wrappers
  import opened Text

  // ---------------------------------------------------------------------------
  // Records

  datatype GenerationRequest = GenerationRequest(prompt: string, style: string, dimension: string, quality: string)

  /** A record's `createdAt`: the `Date` the client creates (carrying its
      ISO time), or the ISO string the hook stores in its place. */
  datatype Timestamp = DateValue(iso: string) | IsoText(text: string)

  datatype GeneratedImage = GeneratedImage(
    id: string, url: string, prompt: string, style: string, dimension: string, quality: string, createdAt: Timestamp)

  datatype GeneratedVideo = GeneratedVideo(
    id: string, url: string, imageId: string, imageUrl: string,
    prompt: string, style: string, dimension: string, quality: string, createdAt: Timestamp)

  /** Which of the two webhooks a call goes to. */
  datatype Media = Image | Video

  /** The request that regenerates `image`: its four user-chosen fields. */
  function RequestOf(image: GeneratedImage): GenerationRequest {
    GenerationRequest(image.prompt, image.style, image.dimension, image.quality)
  }

  /** The source image a video was made from, rebuilt from the video alone
      (`{ ...video, id: video.imageId, url: video.imageUrl }`); both the
      generator panel and the history sidebar retry a video this way. */
  function SourceImageOf(video: GeneratedVideo): GeneratedImage {
    GeneratedImage(video.imageId, video.imageUrl, video.prompt, video.style, video.dimension, video.quality, video.createdAt)
  }

  const ImageIdPrefix := "img_"
  const VideoIdPrefix := "vid_"

  /** The image made from `request` once the webhook answered with `url`.
      `stamp` stands for the `<time>_<random>` part of the minted id, and
      `createdAt` for the ISO time of the `new Date()` it is stamped with. */
  function BuildImage(request: GenerationRequest, url: string, stamp: string, createdAt: string): (image: GeneratedImage)
    ensures RequestOf(image) == request
    ensures image.url == url && image.createdAt == DateValue(createdAt)
    ensures StartsWith(image.id, ImageIdPrefix) && image.id[|ImageIdPrefix|..] == stamp
  {
    GeneratedImage(ImageIdPrefix + stamp, url, request.prompt, request.style, request.dimension, request.quality, DateValue(createdAt))
  }

  /** The video made from `image` once the webhook answered with `url`. */
  function BuildVideo(image: GeneratedImage, url: string, stamp: string, createdAt: string): (video: GeneratedVideo)
    ensures video.imageId == image.id && video.imageUrl == image.url
    ensures SourceImageOf(video) == image.(createdAt := DateValue(createdAt))
    ensures video.url == url && video.createdAt == DateValue(createdAt)
    ensures StartsWith(video.id, VideoIdPrefix) && video.id[|VideoIdPrefix|..] == stamp
  {
    GeneratedVideo(VideoIdPrefix + stamp, url, image.id, image.url, image.prompt, image.style, image.dimension, image.quality, DateValue(createdAt))
  }

  // ---------------------------------------------------------------------------
  // Webhook replies

  /** A JSON object of a webhook reply, reduced to the two fields the client
      reads; `None` is a missing (undefined) field. */
  datatype ReplyObject = ReplyObject(imageUrl: Option<string>, videoUrl: Option<string>)

  /** A parsed reply body: an array of objects, a single object, `null`, or
      any other JSON value (a string, a number, a boolean), on which a field
      read gives `undefined`. */
  datatype Body = ArrayBody(items: seq<ReplyObject>) | ObjectBody(fields: ReplyObject) | NullBody | ScalarBody

  /** An error value as thrown by the runtime or by the client. */
  datatype Thrown = TypeError(message: string) | PlainError(message: string)

  /** How the HTTP exchange ended: `fetch` or `response.json()` threw, the
      status was not 2xx, or a JSON body arrived. */
  datatype Transport = Threw(error: Thrown) | HttpFailure(status: nat, text: string) | Delivered(body: Body)

  function UrlField(m: Media, o: ReplyObject): Option<string> {
    if m == Image then o.imageUrl else o.videoUrl
  }

  /** JavaScript truthiness of a string field. */
  predicate Truthy(v: Option<string>) {
    v.Some? && v.value != ""
  }

  /** The URL a reply carries: the first element's field for a non-empty
      array, the object's own field otherwise; a missing or empty field is no
      URL. This is the corrected rule (see `ExtractUrlAsWritten`). */
  function ExtractUrl(m: Media, body: Body): (url: Option<string>)
    ensures url.Some? ==> url.value != ""
  {
    if body.ArrayBody? && |body.items| > 0 then
      (if Truthy(UrlField(m, body.items[0])) then UrlField(m, body.items[0]) else None)
    else if body.ObjectBody? && Truthy(UrlField(m, body.fields)) then UrlField(m, body.fields)
    else None
  }

  /** The rule as the client writes it: the array branch takes the first
      element's field without checking it, so an element without the field
      yields a record whose url is `undefined` (`Success(None)`); reading the
      field of `null` throws. */
  function ExtractUrlAsWritten(m: Media, body: Body): Result<Option<string>, Thrown> {
    if body.ArrayBody? && |body.items| > 0 then Success(UrlField(m, body.items[0]))
    else if body.NullBody? then Failure(TypeError(NullReadMessage(m)))
    else if body.ObjectBody? && Truthy(UrlField(m, body.fields)) then Success(UrlField(m, body.fields))
    else Failure(PlainError(NoUrlMessage(m)))
  }

  /** The three cases of the corrected rule, stated per shape. */
  lemma ExtractUrlCases(m: Media, body: Body)
    ensures body.ArrayBody? && |body.items| > 0 ==>
      ExtractUrl(m, body) == (if Truthy(UrlField(m, body.items[0])) then UrlField(m, body.items[0]) else None)
    ensures body.ObjectBody? ==>
      ExtractUrl(m, body) == (if Truthy(UrlField(m, body.fields)) then UrlField(m, body.fields) else None)
    ensures (body.NullBody? || body.ScalarBody? || body == ArrayBody([])) ==> ExtractUrl(m, body) == None
  {
  }

  /** Both accepted shapes give the same URL: an object wrapped as the first
      element of an array is read exactly as the bare object. */
  lemma ShapesAgree(m: Media, o: ReplyObject, rest: seq<ReplyObject>)
    ensures ExtractUrl(m, ArrayBody([o] + rest)) == ExtractUrl(m, ObjectBody(o))
  {
  }

  /** The written rule and the corrected one agree on every reply that carries
      a URL, and the written rule fails wherever the corrected one does except
      on a non-empty array whose first element lacks the field. */
  lemma AsWrittenDiffersOnlyOnBareArrays(m: Media, body: Body)
    ensures ExtractUrl(m, body).Some? ==> ExtractUrlAsWritten(m, body) == Success(ExtractUrl(m, body))
    ensures body.NullBody? ==> ExtractUrlAsWritten(m, body) == Failure(TypeError(NullReadMessage(m)))
    ensures ExtractUrl(m, body).None? && !body.NullBody? && !(body.ArrayBody? && |body.items| > 0) ==>
      ExtractUrlAsWritten(m, body) == Failure(PlainError(NoUrlMessage(m)))
  {
  }

  /** The discrepancy: `[{}]` is accepted as written, with an undefined URL. */
  lemma AsWrittenAcceptsMissingUrl()
    ensures ExtractUrlAsWritten(Image, ArrayBody([ReplyObject(None, None)])) == Success(None)
    ensures ExtractUrl(Image, ArrayBody([ReplyObject(None, None)])) == None
  {
  }

  // ---------------------------------------------------------------------------
  // Failures and their messages

  /** The runtime's message for reading the URL field of `null`. */
  function NullReadMessage(m: Media): string {
    "Cannot read properties of null (reading '" + (if m == Image then "imageUrl" else "videoUrl") + "')"
  }

  function NoUrlMessage(m: Media): string {
    if m == Image then "No image URL in response" else "No video URL in response"
  }

  function MediaNoun(m: Media): string {
    if m == Image then "image" else "video"
  }

  function NetworkMessage(m: Media): string {
    "Network error: Unable to connect to " + MediaNoun(m) + " generation service. "
    + "Please check your internet connection and try again."
  }

  function FailedMessage(m: Media): string {
    "Failed to generate " + MediaNoun(m) + ". Please try again."
  }

  /** The number a string of decimal digits denotes. */
  function DigitsValue(s: string): nat
    requires forall i :: 0 <= i < |s| ==> '0' <= s[i] <= '9'
  {
    if s == [] then 0 else DigitsValue(s[..|s| - 1]) * 10 + (s[|s| - 1] - '0') as nat
  }

  /** `String(n)`: the decimal digits of `n`, without leading zeros. */
  function DecimalString(n: nat): (s: string)
    ensures |s| > 0 && forall i :: 0 <= i < |s| ==> '0' <= s[i] <= '9'
    ensures DigitsValue(s) == n
    ensures s[0] == '0' ==> s == "0"
  {
    var d := ['0' + (n % 10) as char];
    if n < 10 then d else DecimalString(n / 10) + d
  }

  function StatusMessage(m: Media, status: nat, text: string): string {
    (if m == Image then "Webhook request failed: " else "Video generation webhook failed: ")
    + DecimalString(status) + " - " + text
  }

  /** The body of the `try` block: the URL, or the error that escapes it. */
  function Attempt(m: Media, t: Transport): (r: Result<string, Thrown>)
    ensures r.Success? <==> t.Delivered? && ExtractUrl(m, t.body).Some?
    ensures r.Success? ==> r.value == ExtractUrl(m, t.body).value
    ensures t.Threw? ==> r == Failure(t.error)
    ensures t.HttpFailure? ==> r == Failure(PlainError(StatusMessage(m, t.status, t.text)))
    ensures t.Delivered? && t.body.NullBody? ==> r == Failure(TypeError(NullReadMessage(m)))
    ensures t.Delivered? && !t.body.NullBody? && ExtractUrl(m, t.body).None? ==> r == Failure(PlainError(NoUrlMessage(m)))
  {
    match t
    case Threw(e) => Failure(e)
    case HttpFailure(status, text) => Failure(PlainError(StatusMessage(m, status, text)))
    case Delivered(body) =>
      if body.NullBody? then Failure(TypeError(NullReadMessage(m)))
      else
        match ExtractUrl(m, body)
        case Some(url) => Success(url)
        case None => Failure(PlainError(NoUrlMessage(m)))
  }

  /** The `catch` block: every error is rethrown as one of two messages. */
  function CatchMessage(m: Media, e: Thrown): (msg: string)
    ensures msg == NetworkMessage(m) || msg == FailedMessage(m)
    ensures msg == NetworkMessage(m) <==> e.TypeError? && Includes(e.message, "fetch")
  {
    if e.TypeError? && Includes(e.message, "fetch") then NetworkMessage(m) else FailedMessage(m)
  }

  /** The outcome of `generateImage(request)` for the given exchange. */
  function ImageGeneration(request: GenerationRequest, t: Transport, stamp: string, createdAt: string): (r: Result<GeneratedImage, string>)
    ensures r.Success? <==> t.Delivered? && ExtractUrl(Image, t.body).Some?
    ensures r.Success? ==> r.value == BuildImage(request, ExtractUrl(Image, t.body).value, stamp, createdAt)
    ensures r.Failure? ==> r.error == NetworkMessage(Image) || r.error == FailedMessage(Image)
    ensures r.Failure? ==> (r.error == NetworkMessage(Image) <==> t.Threw? && t.error.TypeError? && Includes(t.error.message, "fetch"))
  {
    NullReadIsNotNetwork(Image);
    match Attempt(Image, t)
    case Success(url) => Success(BuildImage(request, url, stamp, createdAt))
    case Failure(e) => Failure(CatchMessage(Image, e))
  }

  /** The outcome of `generateVideo(image)` for the given exchange. */
  function VideoGeneration(image: GeneratedImage, t: Transport, stamp: string, createdAt: string): (r: Result<GeneratedVideo, string>)
    ensures r.Success? <==> t.Delivered? && ExtractUrl(Video, t.body).Some?
    ensures r.Success? ==> r.value == BuildVideo(image, ExtractUrl(Video, t.body).value, stamp, createdAt)
    ensures r.Failure? ==> r.error == NetworkMessage(Video) || r.error == FailedMessage(Video)
    ensures r.Failure? ==> (r.error == NetworkMessage(Video) <==> t.Threw? && t.error.TypeError? && Includes(t.error.message, "fetch"))
  {
    NullReadIsNotNetwork(Video);
    match Attempt(Video, t)
    case Success(url) => Success(BuildVideo(image, url, stamp, createdAt))
    case Failure(e) => Failure(CatchMessage(Video, e))
  }

  /** Reading a field of `null` is a TypeError, but not one about `fetch`. */
  lemma NullReadIsNotNetwork(m: Media)
    ensures !Includes(NullReadMessage(m), "fetch")
  {
    var field := if m == Image then "imageUrl" else "videoUrl";
    assert 'h' !in "Cannot read properties of null (reading '" && 'h' !in field && 'h' !in "')";
    ExcludedCharBlocksIncludes(NullReadMessage(m), "fetch", 'h');
  }

  /** `image.createdAt.toISOString()`, evaluated while the video request body
      is built, before anything is sent: a `Date` answers with its ISO time,
      while a string has no such method and the call throws. */
  function PayloadCreatedAt(image: GeneratedImage): (r: Result<string, Thrown>)
    ensures r.Success? <==> image.createdAt.DateValue?
    ensures r.Success? ==> r.value == image.createdAt.iso
    ensures r.Failure? ==> r.error.TypeError? && !Includes(r.error.message, "fetch")
  {
    match image.createdAt
    case DateValue(iso) => Success(iso)
    case IsoText(_) =>
      NotAFunctionIsNotNetwork();
      Failure(TypeError(NotAFunctionMessage))
  }

  /** The runtime's message for calling the missing method. */
  const NotAFunctionMessage := "image.createdAt.toISOString is not a function"

  lemma NotAFunctionIsNotNetwork()
    ensures !Includes(NotAFunctionMessage, "fetch")
  {
    assert 'h' !in "image.createdAt.toISOString" && 'h' !in " is not a function";
    assert NotAFunctionMessage == "image.createdAt.toISOString" + " is not a function";
    ExcludedCharBlocksIncludes(NotAFunctionMessage, "fetch", 'h');
  }

  /** `generateVideo(image)` as written: an image whose `createdAt` is ISO
      text fails with the generic message whatever the webhook would have
      answered. `VideoGeneration` is the intended outcome, in which the
      timestamp is serialised whatever its form. */
  function VideoGenerationAsWritten(image: GeneratedImage, t: Transport, stamp: string, createdAt: string): (r: Result<GeneratedVideo, string>)
    ensures image.createdAt.DateValue? ==> r == VideoGeneration(image, t, stamp, createdAt)
  {
    match PayloadCreatedAt(image)
    case Failure(e) => Failure(CatchMessage(Video, e))
    case Success(_) => VideoGeneration(image, t, stamp, createdAt)
  }

  /** The discrepancy: an image carrying ISO text, the form every stored
      image has, never becomes a video as written, even when the webhook
      delivers a URL, while the intended outcome is that video. */
  lemma AsWrittenRejectsIsoTimestamps(image: GeneratedImage, t: Transport, stamp: string, createdAt: string)
    requires image.createdAt.IsoText?
    ensures VideoGenerationAsWritten(image, t, stamp, createdAt) == Failure(FailedMessage(Video))
    ensures t.Delivered? && ExtractUrl(Video, t.body).Some? ==>
      VideoGeneration(image, t, stamp, createdAt) == Success(BuildVideo(image, ExtractUrl(Video, t.body).value, stamp, createdAt))
  {
  }

  /** A non-2xx status and a reply without a URL both surface as the generic
      message, never as the network message. */
  lemma StatusAndMissingUrlAreGeneric(m: Media, status: nat, text: string, body: Body)
    requires ExtractUrl(m, body).None?
    ensures Attempt(m, HttpFailure(status, text)).Failure?
    ensures CatchMessage(m, Attempt(m, HttpFailure(status, text)).error) == FailedMessage(m)
    ensures Attempt(m, Delivered(body)).Failure?
    ensures CatchMessage(m, Attempt(m, Delivered(body)).error) == FailedMessage(m)
  {
    assert Attempt(m, HttpFailure(status, text)).error.PlainError?;
    if body.NullBody? {
      NullReadIsNotNetwork(m);
    } else {
      assert Attempt(m, Delivered(body)).error == PlainError(NoUrlMessage(m));
    }
  }

  // ---------------------------------------------------------------------------
  // Lookup by id

  /** The position of the first entry whose id is `id` (`Array.prototype.find`). */
  function FirstWithId<T>(s: seq<T>, id: string, idOf: T -> string): (k: Option<nat>)
    ensures k.Some? ==> k.value < |s| && idOf(s[k.value]) == id
    ensures k.Some? ==> forall j :: 0 <= j < k.value ==> idOf(s[j]) != id
    ensures k.None? <==> forall j :: 0 <= j < |s| ==> idOf(s[j]) != id
  {
    if s == [] then None
    else if idOf(s[0]) == id then Some(0)
    else
      match FirstWithId(s[1..], id, idOf)
      case None => None
      case Some(j) => Some(j + 1)
  }

  function FindImage(images: seq<GeneratedImage>, id: string): Option<GeneratedImage> {
    match FirstWithId(images, id, (img: GeneratedImage) => img.id)
    case None => None
    case Some(k) => Some(images[k])
  }

  function FindVideo(videos: seq<GeneratedVideo>, id: string): Option<GeneratedVideo> {
    match FirstWithId(videos, id, (vid: GeneratedVideo) => vid.id)
    case None => None
    case Some(k) => Some(videos[k])
  }

  /** A lookup succeeds exactly when the id occurs, and finds an entry of the list with that id. */
  lemma FindImageSpec(images: seq<GeneratedImage>, id: string)
    ensures FindImage(images, id).Some? <==> exists i :: 0 <= i < |images| && images[i].id == id
    ensures FindImage(images, id).Some? ==> FindImage(images, id).value in images && FindImage(images, id).value.id == id
  {
    var idOf := (img: GeneratedImage) => img.id;
    var k := FirstWithId(images, id, idOf);
    if k.None? {
      forall i | 0 <= i < |images| ensures images[i].id != id { assert idOf(images[i]) != id; }
    }
  }

  lemma FindVideoSpec(videos: seq<GeneratedVideo>, id: string)
    ensures FindVideo(videos, id).Some? <==> exists i :: 0 <= i < |videos| && videos[i].id == id
    ensures FindVideo(videos, id).Some? ==> FindVideo(videos, id).value in videos && FindVideo(videos, id).value.id == id
  {
    var idOf := (vid: GeneratedVideo) => vid.id;
    var k := FirstWithId(videos, id, idOf);
    if k.None? {
      forall i | 0 <= i < |videos| ensures videos[i].id != id { assert idOf(videos[i]) != id; }
    }
  }

  // ---------------------------------------------------------------------------
  // Download file names

  /** The characters kept by `replace(/[^a-zA-Z0-9\s]/g, "")`. */
  predicate Kept(c: char) {
    IsAsciiAlnum(c) || IsSpace(c)
  }

  predicate SlugChar(c: char) {
    IsAsciiAlnum(c) || c == '-'
  }

  predicate NoDoubleHyphen(s: string) {
    forall i :: 0 <= i < |s| - 1 ==> !(s[i] == '-' && s[i + 1] == '-')
  }

  /** The filter of `replace(/[^a-zA-Z0-9\s]/g, "")`: it leaves kept text as
      it is and removes text without kept characters altogether (with
      `KeepAllowedAppend`, it removes exactly the other characters, in place). */
  function KeepAllowed(s: string): (r: string)
    ensures |r| <= |s|
    ensures forall i :: 0 <= i < |r| ==> Kept(r[i])
    ensures AllKept(s) ==> r == s
    ensures (forall i :: 0 <= i < |s| ==> !Kept(s[i])) ==> r == []
  {
    if s == [] then [] else (if Kept(s[0]) then [s[0]] else []) + KeepAllowed(s[1..])
  }

  /** `s.substring(0, n)`. */
  function Prefix(s: string, n: nat): (r: string)
    ensures |r| <= n && |r| <= |s| && r == s[..|r|]
  {
    if |s| <= n then s else s[..n]
  }

  /** `replace(/\s+/g, "-")`: every maximal run of whitespace becomes one hyphen. */
  function Hyphenate(s: string): (r: string)
    ensures |r| <= |s|
    decreases |s|
  {
    if s == [] then []
    else if IsSpace(s[0]) then
      var rest := TrimStart(s);
      "-" + Hyphenate(rest)
    else [s[0]] + Hyphenate(s[1..])
  }

  /** The prompt as it appears in a download's file name. */
  function CleanPrompt(prompt: string): string {
    Hyphenate(Trim(Prefix(KeepAllowed(prompt), 30)))
  }

  /** The letters and digits of `s`, in order. */
  function Alnums(s: string): string {
    if s == [] then [] else (if IsAsciiAlnum(s[0]) then [s[0]] else []) + Alnums(s[1..])
  }

  predicate AllKept(s: string) {
    forall i :: 0 <= i < |s| ==> Kept(s[i])
  }

  lemma {:induction false} AlnumsAppend(a: string, b: string)
    ensures Alnums(a + b) == Alnums(a) + Alnums(b)
  {
    if a == [] {
      assert a + b == b;
    } else {
      var head := if IsAsciiAlnum(a[0]) then [a[0]] else [];
      assert (a + b)[0] == a[0];
      assert (a + b)[1..] == a[1..] + b;
      calc {
        Alnums(a + b);
        head + Alnums(a[1..] + b);
        { AlnumsAppend(a[1..], b); }
        head + (Alnums(a[1..]) + Alnums(b));
        (head + Alnums(a[1..])) + Alnums(b);
      }
    }
  }

  /** The filter works character by character: filtering a concatenation
      filters each part. */
  lemma {:induction false} KeepAllowedAppend(a: string, b: string)
    ensures KeepAllowed(a + b) == KeepAllowed(a) + KeepAllowed(b)
  {
    if a == [] {
      assert a + b == b;
    } else {
      var head := if Kept(a[0]) then [a[0]] else [];
      assert (a + b)[0] == a[0];
      assert (a + b)[1..] == a[1..] + b;
      KeepAllowedAppend(a[1..], b);
      assert KeepAllowed(a + b) == head + (KeepAllowed(a[1..]) + KeepAllowed(b));
    }
  }

  /** The filter removes no letter or digit and reorders nothing. */
  lemma {:induction false} KeepAllowedKeepsAlnums(s: string)
    ensures Alnums(KeepAllowed(s)) == Alnums(s)
  {
    if s != [] {
      KeepAllowedKeepsAlnums(s[1..]);
      var head := if Kept(s[0]) then [s[0]] else [];
      AlnumsAppend(head, KeepAllowed(s[1..]));
    }
  }

  lemma {:induction false} AlnumsOfSpaces(s: string)
    requires AllSpaces(s)
    ensures Alnums(s) == []
  {
    if s != [] {
      assert AllSpaces(s[1..]);
      AlnumsOfSpaces(s[1..]);
    }
  }

  lemma AllKeptSlice(s: string, i: nat, j: nat)
    requires AllKept(s) && i <= j <= |s|
    ensures AllKept(s[i..j])
  {
    forall k | 0 <= k < j - i ensures Kept(s[i..j][k]) { assert s[i..j][k] == s[i + k]; }
  }

  /** What follows a leading run of whitespace is still kept text. */
  lemma TrimStartKept(s: string)
    requires AllKept(s)
    ensures AllKept(TrimStart(s))
  {
    var rest := TrimStart(s);
    AllKeptSlice(s, |s| - |rest|, |s|);
    assert rest == s[|s| - |rest|..|s|];
  }

  /** Hyphenating kept characters yields only letters, digits and hyphens. */
  lemma {:induction false} HyphenateSlugChars(s: string)
    requires AllKept(s)
    ensures forall i :: 0 <= i < |Hyphenate(s)| ==> SlugChar(Hyphenate(s)[i])
    decreases |s|
  {
    if s == [] {
    } else if IsSpace(s[0]) {
      var rest := TrimStart(s);
      TrimStartKept(s);
      HyphenateSlugChars(rest);
      var h := Hyphenate(rest);
      var r := Hyphenate(s);
      assert r == "-" + h;
      forall i | 0 <= i < |r| ensures SlugChar(r[i]) {
        if i > 0 { assert r[i] == h[i - 1]; }
      }
    } else {
      var tail := s[1..];
      AllKeptSlice(s, 1, |s|);
      assert tail == s[1..|s|];
      HyphenateSlugChars(tail);
      var h := Hyphenate(tail);
      var r := Hyphenate(s);
      assert r == [s[0]] + h;
      forall i | 0 <= i < |r| ensures SlugChar(r[i]) {
        if i > 0 { assert r[i] == h[i - 1]; }
      }
    }
  }

  /** A hyphen stands at either end of the hyphenated text exactly where a
      run of whitespace stood at that end. */
  lemma {:induction false} HyphenateEnds(s: string)
    requires AllKept(s) && s != []
    ensures Hyphenate(s) != []
    ensures Hyphenate(s)[0] == '-' <==> IsSpace(s[0])
    ensures Hyphenate(s)[|Hyphenate(s)| - 1] == '-' <==> IsSpace(s[|s| - 1])
    decreases |s|
  {
    var r := Hyphenate(s);
    if IsSpace(s[0]) {
      var rest := TrimStart(s);
      var k := |s| - |rest|;
      assert r == "-" + Hyphenate(rest);
      if rest == [] {
        assert s[..k] == s;
        assert IsSpace(s[..k][|s| - 1]);
      } else {
        TrimStartKept(s);
        HyphenateEnds(rest);
        assert rest[|rest| - 1] == s[|s| - 1];
        assert r[|r| - 1] == Hyphenate(rest)[|Hyphenate(rest)| - 1];
      }
    } else {
      var tail := s[1..];
      assert r == [s[0]] + Hyphenate(tail);
      if tail != [] {
        AllKeptSlice(s, 1, |s|);
        assert tail == s[1..|s|];
        HyphenateEnds(tail);
        assert tail[|tail| - 1] == s[|s| - 1];
        assert r[|r| - 1] == Hyphenate(tail)[|Hyphenate(tail)| - 1];
      } else {
        assert Kept(s[0]);
      }
    }
  }

  lemma NoDoubleHyphenCons(c: char, h: string)
    requires NoDoubleHyphen(h) && (c == '-' ==> h == [] || h[0] != '-')
    ensures NoDoubleHyphen([c] + h)
  {
    var r := [c] + h;
    forall i | 0 <= i < |r| - 1 ensures !(r[i] == '-' && r[i + 1] == '-') {
      if i > 0 { assert r[i] == h[i - 1] && r[i + 1] == h[i]; }
    }
  }

  /** Hyphenating kept characters never puts two hyphens side by side. */
  lemma {:induction false} HyphenateNoDoubleHyphen(s: string)
    requires AllKept(s)
    ensures NoDoubleHyphen(Hyphenate(s))
    decreases |s|
  {
    if s == [] {
    } else if IsSpace(s[0]) {
      var rest := TrimStart(s);
      TrimStartKept(s);
      HyphenateNoDoubleHyphen(rest);
      if rest != [] {
        HyphenateEnds(rest);
      }
      assert Hyphenate(s) == ['-'] + Hyphenate(rest);
      NoDoubleHyphenCons('-', Hyphenate(rest));
    } else {
      var tail := s[1..];
      AllKeptSlice(s, 1, |s|);
      assert tail == s[1..|s|];
      HyphenateNoDoubleHyphen(tail);
      assert Hyphenate(s) == [s[0]] + Hyphenate(tail);
      assert Kept(s[0]);
      NoDoubleHyphenCons(s[0], Hyphenate(tail));
    }
  }

  /** Hyphenating keeps every letter and digit, in order. */
  lemma {:induction false} HyphenateKeepsAlnums(s: string)
    ensures Alnums(Hyphenate(s)) == Alnums(s)
    decreases |s|
  {
    if s == [] {
    } else if IsSpace(s[0]) {
      var rest := TrimStart(s);
      var k := |s| - |rest|;
      assert s == s[..k] + rest;
      HyphenateKeepsAlnums(rest);
      AlnumsAppend("-", Hyphenate(rest));
      AlnumsAppend(s[..k], rest);
      AlnumsOfSpaces(s[..k]);
    } else {
      HyphenateKeepsAlnums(s[1..]);
      AlnumsAppend([s[0]], Hyphenate(s[1..]));
    }
  }

  /** The first 30 characters the filter lets through are kept text. */
  lemma KeptPrefix(prompt: string)
    ensures |Prefix(KeepAllowed(prompt), 30)| <= 30
    ensures AllKept(Prefix(KeepAllowed(prompt), 30))
  {
    var kept := KeepAllowed(prompt);
    var p := Prefix(kept, 30);
    AllKeptSlice(kept, 0, |p|);
    assert p == kept[0..|p|];
  }

  /** Trimming kept text leaves kept text. */
  lemma TrimKept(p: string)
    requires AllKept(p)
    ensures AllKept(Trim(p))
  {
    var a := TrimIsSegment(p);
    AllKeptSlice(p, a, a + |Trim(p)|);
  }

  /** The cleaned prompt is a slug of at most 30 characters: only letters,
      digits and single hyphens, with no hyphen at either end. */
  lemma CleanPromptIsSlug(prompt: string)
    ensures var c := CleanPrompt(prompt);
      && |c| <= 30
      && (forall i :: 0 <= i < |c| ==> SlugChar(c[i]))
      && (c != [] ==> c[0] != '-' && c[|c| - 1] != '-')
      && NoDoubleHyphen(c)
  {
    KeptPrefix(prompt);
    var p := Prefix(KeepAllowed(prompt), 30);
    TrimKept(p);
    HyphenatedSlug(Trim(p));
  }

  /** Hyphenating trimmed kept text gives a slug no longer than the text. */
  lemma HyphenatedSlug(t: string)
    requires AllKept(t) && (t != [] ==> !IsSpace(t[0]) && !IsSpace(t[|t| - 1]))
    ensures var c := Hyphenate(t);
      && |c| <= |t|
      && (forall i :: 0 <= i < |c| ==> SlugChar(c[i]))
      && (c != [] ==> c[0] != '-' && c[|c| - 1] != '-')
      && NoDoubleHyphen(c)
  {
    HyphenateSlugChars(t);
    HyphenateNoDoubleHyphen(t);
    if t != [] {
      HyphenateEnds(t);
    }
  }

  /** The cleaned prompt keeps every letter and digit of the first 30
      characters the filter let through, in order. */
  lemma CleanPromptKeepsAlnums(prompt: string)
    ensures Alnums(CleanPrompt(prompt)) == Alnums(Prefix(KeepAllowed(prompt), 30))
  {
    var p := Prefix(KeepAllowed(prompt), 30);
    var t := Trim(p);
    var a := TrimSplit(p);
    HyphenateKeepsAlnums(t);
    AlnumsAppend(p[..a] + t, p[a + |t|..]);
    AlnumsAppend(p[..a], t);
    AlnumsOfSpaces(p[..a]);
    AlnumsOfSpaces(p[a + |t|..]);
  }

  /** The letters and digits of the cleaned prompt are the leading letters
      and digits of the prompt itself, and all of them when the filtered
      prompt fits in 30 characters. */
  lemma CleanPromptPrefixOfPrompt(prompt: string)
    ensures Alnums(CleanPrompt(prompt)) <= Alnums(prompt)
    ensures |KeepAllowed(prompt)| <= 30 ==> Alnums(CleanPrompt(prompt)) == Alnums(prompt)
  {
    CleanPromptKeepsAlnums(prompt);
    KeepAllowedKeepsAlnums(prompt);
    AlnumsOfPrefix(KeepAllowed(prompt), Prefix(KeepAllowed(prompt), 30));
  }

  lemma AlnumsOfPrefix(k: string, p: string)
    requires p <= k
    ensures Alnums(p) <= Alnums(k)
  {
    assert k == p + k[|p|..];
    AlnumsAppend(p, k[|p|..]);
  }

  /** `new Date().toISOString().slice(0, 10)`, given the ISO time. */
  function DateStamp(isoNow: string): string {
    Prefix(isoNow, 10)
  }

  function DownloadName(m: Media, prompt: string, isoNow: string): string {
    if m == Image then "seedream-" + CleanPrompt(prompt) + "-" + DateStamp(isoNow) + ".png"
    else "seedream-video-" + CleanPrompt(prompt) + "-" + DateStamp(isoNow) + ".mp4"
  }

  // ---------------------------------------------------------------------------
  // Download and share, after the lookup

  /** What download and share use of an entry. */
  datatype Target = Target(prompt: string, url: string)

  function ImageTarget(images: seq<GeneratedImage>, id: string): Option<Target> {
    match FindImage(images, id)
    case None => None
    case Some(img) => Some(Target(img.prompt, img.url))
  }

  function VideoTarget(videos: seq<GeneratedVideo>, id: string): Option<Target> {
    match FindVideo(videos, id)
    case None => None
    case Some(vid) => Some(Target(vid.prompt, vid.url))
  }

  function NotFoundMessage(m: Media): string {
    if m == Image then "Image not found" else "Video not found"
  }

  /** The file is saved under its derived name, or the resource is opened in a
      new tab when fetching or re-encoding it failed. */
  datatype Download = SavedAs(filename: string) | OpenedInNewTab(url: string)

  /** `fetched` is whether the fetch (and, for images, the PNG re-encoding) succeeded. */
  function DownloadOf(m: Media, target: Option<Target>, fetched: bool, isoNow: string): (r: Result<Download, string>)
    ensures target.None? <==> r == Failure(NotFoundMessage(m))
    ensures target.Some? ==> r.Success?
    ensures target.Some? && fetched ==> r.value.SavedAs? && r.value.filename == DownloadName(m, target.value.prompt, isoNow)
    ensures target.Some? && !fetched ==> r.value == OpenedInNewTab(target.value.url)
  {
    match target
    case None => Failure(NotFoundMessage(m))
    case Some(t) => if fetched then Success(SavedAs(DownloadName(m, t.prompt, isoNow))) else Success(OpenedInNewTab(t.url))
  }

  /** What `navigator.share` does: absent or refusing the data, sharing, or throwing. */
  datatype NativeShare = Unavailable | Shares | Throws

  datatype ShareData = ShareData(title: string, text: string, url: string)

  datatype Shared = SharedNatively(data: ShareData) | CopiedToClipboard(url: string)

  function ShareTitle(m: Media): string {
    if m == Image then "Generated with Seedream 4.0" else "Generated Video with Seedream 4.0"
  }

  function ShareFailedMessage(m: Media): string {
    if m == Image then "Failed to share image" else "Failed to share video"
  }

  /** `clipboardWorks` is whether `navigator.clipboard.writeText` succeeded. */
  function ShareOf(m: Media, target: Option<Target>, native: NativeShare, clipboardWorks: bool): (r: Result<Shared, string>)
    ensures target.None? <==> r == Failure(NotFoundMessage(m))
    ensures target.Some? && native == Shares ==> r == Success(SharedNatively(ShareData(ShareTitle(m), target.value.prompt, target.value.url)))
    ensures target.Some? && native == Unavailable ==>
      r == if clipboardWorks then Success(CopiedToClipboard(target.value.url)) else Failure(ShareFailedMessage(m))
    ensures target.Some? && native == Throws ==> r == Failure(ShareFailedMessage(m))
  {
    match target
    case None => Failure(NotFoundMessage(m))
    case Some(t) =>
      match native
      case Shares => Success(SharedNatively(ShareData(ShareTitle(m), t.prompt, t.url)))
      case Throws => Failure(ShareFailedMessage(m))
      case Unavailable => if clipboardWorks then Success(CopiedToClipboard(t.url)) else Failure(ShareFailedMessage(m))
  }

  // ---------------------------------------------------------------------------
  // The client object

  /** The client instance with its two in-memory histories, newest first. */
  class Client {
    var images: seq<GeneratedImage>
    var videos: seq<GeneratedVideo>

    constructor()
      ensures images == [] && videos == []
    {
      images := [];
      videos := [];
    }

    /** `generateImage`: on success the new image is put in front of the history. */
    method GenerateImage(request: GenerationRequest, t: Transport, stamp: string, createdAt: string)
      returns (r: Result<GeneratedImage, string>)
      modifies this
      ensures r == ImageGeneration(request, t, stamp, createdAt)
      ensures images == if r.Success? then [r.value] + old(images) else old(images)
      ensures videos == old(videos)
    {
      var attempt := Attempt(Image, t);
      if attempt.Failure? {
        return Failure(CatchMessage(Image, attempt.error));
      }
      var image := BuildImage(request, attempt.value, stamp, createdAt);
      images := [image] + images;
      r := Success(image);
    }

    /** `generateVideo`: on success the new video is put in front of the history. */
    method GenerateVideo(image: GeneratedImage, t: Transport, stamp: string, createdAt: string)
      returns (r: Result<GeneratedVideo, string>)
      modifies this
      ensures r == VideoGeneration(image, t, stamp, createdAt)
      ensures videos == if r.Success? then [r.value] + old(videos) else old(videos)
      ensures images == old(images)
    {
      var attempt := Attempt(Video, t);
      if attempt.Failure? {
        return Failure(CatchMessage(Video, attempt.error));
      }
      var video := BuildVideo(image, attempt.value, stamp, createdAt);
      videos := [video] + videos;
      r := Success(video);
    }

    /** `retryGeneration(imageId)`: regenerates a known image from its own four fields. */
    method RetryGeneration(imageId: string, t: Transport, stamp: string, createdAt: string)
      returns (r: Result<GeneratedImage, string>)
      modifies this
      ensures FindImage(old(images), imageId).None? ==>
        r == Failure("Original image not found") && images == old(images)
      ensures FindImage(old(images), imageId).Some? ==>
        r == ImageGeneration(RequestOf(FindImage(old(images), imageId).value), t, stamp, createdAt)
        && images == (if r.Success? then [r.value] + old(images) else old(images))
      ensures videos == old(videos)
    {
      var original := FindImage(images, imageId);
      if original.None? {
        return Failure("Original image not found");
      }
      r := GenerateImage(RequestOf(original.value), t, stamp, createdAt);
    }

    /** `getGeneratedImages`: a copy of the history, unaffected by later generations. */
    method GetGeneratedImages() returns (r: seq<GeneratedImage>)
      ensures r == images
    {
      r := images;
    }

    method GetGeneratedVideos() returns (r: seq<GeneratedVideo>)
      ensures r == videos
    {
      r := videos;
    }

    /** `downloadImage`: an unknown id fails before anything is fetched. */
    method DownloadImage(imageId: string, fetched: bool, isoNow: string) returns (r: Result<Download, string>)
      ensures FindImage(images, imageId).None? <==> r == Failure("Image not found")
      ensures r == DownloadOf(Image, ImageTarget(images, imageId), fetched, isoNow)
    {
      var target := ImageTarget(images, imageId);
      if target.None? {
        return Failure("Image not found");
      }
      if fetched {
        r := Success(SavedAs("seedream-" + CleanPrompt(target.value.prompt) + "-" + DateStamp(isoNow) + ".png"));
      } else {
        r := Success(OpenedInNewTab(target.value.url));
      }
    }

    method DownloadVideo(videoId: string, fetched: bool, isoNow: string) returns (r: Result<Download, string>)
      ensures FindVideo(videos, videoId).None? <==> r == Failure("Video not found")
      ensures r == DownloadOf(Video, VideoTarget(videos, videoId), fetched, isoNow)
    {
      var target := VideoTarget(videos, videoId);
      if target.None? {
        return Failure("Video not found");
      }
      if fetched {
        r := Success(SavedAs("seedream-video-" + CleanPrompt(target.value.prompt) + "-" + DateStamp(isoNow) + ".mp4"));
      } else {
        r := Success(OpenedInNewTab(target.value.url));
      }
    }

    /** `shareImage`: an unknown id fails before the share sheet or clipboard is touched. */
    method ShareImage(imageId: string, native: NativeShare, clipboardWorks: bool) returns (r: Result<Shared, string>)
      ensures FindImage(images, imageId).None? <==> r == Failure("Image not found")
      ensures r == ShareOf(Image, ImageTarget(images, imageId), native, clipboardWorks)
    {
      r := ShareOf(Image, ImageTarget(images, imageId), native, clipboardWorks);
    }

    method ShareVideo(videoId: string, native: NativeShare, clipboardWorks: bool) returns (r: Result<Shared, string>)
      ensures FindVideo(videos, videoId).None? <==> r == Failure("Video not found")
      ensures r == ShareOf(Video, VideoTarget(videos, videoId), native, clipboardWorks)
    {
      r := ShareOf(Video, VideoTarget(videos, videoId), native, clipboardWorks);
    }
  }

  // ---------------------------------------------------------------------------
  // Constant tables

  const DimensionMapping: map<string, string> := map[
    "square" := "square", "square_hd" := "square_hd",
    "portrait_4_3" := "portrait_4_3", "portrait_16_9" := "portrait_16_9",
    "landscape_4_3" := "landscape_4_3", "landscape_16_9" := "landscape_16_9"]

  const QualityMapping: map<string, string> := map["1K" := "1024", "2K" := "2048", "4K" := "4096"]
}
