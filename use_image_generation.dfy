/** The state of hooks/use-image-generation.ts: the two loading flags, the
    error slot, and the hook's own newest-first copies of the histories, which
    its effects write to storage after every change. Each asynchronous
    operation is split at its `await`: a `Begin` method runs up to the call
    into the client, a `Finish` method is the continuation. */
module ImageGenerationHook {
  import opened Wrappers
  import opened SeedreamApi
  import opened Storage

  /** The value the hook returns and stores: the client's image with its
      `createdAt` replaced by the ISO time of arrival. */
  function StoredImage(g: Result<GeneratedImage, string>, isoNow: string): (r: Result<GeneratedImage, string>)
    ensures r.Success? <==> g.Success?
    ensures r.Failure? ==> r == g
    ensures r.Success? ==> r.value == g.value.(createdAt := IsoText(isoNow))
  {
    if g.Success? then Success(g.value.(createdAt := IsoText(isoNow))) else g
  }

  function StoredVideo(g: Result<GeneratedVideo, string>, isoNow: string): (r: Result<GeneratedVideo, string>)
    ensures r.Success? <==> g.Success?
    ensures r.Failure? ==> r == g
    ensures r.Success? ==> r.value == g.value.(createdAt := IsoText(isoNow))
  {
    if g.Success? then Success(g.value.(createdAt := IsoText(isoNow))) else g
  }

  /** The image `generateImage(request)` hands back for the given exchange. */
  function HookImage(request: GenerationRequest, t: Transport, stamp: string, createdAt: string, isoNow: string): Result<GeneratedImage, string> {
    StoredImage(ImageGeneration(request, t, stamp, createdAt), isoNow)
  }

  /** The video `generateVideo(image)` hands back for the given exchange. */
  function HookVideo(image: GeneratedImage, t: Transport, stamp: string, createdAt: string, isoNow: string): Result<GeneratedVideo, string> {
    StoredVideo(VideoGeneration(image, t, stamp, createdAt), isoNow)
  }

  /** The value of a success, as a state setter receives it. */
  function ValueOf<T>(r: Result<T, string>): Option<T> {
    if r.Success? then Some(r.value) else None
  }

  /** The message stored in `error` when a download or share fails, if any. */
  function ErrorAfter<T>(r: Result<T, string>, previous: Option<string>): Option<string> {
    if r.Failure? then Some(r.error) else previous
  }

  class Hook {
    var isGenerating: bool
    var isGeneratingVideo: bool
    var generatedImages: seq<GeneratedImage>
    var generatedVideos: seq<GeneratedVideo>
    var error: Option<string>
    /** The one client instance every hook shares. */
    const api: Client
    const storage: LocalStorage

    constructor(api: Client, storage: LocalStorage)
      ensures this.api == api && this.storage == storage
      ensures !isGenerating && !isGeneratingVideo && error == None
      ensures generatedImages == [] && generatedVideos == []
    {
      this.api := api;
      this.storage := storage;
      isGenerating, isGeneratingVideo := false, false;
      generatedImages, generatedVideos := [], [];
      error := None;
    }

    /** The mount effect, then the two persist effects it triggers: the lists
        are reloaded and written back under their keys. A list that could not
        be loaded is written back as it stood, so a corrupt entry is replaced. */
    method Mount()
      modifies this, storage
      ensures History(generatedImages, generatedVideos)
        == LoadHistory(old(storage.entries), History(old(generatedImages), old(generatedVideos)))
      ensures storage.entries
        == old(storage.entries)[ImagesKey := ImageList(generatedImages)][VideosKey := VideoList(generatedVideos)]
      ensures isGenerating == old(isGenerating) && isGeneratingVideo == old(isGeneratingVideo) && error == old(error)
    {
      var loaded := LoadHistory(storage.entries, History(generatedImages, generatedVideos));
      generatedImages, generatedVideos := loaded.images, loaded.videos;
      PersistImages();
      PersistVideos();
    }

    /** The effect that runs whenever `generatedImages` changes. */
    method PersistImages()
      modifies storage
      ensures storage.entries == old(storage.entries)[ImagesKey := ImageList(generatedImages)]
    {
      storage.SetItem(ImagesKey, ImageList(generatedImages));
    }

    /** The effect that runs whenever `generatedVideos` changes. */
    method PersistVideos()
      modifies storage
      ensures storage.entries == old(storage.entries)[VideosKey := VideoList(generatedVideos)]
    {
      storage.SetItem(VideosKey, VideoList(generatedVideos));
    }

    /** `generateImage` up to its `await`: the request is pending. */
    method BeginImageGeneration()
      modifies this
      ensures isGenerating && error == None
      ensures isGeneratingVideo == old(isGeneratingVideo)
      ensures generatedImages == old(generatedImages) && generatedVideos == old(generatedVideos)
    {
      isGenerating := true;
      error := None;
    }

    /** The continuation of `generateImage` once the client settled; the
        `finally` block clears the flag on both paths. */
    method FinishImageGeneration(request: GenerationRequest, t: Transport, stamp: string, createdAt: string, isoNow: string)
      returns (r: Result<GeneratedImage, string>)
      modifies this, api
      ensures r == StoredImage(ImageGeneration(request, t, stamp, createdAt), isoNow)
      ensures generatedImages == if r.Success? then [r.value] + old(generatedImages) else old(generatedImages)
      ensures error == ErrorAfter(r, old(error))
      ensures !isGenerating && isGeneratingVideo == old(isGeneratingVideo)
      ensures generatedVideos == old(generatedVideos)
      ensures api.images == if r.Success? then [ImageGeneration(request, t, stamp, createdAt).value] + old(api.images) else old(api.images)
      ensures api.videos == old(api.videos)
    {
      var g := api.GenerateImage(request, t, stamp, createdAt);
      r := StoredImage(g, isoNow);
      SettleImage(r);
    }

    /** The `try`/`catch`/`finally` tail of `generateImage` once the outcome is known. */
    method SettleImage(r: Result<GeneratedImage, string>)
      modifies this
      ensures generatedImages == if r.Success? then [r.value] + old(generatedImages) else old(generatedImages)
      ensures error == ErrorAfter(r, old(error))
      ensures !isGenerating && isGeneratingVideo == old(isGeneratingVideo)
      ensures generatedVideos == old(generatedVideos)
    {
      if r.Success? {
        generatedImages := [r.value] + generatedImages;
      } else {
        error := Some(r.error);
      }
      isGenerating := false;
    }

    /** `generateImage`: the flag is off again afterwards, the error holds the
        thrown message or nothing, and a success is prepended. */
    method GenerateImage(request: GenerationRequest, t: Transport, stamp: string, createdAt: string, isoNow: string)
      returns (r: Result<GeneratedImage, string>)
      modifies this, api
      ensures r == StoredImage(ImageGeneration(request, t, stamp, createdAt), isoNow)
      ensures generatedImages == if r.Success? then [r.value] + old(generatedImages) else old(generatedImages)
      ensures error == if r.Success? then None else Some(r.error)
      ensures !isGenerating && isGeneratingVideo == old(isGeneratingVideo)
      ensures generatedVideos == old(generatedVideos)
      ensures api.images == if r.Success? then [ImageGeneration(request, t, stamp, createdAt).value] + old(api.images) else old(api.images)
      ensures api.videos == old(api.videos)
    {
      BeginImageGeneration();
      r := FinishImageGeneration(request, t, stamp, createdAt, isoNow);
    }

    /** `retryGeneration(originalImage)`: a generation of the image's own four fields. */
    method RetryGeneration(originalImage: GeneratedImage, t: Transport, stamp: string, createdAt: string, isoNow: string)
      returns (r: Result<GeneratedImage, string>)
      modifies this, api
      ensures r == StoredImage(ImageGeneration(RequestOf(originalImage), t, stamp, createdAt), isoNow)
      ensures r.Success? ==> RequestOf(r.value) == RequestOf(originalImage)
      ensures generatedImages == if r.Success? then [r.value] + old(generatedImages) else old(generatedImages)
      ensures error == if r.Success? then None else Some(r.error)
      ensures !isGenerating && isGeneratingVideo == old(isGeneratingVideo)
      ensures generatedVideos == old(generatedVideos)
    {
      r := GenerateImage(RequestOf(originalImage), t, stamp, createdAt, isoNow);
    }

    /** `generateVideo` up to its `await`. */
    method BeginVideoGeneration()
      modifies this
      ensures isGeneratingVideo && error == None
      ensures isGenerating == old(isGenerating)
      ensures generatedImages == old(generatedImages) && generatedVideos == old(generatedVideos)
    {
      isGeneratingVideo := true;
      error := None;
    }

    /** The continuation of `generateVideo`. */
    method FinishVideoGeneration(image: GeneratedImage, t: Transport, stamp: string, createdAt: string, isoNow: string)
      returns (r: Result<GeneratedVideo, string>)
      modifies this, api
      ensures r == StoredVideo(VideoGeneration(image, t, stamp, createdAt), isoNow)
      ensures generatedVideos == if r.Success? then [r.value] + old(generatedVideos) else old(generatedVideos)
      ensures error == ErrorAfter(r, old(error))
      ensures !isGeneratingVideo && isGenerating == old(isGenerating)
      ensures generatedImages == old(generatedImages)
      ensures api.videos == if r.Success? then [VideoGeneration(image, t, stamp, createdAt).value] + old(api.videos) else old(api.videos)
      ensures api.images == old(api.images)
    {
      var g := api.GenerateVideo(image, t, stamp, createdAt);
      r := StoredVideo(g, isoNow);
      SettleVideo(r);
    }

    /** The `try`/`catch`/`finally` tail of `generateVideo` once the outcome is known. */
    method SettleVideo(r: Result<GeneratedVideo, string>)
      modifies this
      ensures generatedVideos == if r.Success? then [r.value] + old(generatedVideos) else old(generatedVideos)
      ensures error == ErrorAfter(r, old(error))
      ensures !isGeneratingVideo && isGenerating == old(isGenerating)
      ensures generatedImages == old(generatedImages)
    {
      if r.Success? {
        generatedVideos := [r.value] + generatedVideos;
      } else {
        error := Some(r.error);
      }
      isGeneratingVideo := false;
    }

    /** `generateVideo`: the same flag, error and prepend discipline as images. */
    method GenerateVideo(image: GeneratedImage, t: Transport, stamp: string, createdAt: string, isoNow: string)
      returns (r: Result<GeneratedVideo, string>)
      modifies this, api
      ensures r == StoredVideo(VideoGeneration(image, t, stamp, createdAt), isoNow)
      ensures generatedVideos == if r.Success? then [r.value] + old(generatedVideos) else old(generatedVideos)
      ensures error == if r.Success? then None else Some(r.error)
      ensures !isGeneratingVideo && isGenerating == old(isGenerating)
      ensures generatedImages == old(generatedImages)
      ensures api.videos == if r.Success? then [VideoGeneration(image, t, stamp, createdAt).value] + old(api.videos) else old(api.videos)
      ensures api.images == old(api.images)
    {
      BeginVideoGeneration();
      r := FinishVideoGeneration(image, t, stamp, createdAt, isoNow);
    }

    /** `downloadImage`: a failure lands in `error` and is not rethrown. */
    method DownloadImage(imageId: string, fetched: bool, isoNow: string)
      modifies this
      ensures error == ErrorAfter(DownloadOf(Image, ImageTarget(api.images, imageId), fetched, isoNow), old(error))
      ensures error == if FindImage(api.images, imageId).None? then Some("Image not found") else old(error)
      ensures isGenerating == old(isGenerating) && isGeneratingVideo == old(isGeneratingVideo)
      ensures generatedImages == old(generatedImages) && generatedVideos == old(generatedVideos)
    {
      var r := api.DownloadImage(imageId, fetched, isoNow);
      if r.Failure? {
        error := Some(r.error);
      }
    }

    method ShareImage(imageId: string, native: NativeShare, clipboardWorks: bool)
      modifies this
      ensures error == ErrorAfter(ShareOf(Image, ImageTarget(api.images, imageId), native, clipboardWorks), old(error))
      ensures isGenerating == old(isGenerating) && isGeneratingVideo == old(isGeneratingVideo)
      ensures generatedImages == old(generatedImages) && generatedVideos == old(generatedVideos)
    {
      var r := api.ShareImage(imageId, native, clipboardWorks);
      if r.Failure? {
        error := Some(r.error);
      }
    }

    method DownloadVideo(videoId: string, fetched: bool, isoNow: string)
      modifies this
      ensures error == ErrorAfter(DownloadOf(Video, VideoTarget(api.videos, videoId), fetched, isoNow), old(error))
      ensures error == if FindVideo(api.videos, videoId).None? then Some("Video not found") else old(error)
      ensures isGenerating == old(isGenerating) && isGeneratingVideo == old(isGeneratingVideo)
      ensures generatedImages == old(generatedImages) && generatedVideos == old(generatedVideos)
    {
      var r := api.DownloadVideo(videoId, fetched, isoNow);
      if r.Failure? {
        error := Some(r.error);
      }
    }

    method ShareVideo(videoId: string, native: NativeShare, clipboardWorks: bool)
      modifies this
      ensures error == ErrorAfter(ShareOf(Video, VideoTarget(api.videos, videoId), native, clipboardWorks), old(error))
      ensures isGenerating == old(isGenerating) && isGeneratingVideo == old(isGeneratingVideo)
      ensures generatedImages == old(generatedImages) && generatedVideos == old(generatedVideos)
    {
      var r := api.ShareVideo(videoId, native, clipboardWorks);
      if r.Failure? {
        error := Some(r.error);
      }
    }

    method ClearError()
      modifies this
      ensures error == None
      ensures isGenerating == old(isGenerating) && isGeneratingVideo == old(isGeneratingVideo)
      ensures generatedImages == old(generatedImages) && generatedVideos == old(generatedVideos)
    {
      error := None;
    }
  }

  /** As written, no image the hook hands out becomes a video: it carries
      ISO text where the video request expects a `Date`. */
  lemma HookImageFailsAsWritten(request: GenerationRequest, t: Transport, stamp: string, createdAt: string, isoNow: string,
                                t': Transport, stamp': string, createdAt': string)
    requires HookImage(request, t, stamp, createdAt, isoNow).Success?
    ensures VideoGenerationAsWritten(HookImage(request, t, stamp, createdAt, isoNow).value, t', stamp', createdAt')
      == Failure(FailedMessage(Video))
  {
    AsWrittenRejectsIsoTimestamps(HookImage(request, t, stamp, createdAt, isoNow).value, t', stamp', createdAt');
  }

  /** Nor does the source image rebuilt from a video the hook hands out,
      which is how both video-retry buttons regenerate a video. */
  lemma HookVideoRetryFailsAsWritten(image: GeneratedImage, t: Transport, stamp: string, createdAt: string, isoNow: string,
                                     t': Transport, stamp': string, createdAt': string)
    requires HookVideo(image, t, stamp, createdAt, isoNow).Success?
    ensures VideoGenerationAsWritten(SourceImageOf(HookVideo(image, t, stamp, createdAt, isoNow).value), t', stamp', createdAt')
      == Failure(FailedMessage(Video))
  {
    AsWrittenRejectsIsoTimestamps(SourceImageOf(HookVideo(image, t, stamp, createdAt, isoNow).value), t', stamp', createdAt');
  }

  /** What the hook stores after a successful generation is the client's
      image with only its timestamp replaced: it carries the request it was
      made from, so retrying it asks for the same thing, and its id is the
      client's. */
  lemma StoredImageKeepsRequest(request: GenerationRequest, t: Transport, stamp: string, createdAt: string, isoNow: string)
    requires StoredImage(ImageGeneration(request, t, stamp, createdAt), isoNow).Success?
    ensures var r := StoredImage(ImageGeneration(request, t, stamp, createdAt), isoNow).value;
      && r.createdAt == IsoText(isoNow)
      && RequestOf(r) == request
      && r.id == ImageIdPrefix + stamp
  {
    var g := ImageGeneration(request, t, stamp, createdAt);
    assert g.value.id[..4] == ImageIdPrefix && g.value.id[4..] == stamp;
    assert g.value.id == g.value.id[..4] + g.value.id[4..];
  }
}
