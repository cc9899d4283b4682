/** The generator panel of components/image-generator.tsx: its selections
    and the handlers that keep `lastRequest`, the current image and the
    current video, on top of the shared generation hook. */
module ImageGenerator {
  import opened Wrappers
  import opened Text
  import opened SeedreamApi
  import opened Storage
  import opened GeneratorOptions
  import opened ImageGenerationHook

  // ---------------------------------------------------------------------------
  // The panel

  class Panel {
    var prompt: string
    var selectedStyle: string
    var selectedDimension: string
    var selectedQuality: string
    var currentImage: Option<GeneratedImage>
    var isModalOpen: bool
    var lastRequest: Option<GenerationRequest>
    var currentVideo: Option<GeneratedVideo>
    var isVideoModalOpen: bool
    const hook: Hook

    /** The selections name offered options. */
    predicate SelectionsOffered()
      reads this
    {
      selectedStyle in Styles && selectedDimension in DimensionValues() && selectedQuality in Qualities
    }

    constructor(hook: Hook)
      ensures this.hook == hook && prompt == ""
      ensures selectedStyle == DefaultStyle && selectedDimension == DefaultDimension && selectedQuality == DefaultQuality
      ensures currentImage == None && lastRequest == None && currentVideo == None
      ensures !isModalOpen && !isVideoModalOpen
      ensures SelectionsOffered()
    {
      this.hook := hook;
      prompt := "";
      selectedStyle, selectedDimension, selectedQuality := DefaultStyle, DefaultDimension, DefaultQuality;
      currentImage, lastRequest, currentVideo := None, None, None;
      isModalOpen, isVideoModalOpen := false, false;
      OptionsAreConsistent();
    }

    /** The option buttons; they are disabled while either generation runs. */
    method SelectOptions(style: string, dimension: string, quality: string)
      requires style in Styles && dimension in DimensionValues() && quality in Qualities
      requires SelectionsOffered()
      modifies this
      ensures hook.isGenerating || hook.isGeneratingVideo ==> unchanged(this)
      ensures !(hook.isGenerating || hook.isGeneratingVideo) ==>
        selectedStyle == style && selectedDimension == dimension && selectedQuality == quality
      ensures prompt == old(prompt) && currentImage == old(currentImage) && lastRequest == old(lastRequest)
      ensures SelectionsOffered()
    {
      if !(hook.isGenerating || hook.isGeneratingVideo) {
        selectedStyle, selectedDimension, selectedQuality := style, dimension, quality;
      }
    }

    method SetPrompt(text: string)
      modifies this
      ensures prompt == text
      ensures selectedStyle == old(selectedStyle) && selectedDimension == old(selectedDimension) && selectedQuality == old(selectedQuality)
      ensures currentImage == old(currentImage) && lastRequest == old(lastRequest) && currentVideo == old(currentVideo)
    {
      prompt := text;
    }

    /** Clears the error and the shown image, remembers `request`, generates,
        and shows and announces a successful image. */
    method Generate(request: GenerationRequest, t: Transport, stamp: string, createdAt: string, isoNow: string)
      returns (announced: Option<string>)
      modifies this, hook, hook.api
      ensures lastRequest == Some(request)
      ensures currentImage == ValueOf(HookImage(request, t, stamp, createdAt, isoNow))
      ensures announced == if currentImage.Some? then Some(currentImage.value.id) else None
      ensures hook.error == if currentImage.Some? then None else Some(HookImage(request, t, stamp, createdAt, isoNow).error)
      ensures hook.generatedImages == if currentImage.Some? then [currentImage.value] + old(hook.generatedImages) else old(hook.generatedImages)
      ensures hook.generatedVideos == old(hook.generatedVideos)
      ensures !hook.isGenerating && hook.isGeneratingVideo == old(hook.isGeneratingVideo)
      ensures prompt == old(prompt) && currentVideo == old(currentVideo)
      ensures isModalOpen == old(isModalOpen) && isVideoModalOpen == old(isVideoModalOpen)
      ensures selectedStyle == old(selectedStyle) && selectedDimension == old(selectedDimension) && selectedQuality == old(selectedQuality)
    {
      hook.ClearError();
      currentImage := None;
      lastRequest := Some(request);
      var r := hook.GenerateImage(request, t, stamp, createdAt, isoNow);
      announced := ShowImage(r);
    }

    /** A successful image becomes the shown one and its id is announced as
        the highlight. */
    method ShowImage(r: Result<GeneratedImage, string>) returns (announced: Option<string>)
      requires currentImage.None?
      modifies this
      ensures currentImage == ValueOf(r)
      ensures announced == if r.Success? then Some(r.value.id) else None
      ensures lastRequest == old(lastRequest) && prompt == old(prompt) && currentVideo == old(currentVideo)
      ensures isModalOpen == old(isModalOpen) && isVideoModalOpen == old(isVideoModalOpen)
      ensures selectedStyle == old(selectedStyle) && selectedDimension == old(selectedDimension) && selectedQuality == old(selectedQuality)
    {
      announced := None;
      if r.Success? {
        currentImage := Some(r.value);
        announced := Some(r.value.id);
      }
    }

    /** `handleGenerate` (the button, or Enter without Shift): a blank prompt
        sends nothing; otherwise the trimmed prompt and the current selections. */
    method HandleGenerate(t: Transport, stamp: string, createdAt: string, isoNow: string)
      returns (announced: Option<string>)
      modifies this, hook, hook.api
      ensures var req := BuildRequest(old(prompt), old(selectedStyle), old(selectedDimension), old(selectedQuality));
        && (req.None? ==> announced == None && unchanged(this) && unchanged(hook) && unchanged(hook.api))
        && (req.Some? ==>
             && lastRequest == req
             && currentImage == ValueOf(HookImage(req.value, t, stamp, createdAt, isoNow))
             && announced == (if currentImage.Some? then Some(currentImage.value.id) else None)
             && hook.error == (if currentImage.Some? then None else Some(HookImage(req.value, t, stamp, createdAt, isoNow).error))
             && hook.generatedImages == (if currentImage.Some? then [currentImage.value] + old(hook.generatedImages) else old(hook.generatedImages))
             && !hook.isGenerating)
      ensures hook.generatedVideos == old(hook.generatedVideos) && hook.isGeneratingVideo == old(hook.isGeneratingVideo)
      ensures prompt == old(prompt) && currentVideo == old(currentVideo)
      ensures isModalOpen == old(isModalOpen) && isVideoModalOpen == old(isVideoModalOpen)
      ensures selectedStyle == old(selectedStyle) && selectedDimension == old(selectedDimension) && selectedQuality == old(selectedQuality)
    {
      var req := BuildRequest(prompt, selectedStyle, selectedDimension, selectedQuality);
      if req.None? {
        return None;
      }
      announced := Generate(req.value, t, stamp, createdAt, isoNow);
    }

    /** `handleRetry`: the last request again, if there was one. */
    method HandleRetry(t: Transport, stamp: string, createdAt: string, isoNow: string)
      returns (announced: Option<string>)
      modifies this, hook, hook.api
      ensures old(lastRequest).None? ==> announced == None && unchanged(this) && unchanged(hook) && unchanged(hook.api)
      ensures old(lastRequest).Some? ==>
        && lastRequest == old(lastRequest)
        && currentImage == ValueOf(HookImage(old(lastRequest).value, t, stamp, createdAt, isoNow))
        && announced == (if currentImage.Some? then Some(currentImage.value.id) else None)
        && hook.error == (if currentImage.Some? then None else Some(HookImage(old(lastRequest).value, t, stamp, createdAt, isoNow).error))
        && hook.generatedImages == (if currentImage.Some? then [currentImage.value] + old(hook.generatedImages) else old(hook.generatedImages))
        && !hook.isGenerating
      ensures hook.generatedVideos == old(hook.generatedVideos) && hook.isGeneratingVideo == old(hook.isGeneratingVideo)
      ensures prompt == old(prompt) && currentVideo == old(currentVideo)
      ensures isModalOpen == old(isModalOpen) && isVideoModalOpen == old(isVideoModalOpen)
      ensures selectedStyle == old(selectedStyle) && selectedDimension == old(selectedDimension) && selectedQuality == old(selectedQuality)
    {
      if lastRequest.None? {
        return None;
      }
      announced := Generate(lastRequest.value, t, stamp, createdAt, isoNow);
    }

    /** `handleModalRetry`: the image's own four fields become the request;
        the modal closes only after a success. */
    method HandleModalRetry(image: GeneratedImage, t: Transport, stamp: string, createdAt: string, isoNow: string)
      returns (announced: Option<string>)
      modifies this, hook, hook.api
      ensures lastRequest == Some(RequestOf(image))
      ensures lastRequest.value.prompt == image.prompt && lastRequest.value.style == image.style
      ensures lastRequest.value.dimension == image.dimension && lastRequest.value.quality == image.quality
      ensures currentImage == ValueOf(HookImage(RequestOf(image), t, stamp, createdAt, isoNow))
      ensures announced == if currentImage.Some? then Some(currentImage.value.id) else None
      ensures isModalOpen == (old(isModalOpen) && currentImage.None?)
      ensures hook.error == if currentImage.Some? then None else Some(HookImage(RequestOf(image), t, stamp, createdAt, isoNow).error)
      ensures hook.generatedImages == if currentImage.Some? then [currentImage.value] + old(hook.generatedImages) else old(hook.generatedImages)
      ensures hook.generatedVideos == old(hook.generatedVideos)
      ensures !hook.isGenerating && hook.isGeneratingVideo == old(hook.isGeneratingVideo)
      ensures prompt == old(prompt) && currentVideo == old(currentVideo) && isVideoModalOpen == old(isVideoModalOpen)
      ensures selectedStyle == old(selectedStyle) && selectedDimension == old(selectedDimension) && selectedQuality == old(selectedQuality)
    {
      announced := Generate(RequestOf(image), t, stamp, createdAt, isoNow);
      if announced.Some? {
        isModalOpen := false;
      }
    }

    /** Clicking the shown image opens the modal when there is one. */
    method HandleImageClick()
      modifies this
      ensures isModalOpen == (old(isModalOpen) || currentImage.Some?)
      ensures currentImage == old(currentImage) && currentVideo == old(currentVideo)
    {
      if currentImage.Some? {
        isModalOpen := true;
      }
    }

    /** The panel's own download button goes to the client directly, so a
        failure is only logged and never reaches the hook's `error`. */
    method HandleDownload(fetched: bool, isoNow: string) returns (outcome: Option<Result<Download, string>>)
      ensures currentImage.None? ==> outcome == None
      ensures currentImage.Some? ==>
        outcome == Some(DownloadOf(Image, ImageTarget(hook.api.images, currentImage.value.id), fetched, isoNow))
    {
      if currentImage.None? {
        return None;
      }
      var r := hook.api.DownloadImage(currentImage.value.id, fetched, isoNow);
      outcome := Some(r);
    }

    method HandleShare(native: NativeShare, clipboardWorks: bool) returns (outcome: Option<Result<Shared, string>>)
      ensures currentImage.None? ==> outcome == None
      ensures currentImage.Some? ==>
        outcome == Some(ShareOf(Image, ImageTarget(hook.api.images, currentImage.value.id), native, clipboardWorks))
    {
      if currentImage.None? {
        return None;
      }
      var r := hook.api.ShareImage(currentImage.value.id, native, clipboardWorks);
      outcome := Some(r);
    }

    /** The image modal's download and share also go to the client directly. */
    method HandleModalDownload(image: GeneratedImage, fetched: bool, isoNow: string) returns (outcome: Result<Download, string>)
      ensures outcome == DownloadOf(Image, ImageTarget(hook.api.images, image.id), fetched, isoNow)
    {
      outcome := hook.api.DownloadImage(image.id, fetched, isoNow);
    }

    method HandleModalShare(image: GeneratedImage, native: NativeShare, clipboardWorks: bool) returns (outcome: Result<Shared, string>)
      ensures outcome == ShareOf(Image, ImageTarget(hook.api.images, image.id), native, clipboardWorks)
    {
      outcome := hook.api.ShareImage(image.id, native, clipboardWorks);
    }

    /** Clears the error and the shown video, generates from `image`, and shows a success. */
    method MakeVideo(image: GeneratedImage, t: Transport, stamp: string, createdAt: string, isoNow: string)
      modifies this, hook, hook.api
      ensures currentVideo == ValueOf(HookVideo(image, t, stamp, createdAt, isoNow))
      ensures hook.error == if currentVideo.Some? then None else Some(HookVideo(image, t, stamp, createdAt, isoNow).error)
      ensures hook.generatedVideos == if currentVideo.Some? then [currentVideo.value] + old(hook.generatedVideos) else old(hook.generatedVideos)
      ensures hook.generatedImages == old(hook.generatedImages)
      ensures !hook.isGeneratingVideo && hook.isGenerating == old(hook.isGenerating)
      ensures currentImage == old(currentImage) && lastRequest == old(lastRequest) && prompt == old(prompt)
      ensures isVideoModalOpen == old(isVideoModalOpen) && isModalOpen == old(isModalOpen)
      ensures selectedStyle == old(selectedStyle) && selectedDimension == old(selectedDimension) && selectedQuality == old(selectedQuality)
    {
      hook.ClearError();
      currentVideo := None;
      var r := hook.GenerateVideo(image, t, stamp, createdAt, isoNow);
      ShowVideo(r);
    }

    /** A successful video becomes the shown one. */
    method ShowVideo(r: Result<GeneratedVideo, string>)
      requires currentVideo.None?
      modifies this
      ensures currentVideo == ValueOf(r)
      ensures currentImage == old(currentImage) && lastRequest == old(lastRequest) && prompt == old(prompt)
      ensures isVideoModalOpen == old(isVideoModalOpen) && isModalOpen == old(isModalOpen)
      ensures selectedStyle == old(selectedStyle) && selectedDimension == old(selectedDimension) && selectedQuality == old(selectedQuality)
    {
      if r.Success? {
        currentVideo := Some(r.value);
      }
    }

    /** `handleGenerateVideo`: a video of the shown image, if there is one. */
    method HandleGenerateVideo(t: Transport, stamp: string, createdAt: string, isoNow: string)
      modifies this, hook, hook.api
      ensures old(currentImage).None? ==> unchanged(this) && unchanged(hook) && unchanged(hook.api)
      ensures old(currentImage).Some? ==>
        && currentVideo == ValueOf(HookVideo(old(currentImage).value, t, stamp, createdAt, isoNow))
        && (currentVideo.Some? ==> currentVideo.value.imageId == old(currentImage).value.id)
        && hook.error == (if currentVideo.Some? then None else Some(HookVideo(old(currentImage).value, t, stamp, createdAt, isoNow).error))
        && hook.generatedVideos == (if currentVideo.Some? then [currentVideo.value] + old(hook.generatedVideos) else old(hook.generatedVideos))
        && !hook.isGeneratingVideo
      ensures hook.generatedImages == old(hook.generatedImages) && hook.isGenerating == old(hook.isGenerating)
      ensures currentImage == old(currentImage) && lastRequest == old(lastRequest) && prompt == old(prompt)
      ensures isVideoModalOpen == old(isVideoModalOpen) && isModalOpen == old(isModalOpen)
      ensures selectedStyle == old(selectedStyle) && selectedDimension == old(selectedDimension) && selectedQuality == old(selectedQuality)
    {
      if currentImage.None? {
        return;
      }
      MakeVideo(currentImage.value, t, stamp, createdAt, isoNow);
    }

    /** `handleVideoModalRetry`: the source image is rebuilt from the video's
        own fields; the modal closes only after a success. */
    method HandleVideoModalRetry(video: GeneratedVideo, t: Transport, stamp: string, createdAt: string, isoNow: string)
      modifies this, hook, hook.api
      ensures currentVideo == ValueOf(HookVideo(SourceImageOf(video), t, stamp, createdAt, isoNow))
      ensures currentVideo.Some? ==> currentVideo.value.imageId == video.imageId && currentVideo.value.imageUrl == video.imageUrl
      ensures isVideoModalOpen == (old(isVideoModalOpen) && currentVideo.None?)
      ensures hook.error == if currentVideo.Some? then None else Some(HookVideo(SourceImageOf(video), t, stamp, createdAt, isoNow).error)
      ensures hook.generatedVideos == if currentVideo.Some? then [currentVideo.value] + old(hook.generatedVideos) else old(hook.generatedVideos)
      ensures hook.generatedImages == old(hook.generatedImages)
      ensures !hook.isGeneratingVideo && hook.isGenerating == old(hook.isGenerating)
      ensures currentImage == old(currentImage) && lastRequest == old(lastRequest) && prompt == old(prompt)
      ensures isModalOpen == old(isModalOpen)
      ensures selectedStyle == old(selectedStyle) && selectedDimension == old(selectedDimension) && selectedQuality == old(selectedQuality)
    {
      MakeVideo(SourceImageOf(video), t, stamp, createdAt, isoNow);
      if currentVideo.Some? {
        isVideoModalOpen := false;
      }
    }

    method HandleVideoClick()
      modifies this
      ensures isVideoModalOpen == (old(isVideoModalOpen) || currentVideo.Some?)
      ensures currentImage == old(currentImage) && currentVideo == old(currentVideo)
    {
      if currentVideo.Some? {
        isVideoModalOpen := true;
      }
    }

    /** The video modal's download and share go through the hook, so a failure
        is stored in its `error`. */
    method HandleVideoModalDownload(video: GeneratedVideo, fetched: bool, isoNow: string)
      modifies hook
      ensures hook.error == if FindVideo(hook.api.videos, video.id).None? then Some("Video not found") else old(hook.error)
      ensures hook.generatedVideos == old(hook.generatedVideos)
    {
      hook.DownloadVideo(video.id, fetched, isoNow);
    }

    method HandleVideoModalShare(video: GeneratedVideo, native: NativeShare, clipboardWorks: bool)
      modifies hook
      ensures hook.error == ErrorAfter(ShareOf(Video, VideoTarget(hook.api.videos, video.id), native, clipboardWorks), old(hook.error))
      ensures hook.generatedVideos == old(hook.generatedVideos)
    {
      hook.ShareVideo(video.id, native, clipboardWorks);
    }
  }
}
