/** The history sidebar of components/generation-sidebar.tsx: its own copies
    of the two lists, reloaded from storage, shown newest first by reversing
    them, and its video generation, which appends to the end of its list and
    writes that list back. */
module GenerationSidebar {
  import opened Wrappers
  import opened SeedreamApi
  import opened Storage
  import opened ImageGenerationHook

  // ---------------------------------------------------------------------------
  // Display order

  /** `list.slice().reverse()`: the list back to front. */
  function Reversed<T>(s: seq<T>): (r: seq<T>)
    ensures |r| == |s|
    ensures forall i :: 0 <= i < |s| ==> r[i] == s[|s| - 1 - i]
  {
    if s == [] then [] else Reversed(s[1..]) + [s[0]]
  }

  /** Reversing twice gives the list back. */
  lemma ReversedTwice<T>(s: seq<T>)
    ensures Reversed(Reversed(s)) == s
  {
  }

  /** An appended item is shown first: under the sidebar's own append
      discipline the display is newest first. */
  lemma {:induction false} AppendShownFirst<T>(s: seq<T>, x: T)
    ensures Reversed(s + [x]) == [x] + Reversed(s)
  {
    if s != [] {
      assert (s + [x])[1..] == s[1..] + [x];
      AppendShownFirst(s[1..], x);
    }
  }

  /** A prepended item is shown last: a list written by the generation hook,
      which puts the newest item first, appears oldest first in the sidebar. */
  lemma {:induction false} PrependShownLast<T>(s: seq<T>, x: T)
    ensures Reversed([x] + s) == Reversed(s) + [x]
  {
    assert ([x] + s)[1..] == s;
  }

  /** Appending and prepending the same item give the same list only when
      every earlier item equals it, so the hook and the sidebar write
      different lists under the same key as soon as the history holds any
      other item. */
  lemma DisciplinesAgreeOnlyOnUniformLists<T>(s: seq<T>, x: T)
    ensures s + [x] == [x] + s <==> forall i :: 0 <= i < |s| ==> s[i] == x
  {
    if forall i :: 0 <= i < |s| ==> s[i] == x {
      forall k | 0 <= k < |s| + 1 ensures (s + [x])[k] == ([x] + s)[k] {
        if k < |s| { assert (s + [x])[k] == s[k]; }
        if k > 0 { assert ([x] + s)[k] == s[k - 1]; }
      }
      assert s + [x] == [x] + s;
    }
    if s + [x] == [x] + s {
      forall i | 0 <= i < |s| ensures s[i] == x {
        EqualToFirst(s, x, i);
      }
    }
  }

  lemma {:induction false} EqualToFirst<T>(s: seq<T>, x: T, i: nat)
    requires s + [x] == [x] + s && i < |s|
    ensures s[i] == x
  {
    assert (s + [x])[i] == ([x] + s)[i];
    if i > 0 {
      EqualToFirst(s, x, i - 1);
    }
  }

  /** The state of a "Generate Video" button of an image card: disabled
      while a video is being generated from an image with the same id. */
  predicate VideoButtonDisabled(isGeneratingVideo: bool, selected: Option<GeneratedImage>, image: GeneratedImage) {
    isGeneratingVideo && selected.Some? && selected.value.id == image.id
  }

  /** Only the selected image's button is disabled, and only while generating:
      two cards with different ids are never both disabled. */
  lemma OnlySelectedDisabled(isGeneratingVideo: bool, selected: Option<GeneratedImage>, a: GeneratedImage, b: GeneratedImage)
    ensures !isGeneratingVideo ==> !VideoButtonDisabled(isGeneratingVideo, selected, a)
    ensures selected == Some(a) ==> (VideoButtonDisabled(isGeneratingVideo, selected, a) <==> isGeneratingVideo)
    ensures a.id != b.id ==> !(VideoButtonDisabled(isGeneratingVideo, selected, a) && VideoButtonDisabled(isGeneratingVideo, selected, b))
  {
  }

  // ---------------------------------------------------------------------------
  // The sidebar

  class Sidebar {
    var images: seq<GeneratedImage>
    var videos: seq<GeneratedVideo>
    var selectedImage: Option<GeneratedImage>
    var currentVideo: Option<GeneratedVideo>
    var isVideoModalOpen: bool
    var currentImageForModal: Option<GeneratedImage>
    var isImageModalOpen: bool
    /** The sidebar's own instance of the generation hook. */
    const hook: Hook
    const storage: LocalStorage

    constructor(hook: Hook, storage: LocalStorage)
      ensures this.hook == hook && this.storage == storage
      ensures images == [] && videos == [] && selectedImage == None && currentVideo == None
      ensures !isVideoModalOpen && currentImageForModal == None && !isImageModalOpen
    {
      this.hook := hook;
      this.storage := storage;
      images, videos := [], [];
      selectedImage, currentVideo, currentImageForModal := None, None, None;
      isVideoModalOpen, isImageModalOpen := false, false;
    }

    /** The cards as rendered: newest first when the list was built by appending. */
    function DisplayedImages(): (r: seq<GeneratedImage>)
      reads this
      ensures |r| == |images|
      ensures forall i :: 0 <= i < |r| ==> r[i] == images[|images| - 1 - i]
    {
      Reversed(images)
    }

    function DisplayedVideos(): (r: seq<GeneratedVideo>)
      reads this
      ensures |r| == |videos|
      ensures forall i :: 0 <= i < |r| ==> r[i] == videos[|videos| - 1 - i]
    {
      Reversed(videos)
    }

    /** `loadHistory`, on mount and whenever another surface announces a change. */
    method LoadHistory()
      modifies this
      ensures History(images, videos) == Storage.LoadHistory(storage.entries, History(old(images), old(videos)))
      ensures selectedImage == old(selectedImage) && currentVideo == old(currentVideo)
      ensures isVideoModalOpen == old(isVideoModalOpen)
      ensures currentImageForModal == old(currentImageForModal) && isImageModalOpen == old(isImageModalOpen)
    {
      var h := Storage.LoadHistory(storage.entries, History(images, videos));
      images, videos := h.images, h.videos;
    }

    /** `handleGenerateVideo(image)`: the image is selected, and a successful
        video is shown, appended to the end of the list, and the new list is
        written under the video key. */
    method HandleGenerateVideo(image: GeneratedImage, t: Transport, stamp: string, createdAt: string, isoNow: string)
      modifies this, hook, hook.api, storage
      ensures selectedImage == Some(image)
      ensures currentVideo == ValueOf(HookVideo(image, t, stamp, createdAt, isoNow))
      ensures videos == if currentVideo.Some? then old(videos) + [currentVideo.value] else old(videos)
      ensures storage.entries == if currentVideo.Some? then old(storage.entries)[VideosKey := VideoList(videos)] else old(storage.entries)
      ensures images == old(images) && isVideoModalOpen == old(isVideoModalOpen)
      ensures currentImageForModal == old(currentImageForModal) && isImageModalOpen == old(isImageModalOpen)
      ensures hook.error == if currentVideo.Some? then None else Some(HookVideo(image, t, stamp, createdAt, isoNow).error)
      ensures hook.generatedVideos == if currentVideo.Some? then [currentVideo.value] + old(hook.generatedVideos) else old(hook.generatedVideos)
      ensures hook.generatedImages == old(hook.generatedImages)
      ensures !hook.isGeneratingVideo && hook.isGenerating == old(hook.isGenerating)
    {
      selectedImage := Some(image);
      hook.ClearError();
      currentVideo := None;
      var r := hook.GenerateVideo(image, t, stamp, createdAt, isoNow);
      AppendVideo(r);
    }

    /** What follows the `await` in `handleGenerateVideo`. */
    method AppendVideo(r: Result<GeneratedVideo, string>)
      requires currentVideo.None?
      modifies this, storage
      ensures currentVideo == ValueOf(r)
      ensures videos == if r.Success? then old(videos) + [r.value] else old(videos)
      ensures storage.entries == if r.Success? then old(storage.entries)[VideosKey := VideoList(videos)] else old(storage.entries)
      ensures images == old(images) && selectedImage == old(selectedImage) && isVideoModalOpen == old(isVideoModalOpen)
      ensures currentImageForModal == old(currentImageForModal) && isImageModalOpen == old(isImageModalOpen)
    {
      if r.Success? {
        currentVideo := Some(r.value);
        videos := videos + [r.value];
        storage.SetItem(VideosKey, VideoList(videos));
      }
    }

    /** Clicking a video card opens the video modal on it. */
    method HandleVideoClick(video: GeneratedVideo)
      modifies this
      ensures currentVideo == Some(video) && isVideoModalOpen
      ensures images == old(images) && videos == old(videos) && selectedImage == old(selectedImage)
    {
      currentVideo := Some(video);
      isVideoModalOpen := true;
    }

    /** `handleVideoModalRetry`: a new video from the source image rebuilt
        from the video; it is shown but, unlike `handleGenerateVideo`, not
        added to the sidebar's list. */
    method HandleVideoModalRetry(video: GeneratedVideo, t: Transport, stamp: string, createdAt: string, isoNow: string)
      modifies this, hook, hook.api
      ensures currentVideo == ValueOf(HookVideo(SourceImageOf(video), t, stamp, createdAt, isoNow))
      ensures currentVideo.Some? ==> currentVideo.value.imageId == video.imageId && currentVideo.value.imageUrl == video.imageUrl
      ensures isVideoModalOpen == (old(isVideoModalOpen) && currentVideo.None?)
      ensures images == old(images) && videos == old(videos) && selectedImage == old(selectedImage)
      ensures currentImageForModal == old(currentImageForModal) && isImageModalOpen == old(isImageModalOpen)
      ensures hook.error == if currentVideo.Some? then None else Some(HookVideo(SourceImageOf(video), t, stamp, createdAt, isoNow).error)
      ensures hook.generatedVideos == if currentVideo.Some? then [currentVideo.value] + old(hook.generatedVideos) else old(hook.generatedVideos)
      ensures hook.generatedImages == old(hook.generatedImages)
      ensures !hook.isGeneratingVideo && hook.isGenerating == old(hook.isGenerating)
    {
      hook.ClearError();
      currentVideo := None;
      var r := hook.GenerateVideo(SourceImageOf(video), t, stamp, createdAt, isoNow);
      ShowRetried(r);
    }

    /** A successful retry is shown and closes the modal. */
    method ShowRetried(r: Result<GeneratedVideo, string>)
      requires currentVideo.None?
      modifies this
      ensures currentVideo == ValueOf(r)
      ensures isVideoModalOpen == (old(isVideoModalOpen) && r.Failure?)
      ensures images == old(images) && videos == old(videos) && selectedImage == old(selectedImage)
      ensures currentImageForModal == old(currentImageForModal) && isImageModalOpen == old(isImageModalOpen)
    {
      if r.Success? {
        currentVideo := Some(r.value);
        isVideoModalOpen := false;
      }
    }

    /** The video modal's download and share go through the sidebar's hook,
        which keeps a failure in its `error`. */
    method HandleVideoModalDownload(video: GeneratedVideo, fetched: bool, isoNow: string)
      modifies hook
      ensures hook.error == ErrorAfter(DownloadOf(Video, VideoTarget(hook.api.videos, video.id), fetched, isoNow), old(hook.error))
      ensures hook.generatedVideos == old(hook.generatedVideos)
    {
      hook.DownloadVideo(video.id, fetched, isoNow);
    }

    method HandleVideoModalShare(video: GeneratedVideo, native: NativeShare, clipboardWorks: bool)
      modifies hook
      ensures hook.error == ErrorAfter(ShareOf(Video, VideoTarget(hook.api.videos, video.id), native, clipboardWorks), old(hook.error))
      ensures hook.generatedVideos == old(hook.generatedVideos)
    {
      hook.ShareVideo(video.id, native, clipboardWorks);
    }

    /** Clicking an image card opens the image modal on it. */
    method HandleImageClick(image: GeneratedImage)
      modifies this
      ensures currentImageForModal == Some(image) && isImageModalOpen
      ensures images == old(images) && videos == old(videos) && currentVideo == old(currentVideo)
    {
      currentImageForModal := Some(image);
      isImageModalOpen := true;
    }

    /** The image modal's download and share go to the client directly. */
    method HandleImageModalDownload(image: GeneratedImage, fetched: bool, isoNow: string) returns (outcome: Result<Download, string>)
      ensures outcome == DownloadOf(Image, ImageTarget(hook.api.images, image.id), fetched, isoNow)
    {
      outcome := hook.api.DownloadImage(image.id, fetched, isoNow);
    }

    method HandleImageModalShare(image: GeneratedImage, native: NativeShare, clipboardWorks: bool) returns (outcome: Result<Shared, string>)
      ensures outcome == ShareOf(Image, ImageTarget(hook.api.images, image.id), native, clipboardWorks)
    {
      outcome := hook.api.ShareImage(image.id, native, clipboardWorks);
    }
  }
}
