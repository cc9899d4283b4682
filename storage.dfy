/** The browser's `localStorage` as the application uses it, and the rule by
    which a surface reloads its two history lists from it. */
module Storage {
  import opened Wrappers
  import opened SeedreamApi

  /** The keys of hooks/use-image-generation.ts; the history sidebar reads and
      writes the same two literals, and the language provider its own key. */
  const ImagesKey := "generated-images"
  const VideosKey := "generated-videos"
  const LanguageKey := "seedream-language"

  /** A stored value: a serialised image or video list, or plain text. */
  datatype Stored = ImageList(images: seq<GeneratedImage>) | VideoList(videos: seq<GeneratedVideo>) | Raw(text: string)

  /** The durable key-value store shared by every surface of the page. */
  class LocalStorage {
    var entries: map<string, Stored>

    constructor(initial: map<string, Stored>)
      ensures entries == initial
    {
      entries := initial;
    }

    /** `setItem(key, value)`: the key now holds `value`, every other key is unchanged. */
    method SetItem(key: string, value: Stored)
      modifies this
      ensures entries == old(entries)[key := value]
    {
      entries := entries[key := value];
    }
  }

  /** What reading one list key yields: nothing to load (the key is absent or
      holds the empty, falsy string), a parsed list, or a value `JSON.parse`
      rejects. */
  datatype Loaded<T> = Skipped | Parsed(list: seq<T>) | Unparseable

  function LoadImages(entries: map<string, Stored>): Loaded<GeneratedImage> {
    if ImagesKey !in entries || entries[ImagesKey] == Raw("") then Skipped
    else if entries[ImagesKey].ImageList? then Parsed(entries[ImagesKey].images)
    else Unparseable
  }

  function LoadVideos(entries: map<string, Stored>): Loaded<GeneratedVideo> {
    if VideosKey !in entries || entries[VideosKey] == Raw("") then Skipped
    else if entries[VideosKey].VideoList? then Parsed(entries[VideosKey].videos)
    else Unparseable
  }

  datatype History = History(images: seq<GeneratedImage>, videos: seq<GeneratedVideo>)

  /** Reloading both lists inside one `try`: each present list replaces the
      current one wholesale; an absent key keeps the current list; a parse
      failure on the images stops before the videos are looked at. */
  function LoadHistory(entries: map<string, Stored>, current: History): (h: History)
    ensures LoadImages(entries).Parsed? ==> h.images == LoadImages(entries).list
    ensures !LoadImages(entries).Parsed? ==> h.images == current.images
    ensures LoadImages(entries).Unparseable? || !LoadVideos(entries).Parsed? ==> h.videos == current.videos
    ensures !LoadImages(entries).Unparseable? && LoadVideos(entries).Parsed? ==> h.videos == LoadVideos(entries).list
  {
    match LoadImages(entries)
    case Unparseable => current
    case Skipped => LoadVideosInto(entries, current)
    case Parsed(images) => LoadVideosInto(entries, current.(images := images))
  }

  function LoadVideosInto(entries: map<string, Stored>, current: History): History {
    match LoadVideos(entries)
    case Parsed(videos) => current.(videos := videos)
    case _ => current
  }

  /** What a surface wrote under the two keys is exactly what the next reload
      reads back, whatever the surface held before. */
  lemma LoadAfterSave(entries: map<string, Stored>, saved: History, current: History)
    ensures LoadHistory(entries[ImagesKey := ImageList(saved.images)][VideosKey := VideoList(saved.videos)], current) == saved
  {
    var e := entries[ImagesKey := ImageList(saved.images)][VideosKey := VideoList(saved.videos)];
    assert LoadImages(e) == Parsed(saved.images);
    assert LoadVideos(e) == Parsed(saved.videos);
  }

  /** Writing one list alone leaves the other key's reload unaffected. */
  lemma SavingImagesKeepsVideos(entries: map<string, Stored>, images: seq<GeneratedImage>)
    ensures LoadImages(entries[ImagesKey := ImageList(images)]) == Parsed(images)
    ensures LoadVideos(entries[ImagesKey := ImageList(images)]) == LoadVideos(entries)
  {
  }
}
