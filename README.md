# Seedream image generator: the checkable core

This Dafny project models the sequential logic under the Seedream image and
video generator, a browser front end written in TypeScript and React. It
covers the following parts.

- **The generation client** (`lib/seedream-api.ts`). The singleton keeps two
  in-memory histories and puts every new image or video in front of its list.
  It normalises webhook replies to a URL and builds result records by copying
  fields. It maps every failure to one of two messages and looks entries up by
  id for download, share and retry. It also derives the download file name
  through a prompt sanitiser.
- **The generation hook** (`hooks/use-image-generation.ts`). This part holds
  the two loading flags and the `error` slot. Successes are prepended to the
  hook's own copies of the histories, and the effects write those lists to
  local storage and reload them on mount.
- **The gallery** (`components/image-gallery.tsx`). This covers `ceil(n/6)`
  pages, a page slice, a window of at most five page buttons, clamped
  previous/next, and the reset to page 1 when a new image is highlighted.
- **The language provider** (`hooks/use-language.tsx`). It has two
  translation tables and the lookup `t` with its fallback to the key itself.
  A saved language is accepted only when it is `en` or `zh`, and the chosen
  language is persisted.
- **The generator panel** (`components/image-generator.tsx`). This covers the
  option lists, the guard on a blank prompt, and request construction. It also
  covers the translation keys of the option labels and the handlers that keep
  `lastRequest`, the shown image and the shown video.
- **The history sidebar** (`components/generation-sidebar.tsx`). It reloads
  both lists from storage and shows them reversed. Its own video generation
  appends to the end of its list and writes that list back.

## Layout

- `wrappers.dfy`: `Option` and `Result`.
- `text.dfy`: the JavaScript string operations used:
  - `trim` with the whole `\s` set;
  - ASCII `toLowerCase`;
  - `replace` of the first occurrence of a character;
  - `startsWith` and `includes`.
- `seedream_api.dfy`: the client (`SeedreamApi`), which is:
  - records;
  - reply and transport datatypes;
  - URL extraction;
  - error mapping;
  - lookups;
  - the sanitiser;
  - the `Client` class.
- `storage.dfy`: `localStorage` as a class over a map, and the reload rule that
  the hook and the sidebar share.
- `use_image_generation.dfy`: the `Hook` class. Each asynchronous operation is
  split at its `await` into a `Begin…` method and a `Finish…` method.
- `image_gallery.dfy`: pagination, as pure functions over the page number and
  the list length.
- `use_language.dfy`: the tables, `Translate` and the `LanguageProvider` class.
- `generator_options.dfy`: the option constants, label-key derivation and
  request construction.
- `generator_labels.dfy`: every offered style and dimension has a label in both
  languages.
- `image_generator.dfy`: the `Panel` class.
- `generation_sidebar.dfy`: the `Sidebar` class and its display order.

The model abstracts several inputs:

- **HTTP exchanges.** An exchange is a `Transport` value: the call threw, a
  non-2xx status arrived, or a parsed JSON `Body` was delivered.
- **Ids.** Minted ids are `img_`/`vid_` followed by a `stamp` parameter.
- **Timestamps.** A record's `createdAt` is a `Timestamp`: either the `Date`
  the client creates (`DateValue`, carrying its ISO time) or the ISO string
  the hook stores in its place (`IsoText`). Every other time is a string
  parameter holding the ISO time.
- **Browser results.** The outcomes of a download (`fetched`), of
  `navigator.share` (`NativeShare`) and of the clipboard (`clipboardWorks`)
  are parameters.

### Two behaviours worth knowing

- **A non-2xx status.** The status and the response text never reach the
  caller. The `Webhook request failed: …` error is thrown inside the `try`,
  and the `catch` replaces it with the generic `Failed to generate image.
  Please try again.` (`lib/seedream-api.ts:75-79`, `111-118`). The same
  happens to the missing-URL error. The model follows the code here, and
  `SeedreamApi.StatusAndMissingUrlAreGeneric` states it.
- **URL extraction and the video timestamp.** Two rules are modelled both as
  written and as evidently intended (see Findings). Everything that
  generates uses the intended rule:
  - `ImageGeneration` and `VideoGeneration`;
  - `Client.GenerateImage`, `Client.GenerateVideo` and
    `Client.RetryGeneration`;
  - every generation member of `Hook`, `Panel` and `Sidebar`.

  The written rules are `ExtractUrlAsWritten` and
  `VideoGenerationAsWritten`, and their lemmas show where they differ.

## Model

| member | source | states |
|---|---|---|
| SeedreamApi.BuildImage | lib/seedream-api.ts:98-106 | the new image carries the request's four fields unchanged, the extracted url and a `Date` timestamp; its id is `img_` followed by the stamp |
| SeedreamApi.BuildVideo | lib/seedream-api.ts:288-298 | the new video points back at its image (`imageId`, `imageUrl`), and rebuilding the source image from it gives back the image except for the timestamp, which is a new `Date`; its id is `vid_` followed by the stamp |
| SeedreamApi.ExtractUrl | lib/seedream-api.ts:86-96 | the corrected normalisation never yields an empty URL |
| SeedreamApi.ExtractUrlCases | lib/seedream-api.ts:86-96 | per shape: first element of a non-empty array, the field of a bare object if truthy, and no URL for an empty array, `null` or any other scalar body |
| SeedreamApi.ShapesAgree | lib/seedream-api.ts:87-92 | an object wrapped as the first element of an array gives the same URL as the bare object |
| SeedreamApi.AsWrittenDiffersOnlyOnBareArrays | lib/seedream-api.ts:86-96 | the rule as written agrees with the corrected one on every reply that carries a URL; on `null` it throws a `TypeError`; elsewhere it fails with "No image/video URL in response" wherever the corrected one fails, except on a non-empty array |
| SeedreamApi.AsWrittenAcceptsMissingUrl | lib/seedream-api.ts:87-88 | the reply `[{}]` is accepted as written with an undefined URL, and rejected by the corrected rule |
| SeedreamApi.NullReadIsNotNetwork | lib/seedream-api.ts:86-118 | the `TypeError` from reading a field of `null` does not mention "fetch", so it ends as the generic message |
| SeedreamApi.DecimalString | lib/seedream-api.ts:78 | the status is rendered as its decimal digits: a non-empty string of digits, without leading zeros, that reads back as the status |
| SeedreamApi.Attempt | lib/seedream-api.ts:56-96 | the `try` body succeeds exactly when a delivered body carries a URL, and yields that URL. Otherwise, per case: a thrown error escapes as it is; a non-2xx status gives the `Webhook request failed: <status> - <text>` error; a `null` body gives a `TypeError` from reading its field; any other body without a URL gives "No image URL in response" |
| SeedreamApi.CatchMessage | lib/seedream-api.ts:111-119 | every error becomes one of two messages, the network one exactly for a `TypeError` whose message contains "fetch" |
| SeedreamApi.ImageGeneration | lib/seedream-api.ts:52-120 | `generateImage` succeeds exactly when a delivered reply carries a URL, returning the image built from it; every failure is the network message exactly for a fetch `TypeError`, and the generic message otherwise |
| SeedreamApi.VideoGeneration | lib/seedream-api.ts:237-312 | the same for `generateVideo`, with `videoUrl` and the video messages, for an image of either timestamp form (the intended behaviour; see Findings) |
| SeedreamApi.PayloadCreatedAt | lib/seedream-api.ts:263 | building the video request reads the image's timestamp as ISO time when it is a `Date`, and throws a `TypeError` that does not mention "fetch" when it is a string |
| SeedreamApi.NotAFunctionIsNotNetwork | lib/seedream-api.ts:263-310 | the message of that `TypeError` does not mention "fetch" |
| SeedreamApi.VideoGenerationAsWritten | lib/seedream-api.ts:237-312 | `generateVideo` as written agrees with the intended outcome for an image whose timestamp is a `Date` |
| SeedreamApi.AsWrittenRejectsIsoTimestamps | lib/seedream-api.ts:263 | as written, an image whose timestamp is a string always gets "Failed to generate video. Please try again.", even when the webhook delivers a URL from which the intended outcome builds the video |
| SeedreamApi.StatusAndMissingUrlAreGeneric | lib/seedream-api.ts:75-118 | a non-2xx status and a reply without a URL both end as the generic message, never the network one |
| SeedreamApi.FirstWithId | lib/seedream-api.ts:123 | `find` returns the first position holding the id, and nothing exactly when no entry has it |
| SeedreamApi.FindImageSpec | lib/seedream-api.ts:143-144 | an image lookup succeeds exactly when some entry has the id, and returns an entry of the list with that id |
| SeedreamApi.FindVideoSpec | lib/seedream-api.ts:315-316 | the same for videos |
| SeedreamApi.KeepAllowed | lib/seedream-api.ts:185 | the filter keeps only letters, digits and whitespace, never lengthens the prompt, leaves text of such characters unchanged and removes text without any of them entirely |
| SeedreamApi.KeepAllowedAppend | lib/seedream-api.ts:185 | the global `replace` works character by character: filtering a concatenation filters each part |
| SeedreamApi.KeepAllowedKeepsAlnums | lib/seedream-api.ts:185 | the filter removes no letter or digit and reorders nothing |
| SeedreamApi.Prefix | lib/seedream-api.ts:186 | `substring(0, n)` is a prefix of at most `n` characters |
| SeedreamApi.Hyphenate | lib/seedream-api.ts:188 | replacing whitespace runs by one hyphen never lengthens the text |
| SeedreamApi.HyphenateSlugChars | lib/seedream-api.ts:188 | hyphenating kept text yields only letters, digits and hyphens |
| SeedreamApi.HyphenateEnds | lib/seedream-api.ts:187-188 | the hyphenated text starts or ends with a hyphen exactly where the input starts or ends with whitespace |
| SeedreamApi.HyphenateNoDoubleHyphen | lib/seedream-api.ts:188 | hyphenating kept text never puts two hyphens side by side |
| SeedreamApi.HyphenateKeepsAlnums | lib/seedream-api.ts:188 | hyphenating keeps every letter and digit, in order |
| SeedreamApi.CleanPromptIsSlug | lib/seedream-api.ts:184-188 | the cleaned prompt has at most 30 characters, only letters, digits and hyphens, no hyphen at either end and no doubled hyphen |
| SeedreamApi.CleanPromptKeepsAlnums | lib/seedream-api.ts:184-188 | the cleaned prompt keeps every letter and digit of the first 30 characters the filter lets through, in order |
| SeedreamApi.CleanPromptPrefixOfPrompt | lib/seedream-api.ts:184-188 | the cleaned prompt's letters and digits are the leading letters and digits of the prompt, and all of them when the filtered prompt fits in 30 characters |
| SeedreamApi.DownloadOf | lib/seedream-api.ts:142-200 | an unknown id fails with "Image not found"/"Video not found"; a known one is saved as `seedream-<clean>-<date>.png` (or `seedream-video-…mp4`) when the fetch works and opened in a new tab otherwise |
| SeedreamApi.ShareOf | lib/seedream-api.ts:203-235 | an unknown id fails with the not-found message; a known one is shared natively with the title, prompt and url, else copied to the clipboard, and a refusal or a clipboard failure gives "Failed to share image/video" |
| SeedreamApi.Client.constructor | lib/seedream-api.ts:42-43 | both histories start empty |
| SeedreamApi.Client.GenerateImage | lib/seedream-api.ts:52-120 | the outcome is `ImageGeneration`; a success is put in front of the image history, which is otherwise unchanged, and the video history is untouched |
| SeedreamApi.Client.GenerateVideo | lib/seedream-api.ts:237-312 | the outcome is `VideoGeneration`; a success is put in front of the video history, and nothing else changes |
| SeedreamApi.Client.RetryGeneration | lib/seedream-api.ts:122-136 | an unknown id fails with "Original image not found" and changes nothing; a known one generates from that image's own four fields |
| SeedreamApi.Client.GetGeneratedImages | lib/seedream-api.ts:138-140 | the copy equals the image history |
| SeedreamApi.Client.GetGeneratedVideos | lib/seedream-api.ts:381-383 | the copy equals the video history |
| SeedreamApi.Client.DownloadImage | lib/seedream-api.ts:142-201 | fails with "Image not found" exactly when the id is unknown, and otherwise behaves as `DownloadOf` |
| SeedreamApi.Client.DownloadVideo | lib/seedream-api.ts:314-345 | fails with "Video not found" exactly when the id is unknown, and otherwise behaves as `DownloadOf` |
| SeedreamApi.Client.ShareImage | lib/seedream-api.ts:203-235 | fails with "Image not found" exactly when the id is unknown, and otherwise behaves as `ShareOf` |
| SeedreamApi.Client.ShareVideo | lib/seedream-api.ts:347-379 | fails with "Video not found" exactly when the id is unknown, and otherwise behaves as `ShareOf` |
| Storage.LocalStorage.SetItem | hooks/use-image-generation.ts:38 | the key now holds the value and every other key is unchanged |
| Storage.LoadHistory | hooks/use-image-generation.ts:18-34 | a list present under its key replaces the current one wholesale; an absent or empty key keeps it; a list that does not parse keeps it, and unparseable images also stop the videos from loading |
| Storage.LoadAfterSave | hooks/use-image-generation.ts:18-50 | what was written under the two keys is exactly what the next reload reads, whatever the surface held before |
| Storage.SavingImagesKeepsVideos | hooks/use-image-generation.ts:36-42 | writing the image list leaves the reload of the video list unaffected |
| Language.ParseLang | hooks/use-language.tsx:122-125 | a stored code names a language only when it is exactly `en` or `zh`, and then it is that language's code |
| Language.ParseCode | hooks/use-language.tsx:122-125 | every language's code reads back as that language |
| Language.TablesAgree | hooks/use-language.tsx:15-114 | the English and Chinese tables have the same keys and no empty entry |
| Language.KnownKey | hooks/use-language.tsx:15-114 | a key of the English table has a non-empty entry in both tables |
| Language.Translate | hooks/use-language.tsx:133-135 | `t(key)` is the current table's entry when it is non-empty, and the key itself otherwise |
| Language.TranslateFallsBackOnlyOnUnknownKeys | hooks/use-language.tsx:133-135 | in either language a known key is translated by its entry and only an unknown key falls back to itself |
| Language.StoredLang | hooks/use-language.tsx:121-126 | a language is read back only when the language key holds its code |
| Language.StoredLangRoundTrip | hooks/use-language.tsx:121-131 | what `setLanguage` stores is what the next mount adopts |
| Language.LanguageProvider.constructor | hooks/use-language.tsx:119 | the language starts as English |
| Language.LanguageProvider.Mount | hooks/use-language.tsx:121-126 | a valid saved code replaces the language; anything else leaves it |
| Language.LanguageProvider.SetLanguage | hooks/use-language.tsx:128-131 | the language becomes the choice, the choice is stored under `seedream-language`, and it reads back as that language |
| Language.LanguageProvider.T | hooks/use-language.tsx:133-135 | the provider's `t` shows the current table's entry whenever it is non-empty, and the key itself otherwise |
| ImageGenerationHook.StoredImage | hooks/use-image-generation.ts:58-71 | the hook returns the client's image with only `createdAt` replaced by the ISO time as a string, or the client's failure message |
| ImageGenerationHook.StoredVideo | hooks/use-image-generation.ts:122-135 | the same for videos |
| ImageGenerationHook.StoredImageKeepsRequest | hooks/use-image-generation.ts:58-67 | a stored image carries the request it was made from, the arrival time as ISO text and the client's id |
| ImageGenerationHook.HookImageFailsAsWritten | hooks/use-image-generation.ts:57-62 | as written, no image the hook hands out becomes a video: each carries a string timestamp |
| ImageGenerationHook.HookVideoRetryFailsAsWritten | hooks/use-image-generation.ts:121-126 | as written, nor does the source image rebuilt from any video the hook hands out |
| ImageGenerationHook.Hook.constructor | hooks/use-image-generation.ts:10-16 | both flags off, no error, both lists empty |
| ImageGenerationHook.Hook.Mount | hooks/use-image-generation.ts:18-50 | the lists are reloaded by `LoadHistory` and then written back under their two keys |
| ImageGenerationHook.Hook.PersistImages | hooks/use-image-generation.ts:36-42 | the image list is written under `generated-images` |
| ImageGenerationHook.Hook.PersistVideos | hooks/use-image-generation.ts:44-50 | the video list is written under `generated-videos` |
| ImageGenerationHook.Hook.BeginImageGeneration | hooks/use-image-generation.ts:54-55 | while the request is pending `isGenerating` is on and `error` is cleared |
| ImageGenerationHook.Hook.FinishImageGeneration | hooks/use-image-generation.ts:57-74 | after the client settles, a success is prepended, a failure's message lands in `error`, and `isGenerating` is off on both paths |
| ImageGenerationHook.Hook.SettleImage | hooks/use-image-generation.ts:63-73 | the `try`/`catch`/`finally` tail: prepend on success, store the message on failure, clear the flag |
| ImageGenerationHook.Hook.GenerateImage | hooks/use-image-generation.ts:52-77 | the result is the stored image; `generatedImages` becomes `[new] + old` on success and is unchanged on failure; `error` is empty exactly on success; the flag is off afterwards; the client's history grows the same way |
| ImageGenerationHook.Hook.RetryGeneration | hooks/use-image-generation.ts:103-114 | a retry generates from the original image's four fields, so a success asks for the same thing |
| ImageGenerationHook.Hook.BeginVideoGeneration | hooks/use-image-generation.ts:118-119 | `isGeneratingVideo` is on and `error` is cleared while pending |
| ImageGenerationHook.Hook.FinishVideoGeneration | hooks/use-image-generation.ts:121-138 | prepend on success, message in `error` on failure, `isGeneratingVideo` off on both paths |
| ImageGenerationHook.Hook.SettleVideo | hooks/use-image-generation.ts:127-137 | the tail of `generateVideo` once the outcome is known |
| ImageGenerationHook.Hook.GenerateVideo | hooks/use-image-generation.ts:116-141 | the same flag, error and prepend discipline for videos |
| ImageGenerationHook.Hook.DownloadImage | hooks/use-image-generation.ts:79-89 | a failed download stores its message in `error` and nothing else changes; an unknown id stores "Image not found" |
| ImageGenerationHook.Hook.ShareImage | hooks/use-image-generation.ts:91-101 | a failed share stores its message in `error`; nothing else changes |
| ImageGenerationHook.Hook.DownloadVideo | hooks/use-image-generation.ts:143-153 | a failed download stores its message; an unknown id stores "Video not found" |
| ImageGenerationHook.Hook.ShareVideo | hooks/use-image-generation.ts:155-165 | a failed share stores its message; nothing else changes |
| ImageGenerationHook.Hook.ClearError | hooks/use-image-generation.ts:167-169 | `error` is empty; flags and lists are unchanged |
| ImageGallery.TotalPages | components/image-gallery.tsx:23-24 | the fewest pages of six that hold the list; zero exactly for an empty list |
| ImageGallery.SliceBound | components/image-gallery.tsx:75 | a slice bound lands inside the list, and a non-negative one is clamped to its length |
| ImageGallery.Slice | components/image-gallery.tsx:75 | `slice` never lengthens the list, and for ordered non-negative bounds is the run between them cut at the end |
| ImageGallery.PageSliceIsSegment | components/image-gallery.tsx:75 | each page shows at most six images, the contiguous run from `(page-1)*6` |
| ImageGallery.PagesPartitionList | components/image-gallery.tsx:75 | pages 1 to `totalPages` laid end to end are the whole list, in order |
| ImageGallery.ShowNavigationIffMoreThanOnePage | components/image-gallery.tsx:191 | the navigation shows exactly when there are more than six images |
| ImageGallery.PageWindow | components/image-gallery.tsx:204-215 | `min(5, totalPages)` consecutive ascending pages within `[1, totalPages]` that include the current page whenever it is a page |
| ImageGallery.PrevPage | components/image-gallery.tsx:197 | previous goes one page back but never below 1 |
| ImageGallery.NextPage | components/image-gallery.tsx:236 | next goes one page on but never past the last page |
| ImageGallery.DisabledExactlyWhenNoOp | components/image-gallery.tsx:197-198 | previous is disabled exactly when pressing it would not move, and so is next |
| ImageGallery.GoToPage | components/image-gallery.tsx:221 | a page button sets the page and nothing else |
| ImageGallery.OnHighlight | components/image-gallery.tsx:27-31 | a non-empty highlight id over a non-empty list resets to page 1; otherwise the page stays |
| ImageGallery.ViewImage | components/image-gallery.tsx:65-68 | clicking a card opens the modal on it |
| ImageGallery.CloseModal | components/image-gallery.tsx:70-73 | closing clears the selection and the open flag |
| ImageGallery.TotalPagesMonotone | components/image-gallery.tsx:24 | more images never means fewer pages |
| ImageGallery.PageStaysInRange | components/image-gallery.tsx:191-237 | every navigation move keeps the page within `[1, max(1, totalPages)]`, and a growing list keeps it in range |
| ImageGallery.InitialInRange | components/image-gallery.tsx:16 | page 1 is in range for any list |
| Text.Trim | components/image-generator.tsx:57 | `trim` never lengthens the text and leaves no whitespace at either end |
| Text.TrimEmptyIffBlank | components/image-generator.tsx:57 | the trimmed prompt is empty exactly when the prompt is all whitespace |
| Text.TrimSplit | lib/seedream-api.ts:187 | the trimmed text sits in the original between two runs of whitespace |
| Text.ToLowerAscii | components/image-generator.tsx:125 | `toLowerCase` maps each character on its own and keeps the length |
| Text.ReplaceFirst | components/image-generator.tsx:125 | `replace(" ", "_")` changes only the first occurrence |
| Text.ReplaceFirstAt | components/image-generator.tsx:125 | with the first space at `k`, the result is the text with position `k` replaced |
| GeneratorOptions.DimensionValues | components/image-generator.tsx:17-24 | the values of the dimension options, in order |
| GeneratorOptions.OptionsAreConsistent | components/image-generator.tsx:15-36 | the defaults `Cartoon`, `square` and `2K` are offered options, and the offered dimensions and qualities are exactly the keys of the client's `DIMENSION_MAPPING` and `QUALITY_MAPPING` |
| GeneratorOptions.StyleKeyUnspaced | components/image-generator.tsx:124-127 | a style without a space gets the key `style.` followed by its lower-cased name |
| GeneratorOptions.StyleKeySpaced | components/image-generator.tsx:124-127 | only the first space of the lower-cased name becomes `_` |
| GeneratorOptions.BuildRequest | components/image-generator.tsx:56-69 | a blank prompt builds no request; otherwise the request carries the trimmed, non-empty prompt and the current selections |
| GeneratorOptions.EnabledIffRequest | components/image-generator.tsx:465-466 | with nothing running, the generate controls are enabled exactly when a request would be sent |
| GeneratorLabels.KnownKeyLabelled | hooks/use-language.tsx:133-135 | a key of the English table is translated by its entry in both languages |
| GeneratorLabels.StyleLabelsTranslated | components/image-generator.tsx:124-127 | every offered style's key exists in both tables, and in English it reads as the style's own name |
| GeneratorLabels.DimensionLabelsTranslated | components/image-generator.tsx:129-132 | every offered dimension's key exists in both tables, and in English it reads as the option's label |
| ImageGenerator.Panel.constructor | components/image-generator.tsx:33-42 | empty prompt, default selections, nothing shown, both modals closed, and the selections are offered options |
| ImageGenerator.Panel.SelectOptions | components/image-generator.tsx:407-450 | the option buttons change the selections only when no generation runs, and the selections stay offered options |
| ImageGenerator.Panel.SetPrompt | components/image-generator.tsx:278 | typing replaces the prompt and nothing else |
| ImageGenerator.Panel.Generate | components/image-generator.tsx:59-77 | the request is remembered, the shown image is the hook's result on success and its id is announced. The hook's error and image list follow its discipline, and its flag is off afterwards. The prompt, the selections, the shown video, both modals and the hook's video list are unchanged |
| ImageGenerator.Panel.ShowImage | components/image-generator.tsx:72-74 | a success becomes the shown image and its id is announced; a failure shows nothing |
| ImageGenerator.Panel.HandleGenerate | components/image-generator.tsx:56-78 | a blank prompt changes nothing. Otherwise the trimmed prompt and the selections are sent and remembered as `lastRequest`, and the shown image, announcement, hook error, hook image list and flag are those of `Generate`. In both cases the prompt, the selections, the shown video, both modals and the hook's video list are unchanged |
| ImageGenerator.Panel.HandleRetry | components/image-generator.tsx:80-93 | without a last request nothing happens; otherwise the last request is sent again, with the effects of `Generate`, and the prompt, the selections, the shown video and both modals are unchanged. No control of the panel calls `handleRetry` (the modal's retry is `handleModalRetry`, line 496) |
| ImageGenerator.Panel.HandleModalRetry | components/image-generator.tsx:158-181 | the image's own four fields become the request and `lastRequest`. The hook's error, image list and flag follow `Generate`, and the image modal closes only after a success. The prompt, the selections, the shown video and the video modal are unchanged |
| ImageGenerator.Panel.HandleImageClick | components/image-generator.tsx:134-138 | the modal opens only when an image is shown |
| ImageGenerator.Panel.HandleDownload | components/image-generator.tsx:95-104 | with no image shown nothing happens; otherwise the client's download of the shown image |
| ImageGenerator.Panel.HandleShare | components/image-generator.tsx:106-115 | with no image shown nothing happens; otherwise the client's share of the shown image |
| ImageGenerator.Panel.HandleModalDownload | components/image-generator.tsx:140-147 | the client's download of the modal's image |
| ImageGenerator.Panel.HandleModalShare | components/image-generator.tsx:149-156 | the client's share of the modal's image |
| ImageGenerator.Panel.MakeVideo | components/image-generator.tsx:186-191 | the shown video is the hook's result on success. The hook's video list and error follow its discipline, its video flag is off afterwards, and its image list, the shown image, `lastRequest`, the prompt, the selections and both modals are unchanged |
| ImageGenerator.Panel.ShowVideo | components/image-generator.tsx:190-191 | a success becomes the shown video |
| ImageGenerator.Panel.HandleGenerateVideo | components/image-generator.tsx:183-195 | without a shown image nothing happens. Otherwise a video of that image, which points back at it, with the hook's error, video list and flag as in `MakeVideo`. The shown image, `lastRequest`, the prompt, the selections, both modals and the hook's image list are unchanged |
| ImageGenerator.Panel.HandleVideoModalRetry | components/image-generator.tsx:219-233 | the source image is rebuilt with `id = imageId` and `url = imageUrl`, so the new video points at the same image. The hook's error, video list and flag are as in `MakeVideo`, and the video modal closes only after a success. The shown image, `lastRequest`, the prompt, the selections and the image modal are unchanged |
| ImageGenerator.Panel.HandleVideoClick | components/image-generator.tsx:197-201 | the video modal opens only when a video is shown |
| ImageGenerator.Panel.HandleVideoModalDownload | components/image-generator.tsx:203-209 | the download goes through the hook, so an unknown id leaves "Video not found" in its `error` |
| ImageGenerator.Panel.HandleVideoModalShare | components/image-generator.tsx:211-217 | the share goes through the hook, so a failure lands in its `error` |
| GenerationSidebar.Reversed | components/generation-sidebar.tsx:177-179 | the reversed list has the same length and position `i` holds the item `i` places from the end |
| GenerationSidebar.ReversedTwice | components/generation-sidebar.tsx:177-179 | reversing twice gives the list back |
| GenerationSidebar.AppendShownFirst | components/generation-sidebar.tsx:70 | an item the sidebar appends is shown first |
| GenerationSidebar.PrependShownLast | components/generation-sidebar.tsx:241-243 | an item the hook prepends is shown last by the sidebar |
| GenerationSidebar.DisciplinesAgreeOnlyOnUniformLists | components/generation-sidebar.tsx:70 | appending and prepending the same item give the same list exactly when every earlier item equals it |
| GenerationSidebar.OnlySelectedDisabled | components/generation-sidebar.tsx:207 | only the selected image's button is disabled, only while generating, and two images with different ids are never both disabled |
| GenerationSidebar.Sidebar.constructor | components/generation-sidebar.tsx:19-25 | empty lists, nothing selected or shown, both modals closed |
| GenerationSidebar.Sidebar.DisplayedImages | components/generation-sidebar.tsx:170-179 | the cards show every image, in reverse order |
| GenerationSidebar.Sidebar.DisplayedVideos | components/generation-sidebar.tsx:234-243 | the cards show every video, in reverse order |
| GenerationSidebar.Sidebar.LoadHistory | components/generation-sidebar.tsx:30-45 | both lists are reloaded by the shared replace rule; the selection, the shown video and both modals are untouched |
| GenerationSidebar.Sidebar.HandleGenerateVideo | components/generation-sidebar.tsx:61-78 | the image is selected. On success the video is shown, `videos` becomes `old + [new]` and is written under `generated-videos`; on failure both stay. The hook's error and video list follow its discipline and its video flag is off afterwards; `images` and both modals are unchanged |
| GenerationSidebar.Sidebar.AppendVideo | components/generation-sidebar.tsx:68-72 | the continuation after the `await`: show, append, write back |
| GenerationSidebar.Sidebar.HandleVideoClick | components/generation-sidebar.tsx:80-83 | the video modal opens on the clicked video |
| GenerationSidebar.Sidebar.HandleVideoModalRetry | components/generation-sidebar.tsx:101-115 | the source image is rebuilt from the video. A success is shown and closes the modal but is not added to the sidebar's list. The hook's error and video list follow its discipline, and the image modal is untouched |
| GenerationSidebar.Sidebar.ShowRetried | components/generation-sidebar.tsx:110-111 | a successful retry is shown and the modal closes |
| GenerationSidebar.Sidebar.HandleVideoModalDownload | components/generation-sidebar.tsx:85-91 | the download goes through the sidebar's hook, which keeps a failure in `error` |
| GenerationSidebar.Sidebar.HandleVideoModalShare | components/generation-sidebar.tsx:93-99 | the share goes through the sidebar's hook |
| GenerationSidebar.Sidebar.HandleImageClick | components/generation-sidebar.tsx:117-120 | the image modal opens on the clicked image |
| GenerationSidebar.Sidebar.HandleImageModalDownload | components/generation-sidebar.tsx:122-129 | the client's download of the image |
| GenerationSidebar.Sidebar.HandleImageModalShare | components/generation-sidebar.tsx:131-138 | the client's share of the image |

## Left out

- The HTTP exchange (`fetch`, headers, CORS, JSON wire format) is a
  `Transport` parameter, because it is I/O. The request payloads the client
  sends are not modelled.
- Ids minted from `Date.now()` and `Math.random()` are a `stamp` parameter,
  and `new Date()`/`toISOString()` are string parameters. These values are
  nondeterministic, and no claim is made that ids are unique.
- Canvas re-encoding to PNG, Blob and object URLs, the anchor-click download
  and the `window.open` fallback are browser I/O. Only their outcome is
  modelled: the `fetched` parameter selects between the derived file name and
  the new tab.
- `navigator.share`, `navigator.canShare`, the clipboard, the DOM toast and
  its `setTimeout` are foreign browser APIs. Only their outcome is modelled,
  through the `NativeShare` and `clipboardWorks` parameters.
- Cross-surface synchronisation is left out because it is event-loop
  behaviour:
  - the `imageGenerated`/`videoGenerated` window events;
  - the `storage` event listener;
  - React's scheduling of effects and state updates;
  - the last-writer-wins race between the hook's and the sidebar's writes
    under `generated-videos`.
  `DisciplinesAgreeOnlyOnUniformLists` states how those writes differ.
- The internals of `localStorage` and `JSON.parse` are left out. Storage is a
  map from keys to a serialised list or to raw text; a value of the wrong kind
  stands for text that `JSON.parse` rejects. Stored lists are assumed to
  deserialise to the records that were written. That holds for the lists the
  hook writes, whose timestamps are already strings; a `Date` would come back
  as a string.
- `t` looks keys up on a plain object, so keys such as `"constructor"` would
  reach its prototype. This is left out: `Translate` sees only the table
  entries.
- `ToLowerAscii` lower-cases ASCII letters only; JavaScript's `toLowerCase`
  also folds other scripts. Every option name is ASCII.
- The sidebar's `handleImageModalRetry` only logs to the console, so it has no
  model. Console logging everywhere is left out too.
- The panel's prompt-expand toggle (`isPromptExpanded`) and the modals'
  `onClose` flag resets are presentation state.
- The panel's `handleKeyPress` is left out: Enter without Shift calls
  `handleGenerate`, which is `Panel.HandleGenerate`.
- The panel's video button is disabled while `isGeneratingVideo` is set. This
  disabled state is not modelled.
- `useLanguage` throws when it is used outside a provider. This is a wiring
  error and is not modelled.
- The gallery's download, share, retry and video handlers only call the hook
  and log a failure. Their behaviour is that of `Hook.DownloadImage`,
  `Hook.ShareImage`, `Hook.RetryGeneration` and `Hook.GenerateVideo`.
- The client is one instance shared by every surface (`getInstance`). The
  model passes the same `Client` object to every hook. Each surface's hook
  keeps its own lists, flags and error.
- components/header.tsx, components/image-modal.tsx,
  components/video-modal.tsx and app/page.tsx are not part of this model.
- `SeedreamApi.VideoGeneration` models the intended outcome, not the code as
  written, for images whose timestamp is a string. As written, those fail
  before anything is sent; `VideoGenerationAsWritten` and the lemmas beside
  it state that, and Findings logs it.
- The texts of runtime `TypeError`s (reading a field of `null`, calling a
  missing method) follow one engine's wording. Only their kind matters to
  the client, and that they do not mention "fetch".
- `Panel.HandleRetry` models `handleRetry`, which no control of the panel
  calls. It is kept because the function exists and its behaviour is
  defined.
- `SeedreamApi.Hyphenate`'s own contract only bounds the length. Its
  character set, ends, single hyphens and kept letters are stated by the
  `Hyphenate…` lemmas.

## Findings

| source | as written | input that shows it | evidently intended | confidence | as-written member | corrected member |
|---|---|---|---|---|---|---|
| lib/seedream-api.ts:87-88 | a non-empty array reply is accepted without checking its first element, so an element without `imageUrl` yields an image whose url is `undefined` (the video branch at lines 280-281 does the same) | the reply body `[{}]` | the error "No image URL in response", as for a bare object without the field | not executed | SeedreamApi.AsWrittenAcceptsMissingUrl | SeedreamApi.ExtractUrl |
| lib/seedream-api.ts:263 | the video request body calls `image.createdAt.toISOString()`, but every image a user can pick has `createdAt` as an ISO string, because the hook replaces the client's `Date` (hooks/use-image-generation.ts:59-62, 123-126); the call throws a `TypeError` without "fetch" before the request is sent | any image returned by the hook's `generateImage`, passed to `generateVideo` (components/image-generator.tsx:190, components/generation-sidebar.tsx:67, 109) | the timestamp is serialised whatever its form, and the webhook's reply decides the outcome | not executed | SeedreamApi.AsWrittenRejectsIsoTimestamps | SeedreamApi.VideoGeneration |
