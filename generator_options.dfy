/** The pure part of components/image-generator.tsx: the option lists, the
    derivation of the translation keys of their labels, and the guarded
    construction of a request from the prompt. */
module GeneratorOptions {
  import opened Wrappers
  import opened Text
  import opened SeedreamApi

  // ---------------------------------------------------------------------------
  // Options

  const Styles: seq<string> := ["Cinematic", "Photography", "Anime", "Cartoon", "Comic Book", "Oil Painting"]

  datatype DimensionOption = DimensionOption(labelText: string, value: string)

  const Dimensions: seq<DimensionOption> := [
    DimensionOption("Square", "square"),
    DimensionOption("Square HD", "square_hd"),
    DimensionOption("Portrait 3:4", "portrait_4_3"),
    DimensionOption("Portrait 9:16", "portrait_16_9"),
    DimensionOption("Landscape 4:3", "landscape_4_3"),
    DimensionOption("Landscape 9:16", "landscape_16_9")
  ]

  const Qualities: seq<string> := ["1K", "2K", "4K"]

  const DefaultStyle := "Cartoon"
  const DefaultDimension := "square"
  const DefaultQuality := "2K"

  function DimensionValues(): (r: seq<string>)
    ensures |r| == |Dimensions| && forall i :: 0 <= i < |r| ==> r[i] == Dimensions[i].value
  {
    seq(|Dimensions|, i requires 0 <= i < |Dimensions| => Dimensions[i].value)
  }

  /** The initial selections are among the offered options, and every offered
      dimension and quality has an entry in the client's parameter tables. */
  lemma OptionsAreConsistent()
    ensures DefaultStyle in Styles && DefaultDimension in DimensionValues() && DefaultQuality in Qualities
    ensures forall v :: v in DimensionValues() <==> v in DimensionMapping
    ensures forall v :: v in DimensionMapping ==> DimensionMapping[v] == v
    ensures forall q :: q in Qualities <==> q in QualityMapping
  {
    var d := DimensionValues();
    assert d == ["square", "square_hd", "portrait_4_3", "portrait_16_9", "landscape_4_3", "landscape_16_9"];
  }

  // ---------------------------------------------------------------------------
  // Label keys

  /** `getStyleLabel`'s key: `"style."`, then the lower-cased style with its
      first space replaced by `_`. */
  function StyleKey(style: string): string {
    "style." + ReplaceFirst(ToLowerAscii(style), ' ', '_')
  }

  /** `getDimensionLabel`'s key. */
  function DimensionKey(d: DimensionOption): string {
    "dimension." + d.value
  }

  /** Without a space, the key is the lower-cased style after `"style."`. */
  lemma StyleKeyUnspaced(style: string, lower: string)
    requires ToLowerAscii(style) == lower && ' ' !in lower
    ensures StyleKey(style) == "style." + lower
  {
    ReplaceFirstAbsent(lower, ' ', '_');
  }

  /** Only the first space becomes `_`. */
  lemma StyleKeySpaced(style: string, before: string, after: string)
    requires ToLowerAscii(style) == before + " " + after && ' ' !in before
    ensures StyleKey(style) == "style." + before + "_" + after
  {
    var lower := before + " " + after;
    var k := |before|;
    assert lower[..k] == before && lower[k + 1..] == after;
    ReplaceFirstAt(lower, ' ', '_', k);
  }

  /* The key of each offered style, after its lower-cased name. Each lemma
     names its option through a parameter equal to the literal: the verifier
     then reasons about that one value with the equation in hand, instead of
     evaluating every function of the statement on the literal itself. */

  lemma CinematicLowered(style: string)
    requires style == "Cinematic"
    ensures ToLowerAscii(style) == "cinematic"
  {
  }

  lemma CinematicKey(style: string, key: string)
    requires style == "Cinematic" && key == "style.cinematic"
    ensures StyleKey(style) == key
  {
    assert key == "style." + "cinematic";
    CinematicLowered(style);
    StyleKeyUnspaced(style, "cinematic");
  }

  lemma PhotographyLowered(style: string)
    requires style == "Photography"
    ensures ToLowerAscii(style) == "photography"
  {
  }

  lemma PhotographyKey(style: string, key: string)
    requires style == "Photography" && key == "style.photography"
    ensures StyleKey(style) == key
  {
    assert key == "style." + "photography";
    PhotographyLowered(style);
    StyleKeyUnspaced(style, "photography");
  }

  lemma AnimeLowered(style: string)
    requires style == "Anime"
    ensures ToLowerAscii(style) == "anime"
  {
  }

  lemma AnimeKey(style: string, key: string)
    requires style == "Anime" && key == "style.anime"
    ensures StyleKey(style) == key
  {
    assert key == "style." + "anime";
    AnimeLowered(style);
    StyleKeyUnspaced(style, "anime");
  }

  lemma CartoonLowered(style: string)
    requires style == "Cartoon"
    ensures ToLowerAscii(style) == "cartoon"
  {
  }

  lemma CartoonKey(style: string, key: string)
    requires style == "Cartoon" && key == "style.cartoon"
    ensures StyleKey(style) == key
  {
    assert key == "style." + "cartoon";
    CartoonLowered(style);
    StyleKeyUnspaced(style, "cartoon");
  }

  lemma ComicBookLowered(style: string)
    requires style == "Comic Book"
    ensures ToLowerAscii(style) == "comic" + " " + "book"
  {
  }

  lemma ComicBookKey(style: string, key: string)
    requires style == "Comic Book" && key == "style.comic_book"
    ensures StyleKey(style) == key
  {
    assert key == "style." + "comic" + "_" + "book";
    ComicBookLowered(style);
    StyleKeySpaced(style, "comic", "book");
  }

  lemma OilPaintingLowered(style: string)
    requires style == "Oil Painting"
    ensures ToLowerAscii(style) == "oil" + " " + "painting"
  {
  }

  lemma OilPaintingKey(style: string, key: string)
    requires style == "Oil Painting" && key == "style.oil_painting"
    ensures StyleKey(style) == key
  {
    assert key == "style." + "oil" + "_" + "painting";
    OilPaintingLowered(style);
    StyleKeySpaced(style, "oil", "painting");
  }

  /* The key of each offered dimension. */

  lemma SquareKey(d: DimensionOption, key: string)
    requires d.value == "square" && key == "dimension.square"
    ensures DimensionKey(d) == key
  {
    assert key == "dimension." + "square";
  }

  lemma SquareHdKey(d: DimensionOption, key: string)
    requires d.value == "square_hd" && key == "dimension.square_hd"
    ensures DimensionKey(d) == key
  {
    assert key == "dimension." + "square_hd";
  }

  lemma Portrait43Key(d: DimensionOption, key: string)
    requires d.value == "portrait_4_3" && key == "dimension.portrait_4_3"
    ensures DimensionKey(d) == key
  {
    assert key == "dimension." + "portrait_4_3";
  }

  lemma Portrait169Key(d: DimensionOption, key: string)
    requires d.value == "portrait_16_9" && key == "dimension.portrait_16_9"
    ensures DimensionKey(d) == key
  {
    assert key == "dimension." + "portrait_16_9";
  }

  lemma Landscape43Key(d: DimensionOption, key: string)
    requires d.value == "landscape_4_3" && key == "dimension.landscape_4_3"
    ensures DimensionKey(d) == key
  {
    assert key == "dimension." + "landscape_4_3";
  }

  lemma Landscape169Key(d: DimensionOption, key: string)
    requires d.value == "landscape_16_9" && key == "dimension.landscape_16_9"
    ensures DimensionKey(d) == key
  {
    assert key == "dimension." + "landscape_16_9";
  }

  // ---------------------------------------------------------------------------
  // Requests

  /** The request `handleGenerate` sends, or nothing when the prompt is blank. */
  function BuildRequest(prompt: string, style: string, dimension: string, quality: string): (r: Option<GenerationRequest>)
    ensures r.None? <==> AllSpaces(prompt)
    ensures r.Some? ==> r.value == GenerationRequest(Trim(prompt), style, dimension, quality)
    ensures r.Some? ==> r.value.prompt != [] && |r.value.prompt| <= |prompt|
  {
    TrimEmptyIffBlank(prompt);
    if Trim(prompt) == [] then None else Some(GenerationRequest(Trim(prompt), style, dimension, quality))
  }

  /** Both generate controls are disabled while the trimmed prompt is empty or
      either generation runs. */
  predicate GenerateDisabled(prompt: string, isGenerating: bool, isGeneratingVideo: bool) {
    Trim(prompt) == [] || isGenerating || isGeneratingVideo
  }

  /** When nothing is running, the controls are enabled exactly when a
      request would be sent. */
  lemma EnabledIffRequest(prompt: string, style: string, dimension: string, quality: string)
    ensures !GenerateDisabled(prompt, false, false) <==> BuildRequest(prompt, style, dimension, quality).Some?
  {
    TrimEmptyIffBlank(prompt);
  }
}
