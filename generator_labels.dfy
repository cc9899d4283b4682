/** The labels of the generator panel's option buttons: every key the panel
    derives is translated in both languages, and in English it reads as the
    option itself. */
module GeneratorLabels {
  import opened Language
  import opened GeneratorOptions

  /** `key` has an entry in the table of `lang`, `t` returns that entry, and
      the English entry is `text`. */
  predicate Labelled(lang: Lang, key: string, text: string) {
    key in Table(lang) && Translate(lang, key) == Table(lang)[key] && Translate(En, key) == text
  }

  /** A key of the English table is translated, in either language, by its
      entry, and in English by the English text. */
  lemma KnownKeyLabelled(lang: Lang, key: string, text: string)
    requires key in EnTable && EnTable[key] == text
    ensures Labelled(lang, key, text)
  {
    KnownKey(key);
  }

  /* One lemma per option. As with the key lemmas, each names its option
     through parameters equal to the literals, which keeps the verifier from
     evaluating the translation tables on the literals themselves. */

  lemma CinematicLabel(lang: Lang, style: string, key: string)
    requires style == "Cinematic" && key == "style.cinematic"
    ensures Labelled(lang, StyleKey(style), style)
  {
    KnownKeyLabelled(lang, key, style);
    CinematicKey(style, key);
  }

  lemma PhotographyLabel(lang: Lang, style: string, key: string)
    requires style == "Photography" && key == "style.photography"
    ensures Labelled(lang, StyleKey(style), style)
  {
    KnownKeyLabelled(lang, key, style);
    PhotographyKey(style, key);
  }

  lemma AnimeLabel(lang: Lang, style: string, key: string)
    requires style == "Anime" && key == "style.anime"
    ensures Labelled(lang, StyleKey(style), style)
  {
    KnownKeyLabelled(lang, key, style);
    AnimeKey(style, key);
  }

  lemma CartoonLabel(lang: Lang, style: string, key: string)
    requires style == "Cartoon" && key == "style.cartoon"
    ensures Labelled(lang, StyleKey(style), style)
  {
    KnownKeyLabelled(lang, key, style);
    CartoonKey(style, key);
  }

  lemma ComicBookLabel(lang: Lang, style: string, key: string)
    requires style == "Comic Book" && key == "style.comic_book"
    ensures Labelled(lang, StyleKey(style), style)
  {
    KnownKeyLabelled(lang, key, style);
    ComicBookKey(style, key);
  }

  lemma OilPaintingLabel(lang: Lang, style: string, key: string)
    requires style == "Oil Painting" && key == "style.oil_painting"
    ensures Labelled(lang, StyleKey(style), style)
  {
    KnownKeyLabelled(lang, key, style);
    OilPaintingKey(style, key);
  }

  lemma SquareLabel(lang: Lang, d: DimensionOption, key: string)
    requires d.labelText == "Square" && d.value == "square" && key == "dimension.square"
    ensures Labelled(lang, DimensionKey(d), d.labelText)
  {
    KnownKeyLabelled(lang, key, d.labelText);
    SquareKey(d, key);
  }

  lemma SquareHdLabel(lang: Lang, d: DimensionOption, key: string)
    requires d.labelText == "Square HD" && d.value == "square_hd" && key == "dimension.square_hd"
    ensures Labelled(lang, DimensionKey(d), d.labelText)
  {
    KnownKeyLabelled(lang, key, d.labelText);
    SquareHdKey(d, key);
  }

  lemma Portrait43Label(lang: Lang, d: DimensionOption, key: string)
    requires d.labelText == "Portrait 3:4" && d.value == "portrait_4_3" && key == "dimension.portrait_4_3"
    ensures Labelled(lang, DimensionKey(d), d.labelText)
  {
    KnownKeyLabelled(lang, key, d.labelText);
    Portrait43Key(d, key);
  }

  lemma Portrait169Label(lang: Lang, d: DimensionOption, key: string)
    requires d.labelText == "Portrait 9:16" && d.value == "portrait_16_9" && key == "dimension.portrait_16_9"
    ensures Labelled(lang, DimensionKey(d), d.labelText)
  {
    KnownKeyLabelled(lang, key, d.labelText);
    Portrait169Key(d, key);
  }

  lemma Landscape43Label(lang: Lang, d: DimensionOption, key: string)
    requires d.labelText == "Landscape 4:3" && d.value == "landscape_4_3" && key == "dimension.landscape_4_3"
    ensures Labelled(lang, DimensionKey(d), d.labelText)
  {
    KnownKeyLabelled(lang, key, d.labelText);
    Landscape43Key(d, key);
  }

  lemma Landscape169Label(lang: Lang, d: DimensionOption, key: string)
    requires d.labelText == "Landscape 9:16" && d.value == "landscape_16_9" && key == "dimension.landscape_16_9"
    ensures Labelled(lang, DimensionKey(d), d.labelText)
  {
    KnownKeyLabelled(lang, key, d.labelText);
    Landscape169Key(d, key);
  }

  /** Every style button has a label in both languages, and the English label
      is the style's own name. */
  lemma StyleLabelsTranslated(lang: Lang, i: nat)
    requires i < |Styles|
    ensures Labelled(lang, StyleKey(Styles[i]), Styles[i])
  {
    if i == 0 { CinematicLabel(lang, Styles[i], "style.cinematic"); }
    else if i == 1 { PhotographyLabel(lang, Styles[i], "style.photography"); }
    else if i == 2 { AnimeLabel(lang, Styles[i], "style.anime"); }
    else if i == 3 { CartoonLabel(lang, Styles[i], "style.cartoon"); }
    else if i == 4 { ComicBookLabel(lang, Styles[i], "style.comic_book"); }
    else { OilPaintingLabel(lang, Styles[i], "style.oil_painting"); }
  }

  /** Every dimension button has a label in both languages, and the English
      label is the one the option list carries. */
  lemma DimensionLabelsTranslated(lang: Lang, i: nat)
    requires i < |Dimensions|
    ensures Labelled(lang, DimensionKey(Dimensions[i]), Dimensions[i].labelText)
  {
    if i == 0 { SquareLabel(lang, Dimensions[i], "dimension.square"); }
    else if i == 1 { SquareHdLabel(lang, Dimensions[i], "dimension.square_hd"); }
    else if i == 2 { Portrait43Label(lang, Dimensions[i], "dimension.portrait_4_3"); }
    else if i == 3 { Portrait169Label(lang, Dimensions[i], "dimension.portrait_16_9"); }
    else if i == 4 { Landscape43Label(lang, Dimensions[i], "dimension.landscape_4_3"); }
    else { Landscape169Label(lang, Dimensions[i], "dimension.landscape_16_9"); }
  }
}
