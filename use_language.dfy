/** The language provider of hooks/use-language.tsx: two translation tables,
    the lookup `t(key)` with its fallback to the key itself, and the choice of
    language kept in storage under its own key. */
module Language {
  import opened Wrappers
  import opened Storage

  datatype Lang = En | Zh

  /** The code a language is stored under. */
  function Code(lang: Lang): string {
    match lang
    case En => "en"
    case Zh => "zh"
  }

  /** Reads a stored code back; only the two codes name a language. */
  function ParseLang(s: string): (r: Option<Lang>)
    ensures r.Some? ==> Code(r.value) == s
    ensures r.None? ==> s != "en" && s != "zh"
  {
    if s == "en" then Some(En) else if s == "zh" then Some(Zh) else None
  }

  lemma ParseCode(lang: Lang)
    ensures ParseLang(Code(lang)) == Some(lang)
  {
  }

  const EnTable: map<string, string> := map[
    "header.home" := "Home",
    "header.explore" := "Explore",
    "header.community" := "Community",
    "header.about" := "About",
    "hero.title" := "Unleash Your Imagination",
    "hero.subtitle" := "Describe anything you can dream of, and let our AI bring it to life.",
    "generator.placeholder" := "A vibrant cartoon world with talking animals...",
    "generator.style" := "Style",
    "generator.dimensions" := "Dimensions",
    "generator.quality" := "Quality",
    "generator.generate" := "Generate",
    "generator.generating" := "Generating...",
    "style.cinematic" := "Cinematic",
    "style.photography" := "Photography",
    "style.anime" := "Anime",
    "style.cartoon" := "Cartoon",
    "style.comic_book" := "Comic Book",
    "style.oil_painting" := "Oil Painting",
    "dimension.square" := "Square",
    "dimension.square_hd" := "Square HD",
    "dimension.portrait_4_3" := "Portrait 3:4",
    "dimension.portrait_16_9" := "Portrait 9:16",
    "dimension.landscape_4_3" := "Landscape 4:3",
    "dimension.landscape_16_9" := "Landscape 9:16",
    "gallery.title" := "Your Creations",
    "gallery.empty.title" := "No creations yet",
    "gallery.empty.subtitle" := "Generate your first image to see it here!",
    "gallery.download" := "Download",
    "gallery.share" := "Share",
    "gallery.retry" := "Retry",
    "error.generation_failed" := "Failed to generate image",
    "error.download_failed" := "Failed to download image",
    "error.share_failed" := "Failed to share image",
    "error.image_not_found" := "Image not found"
  ]

  const ZhTable: map<string, string> := map[
    "header.home" := "首页",
    "header.explore" := "探索",
    "header.community" := "社区",
    "header.about" := "关于",
    "hero.title" := "释放你的想象力",
    "hero.subtitle" := "描述你能梦想到的任何事物，让我们的AI将其变为现实。",
    "generator.placeholder" := "一个充满会说话动物的生动卡通世界...",
    "generator.style" := "风格",
    "generator.dimensions" := "尺寸",
    "generator.quality" := "质量",
    "generator.generate" := "生成",
    "generator.generating" := "生成中...",
    "style.cinematic" := "电影风格",
    "style.photography" := "摄影",
    "style.anime" := "动漫",
    "style.cartoon" := "卡通",
    "style.comic_book" := "漫画书",
    "style.oil_painting" := "油画",
    "dimension.square" := "正方形",
    "dimension.square_hd" := "高清正方形",
    "dimension.portrait_4_3" := "竖版 3:4",
    "dimension.portrait_16_9" := "竖版 9:16",
    "dimension.landscape_4_3" := "横版 4:3",
    "dimension.landscape_16_9" := "横版 9:16",
    "gallery.title" := "你的作品",
    "gallery.empty.title" := "还没有作品",
    "gallery.empty.subtitle" := "生成你的第一张图片来查看！",
    "gallery.download" := "下载",
    "gallery.share" := "分享",
    "gallery.retry" := "重试",
    "error.generation_failed" := "生成图片失败",
    "error.download_failed" := "下载图片失败",
    "error.share_failed" := "分享图片失败",
    "error.image_not_found" := "找不到图片"
  ]

  function Table(lang: Lang): map<string, string> {
    match lang
    case En => EnTable
    case Zh => ZhTable
  }

  /** Both tables translate the same keys, and no entry is the empty string. */
  lemma TablesAgree()
    ensures EnTable.Keys == ZhTable.Keys
    ensures forall k :: k in EnTable ==> EnTable[k] != ""
    ensures forall k :: k in ZhTable ==> ZhTable[k] != ""
  {
  }

  /** A key of the English table has a non-empty entry in both tables. */
  lemma KnownKey(key: string)
    requires key in EnTable
    ensures key in ZhTable && EnTable[key] != "" && ZhTable[key] != ""
  {
    TablesAgree();
  }

  /** `t(key)`: the entry of the current language when it is a non-empty
      string, and otherwise the key itself. */
  function Translate(lang: Lang, key: string): (r: string)
    ensures key in Table(lang) && Table(lang)[key] != "" ==> r == Table(lang)[key]
    ensures key !in Table(lang) || Table(lang)[key] == "" ==> r == key
  {
    if key in Table(lang) && Table(lang)[key] != "" then Table(lang)[key] else key
  }

  /** A key is translated in one language exactly when it is in the other,
      and an unknown key shows as itself whatever the language. */
  lemma TranslateFallsBackOnlyOnUnknownKeys(lang: Lang, key: string)
    ensures key in EnTable ==> Translate(lang, key) == Table(lang)[key]
    ensures key !in EnTable ==> Translate(lang, key) == key
  {
    TablesAgree();
  }

  /** The language stored under its key, if it is one of the two codes. */
  function StoredLang(entries: map<string, Stored>): (r: Option<Lang>)
    ensures r.Some? ==> LanguageKey in entries && entries[LanguageKey] == Raw(Code(r.value))
  {
    if LanguageKey in entries && entries[LanguageKey].Raw? then ParseLang(entries[LanguageKey].text) else None
  }

  /** What `setLanguage` writes is what the next mount reads back. */
  lemma StoredLangRoundTrip(entries: map<string, Stored>, lang: Lang)
    ensures StoredLang(entries[LanguageKey := Raw(Code(lang))]) == Some(lang)
  {
  }

  /** The provider: the current language, English until the mount effect
      finds a saved choice. */
  class LanguageProvider {
    var language: Lang
    const storage: LocalStorage

    constructor(storage: LocalStorage)
      ensures language == En && this.storage == storage
    {
      language := En;
      this.storage := storage;
    }

    /** The mount effect: a valid saved code replaces the language; anything
        else leaves it alone. */
    method Mount()
      modifies this
      ensures language == if StoredLang(storage.entries).Some? then StoredLang(storage.entries).value else old(language)
    {
      var saved := StoredLang(storage.entries);
      if saved.Some? {
        language := saved.value;
      }
    }

    /** `setLanguage(lang)`: switches and saves the choice. */
    method SetLanguage(lang: Lang)
      modifies this, storage
      ensures language == lang
      ensures storage.entries == old(storage.entries)[LanguageKey := Raw(Code(lang))]
      ensures StoredLang(storage.entries) == Some(lang)
    {
      language := lang;
      storage.SetItem(LanguageKey, Raw(Code(lang)));
      StoredLangRoundTrip(old(storage.entries), lang);
    }

    /** `t` as the provider hands it out: a lookup in the current language,
        which shows that language's entry whenever it is a non-empty string,
        and the key itself otherwise. */
    function T(key: string): (r: string)
      reads this
      ensures key in Table(language) && Table(language)[key] != "" ==> r == Table(language)[key]
      ensures key !in Table(language) || Table(language)[key] == "" ==> r == key
    {
      Translate(language, key)
    }
  }
}
