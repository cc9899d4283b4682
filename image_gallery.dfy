/** The paginated gallery of components/image-gallery.tsx: six images per
    page, a window of at most five page buttons, clamped previous/next
    buttons, and the reset to the first page when a highlighted image is
    announced. */
module ImageGallery {
  import opened Wrappers
  import opened SeedreamApi

  const ImagesPerPage: nat := 6
  /** The most page buttons the navigation shows at once. */
  const WindowSize: nat := 5

  /** `Math.ceil(n / 6)`: the fewest pages of six that hold `n` images. */
  function TotalPages(n: nat): (r: nat)
    ensures r == 0 <==> n == 0
    ensures n <= r * ImagesPerPage
    ensures r > 0 ==> (r - 1) * ImagesPerPage < n
  {
    (n + ImagesPerPage - 1) / ImagesPerPage
  }

  /** Where `Array.prototype.slice` puts a (possibly negative) bound in a list of length `n`. */
  function SliceBound(i: int, n: nat): (k: nat)
    ensures k <= n
    ensures 0 <= i ==> k == if i <= n then i else n
  {
    if i < 0 then (if n + i < 0 then 0 else n + i) else if i > n then n else i
  }

  /** `s.slice(start, end)`: never longer than the list, and for bounds
      `0 <= start <= end` the run from `start` to `end`, cut off at the end
      of the list. */
  function Slice<T>(s: seq<T>, start: int, end: int): (r: seq<T>)
    ensures |r| <= |s|
    ensures 0 <= start <= end ==> r == s[Min(start, |s|)..Min(end, |s|)]
  {
    var a, b := SliceBound(start, |s|), SliceBound(end, |s|);
    if a < b then s[a..b] else []
  }

  function Min(a: int, b: int): int { if a <= b then a else b }
  function Max(a: int, b: int): int { if a <= b then b else a }

  /** `currentImages`: the images shown on `page`. */
  function PageSlice<T>(list: seq<T>, page: int): seq<T> {
    Slice(list, (page - 1) * ImagesPerPage, page * ImagesPerPage)
  }

  /** A page from 1 on shows at most six images: the contiguous run that
      starts at `(page - 1) * 6`, cut short by the end of the list. */
  lemma PageSliceIsSegment<T>(list: seq<T>, page: int)
    requires page >= 1
    ensures |PageSlice(list, page)| <= ImagesPerPage
    ensures var lo := Min((page - 1) * ImagesPerPage, |list|);
      PageSlice(list, page) == list[lo..Min(page * ImagesPerPage, |list|)]
  {
  }

  /** Pages 1 to `k` laid end to end. */
  function PagesUpTo<T>(list: seq<T>, k: nat): seq<T> {
    if k == 0 then [] else PagesUpTo(list, k - 1) + PageSlice(list, k)
  }

  lemma {:induction false} PagesUpToIsPrefix<T>(list: seq<T>, k: nat)
    ensures PagesUpTo(list, k) == list[..Min(k * ImagesPerPage, |list|)]
  {
    if k > 0 {
      PagesUpToIsPrefix(list, k - 1);
      PageSliceIsSegment(list, k);
      var lo := Min((k - 1) * ImagesPerPage, |list|);
      var hi := Min(k * ImagesPerPage, |list|);
      assert list[..lo] + list[lo..hi] == list[..hi];
    }
  }

  /** The pages 1 to `TotalPages` split the list in order: each image is on
      exactly one page, and paging through them shows the whole list. */
  lemma PagesPartitionList<T>(list: seq<T>)
    ensures PagesUpTo(list, TotalPages(|list|)) == list
  {
    PagesUpToIsPrefix(list, TotalPages(|list|));
  }

  /** The navigation is rendered only when there is more than one page. */
  predicate ShowNavigation(n: nat) {
    TotalPages(n) > 1
  }

  lemma ShowNavigationIffMoreThanOnePage(n: nat)
    ensures ShowNavigation(n) <==> n > ImagesPerPage
  {
  }

  /** The `i`-th page button, by the four branches of the window rule. */
  function WindowPage(current: int, total: nat, i: nat): int {
    if total <= WindowSize then i + 1
    else if current <= 3 then i + 1
    else if current >= total - 2 then total - 4 + i
    else current - 2 + i
  }

  /** The page numbers on the navigation buttons: `min(5, total)` consecutive
      pages in `[1, total]`, including the current page whenever it is a page. */
  function PageWindow(current: int, total: nat): (r: seq<int>)
    ensures |r| == Min(WindowSize, total)
    ensures forall i :: 0 <= i < |r| ==> r[i] == r[0] + i
    ensures forall i :: 0 <= i < |r| ==> 1 <= r[i] <= total
    ensures 1 <= current <= total ==> current in r
  {
    var r := seq(Min(WindowSize, total), i requires 0 <= i => WindowPage(current, total, i));
    assert 1 <= current <= total ==> 0 <= current - r[0] < |r| && r[current - r[0]] == current;
    r
  }

  /** The state the gallery keeps: the page and the image open in the modal. */
  datatype Gallery = Gallery(currentPage: int, selected: Option<GeneratedImage>, modalOpen: bool)

  const Initial := Gallery(1, None, false)

  /** The previous-page button targets `max(1, p - 1)`. */
  function PrevPage(g: Gallery): (h: Gallery)
    ensures h.currentPage >= 1 && h.currentPage >= g.currentPage - 1
    ensures g.currentPage > 1 ==> h.currentPage == g.currentPage - 1
    ensures h.selected == g.selected && h.modalOpen == g.modalOpen
  {
    g.(currentPage := Max(1, g.currentPage - 1))
  }

  /** The next-page button targets `min(total, p + 1)`. */
  function NextPage(g: Gallery, total: nat): (h: Gallery)
    ensures h.currentPage <= total && h.currentPage <= g.currentPage + 1
    ensures g.currentPage < total ==> h.currentPage == g.currentPage + 1
    ensures h.selected == g.selected && h.modalOpen == g.modalOpen
  {
    g.(currentPage := Min(total, g.currentPage + 1))
  }

  predicate PrevDisabled(g: Gallery) { g.currentPage == 1 }
  predicate NextDisabled(g: Gallery, total: nat) { g.currentPage == total }

  /** A page button is disabled exactly where pressing it would change nothing. */
  lemma DisabledExactlyWhenNoOp(g: Gallery, total: nat)
    requires 1 <= g.currentPage <= total
    ensures PrevDisabled(g) <==> PrevPage(g) == g
    ensures NextDisabled(g, total) <==> NextPage(g, total) == g
  {
    if PrevPage(g) == g { assert PrevPage(g).currentPage == g.currentPage; }
    if NextPage(g, total) == g { assert NextPage(g, total).currentPage == g.currentPage; }
  }

  /** Pressing the button of page `page`. */
  function GoToPage(g: Gallery, page: int): (h: Gallery)
    ensures h.currentPage == page && h.selected == g.selected && h.modalOpen == g.modalOpen
  {
    g.(currentPage := page)
  }

  /** The effect on `[highlightImageId, generatedImages.length]`: a non-empty
      highlight id over a non-empty list sends the gallery to page 1. */
  function OnHighlight(g: Gallery, highlight: Option<string>, n: nat): (h: Gallery)
    ensures h.currentPage == if highlight.Some? && highlight.value != "" && n > 0 then 1 else g.currentPage
    ensures h.selected == g.selected && h.modalOpen == g.modalOpen
  {
    if highlight.Some? && highlight.value != "" && n > 0 then g.(currentPage := 1) else g
  }

  /** Clicking a card opens the modal on that image. */
  function ViewImage(g: Gallery, image: GeneratedImage): (h: Gallery)
    ensures h.selected == Some(image) && h.modalOpen && h.currentPage == g.currentPage
  {
    g.(selected := Some(image), modalOpen := true)
  }

  function CloseModal(g: Gallery): (h: Gallery)
    ensures h.selected == None && !h.modalOpen && h.currentPage == g.currentPage
  {
    g.(selected := None, modalOpen := false)
  }

  /** The page is a real page, or page 1 of an empty gallery. */
  predicate PageInRange(g: Gallery, total: nat) {
    1 <= g.currentPage <= Max(1, total)
  }

  /** More images never means fewer pages. */
  lemma TotalPagesMonotone(n: nat, n': nat)
    requires n <= n'
    ensures TotalPages(n) <= TotalPages(n')
  {
    var t, t' := TotalPages(n), TotalPages(n');
    if t > 0 {
      assert (t - 1) * ImagesPerPage < t' * ImagesPerPage;
    }
  }

  /** The moves the navigation offers while it is shown. */
  datatype Move = Prev | Next | Button(index: nat) | Highlight(id: Option<string>)

  function Step(g: Gallery, m: Move, n: nat): Gallery
    requires m.Button? ==> m.index < |PageWindow(g.currentPage, TotalPages(n))|
  {
    match m
    case Prev => PrevPage(g)
    case Next => NextPage(g, TotalPages(n))
    case Button(i) => GoToPage(g, PageWindow(g.currentPage, TotalPages(n))[i])
    case Highlight(id) => OnHighlight(g, id, n)
  }

  /** Every move keeps the page in range, and so does a list that grows
      underneath it. */
  lemma PageStaysInRange(g: Gallery, m: Move, n: nat, n': nat)
    requires m.Button? ==> m.index < |PageWindow(g.currentPage, TotalPages(n))|
    requires m.Prev? || m.Next? || m.Button? ==> ShowNavigation(n)
    requires PageInRange(g, TotalPages(n)) && n <= n'
    ensures PageInRange(Step(g, m, n), TotalPages(n))
    ensures PageInRange(g, TotalPages(n'))
  {
    TotalPagesMonotone(n, n');
  }

  /** The initial page is in range for any list. */
  lemma InitialInRange(n: nat)
    ensures PageInRange(Initial, TotalPages(n))
  {
  }
}
