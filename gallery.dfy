/** The gallery page: the user's images fetched once, shown twelve to a page. */
module Gallery {
  import opened Wrappers
  import Seqs
  import Media
  import Api

  const ItemsPerPage: nat := 12

  function Min(a: int, b: int): int {
    if a <= b then a else b
  }

  /** `Math.ceil(n / ITEMS_PER_PAGE)`: the fewest pages of twelve that hold
      `n` images; no page at all for no image. */
  function TotalPages(n: nat): (r: nat)
    ensures r == 0 <==> n == 0
    ensures r * ItemsPerPage >= n
    ensures n > 0 ==> (r - 1) * ItemsPerPage < n
  {
    (n + ItemsPerPage - 1) / ItemsPerPage
  }

  /** `images.slice((currentPage - 1) * ITEMS_PER_PAGE, currentPage * ITEMS_PER_PAGE)`:
      whatever the page number, at most twelve images of the list. */
  function Page<T>(s: seq<T>, p: int): (r: seq<T>)
    ensures |r| <= ItemsPerPage
    ensures forall x :: x in r ==> x in s
  {
    Seqs.Slice(s, (p - 1) * ItemsPerPage, p * ItemsPerPage)
  }

  /** Where page `p` starts and ends among `n` images. */
  function PageStart(n: nat, p: int): int {
    Min((p - 1) * ItemsPerPage, n)
  }

  function PageEnd(n: nat, p: int): int {
    Min(p * ItemsPerPage, n)
  }

  /** Page `p` (from 1) is the run of indices `[(p-1)*12, min(p*12, n))` of
      the list, in the list's order, so it never holds more than twelve. */
  lemma PageIsRun<T>(s: seq<T>, p: int)
    requires p >= 1
    ensures 0 <= PageStart(|s|, p) <= PageEnd(|s|, p) <= |s|
    ensures Page(s, p) == s[PageStart(|s|, p)..PageEnd(|s|, p)]
    ensures |Page(s, p)| <= ItemsPerPage
  {
  }

  /** A page from 1 up to the page count has images; every page after it is
      empty, which is when the page says "No images uploaded yet". */
  lemma PageNonEmpty<T>(s: seq<T>, p: int)
    requires p >= 1
    ensures Page(s, p) != [] <==> p <= TotalPages(|s|)
  {
    PageIsRun(s, p);
    var t := TotalPages(|s|);
    if p <= t {
      assert (p - 1) * ItemsPerPage <= (t - 1) * ItemsPerPage < |s|;
    } else {
      assert (p - 1) * ItemsPerPage >= t * ItemsPerPage >= |s|;
    }
  }

  /** Page 0 is always empty. */
  lemma PageZeroEmpty<T>(s: seq<T>)
    ensures Page(s, 0) == []
  {
  }

  /** Pages 1 to `k`, concatenated in order. */
  function Pages<T>(s: seq<T>, k: nat): seq<T> {
    if k == 0 then [] else Pages(s, k - 1) + Page(s, k)
  }

  /** The first `k` pages together are the first `min(12k, n)` images. */
  lemma {:induction false} PagesPrefix<T>(s: seq<T>, k: nat)
    ensures Pages(s, k) == s[..Min(k * ItemsPerPage, |s|)]
  {
    if k > 0 {
      PagesPrefix(s, k - 1);
      PageIsRun(s, k);
      var a, b := PageStart(|s|, k), PageEnd(|s|, k);
      assert a == Min((k - 1) * ItemsPerPage, |s|);
      assert s[..a] + s[a..b] == s[..b];
    }
  }

  /** All the pages, concatenated in order, give back the whole list. */
  lemma PagesCoverAll<T>(s: seq<T>)
    ensures Pages(s, TotalPages(|s|)) == s
  {
    PagesPrefix(s, TotalPages(|s|));
  }

  /** The pages do not overlap and leave no gap: index `i` lies in the range
      of page `p` exactly when `p` is `i / 12 + 1`. */
  lemma IndexOnOnePage(n: nat, i: nat, p: int)
    requires i < n && p >= 1
    ensures PageStart(n, p) <= i < PageEnd(n, p) <==> p == i / ItemsPerPage + 1
  {
    var q := i / ItemsPerPage + 1;
    assert (q - 1) * ItemsPerPage <= i < q * ItemsPerPage;
    if p < q {
      assert p * ItemsPerPage <= (q - 1) * ItemsPerPage;
    } else if p > q {
      assert (p - 1) * ItemsPerPage >= q * ItemsPerPage;
    }
  }

  /** Image `i` is shown at slot `i % 12` of page `i / 12 + 1`. */
  lemma ImageShownOnItsPage<T>(s: seq<T>, i: nat)
    requires i < |s|
    ensures var p := i / ItemsPerPage + 1;
      && 1 <= p <= TotalPages(|s|)
      && i % ItemsPerPage < |Page(s, p)|
      && Page(s, p)[i % ItemsPerPage] == s[i]
  {
    var p := i / ItemsPerPage + 1;
    PageIsRun(s, p);
    IndexOnOnePage(|s|, i, p);
    PageNonEmpty(s, p);
  }

  /** What the page body shows. */
  datatype View = Loading | NoImages | Grid(items: seq<Media.Image>, currentPage: int, totalPages: nat)

  /** The loader while loading; "No images uploaded yet" once loaded when the
      current page is empty; otherwise the grid of that page's images, never
      more than twelve, with the page count under it. */
  function ViewOf(loading: bool, images: seq<Media.Image>, currentPage: int): (v: View)
    ensures v == Loading <==> loading
    ensures v == NoImages <==> !loading && Page(images, currentPage) == []
    ensures v.Grid? ==>
      && v.items == Page(images, currentPage) && 1 <= |v.items| <= ItemsPerPage
      && v.currentPage == currentPage && v.totalPages == TotalPages(|images|)
  {
    if loading then Loading
    else if Page(images, currentPage) == [] then NoImages
    else Grid(Page(images, currentPage), currentPage, TotalPages(|images|))
  }

  /** Once loaded, a page from 1 on shows "No images uploaded yet" exactly
      past the last page, and otherwise its own twelve-or-fewer images. */
  lemma ViewAfterLoad(images: seq<Media.Image>, p: int)
    requires p >= 1
    ensures ViewOf(false, images, p) == NoImages <==> p > TotalPages(|images|)
    ensures ViewOf(false, images, p).Grid? ==> 1 <= |ViewOf(false, images, p).items| <= ItemsPerPage
  {
    PageNonEmpty(images, p);
    PageIsRun(images, p);
  }

  class GalleryPage {
    var images: seq<Media.Image>
    var loading: bool
    var currentPage: int
    var selected: Option<Media.Image>

    /** The first render: no images, loading, page 1, no detail open. */
    constructor ()
      ensures images == [] && loading && currentPage == 1 && selected == None
    {
      images := [];
      loading := true;
      currentPage := 1;
      selected := None;
    }

    /** `fetchImages`, given how the request ends: the list under
        `data.data.images`, or the empty list when that is missing or the
        request fails; loading is over either way. */
    method FetchImages(reply: Api.Settled<Option<seq<Media.Image>>>)
      modifies this
      ensures images == if reply.Resolved? && reply.value.Some? then reply.value.value else []
      ensures !loading
      ensures currentPage == old(currentPage) && selected == old(selected)
    {
      loading := true;
      match reply {
        case Resolved(v) => images := v.GetOr([]);
        case Rejected(_) => images := [];
      }
      loading := false;
    }

    /** `onPageChange={setCurrentPage}`. */
    method ChangePage(p: int)
      modifies this
      ensures currentPage == p
      ensures images == old(images) && loading == old(loading) && selected == old(selected)
    {
      currentPage := p;
    }

    /** Clicking an image opens its details; the close button shuts them. */
    method Select(image: Option<Media.Image>)
      modifies this
      ensures selected == image
      ensures images == old(images) && loading == old(loading) && currentPage == old(currentPage)
    {
      selected := image;
    }
  }
}
