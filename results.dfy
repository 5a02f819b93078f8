/**
 * Extraction of result titles and URLs from the results page (find_elements in
 * google_scrapping.py). The page is given as what the browser would report for
 * each result anchor, in page order.
 */
module Results {
  import opened Wrappers

  /**
   * One result anchor: the text of its <h3> heading (None when there is no heading
   * and locating it raises) and its href attribute (None when absent).
   */
  datatype Anchor = Anchor(heading: Option<string>, href: Option<string>)

  /** A title and URL pair. */
  type Hit = (string, string)

  /** The anchor's title and URL when both are present and non-empty. */
  predicate Complete(a: Anchor)
  {
    a.heading.Some? && a.heading.value != "" && a.href.Some? && a.href.value != ""
  }

  /** The pairs find_elements keeps, in page order. */
  function Kept(anchors: seq<Anchor>): seq<Hit>
  {
    if anchors == [] then []
    else
      var last := anchors[|anchors| - 1];
      Kept(anchors[..|anchors| - 1]) + (if Complete(last) then [(last.heading.value, last.href.value)] else [])
  }

  /** The pairs kept from a page; None stands for a page whose results could not be located. */
  function PageHits(page: Option<seq<Anchor>>): seq<Hit>
  {
    if page.None? then [] else Kept(page.value)
  }

  function Titles(hits: seq<Hit>): (r: seq<string>)
    ensures |r| == |hits|
  {
    seq(|hits|, k requires 0 <= k < |hits| => hits[k].0)
  }

  function Urls(hits: seq<Hit>): (r: seq<string>)
    ensures |r| == |hits|
  {
    seq(|hits|, k requires 0 <= k < |hits| => hits[k].1)
  }

  /**
   * find_elements: `titles` and `urls` are parallel lists of the complete anchors'
   * titles and URLs in page order; a page on which the results could not be located
   * gives two empty lists rather than an error.
   */
  method FindElements(page: Option<seq<Anchor>>) returns (titles: seq<string>, urls: seq<string>)
    ensures |titles| == |urls|
    ensures page.None? ==> titles == [] && urls == []
    ensures titles == Titles(PageHits(page)) && urls == Urls(PageHits(page))
  {
    titles, urls := [], [];
    if page.None? {
      return;
    }
    var anchors := page.value;
    for i := 0 to |anchors|
      invariant |titles| == |urls| == |Kept(anchors[..i])|
      invariant forall k :: 0 <= k < |titles| ==> (titles[k], urls[k]) == Kept(anchors[..i])[k]
    {
      var a := anchors[i];
      assert anchors[..i + 1][..i] == anchors[..i];
      if a.heading.Some? && a.heading.value != "" && a.href.Some? && a.href.value != "" {
        titles := titles + [a.heading.value];
        urls := urls + [a.href.value];
      }
    }
    assert anchors[..|anchors|] == anchors;
  }

  /** Page order is kept: the pairs of two consecutive stretches of the page follow each other. */
  lemma {:induction false} KeptConcat(a: seq<Anchor>, b: seq<Anchor>)
    ensures Kept(a + b) == Kept(a) + Kept(b)
  {
    if b == [] {
      assert a + b == a;
    } else {
      var n := |b| - 1;
      KeptConcat(a, b[..n]);
      assert (a + b)[..|a + b| - 1] == a + b[..n];
    }
  }

  /** A pair is kept exactly when some anchor carries it as a non-empty title and URL. */
  lemma {:induction false} KeptMembership(anchors: seq<Anchor>, title: string, url: string)
    ensures (title, url) in Kept(anchors) <==>
      title != "" && url != "" && Anchor(Some(title), Some(url)) in anchors
  {
    if anchors != [] {
      var n := |anchors| - 1;
      KeptMembership(anchors[..n], title, url);
      assert anchors == anchors[..n] + [anchors[n]];
    }
  }

  /** Nothing is invented: never more pairs than anchors, and all of them when every anchor is complete. */
  lemma {:induction false} KeptCount(anchors: seq<Anchor>)
    ensures |Kept(anchors)| <= |anchors|
    ensures (forall k :: 0 <= k < |anchors| ==> Complete(anchors[k])) ==> |Kept(anchors)| == |anchors|
  {
    if anchors != [] {
      KeptCount(anchors[..|anchors| - 1]);
    }
  }
}
