/**
 * The photo gallery of a place page: the main image and the gallery URLs
 * with empty and repeated entries removed, the first five as a preview and
 * a count of the rest. Without any image the gallery is not shown.
 */
module PlaceGallery {
  import opened Wrappers
  import opened Js
  import opened Collections

  // ---------------------------------------------------------------------------
  // dedupeUrls
  // ---------------------------------------------------------------------------

  /** The URLs the loop has pushed after reading `urls`. */
  function Dedupe(urls: seq<Option<string>>): seq<string>
    decreases |urls|
  {
    if urls == [] then []
    else
      var prev := Dedupe(urls[..|urls| - 1]);
      var u := urls[|urls| - 1];
      if Truthy(u) && u.value !in prev then prev + [u.value] else prev
  }

  /** `dedupeUrls(urls)`, with `seen` kept beside `out`. */
  method DedupeUrls(urls: seq<Option<string>>) returns (out: seq<string>)
    ensures out == Dedupe(urls)
  {
    out := [];
    var seen: set<string> := {};
    var i := 0;
    while i < |urls|
      invariant 0 <= i <= |urls|
      invariant out == Dedupe(urls[..i])
      invariant seen == set x | x in out
    {
      var u := urls[i];
      assert urls[..i + 1][..i] == urls[..i];
      if u.Some? && u.value != "" && u.value !in seen {
        seen := seen + {u.value};
        out := out + [u.value];
      }
      i := i + 1;
    }
    assert urls[..|urls|] == urls;
  }

  /** The output has no repeats, no empty URL, and holds exactly the truthy input URLs. */
  lemma {:induction false} DedupeFacts(urls: seq<Option<string>>)
    ensures NoDup(Dedupe(urls))
    ensures forall y :: y in Dedupe(urls) <==> Some(y) in urls && y != ""
    decreases |urls|
  {
    if urls != [] {
      var pre := urls[..|urls| - 1];
      DedupeFacts(pre);
      assert urls == pre + [urls[|urls| - 1]];
    }
  }

  /** Reading more URLs only appends: the output for a prefix is a prefix of the output. */
  lemma {:induction false} DedupePrefix(urls: seq<Option<string>>, k: nat)
    requires k <= |urls|
    ensures Dedupe(urls[..k]) <= Dedupe(urls)
    decreases |urls| - k
  {
    if k < |urls| {
      var pre := urls[..|urls| - 1];
      assert pre[..k] == urls[..k];
      DedupePrefix(pre, k);
    } else {
      assert urls[..k] == urls;
    }
  }

  /** The index where `u` first appears in `urls`. */
  ghost function FirstIndex(urls: seq<Option<string>>, u: string): (k: nat)
    requires Some(u) in urls
    ensures k < |urls| && urls[k] == Some(u) && Some(u) !in urls[..k]
    decreases |urls|
  {
    if urls[0] == Some(u) then 0
    else
      var k := 1 + FirstIndex(urls[1..], u);
      assert urls[..k] == [urls[0]] + urls[1..][..k - 1];
      k
  }

  /** A first appearance found inside a prefix is the first appearance in the whole list. */
  lemma FirstIndexInPrefix(urls: seq<Option<string>>, m: nat, u: string)
    requires m <= |urls| && Some(u) in urls[..m]
    ensures FirstIndex(urls[..m], u) == FirstIndex(urls, u)
  {
    var a := FirstIndex(urls[..m], u);
    var b := FirstIndex(urls, u);
    assert urls[..m][..a] == urls[..a];
  }

  /** Every URL is kept at its first appearance: the output follows the order of first appearances. */
  lemma {:induction false} DedupeFirstOrder(urls: seq<Option<string>>, i: int, j: int)
    requires 0 <= i < j < |Dedupe(urls)|
    ensures Some(Dedupe(urls)[i]) in urls && Some(Dedupe(urls)[j]) in urls
    ensures FirstIndex(urls, Dedupe(urls)[i]) < FirstIndex(urls, Dedupe(urls)[j])
    decreases |urls|
  {
    var r := Dedupe(urls);
    var n := |urls|;
    var pre := urls[..n - 1];
    var prev := Dedupe(pre);
    DedupeFacts(urls);
    DedupeFacts(pre);
    assert r[i] in r && r[j] in r;
    assert urls == pre + [urls[n - 1]];
    assert prev <= r;
    assert r[i] == prev[i];
    FirstIndexInPrefix(urls, n - 1, r[i]);
    if j < |prev| {
      assert r[j] == prev[j];
      DedupeFirstOrder(pre, i, j);
      FirstIndexInPrefix(urls, n - 1, r[j]);
    } else {
      assert r[j] == urls[n - 1].value && r[j] !in prev;
      assert Some(r[j]) !in pre;
      assert FirstIndex(urls, r[j]) == n - 1;
    }
  }

  // ---------------------------------------------------------------------------
  // The gallery
  // ---------------------------------------------------------------------------

  /** `[image, ...(gallery || [])]` */
  function GalleryUrls(image: Option<string>, gallery: Option<seq<string>>): (r: seq<Option<string>>)
    ensures |r| >= 1 && r[0] == image
    ensures forall y :: Some(y) in r[1..] <==> gallery.Some? && y in gallery.value
  {
    var g := if gallery.Some? then gallery.value else [];
    var r := [image] + seq(|g|, i requires 0 <= i < |g| => Some(g[i]));
    forall y ensures Some(y) in r[1..] <==> gallery.Some? && y in gallery.value {
      if y in g {
        var i :| 0 <= i < |g| && g[i] == y;
        assert r[1..][i] == Some(y);
      }
    }
    r
  }

  /** `images` */
  function Images(image: Option<string>, gallery: Option<seq<string>>): seq<string> {
    Dedupe(GalleryUrls(image, gallery))
  }

  const PreviewSize := 5

  /** `images.slice(0, 5)` */
  function Preview(images: seq<string>): seq<string> {
    Take(images, PreviewSize)
  }

  /** `Math.max(0, images.length - preview.length)` */
  function Remaining(images: seq<string>): int {
    var d := |images| - |Preview(images)|;
    if d < 0 then 0 else d
  }

  /** What the component shows: the images, the preview and the count of photos past it. */
  datatype View = View(images: seq<string>, preview: seq<string>, remaining: int)

  /** `PlaceGallery({ image, gallery })`; `None` is rendering nothing. */
  function Render(image: Option<string>, gallery: Option<seq<string>>): Option<View> {
    var images := Images(image, gallery);
    if |images| > 0 then Some(View(images, Preview(images), Remaining(images))) else None
  }

  /** A truthy main image is the first image. */
  lemma MainImageFirst(image: Option<string>, gallery: Option<seq<string>>)
    requires Truthy(image)
    ensures |Images(image, gallery)| > 0 && Images(image, gallery)[0] == image.value
  {
    var urls := GalleryUrls(image, gallery);
    DedupePrefix(urls, 1);
    assert urls[..1] == [image];
    assert [image][..0] == [];
  }

  /**
   * The images are the truthy main image and gallery URLs, each exactly
   * once, and no empty URL.
   */
  lemma ImagesFacts(image: Option<string>, gallery: Option<seq<string>>)
    ensures NoDup(Images(image, gallery))
    ensures forall y :: y in Images(image, gallery) <==> y != "" && (image == Some(y) || (gallery.Some? && y in gallery.value))
  {
    var urls := GalleryUrls(image, gallery);
    DedupeFacts(urls);
    assert urls == [urls[0]] + urls[1..];
    forall y ensures Some(y) in urls <==> image == Some(y) || Some(y) in urls[1..] {
    }
  }

  /**
   * The preview is the first five images (all of them when there are fewer),
   * and the rest are counted: preview and remaining add up to all images.
   */
  lemma PreviewFacts(images: seq<string>)
    ensures Preview(images) <= images
    ensures |Preview(images)| == if |images| <= PreviewSize then |images| else PreviewSize
    ensures Remaining(images) >= 0 && |Preview(images)| + Remaining(images) == |images|
  {
  }

  /**
   * Nothing is rendered exactly when there is no truthy URL; otherwise the
   * view holds the deduplicated images, their preview and the remaining count.
   */
  lemma RenderFacts(image: Option<string>, gallery: Option<seq<string>>)
    ensures Render(image, gallery).None?
            <==> !Truthy(image) && (gallery.None? || forall k :: 0 <= k < |gallery.value| ==> gallery.value[k] == "")
    ensures Render(image, gallery).Some? ==> Render(image, gallery).value.images == Images(image, gallery)
  {
    ImagesFacts(image, gallery);
    var images := Images(image, gallery);
    if |images| > 0 {
      assert images[0] in images;
    }
    if gallery.Some? && exists k :: 0 <= k < |gallery.value| && gallery.value[k] != "" {
      var k :| 0 <= k < |gallery.value| && gallery.value[k] != "";
      assert gallery.value[k] in images;
    }
    if Truthy(image) {
      assert image.value in images;
    }
  }
}
