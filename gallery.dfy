/**
 * The product gallery's click handler: it builds the overlay's image list from
 * the visible image items of the carousel and picks the image to open on.
 *
 * `items` is the handler's `galleryItems`: the carousel items whose media type
 * is image and which are not filtered out, in document order.
 */
module Gallery {
  import opened Wrappers
  import opened ZoomModal

  /** The `.product-gallery__image` inside an item: its `data-zoom` attribute, `src` and `alt`. */
  datatype GalleryImage = GalleryImage(dataZoom: Option<string>, src: string, alt: string)

  /** A carousel item: its `data-media-id` attribute and its image, if it has one. */
  datatype GalleryItem = GalleryItem(mediaId: Option<string>, image: Option<GalleryImage>)

  /** The clicked image's enclosing carousel item, as `closest(...)` finds it. */
  datatype ClickedItem = NoCarouselItem | CarouselItem(mediaId: Option<string>)

  /** The call the handler makes: `openREIZoom(images, startIndex)`. */
  datatype OpenRequest = OpenRequest(images: seq<ImageDescriptor>, startIndex: int)

  /** The descriptor pushed for an item's image: the zoom source when non-empty, else `src`. */
  function Describe(img: GalleryImage, position: int): ImageDescriptor
  {
    var zoomSrc := img.dataZoom.GetOr("");
    ImageDescriptor(if zoomSrc != "" then zoomSrc else img.src, img.alt, position)
  }

  /** Every descriptor names an item that has an image and is built from that image. */
  predicate FromItems(ds: seq<ImageDescriptor>, items: seq<GalleryItem>)
  {
    forall k :: 0 <= k < |ds| ==>
      0 <= ds[k].index < |items| && items[ds[k].index].image.Some? &&
      ds[k] == Describe(items[ds[k].index].image.value, ds[k].index)
  }

  /** The descriptors follow item order, so no item appears twice. */
  predicate InItemOrder(ds: seq<ImageDescriptor>)
  {
    forall k, l :: 0 <= k < l < |ds| ==> ds[k].index < ds[l].index
  }

  /** Every item that has an image has a descriptor. */
  predicate CoversItems(ds: seq<ImageDescriptor>, items: seq<GalleryItem>)
  {
    forall i :: 0 <= i < |items| && items[i].image.Some? ==> exists k :: 0 <= k < |ds| && ds[k].index == i
  }

  /** `allImages`: exactly one descriptor per item with an image, in item order, each naming its item. */
  function Descriptors(items: seq<GalleryItem>): (ds: seq<ImageDescriptor>)
    ensures |ds| <= |items|
    ensures FromItems(ds, items) && InItemOrder(ds) && CoversItems(ds, items)
    decreases |items|
  {
    if items == [] then []
    else
      var n := |items| - 1;
      var front := Descriptors(items[..n]);
      DescriptorsStep(items, front);
      if items[n].image.Some? then front + [Describe(items[n].image.value, n)] else front
  }

  /** Extending the list for `items[..n]` by the last item's descriptor keeps the three properties. */
  lemma DescriptorsStep(items: seq<GalleryItem>, front: seq<ImageDescriptor>)
    requires items != []
    requires var n := |items| - 1;
      |front| <= n && FromItems(front, items[..n]) && InItemOrder(front) && CoversItems(front, items[..n])
    ensures var n := |items| - 1;
      var ds := if items[n].image.Some? then front + [Describe(items[n].image.value, n)] else front;
      |ds| <= |items| && FromItems(ds, items) && InItemOrder(ds) && CoversItems(ds, items)
  {
    var n := |items| - 1;
    var ds := if items[n].image.Some? then front + [Describe(items[n].image.value, n)] else front;
    forall k | 0 <= k < |front|
      ensures front[k].index < n && items[front[k].index] == items[..n][front[k].index]
    {
    }
    assert FromItems(ds, items);
    forall i | 0 <= i < |items| && items[i].image.Some?
      ensures exists k :: 0 <= k < |ds| && ds[k].index == i
    {
      if i == n {
        assert ds[|front|].index == n;
      } else {
        assert items[..n][i].image.Some?;
        var k :| 0 <= k < |front| && front[k].index == i;
        assert ds[k].index == i;
      }
    }
  }

  /** The position of the last item whose media id equals `id`, or 0 when none does. */
  function LastMatch(items: seq<GalleryItem>, id: Option<string>): (p: nat)
    ensures (exists j :: 0 <= j < |items| && items[j].mediaId == id) ==>
      p < |items| && items[p].mediaId == id && forall j :: p < j < |items| ==> items[j].mediaId != id
    ensures (forall j :: 0 <= j < |items| ==> items[j].mediaId != id) ==> p == 0
    decreases |items|
  {
    if items == [] then 0
    else if items[|items| - 1].mediaId == id then |items| - 1
    else
      assert forall j :: 0 <= j < |items| - 1 ==> items[..|items| - 1][j] == items[j];
      LastMatch(items[..|items| - 1], id)
  }

  /** `currentIndex` as the handler computes it: an ITEM position, 0 without an enclosing item. */
  function CurrentIndex(items: seq<GalleryItem>, clicked: ClickedItem): nat
  {
    match clicked
    case NoCarouselItem => 0
    case CarouselItem(id) => LastMatch(items, id)
  }

  /** The position in `ds` of the last descriptor for item `target`, or 0 when there is none. */
  function PositionOf(ds: seq<ImageDescriptor>, target: int): (k: nat)
    ensures (exists j :: 0 <= j < |ds| && ds[j].index == target) ==> k < |ds| && ds[k].index == target
    ensures (forall j :: 0 <= j < |ds| ==> ds[j].index != target) ==> k == 0
    decreases |ds|
  {
    if ds == [] then 0
    else if ds[|ds| - 1].index == target then |ds| - 1
    else
      assert forall j :: 0 <= j < |ds| - 1 ==> ds[..|ds| - 1][j] == ds[j];
      PositionOf(ds[..|ds| - 1], target)
  }

  /** The LIST position of the clicked item's image: the start index the overlay needs. */
  function StartPosition(items: seq<GalleryItem>, clicked: ClickedItem): nat
  {
    PositionOf(Descriptors(items), CurrentIndex(items, clicked))
  }

  /** The first loop: push one descriptor per item that has an image. */
  method CollectImages(items: seq<GalleryItem>) returns (allImages: seq<ImageDescriptor>)
    ensures allImages == Descriptors(items)
  {
    allImages := [];
    for i := 0 to |items|
      invariant allImages == Descriptors(items[..i])
    {
      assert items[..i + 1][..i] == items[..i];
      if items[i].image.Some? {
        allImages := allImages + [Describe(items[i].image.value, i)];
      }
    }
    assert items[..|items|] == items;
  }

  /** The second loop, as written: the last item position whose media id matches the clicked item's. */
  method FindCurrentIndex(items: seq<GalleryItem>, clicked: ClickedItem) returns (currentIndex: nat)
    ensures currentIndex == CurrentIndex(items, clicked)
  {
    currentIndex := 0;
    if clicked.CarouselItem? {
      for i := 0 to |items|
        invariant currentIndex == LastMatch(items[..i], clicked.mediaId)
      {
        assert items[..i + 1][..i] == items[..i];
        if items[i].mediaId == clicked.mediaId {
          currentIndex := i;
        }
      }
      assert items[..|items|] == items;
    }
  }

  /** Translate the item position into a list position by looking up the descriptor that names it. */
  method FindStartPosition(allImages: seq<ImageDescriptor>, currentIndex: int) returns (position: nat)
    ensures position == PositionOf(allImages, currentIndex)
  {
    position := 0;
    for k := 0 to |allImages|
      invariant position == PositionOf(allImages[..k], currentIndex)
    {
      assert allImages[..k + 1][..k] == allImages[..k];
      if allImages[k].index == currentIndex {
        position := k;
      }
    }
    assert allImages[..|allImages|] == allImages;
  }

  /** The corrected handler: it opens at the clicked image's LIST position; `overlayReady` says whether the overlay exists. */
  method HandleImageClick(items: seq<GalleryItem>, clicked: ClickedItem, overlayReady: bool)
    returns (request: Option<OpenRequest>)
    ensures request.Some? <==> overlayReady && |Descriptors(items)| > 0
    ensures request.Some? ==> request.value == OpenRequest(Descriptors(items), StartPosition(items, clicked))
  {
    var allImages := CollectImages(items);
    var currentIndex := FindCurrentIndex(items, clicked);
    var start := FindStartPosition(allImages, currentIndex);
    if overlayReady && |allImages| > 0 {
      request := Some(OpenRequest(allImages, start));
    } else {
      request := None;
    }
  }

  /** The handler as written: it opens at `currentIndex`, the clicked item's ITEM position. */
  method HandleImageClickAsWritten(items: seq<GalleryItem>, clicked: ClickedItem, overlayReady: bool)
    returns (request: Option<OpenRequest>)
    ensures request.Some? <==> overlayReady && |Descriptors(items)| > 0
    ensures request.Some? ==> request.value == OpenRequest(Descriptors(items), CurrentIndex(items, clicked))
  {
    var allImages := CollectImages(items);
    var currentIndex := FindCurrentIndex(items, clicked);
    if overlayReady && |allImages| > 0 {
      request := Some(OpenRequest(allImages, currentIndex));
    } else {
      request := None;
    }
  }

  /** When every item has an image, the list holds one descriptor per item, at the item's own position. */
  lemma {:induction false} DescriptorsOfImageItems(items: seq<GalleryItem>)
    requires forall i :: 0 <= i < |items| ==> items[i].image.Some?
    ensures |Descriptors(items)| == |items|
    ensures forall k :: 0 <= k < |items| ==> Descriptors(items)[k].index == k
    decreases |items|
  {
    if items != [] {
      var n := |items| - 1;
      var prefix := items[..n];
      AllImagesPrefix(items, n);
      DescriptorsOfImageItems(prefix);
      var ds := DescriptorsLast(items);
      IndexedExtend(Descriptors(prefix), Describe(items[n].image.value, n));
    }
  }

  /** A prefix of items that all have images consists of items that all have images. */
  lemma AllImagesPrefix(items: seq<GalleryItem>, n: nat)
    requires n <= |items|
    requires forall i :: 0 <= i < |items| ==> items[i].image.Some?
    ensures forall i :: 0 <= i < n ==> items[..n][i].image.Some?
  {
  }

  /** Appending the descriptor for position `|front|` to a list indexed by position keeps it so. */
  lemma IndexedExtend(front: seq<ImageDescriptor>, d: ImageDescriptor)
    requires forall k :: 0 <= k < |front| ==> front[k].index == k
    requires d.index == |front|
    ensures forall k :: 0 <= k < |front| + 1 ==> (front + [d])[k].index == k
  {
  }

  /** The list for items ending in an image item: the list for the others, then that image's descriptor. */
  lemma DescriptorsLast(items: seq<GalleryItem>) returns (ds: seq<ImageDescriptor>)
    requires items != [] && items[|items| - 1].image.Some?
    ensures ds == Descriptors(items)
    ensures ds == Descriptors(items[..|items| - 1]) + [Describe(items[|items| - 1].image.value, |items| - 1)]
  {
    ds := Descriptors(items);
  }

  /**
   * Without image-less items the item position IS the list position, so the
   * as-written and the corrected handler open on the same image.
   */
  lemma ItemPositionIsListPositionWithoutGaps(items: seq<GalleryItem>, clicked: ClickedItem)
    requires forall i :: 0 <= i < |items| ==> items[i].image.Some?
    ensures StartPosition(items, clicked) == CurrentIndex(items, clicked)
  {
    DescriptorsOfImageItems(items);
    var t := CurrentIndex(items, clicked);
    if t < |items| {
      assert Descriptors(items)[t].index == t;
    }
  }

  /** The list position always names an image of the list, and it is the matched item's own image when that has one. */
  lemma StartPositionNamesMatchedItem(items: seq<GalleryItem>, clicked: ClickedItem)
    requires |Descriptors(items)| > 0
    ensures StartPosition(items, clicked) < |Descriptors(items)|
    ensures var t := CurrentIndex(items, clicked);
      t < |items| && items[t].image.Some? ==>
        Descriptors(items)[StartPosition(items, clicked)] == Describe(items[t].image.value, t)
  {
    var ds := Descriptors(items);
    var t := CurrentIndex(items, clicked);
    var p := PositionOf(ds, t);
    if t < |items| && items[t].image.Some? {
      var k :| 0 <= k < |ds| && ds[k].index == t;
      assert p < |ds| && ds[p].index == t;
      assert ds[p] == Describe(items[ds[p].index].image.value, ds[p].index);
    }
  }

  /** Opening the overlay from a click shows the matched item's image, unzoomed and centred. */
  lemma ClickShowsMatchedImage(s: State, items: seq<GalleryItem>, clicked: ClickedItem, t: nat)
    requires t == CurrentIndex(items, clicked) && t < |items| && items[t].image.Some?
    ensures Opened(s, Descriptors(items), StartPosition(items, clicked)) ==
      s.(images := Descriptors(items), index := StartPosition(items, clicked), zoom := MinZoom, tx := 0.0, ty := 0.0,
         shownSrc := Describe(items[t].image.value, t).src, shownAlt := items[t].image.value.alt, hidden := false)
  {
    var ds := Descriptors(items);
    var k := StartPosition(items, clicked);
    StartPositionNamesMatchedItem(items, clicked);
    var pre := s.(images := ds, index := k, zoom := MinZoom, tx := 0.0, ty := 0.0);
    assert HasImage(pre);
  }

  /**
   * As written, `openREIZoom(allImages, currentIndex)` passes an item position
   * as a list position. With an image-less first item, clicking item "b" opens
   * item "c"'s image, and clicking "c" opens on no image at all; the list
   * position opens the clicked image.
   */
  lemma ItemPositionUsedAsListPosition(s: State, items: seq<GalleryItem>)
    requires items == [
      GalleryItem(Some("a"), None),
      GalleryItem(Some("b"), Some(GalleryImage(None, "b.jpg", "B"))),
      GalleryItem(Some("c"), Some(GalleryImage(None, "c.jpg", "C")))]
    ensures CurrentIndex(items, CarouselItem(Some("b"))) == 1
    ensures Opened(s, Descriptors(items), CurrentIndex(items, CarouselItem(Some("b")))).shownSrc == "c.jpg"
    ensures Opened(s, Descriptors(items), StartPosition(items, CarouselItem(Some("b")))).shownSrc == "b.jpg"
    ensures CurrentIndex(items, CarouselItem(Some("c"))) == |Descriptors(items)|
  {
    var ds := ExampleDescriptors(items);
    var b := CarouselItem(Some("b"));
    assert items[..2][1] == items[1];
    assert LastMatch(items[..2], Some("b")) == 1;
    assert CurrentIndex(items, b) == 1;
    assert ds[..1][0] == ds[0];
    assert PositionOf(ds, 1) == 0;
    assert StartPosition(items, b) == 0;
    var pre := s.(images := ds, index := 1, zoom := MinZoom, tx := 0.0, ty := 0.0);
    assert HasImage(pre);
    assert Opened(s, ds, 1).shownSrc == "c.jpg";
    var pre0 := s.(images := ds, index := 0, zoom := MinZoom, tx := 0.0, ty := 0.0);
    assert HasImage(pre0);
    assert Opened(s, ds, 0).shownSrc == "b.jpg";
  }

  /** The list built from the three items of the example above. */
  lemma ExampleDescriptors(items: seq<GalleryItem>) returns (ds: seq<ImageDescriptor>)
    requires items == [
      GalleryItem(Some("a"), None),
      GalleryItem(Some("b"), Some(GalleryImage(None, "b.jpg", "B"))),
      GalleryItem(Some("c"), Some(GalleryImage(None, "c.jpg", "C")))]
    ensures ds == Descriptors(items)
    ensures ds == [ImageDescriptor("b.jpg", "B", 1), ImageDescriptor("c.jpg", "C", 2)]
  {
    var one := items[..1];
    var two := items[..2];
    assert one[..0] == [];
    assert Descriptors(one) == [];
    assert two[..1] == one;
    assert Descriptors(two) == [ImageDescriptor("b.jpg", "B", 1)];
    assert items[..2] == two;
    ds := Descriptors(items);
  }
}
