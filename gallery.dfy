/**
 * The gallery page (scripts/gallery.js): the image grid and the lightbox, whose
 * image index wraps around the loaded image list.
 */
module Gallery {
  import opened JsRuntime
  import opened SiteData

  // ---------------------------------------------------------------------
  // Index arithmetic

  /** `(i + 1) % n`. */
  function NextIndex(i: int, n: int): (r: int)
    requires n > 0
    ensures 0 <= i < n ==> 0 <= r < n && r == (if i == n - 1 then 0 else i + 1)
  {
    Rem(i + 1, n)
  }

  /** `(i - 1 + n) % n`. */
  function PrevIndex(i: int, n: int): (r: int)
    requires n > 0
    ensures 0 <= i < n ==> 0 <= r < n && r == (if i == 0 then n - 1 else i - 1)
  {
    Rem(i - 1 + n, n)
  }

  /** Going back after going forward, or forward after going back, returns to the same image. */
  lemma PrevUndoesNext(i: int, n: int)
    requires 0 <= i < n
    ensures PrevIndex(NextIndex(i, n), n) == i
    ensures NextIndex(PrevIndex(i, n), n) == i
  {
  }

  /** The index after `k` presses of "next". */
  function NextTimes(i: int, n: int, k: nat): int
    requires n > 0
  {
    if k == 0 then i else NextIndex(NextTimes(i, n, k - 1), n)
  }

  /** Within one lap, `k` presses of "next" move `k` places forward, wrapping once past the end. */
  lemma {:induction false} NextTimesWithinLap(i: int, n: int, k: nat)
    requires 0 <= i < n && k <= n
    ensures NextTimes(i, n, k) == if i + k < n then i + k else i + k - n
  {
    if k > 0 {
      NextTimesWithinLap(i, n, k - 1);
    }
  }

  /** `n` presses of "next" over `n` images come back to the starting image. */
  lemma NextCycles(i: int, n: int)
    requires 0 <= i < n
    ensures NextTimes(i, n, n) == i
  {
    NextTimesWithinLap(i, n, n);
  }

  // ---------------------------------------------------------------------
  // Grid rendering

  /** One rendered grid item; clicking it calls `openLightbox(clickIndex)`. */
  datatype GalleryItem = GalleryItem(url: string, title: string, description: string, clickIndex: nat)

  /** `images.map((image, index) => ...)`. */
  function RenderItems(images: seq<Image>): (items: seq<GalleryItem>)
    ensures |items| == |images|
    ensures forall k :: 0 <= k < |images| ==>
      (items[k].clickIndex == k && items[k].url == images[k].url && items[k].title == images[k].title
       && items[k].description == DescriptionText(images[k]))
  {
    seq(|images|, k requires 0 <= k < |images| =>
      GalleryItem(images[k].url, images[k].title, DescriptionText(images[k]), k))
  }

  const EscapeKey := "Escape"
  const LeftKey := "ArrowLeft"
  const RightKey := "ArrowRight"

  /**
   * The gallery page: the module-level `allImages` and `currentImageIndex`, the lightbox's
   * `hidden`/`show` classes, `body.style.overflow`, what the lightbox's image, title and
   * description show, and the grid with its "no images" block and loading indicator.
   * A `has...` constant says whether the page contains that element.
   */
  class GalleryPage {
    var images: seq<Image>
    var index: int
    const hasLightbox: bool
    var lightboxHidden: bool
    var lightboxShow: bool
    var bodyOverflow: string
    var shown: Option<Image>
    const hasGrid: bool
    var gridHidden: bool
    var items: seq<GalleryItem>
    const hasNoImages: bool
    var noImagesHidden: bool
    var noImagesError: bool
    const hasLoading: bool
    var loadingHidden: bool

    /** The first `DOMContentLoaded` state: no images, index 0, everything as the markup has it. */
    constructor (hasLightbox: bool, hasGrid: bool, hasNoImages: bool, hasLoading: bool)
      ensures this.hasLightbox == hasLightbox && this.hasGrid == hasGrid
      ensures this.hasNoImages == hasNoImages && this.hasLoading == hasLoading
      ensures images == [] && index == 0 && shown == None && items == []
      ensures lightboxHidden && !lightboxShow && bodyOverflow == ""
      ensures !gridHidden && noImagesHidden && !noImagesError && !loadingHidden
    {
      this.hasLightbox := hasLightbox;
      this.hasGrid := hasGrid;
      this.hasNoImages := hasNoImages;
      this.hasLoading := hasLoading;
      images := [];
      index := 0;
      lightboxHidden := true;
      lightboxShow := false;
      bodyOverflow := "";
      shown := None;
      gridHidden := false;
      items := [];
      noImagesHidden := true;
      noImagesError := false;
      loadingHidden := false;
    }

    /** The lightbox is on screen, so keys act on it. */
    predicate IsOpen()
      reads this
    {
      hasLightbox && !lightboxHidden
    }

    predicate IndexInRange()
      reads this
    {
      0 <= index < |images|
    }

    /** `displayLightboxImage(i)`: an index without an image changes nothing. */
    method DisplayLightboxImage(i: int)
      modifies this`shown
      ensures shown == if 0 <= i < |images| then Some(images[i]) else old(shown)
    {
      if 0 <= i < |images| {
        shown := Some(images[i]);
      }
    }

    /** `openLightbox(i)`: the index is set even when the page has no lightbox. */
    method OpenLightbox(i: int)
      modifies this`index, this`shown, this`lightboxHidden, this`lightboxShow, this`bodyOverflow
      ensures index == i
      ensures hasLightbox ==>
        (!lightboxHidden && lightboxShow && bodyOverflow == "hidden"
         && shown == (if 0 <= i < |images| then Some(images[i]) else old(shown)))
      ensures !hasLightbox ==>
        (lightboxHidden == old(lightboxHidden) && lightboxShow == old(lightboxShow)
         && bodyOverflow == old(bodyOverflow) && shown == old(shown))
    {
      index := i;
      if !hasLightbox {
        return;
      }
      DisplayLightboxImage(index);
      lightboxHidden := false;
      lightboxShow := true;
      bodyOverflow := "hidden";
    }

    /** `closeLightbox()`. */
    method CloseLightbox()
      modifies this`lightboxHidden, this`lightboxShow, this`bodyOverflow
      ensures hasLightbox ==> lightboxHidden && !lightboxShow && bodyOverflow == ""
      ensures !hasLightbox ==>
        (lightboxHidden == old(lightboxHidden) && lightboxShow == old(lightboxShow)
         && bodyOverflow == old(bodyOverflow))
    {
      if !hasLightbox {
        return;
      }
      lightboxHidden := true;
      lightboxShow := false;
      bodyOverflow := "";
    }

    /** `prevImage()`. */
    method PrevImage()
      requires |images| > 0
      modifies this`index, this`shown
      ensures index == PrevIndex(old(index), |images|)
      ensures old(IndexInRange()) ==> IndexInRange() && shown == Some(images[index])
      ensures !(0 <= index < |images|) ==> shown == old(shown)
    {
      index := PrevIndex(index, |images|);
      DisplayLightboxImage(index);
    }

    /** `nextImage()`. */
    method NextImage()
      requires |images| > 0
      modifies this`index, this`shown
      ensures index == NextIndex(old(index), |images|)
      ensures old(IndexInRange()) ==> IndexInRange() && shown == Some(images[index])
      ensures !(0 <= index < |images|) ==> shown == old(shown)
    {
      index := NextIndex(index, |images|);
      DisplayLightboxImage(index);
    }

    /**
     * The `keydown` listener of `setupLightbox`. While the lightbox is not open no key
     * changes anything; Escape closes it, the arrow keys step through the images and
     * every other key is ignored.
     */
    method KeyDown(key: string)
      requires IsOpen() && (key == LeftKey || key == RightKey) ==> |images| > 0
      modifies this`index, this`shown, this`lightboxHidden, this`lightboxShow, this`bodyOverflow
      ensures !old(IsOpen()) || key !in {EscapeKey, LeftKey, RightKey} ==>
        index == old(index) && shown == old(shown) && lightboxHidden == old(lightboxHidden)
        && lightboxShow == old(lightboxShow) && bodyOverflow == old(bodyOverflow)
      ensures old(IsOpen()) && key == EscapeKey ==>
        lightboxHidden && !lightboxShow && bodyOverflow == "" && index == old(index) && shown == old(shown)
      ensures old(IsOpen()) && key == LeftKey ==> index == PrevIndex(old(index), |images|)
      ensures old(IsOpen()) && key == RightKey ==> index == NextIndex(old(index), |images|)
      ensures old(IsOpen()) && (key == LeftKey || key == RightKey) ==>
        IsOpen() && lightboxShow == old(lightboxShow) && bodyOverflow == old(bodyOverflow)
        && (old(IndexInRange()) ==> IndexInRange() && shown == Some(images[index]))
    {
      if !hasLightbox || lightboxHidden {
        return;
      }
      if key == EscapeKey {
        CloseLightbox();
      } else if key == LeftKey {
        PrevImage();
      } else if key == RightKey {
        NextImage();
      }
    }

    /** `displayGallery(imgs)`; the page calls it with the loaded images. */
    method DisplayGallery(imgs: seq<Image>)
      modifies this`gridHidden, this`noImagesHidden, this`items
      ensures !hasGrid ==>
        (gridHidden == old(gridHidden) && noImagesHidden == old(noImagesHidden) && items == old(items))
      ensures hasGrid && imgs == [] ==>
        (gridHidden && items == old(items)
         && noImagesHidden == (if hasNoImages then false else old(noImagesHidden)))
      ensures hasGrid && imgs != [] ==>
        (!gridHidden && items == RenderItems(imgs)
         && noImagesHidden == (if hasNoImages then true else old(noImagesHidden)))
    {
      if !hasGrid {
        return;
      }
      if |imgs| == 0 {
        gridHidden := true;
        if hasNoImages {
          noImagesHidden := false;
        }
        return;
      }
      gridHidden := false;
      if hasNoImages {
        noImagesHidden := true;
      }
      items := RenderItems(imgs);
    }

    /** `loadGallery()`, given what the fetch of `data/gallery.json` produced. */
    method LoadGallery(fetched: Fetched<Image>)
      modifies this`images, this`loadingHidden, this`gridHidden, this`noImagesHidden,
        this`noImagesError, this`items
      ensures hasLoading ==> loadingHidden
      ensures !hasLoading ==> loadingHidden == old(loadingHidden)
      ensures fetched.LoadFailed? ==>
        (images == old(images) && gridHidden == old(gridHidden) && items == old(items)
         && (hasNoImages ==> !noImagesHidden && noImagesError)
         && (!hasNoImages ==> noImagesHidden == old(noImagesHidden) && noImagesError == old(noImagesError)))
      ensures fetched.Loaded? ==> images == fetched.items && noImagesError == old(noImagesError)
      ensures fetched.Loaded? && fetched.items == [] ==>
        (gridHidden == old(gridHidden) && items == old(items)
         && noImagesHidden == (if hasNoImages then false else old(noImagesHidden)))
      ensures fetched.Loaded? && fetched.items != [] && hasGrid ==>
        (!gridHidden && items == RenderItems(images)
         && noImagesHidden == (if hasNoImages then true else old(noImagesHidden)))
      ensures fetched.Loaded? && !hasGrid ==>
        (gridHidden == old(gridHidden) && items == old(items)
         && (fetched.items != [] ==> noImagesHidden == old(noImagesHidden)))
    {
      match fetched {
        case LoadFailed =>
          if hasLoading {
            loadingHidden := true;
          }
          if hasNoImages {
            noImagesHidden := false;
            noImagesError := true;
          }
        case Loaded(list) =>
          images := list;
          if hasLoading {
            loadingHidden := true;
          }
          if |images| == 0 {
            if hasNoImages {
              noImagesHidden := false;
            }
          } else {
            DisplayGallery(images);
          }
      }
    }

    /** A click on grid item `k`: the lightbox opens on the image that item was rendered from. */
    method ClickItem(k: nat)
      requires k < |items| && items == RenderItems(images) && hasLightbox
      modifies this`index, this`shown, this`lightboxHidden, this`lightboxShow, this`bodyOverflow
      ensures index == k && IndexInRange() && shown == Some(images[k]) && IsOpen()
    {
      OpenLightbox(items[k].clickIndex);
    }
  }
}
