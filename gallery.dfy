/**
 * The salon image gallery: a slideshow over the salon's image URLs with its
 * own index, and a full-screen modal with a second, independent index.
 * Three pieces of state are updated by separate click handlers:
 * `currentImageIndex`, `modalImageIndex` and `showModal`.
 */
module Gallery {
  import Carousel
  import opened Wrappers

  class SalonImageGallery {
    var salonImages: seq<string>
    var currentImageIndex: nat
    var showModal: bool
    var modalImageIndex: nat

    /** The initial state: no images, both indices 0, modal closed. */
    constructor ()
      ensures salonImages == [] && currentImageIndex == 0
      ensures !showModal && modalImageIndex == 0
    {
      salonImages, currentImageIndex := [], 0;
      showModal, modalImageIndex := false, 0;
    }

    /** Both indices point at an image. */
    predicate IndicesInRange()
      reads this
    {
      currentImageIndex < |salonImages| && modalImageIndex < |salonImages|
    }

    /** The slideshow with its buttons is rendered only when there is an image. */
    function SlideshowShown(): (shown: bool)
      reads this
      ensures shown <==> salonImages != []
    {
      |salonImages| > 0
    }

    /** The modal is rendered only when it is open and there is an image. */
    function ModalShown(): (shown: bool)
      reads this
      ensures shown ==> showModal && SlideshowShown()
      ensures showModal && salonImages != [] ==> shown
    {
      showModal && |salonImages| > 0
    }

    /**
     * The end of the storage listing: on an error (`None`) nothing changes;
     * otherwise the list of public URLs replaces the images. The indices are
     * not reset, as in the component.
     */
    method ReceiveImages(listing: Option<seq<string>>)
      modifies this`salonImages
      ensures salonImages == if listing.Some? then listing.value else old(salonImages)
    {
      if listing.Some? {
        salonImages := listing.value;
      }
    }

    /** The first load after mounting starts both indices in range. */
    method FirstLoad(urls: seq<string>)
      requires salonImages == [] && currentImageIndex == 0 && modalImageIndex == 0
      requires urls != []
      modifies this`salonImages
      ensures salonImages == urls && IndicesInRange()
    {
      ReceiveImages(Some(urls));
    }

    /** `nextImage`: the slideshow moves one image forward, wrapping around. */
    method NextImage()
      requires SlideshowShown()
      modifies this`currentImageIndex
      ensures currentImageIndex == Carousel.Next(old(currentImageIndex), |salonImages|)
      ensures currentImageIndex < |salonImages|
    {
      currentImageIndex := (currentImageIndex + 1) % |salonImages|;
    }

    /** `prevImage`: the slideshow moves one image back, wrapping around. */
    method PrevImage()
      requires SlideshowShown()
      modifies this`currentImageIndex
      ensures currentImageIndex == Carousel.Prev(old(currentImageIndex), |salonImages|)
      ensures currentImageIndex < |salonImages|
    {
      currentImageIndex := (currentImageIndex - 1 + |salonImages|) % |salonImages|;
    }

    /** A slideshow indicator click; one indicator is rendered per image. */
    method SelectImage(index: nat)
      requires index < |salonImages|
      modifies this`currentImageIndex
      ensures currentImageIndex == index
    {
      currentImageIndex := index;
    }

    /** `openModal(index)`: the modal opens on image `index`; the slideshow is untouched. */
    method OpenModal(index: nat)
      modifies this`modalImageIndex, this`showModal
      ensures modalImageIndex == index && showModal
    {
      modalImageIndex := index;
      showModal := true;
    }

    /** A click on the slideshow image opens the modal on the image being shown. */
    method ClickMainImage()
      requires SlideshowShown()
      modifies this`modalImageIndex, this`showModal
      ensures ModalShown() && modalImageIndex == currentImageIndex
    {
      OpenModal(currentImageIndex);
    }

    /** `nextModalImage`: the modal moves one image forward, wrapping around. */
    method NextModalImage()
      requires ModalShown()
      modifies this`modalImageIndex
      ensures modalImageIndex == Carousel.Next(old(modalImageIndex), |salonImages|)
      ensures modalImageIndex < |salonImages|
    {
      modalImageIndex := (modalImageIndex + 1) % |salonImages|;
    }

    /** `prevModalImage`: the modal moves one image back, wrapping around. */
    method PrevModalImage()
      requires ModalShown()
      modifies this`modalImageIndex
      ensures modalImageIndex == Carousel.Prev(old(modalImageIndex), |salonImages|)
      ensures modalImageIndex < |salonImages|
    {
      modalImageIndex := (modalImageIndex - 1 + |salonImages|) % |salonImages|;
    }

    /** A modal indicator click; one indicator is rendered per image. */
    method SelectModalImage(index: nat)
      requires ModalShown() && index < |salonImages|
      modifies this`modalImageIndex
      ensures modalImageIndex == index
    {
      modalImageIndex := index;
    }

    /** A click on the backdrop or on the close button hides the modal and changes nothing else. */
    method CloseModal()
      modifies this`showModal
      ensures !showModal
    {
      showModal := false;
    }
  }

  /**
   * A client: modal navigation leaves the slideshow alone, and "next" then
   * "previous" in the modal returns to the image it was opened on.
   */
  method BrowseModal(g: SalonImageGallery)
    requires g.SlideshowShown() && g.IndicesInRange()
    modifies g
    ensures g.currentImageIndex == old(g.currentImageIndex)
    ensures g.modalImageIndex == old(g.currentImageIndex)
    ensures g.salonImages == old(g.salonImages)
    ensures !g.showModal
  {
    g.ClickMainImage();
    g.NextModalImage();
    g.PrevModalImage();
    Carousel.NextPrevInverse(g.currentImageIndex, |g.salonImages|);
    g.CloseModal();
  }
}
