/**
 * The exported project detail overlay: its image carousel, drag gestures,
 * keyboard dispatch, dot indicators, tab selector and the body scroll-lock
 * taken while it is open. Every way of navigating is guarded by the
 * project's `hasImages` flag.
 */
module ProjectModal {
  import opened Wrappers
  import opened Carousel

  /** The three tabs of the overlay; the tab state can hold no other value. */
  datatype Tab = Overview | Tech | Details

  /** The fields of a project the carousel reads (descriptive fields are left out). */
  datatype Project = Project(id: string, name: string, images: seq<string>, hasImages: bool)

  class Modal {
    // props handed down by the parent
    var project: Option<Project>
    var isOpen: bool
    // component state
    var currentImageIndex: int
    var isDragging: bool
    var startX: int
    var translateX: int
    var activeTab: Tab
    // `document.body.style.overflow == "hidden"`
    var scrollLocked: bool

    /** `project?.hasImages`: a project is shown and it declares images. */
    predicate HasImages()
      reads this
    {
      project.Some? && project.value.hasImages
    }

    function ImageCount(): nat
      reads this
    {
      if project.Some? then |project.value.images| else 0
    }

    /**
     * The state every handler keeps: no strip offset outside a drag, an
     * in-range index while an open overlay shows a non-empty carousel, and
     * the scroll-lock held exactly while the overlay is open.
     */
    ghost predicate Valid()
      reads this
    {
      && (!isDragging ==> translateX == 0)
      && (isOpen && HasImages() && ImageCount() >= 1 ==> 0 <= currentImageIndex < ImageCount())
      && scrollLocked == isOpen
    }

    /** Mount with the initial state, then the open effect's first run. */
    constructor (p: Option<Project>, open: bool)
      ensures project == p && isOpen == open
      ensures currentImageIndex == 0 && !isDragging && startX == 0 && translateX == 0
      ensures activeTab == Overview && scrollLocked == open
      ensures Valid()
    {
      project, isOpen := p, open;
      currentImageIndex, isDragging, startX, translateX := 0, false, 0, 0;
      activeTab := Overview;
      scrollLocked := open;
    }

    /**
     * The parent re-renders with new props. The open effect depends on
     * `isOpen` only, so it runs only when that flag changes: opening locks
     * scrolling and resets the index and the tab, closing releases the lock.
     * The drag state is left as it was.
     */
    method SetProps(p: Option<Project>, open: bool)
      modifies this
      ensures project == p && isOpen == open
      ensures currentImageIndex == (if open && !old(isOpen) then 0 else old(currentImageIndex))
      ensures activeTab == (if open && !old(isOpen) then Overview else old(activeTab))
      ensures scrollLocked == (if open == old(isOpen) then old(scrollLocked) else open)
      ensures isDragging == old(isDragging) && startX == old(startX) && translateX == old(translateX)
      ensures old(Valid()) && (p == old(project) || !old(isOpen) || !open) ==> Valid()
    {
      var wasOpen := isOpen;
      project, isOpen := p, open;
      if open != wasOpen {
        if open {
          scrollLocked := true;
          currentImageIndex := 0;
          activeTab := Overview;
        } else {
          scrollLocked := false;
        }
      }
    }

    /** The effect's cleanup on unmount always releases the scroll-lock. */
    method Unmount()
      modifies this`scrollLocked
      ensures !scrollLocked
    {
      scrollLocked := false;
    }

    method NextImage()
      modifies this`currentImageIndex
      ensures currentImageIndex ==
        (if HasImages() then NextIndex(old(currentImageIndex), ImageCount()) else old(currentImageIndex))
      ensures old(Valid()) ==> Valid()
    {
      if !HasImages() {
        return;
      }
      currentImageIndex := NextIndex(currentImageIndex, |project.value.images|);
    }

    method PrevImage()
      modifies this`currentImageIndex
      ensures currentImageIndex ==
        (if HasImages() then PrevIndex(old(currentImageIndex), ImageCount()) else old(currentImageIndex))
      ensures old(Valid()) ==> Valid()
    {
      if !HasImages() {
        return;
      }
      currentImageIndex := PrevIndex(currentImageIndex, |project.value.images|);
    }

    /** A press on the carousel starts a drag at `clientX`. */
    method MouseDown(clientX: int)
      modifies this`isDragging, this`startX
      ensures isDragging == (old(isDragging) || HasImages())
      ensures startX == (if HasImages() then clientX else old(startX))
      ensures old(Valid()) ==> Valid()
    {
      if !HasImages() {
        return;
      }
      isDragging := true;
      startX := clientX;
    }

    /** Moving during a drag offsets the strip by the distance travelled; the index never changes. */
    method MouseMove(clientX: int)
      modifies this`translateX
      ensures translateX == (if isDragging && HasImages() then clientX - startX else old(translateX))
      ensures old(Valid()) ==> Valid()
    {
      if !isDragging || !HasImages() {
        return;
      }
      translateX := clientX - startX;
    }

    /**
     * Releasing (or leaving) the carousel ends a drag: an offset beyond
     * 50 px shows the previous slide, beyond -50 px the next one, and the
     * drag state is always cleared. Without an active drag nothing changes.
     */
    method MouseUp()
      modifies this`isDragging, this`translateX, this`currentImageIndex
      ensures old(isDragging) && HasImages() ==>
        && !isDragging && translateX == 0
        && currentImageIndex == SwipeIndex(old(currentImageIndex), ImageCount(), old(translateX))
      ensures !(old(isDragging) && HasImages()) ==>
        isDragging == old(isDragging) && translateX == old(translateX) && currentImageIndex == old(currentImageIndex)
      ensures old(Valid()) ==> Valid()
    {
      if !isDragging || !HasImages() {
        return;
      }
      isDragging := false;
      if translateX > SwipeThreshold {
        PrevImage();
      } else if translateX < -SwipeThreshold {
        NextImage();
      }
      translateX := 0;
    }

    /** A touch starts a drag at the first touch point, or at 0 when there is none. */
    method TouchStart(touches: seq<int>)
      modifies this`isDragging, this`startX
      ensures isDragging == (old(isDragging) || HasImages())
      ensures startX == (if !HasImages() then old(startX) else if |touches| > 0 then touches[0] else 0)
      ensures old(Valid()) ==> Valid()
    {
      if !HasImages() {
        return;
      }
      isDragging := true;
      startX := if |touches| > 0 then touches[0] else 0;
    }

    /** Like `MouseMove`, following the first touch point; a move without one is ignored. */
    method TouchMove(touches: seq<int>)
      modifies this`translateX
      ensures translateX ==
        (if isDragging && HasImages() && |touches| > 0 then touches[0] - startX else old(translateX))
      ensures old(Valid()) ==> Valid()
    {
      if !isDragging || !HasImages() {
        return;
      }
      if |touches| == 0 {
        return;
      }
      translateX := touches[0] - startX;
    }

    /** The touch counterpart of `MouseUp`, with the same threshold. */
    method TouchEnd()
      modifies this`isDragging, this`translateX, this`currentImageIndex
      ensures old(isDragging) && HasImages() ==>
        && !isDragging && translateX == 0
        && currentImageIndex == SwipeIndex(old(currentImageIndex), ImageCount(), old(translateX))
      ensures !(old(isDragging) && HasImages()) ==>
        isDragging == old(isDragging) && translateX == old(translateX) && currentImageIndex == old(currentImageIndex)
      ensures old(Valid()) ==> Valid()
    {
      if !isDragging || !HasImages() {
        return;
      }
      isDragging := false;
      if translateX > SwipeThreshold {
        PrevImage();
      } else if translateX < -SwipeThreshold {
        NextImage();
      }
      translateX := 0;
    }

    /**
     * The window keydown listener, attached only while the overlay is open:
     * Escape asks the parent to close, the arrow keys navigate when the
     * project has images.
     */
    method KeyDown(key: string) returns (closeRequested: bool)
      modifies this`currentImageIndex
      ensures closeRequested == (isOpen && key == "Escape")
      ensures currentImageIndex ==
        if isOpen && key == "ArrowLeft" && HasImages() then PrevIndex(old(currentImageIndex), ImageCount())
        else if isOpen && key == "ArrowRight" && HasImages() then NextIndex(old(currentImageIndex), ImageCount())
        else old(currentImageIndex)
      ensures old(Valid()) ==> Valid()
    {
      closeRequested := false;
      if !isOpen {
        return;
      }
      if key == "Escape" {
        closeRequested := true;
      }
      if key == "ArrowLeft" && HasImages() {
        PrevImage();
      }
      if key == "ArrowRight" && HasImages() {
        NextImage();
      }
    }

    /** The dots exist only on an open carousel of more than one image, one per image. */
    predicate DotsShown()
      reads this
    {
      isOpen && HasImages() && ImageCount() > 1
    }

    /** Clicking dot `k` jumps straight to slide `k`. */
    method DotClick(k: int)
      requires DotsShown() && 0 <= k < ImageCount()
      modifies this`currentImageIndex
      ensures currentImageIndex == k
      ensures old(Valid()) ==> Valid()
    {
      currentImageIndex := k;
    }

    /** The tab buttons exist only while the overlay is rendered. */
    method SelectTab(t: Tab)
      requires isOpen && project.Some?
      modifies this`activeTab
      ensures activeTab == t
      ensures old(Valid()) ==> Valid()
    {
      activeTab := t;
    }

    /** The slide the strip centres, if the carousel is on screen. */
    function CurrentSlide(): (r: Option<string>)
      reads this
      ensures Valid() && isOpen && HasImages() && ImageCount() >= 1 ==> r.Some?
      ensures r.Some? ==> project.Some? && r.value in project.value.images
    {
      if isOpen && HasImages() && 0 <= currentImageIndex < |project.value.images|
      then Some(project.value.images[currentImageIndex])
      else None
    }
  }

  /** Three presses of "next" on images a, b, c show b, c and then a again. */
  method WrapScenario() returns (shown: seq<string>)
    ensures shown == ["b", "c", "a"]
  {
    var m := new Modal(Some(Project("demo", "Demo", ["a", "b", "c"], true)), true);
    m.NextImage();
    var first := m.CurrentSlide();
    m.NextImage();
    var second := m.CurrentSlide();
    m.NextImage();
    var third := m.CurrentSlide();
    shown := [first.value, second.value, third.value];
  }

  /** A single drag of `dx` pixels on slide 0 of three, then release. */
  method SwipeScenario(dx: int) returns (index: int)
    ensures index == (if dx > 50 then 2 else if dx < -50 then 1 else 0)
  {
    var m := new Modal(Some(Project("demo", "Demo", ["a", "b", "c"], true)), true);
    m.MouseDown(300);
    m.MouseMove(300 + dx);
    m.MouseUp();
    index := m.currentImageIndex;
  }

  /** Without images a gesture leaves every field of the carousel as it was. */
  method NoImagesScenario(x: int, dx: int) returns (dragging: bool, offset: int, index: int)
    ensures !dragging && offset == 0 && index == 0
  {
    var m := new Modal(Some(Project("text", "Text", ["a", "b"], false)), true);
    m.MouseDown(x);
    m.MouseMove(x + dx);
    m.TouchStart([x]);
    m.TouchMove([x + dx]);
    m.TouchEnd();
    m.MouseUp();
    dragging, offset, index := m.isDragging, m.translateX, m.currentImageIndex;
  }

  /**
   * Escape pressed in the middle of a drag closes the overlay, but the drag
   * survives it: on reopening the index is back at 0 while the strip is
   * still offset and the next release may navigate.
   */
  method CloseDuringDrag() returns (dragging: bool, offset: int, index: int)
    ensures dragging && offset == -80 && index == 0
  {
    var m := new Modal(Some(Project("demo", "Demo", ["a", "b", "c"], true)), true);
    m.NextImage();
    m.MouseDown(200);
    m.MouseMove(120);
    var close := m.KeyDown("Escape");
    if close {
      m.SetProps(m.project, false);
    }
    m.SetProps(m.project, true);
    dragging, offset, index := m.isDragging, m.translateX, m.currentImageIndex;
  }
}
