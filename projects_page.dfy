/**
 * The projects listing page: its static table of projects, the older inline
 * copy of the project overlay (whose navigation is guarded only by a null
 * project) and the page controller that opens and closes it.
 */
module ProjectsPage {
  import opened Wrappers
  import opened Carousel

  /** The fields of a project the overlay's carousel reads. */
  datatype Project = Project(id: string, name: string, images: seq<string>)

  /** The page's static project table, in display order. */
  function Projects(): (r: seq<Project>)
    ensures |r| == 6
    ensures forall k :: 0 <= k < |r| ==> 3 <= |r[k].images| <= 4
    ensures forall j, k :: 0 <= j < k < |r| ==> r[j].id != r[k].id
  {
    [ Project("freelant-app", "Freelant",
        ["/projects/Freelant/freelantCadastro.png", "/projects/Freelant/freelantHomeFreela.png",
         "/projects/Freelant/chat.png", "/projects/Freelant/homeUser.png"]),
      Project("fintech-dashboard", "Fintech Dashboard",
        ["/projects/Fintech/dashboard.png", "/projects/Fintech/analytics.png",
         "/projects/Fintech/portfolio.png"]),
      Project("ecommerce-luxury", "Luxury E-commerce",
        ["/projects/Luxury/home.png", "/projects/Luxury/product.png", "/projects/Luxury/cart.png"]),
      Project("health-wellness", "Health & Wellness",
        ["/projects/Health/dashboard.png", "/projects/Health/meditation.png",
         "/projects/Health/stats.png"]),
      Project("task-management", "TaskFlow Pro",
        ["/projects/Taskflow/board.png", "/projects/Taskflow/calendar.png",
         "/projects/Taskflow/reports.png"]),
      Project("ai-content-generator", "AI Content Studio",
        ["/projects/AIStudio/editor.png", "/projects/AIStudio/templates.png",
         "/projects/AIStudio/history.png"]) ]
  }

  /** Every project the page can open has at least three images. */
  lemma TableProjectsHaveImages(p: Project)
    requires p in Projects()
    ensures |p.images| >= 3
  {
    var k :| 0 <= k < |Projects()| && Projects()[k] == p;
  }

  /** The inline overlay: the same carousel as the exported one, without `hasImages` or tabs. */
  class InlineModal {
    // props handed down by the page
    var project: Option<Project>
    var isOpen: bool
    // component state
    var currentImageIndex: int
    var isDragging: bool
    var startX: int
    var translateX: int
    // `document.body.style.overflow == "hidden"`
    var scrollLocked: bool

    function ImageCount(): nat
      reads this
    {
      if project.Some? then |project.value.images| else 0
    }

    /** No strip offset outside a drag, and the scroll-lock held exactly while open. */
    ghost predicate Consistent()
      reads this
    {
      && (!isDragging ==> translateX == 0)
      && scrollLocked == isOpen
    }

    /** `Consistent()`, and an in-range index while the overlay is open on a project with images. */
    ghost predicate Valid()
      reads this
    {
      && Consistent()
      && (isOpen && project.Some? && ImageCount() >= 1 ==> 0 <= currentImageIndex < ImageCount())
    }

    /** Mount with the initial state, then the open effect's first run. */
    constructor (p: Option<Project>, open: bool)
      ensures project == p && isOpen == open
      ensures currentImageIndex == 0 && !isDragging && startX == 0 && translateX == 0
      ensures scrollLocked == open
      ensures Valid()
    {
      project, isOpen := p, open;
      currentImageIndex, isDragging, startX, translateX := 0, false, 0, 0;
      scrollLocked := open;
    }

    /**
     * The page re-renders the overlay with new props; the open effect runs
     * only when `isOpen` changes, resetting the index and locking scrolling
     * on open and releasing the lock on close.
     */
    method SetProps(p: Option<Project>, open: bool)
      modifies this
      ensures project == p && isOpen == open
      ensures currentImageIndex == (if open && !old(isOpen) then 0 else old(currentImageIndex))
      ensures scrollLocked == (if open == old(isOpen) then old(scrollLocked) else open)
      ensures isDragging == old(isDragging) && startX == old(startX) && translateX == old(translateX)
      ensures old(Consistent()) ==> Consistent()
      ensures old(Valid()) && (p == old(project) || !old(isOpen) || p.None? || !open) ==> Valid()
    {
      var wasOpen := isOpen;
      project, isOpen := p, open;
      if open != wasOpen {
        if open {
          scrollLocked := true;
          currentImageIndex := 0;
        } else {
          scrollLocked := false;
        }
      }
    }

    method NextImage()
      modifies this`currentImageIndex
      ensures currentImageIndex ==
        (if project.Some? then NextIndex(old(currentImageIndex), ImageCount()) else old(currentImageIndex))
      ensures old(Valid()) ==> Valid()
    {
      if project.None? {
        return;
      }
      currentImageIndex := NextIndex(currentImageIndex, |project.value.images|);
    }

    method PrevImage()
      modifies this`currentImageIndex
      ensures currentImageIndex ==
        (if project.Some? then PrevIndex(old(currentImageIndex), ImageCount()) else old(currentImageIndex))
      ensures old(Valid()) ==> Valid()
    {
      if project.None? {
        return;
      }
      currentImageIndex := PrevIndex(currentImageIndex, |project.value.images|);
    }

    /** A press always starts a drag at `clientX`. */
    method MouseDown(clientX: int)
      modifies this`isDragging, this`startX
      ensures isDragging && startX == clientX
      ensures old(Valid()) ==> Valid()
    {
      isDragging := true;
      startX := clientX;
    }

    /** Moving during a drag offsets the strip; the index never changes. */
    method MouseMove(clientX: int)
      modifies this`translateX
      ensures translateX == (if isDragging then clientX - startX else old(translateX))
      ensures old(Valid()) ==> Valid()
    {
      if !isDragging {
        return;
      }
      translateX := clientX - startX;
    }

    /**
     * Releasing (or leaving) the carousel: beyond 50 px shows the previous
     * slide, beyond -50 px the next; the drag state is always cleared, and
     * without an active drag nothing changes.
     */
    method MouseUp()
      modifies this`isDragging, this`translateX, this`currentImageIndex
      ensures old(isDragging) ==> !isDragging && translateX == 0
      ensures old(isDragging) && project.Some? ==>
        currentImageIndex == SwipeIndex(old(currentImageIndex), ImageCount(), old(translateX))
      ensures !(old(isDragging) && project.Some?) ==> currentImageIndex == old(currentImageIndex)
      ensures !old(isDragging) ==> !isDragging && translateX == old(translateX)
      ensures old(Valid()) ==> Valid()
    {
      if !isDragging {
        return;
      }
      isDragging := false;
      if translateX > SwipeThreshold {
        PrevImage();
      } else if translateX < -SwipeThreshold {
        NextImage();
      }
      translateX := 0;
    }

    /** A touch always starts a drag, at the first touch point or at 0 when there is none. */
    method TouchStart(touches: seq<int>)
      modifies this`isDragging, this`startX
      ensures isDragging && startX == (if |touches| > 0 then touches[0] else 0)
      ensures old(Valid()) ==> Valid()
    {
      isDragging := true;
      startX := if |touches| > 0 then touches[0] else 0;
    }

    /** Like `MouseMove`, following the first touch point; a move without one is ignored. */
    method TouchMove(touches: seq<int>)
      modifies this`translateX
      ensures translateX == (if isDragging && |touches| > 0 then touches[0] - startX else old(translateX))
      ensures old(Valid()) ==> Valid()
    {
      if !isDragging {
        return;
      }
      if |touches| == 0 {
        return;
      }
      translateX := touches[0] - startX;
    }

    /** The touch counterpart of `MouseUp`, with the same threshold. */
    method TouchEnd()
      modifies this`isDragging, this`translateX, this`currentImageIndex
      ensures old(isDragging) ==> !isDragging && translateX == 0
      ensures old(isDragging) && project.Some? ==>
        currentImageIndex == SwipeIndex(old(currentImageIndex), ImageCount(), old(translateX))
      ensures !(old(isDragging) && project.Some?) ==> currentImageIndex == old(currentImageIndex)
      ensures !old(isDragging) ==> !isDragging && translateX == old(translateX)
      ensures old(Valid()) ==> Valid()
    {
      if !isDragging {
        return;
      }
      isDragging := false;
      if translateX > SwipeThreshold {
        PrevImage();
      } else if translateX < -SwipeThreshold {
        NextImage();
      }
      translateX := 0;
    }

    /**
     * The keydown listener, attached only while open: Escape asks the page
     * to close, the arrow keys navigate without any `hasImages` check.
     */
    method KeyDown(key: string) returns (closeRequested: bool)
      modifies this`currentImageIndex
      ensures closeRequested == (isOpen && key == "Escape")
      ensures currentImageIndex ==
        if isOpen && key == "ArrowLeft" && project.Some? then PrevIndex(old(currentImageIndex), ImageCount())
        else if isOpen && key == "ArrowRight" && project.Some? then NextIndex(old(currentImageIndex), ImageCount())
        else old(currentImageIndex)
      ensures old(Valid()) ==> Valid()
    {
      closeRequested := false;
      if !isOpen {
        return;
      }
      if key == "Escape" {
        closeRequested := true;
      }
      if key == "ArrowLeft" {
        PrevImage();
      }
      if key == "ArrowRight" {
        NextImage();
      }
    }

    /** The dots exist only for a project of more than one image, one per image. */
    predicate DotsShown()
      reads this
    {
      project.Some? && ImageCount() > 1
    }

    /** Clicking dot `k` jumps straight to slide `k`. */
    method DotClick(k: int)
      requires DotsShown() && 0 <= k < ImageCount()
      modifies this`currentImageIndex
      ensures currentImageIndex == k
      ensures old(Valid()) ==> Valid()
    {
      currentImageIndex := k;
    }
  }

  /** The page controller: which project is selected and whether the overlay is open. */
  class Page {
    var selectedProject: Option<Project>
    var isModalOpen: bool
    /** Deferred clears scheduled by `CloseModal` that have not fired yet. */
    var pendingClears: nat
    const modal: InlineModal

    /**
     * The overlay always sees the page's state, its drag and scroll-lock are
     * consistent, and only table projects are selected. Whether the
     * carousel's index is in range is `modal.Valid()`, kept separately.
     */
    ghost predicate Valid()
      reads this, modal
    {
      && modal.project == selectedProject
      && modal.isOpen == isModalOpen
      && modal.Consistent()
      && (selectedProject.Some? ==> selectedProject.value in Projects())
    }

    /** An open overlay has a project to show. */
    ghost predicate ShowsSelection()
      reads this
    {
      isModalOpen ==> selectedProject.Some?
    }

    constructor ()
      ensures Valid() && modal.Valid() && ShowsSelection() && fresh(modal)
      ensures selectedProject == None && !isModalOpen && pendingClears == 0
    {
      selectedProject, isModalOpen, pendingClears := None, false, 0;
      modal := new InlineModal(None, false);
    }

    /**
     * A click on a card selects its project and opens the overlay. The cards
     * are clickable while the overlay is closed, and also while it is open
     * with no project, because the overlay then renders nothing. Opening a
     * closed overlay starts at the first image with scrolling locked; when
     * the overlay was already open, the open effect does not run and the
     * index is kept, whatever the new project's image count.
     */
    method OpenProject(p: Project)
      requires Valid() && p in Projects() && (!isModalOpen || selectedProject.None?)
      modifies this, modal
      ensures Valid() && ShowsSelection()
      ensures selectedProject == Some(p) && isModalOpen && pendingClears == old(pendingClears)
      ensures modal.currentImageIndex == (if old(isModalOpen) then old(modal.currentImageIndex) else 0)
      ensures modal.scrollLocked
      ensures modal.isDragging == old(modal.isDragging) && modal.startX == old(modal.startX)
      ensures modal.translateX == old(modal.translateX)
      ensures !old(isModalOpen) ==> modal.Valid()
    {
      selectedProject, isModalOpen := Some(p), true;
      TableProjectsHaveImages(p);
      modal.SetProps(selectedProject, isModalOpen);
    }

    /**
     * Closing hides the overlay and releases the scroll-lock at once; the
     * selection is cleared only by a deferred step scheduled here.
     */
    method CloseModal()
      requires Valid()
      modifies this, modal
      ensures Valid() && ShowsSelection() && modal.Valid()
      ensures !isModalOpen && selectedProject == old(selectedProject)
      ensures pendingClears == old(pendingClears) + 1
      ensures !modal.scrollLocked
      ensures modal.currentImageIndex == old(modal.currentImageIndex)
      ensures modal.isDragging == old(modal.isDragging) && modal.startX == old(modal.startX)
      ensures modal.translateX == old(modal.translateX)
    {
      isModalOpen := false;
      pendingClears := pendingClears + 1;
      modal.SetProps(selectedProject, isModalOpen);
    }

    /**
     * A scheduled deferred clear fires, as written: the selection is
     * cleared whether or not a project was opened in the meantime.
     */
    method ClearSelection()
      requires Valid() && pendingClears > 0
      modifies this, modal
      ensures Valid() && modal.Valid()
      ensures selectedProject == None && isModalOpen == old(isModalOpen)
      ensures pendingClears == old(pendingClears) - 1
      ensures modal.scrollLocked == old(modal.scrollLocked)
      ensures modal.currentImageIndex == old(modal.currentImageIndex)
      ensures modal.isDragging == old(modal.isDragging) && modal.startX == old(modal.startX)
      ensures modal.translateX == old(modal.translateX)
    {
      selectedProject := None;
      pendingClears := pendingClears - 1;
      modal.SetProps(selectedProject, isModalOpen);
    }

    /** The deferred clear as intended: it leaves a project opened since then in place. */
    method ClearSelectionIfClosed()
      requires Valid() && pendingClears > 0
      modifies this, modal
      ensures Valid()
      ensures selectedProject == (if isModalOpen then old(selectedProject) else None)
      ensures isModalOpen == old(isModalOpen) && pendingClears == old(pendingClears) - 1
      ensures old(ShowsSelection()) ==> ShowsSelection()
      ensures old(modal.Valid()) ==> modal.Valid()
      ensures modal.scrollLocked == old(modal.scrollLocked)
      ensures modal.currentImageIndex == old(modal.currentImageIndex)
      ensures modal.isDragging == old(modal.isDragging) && modal.startX == old(modal.startX)
      ensures modal.translateX == old(modal.translateX)
    {
      if !isModalOpen {
        selectedProject := None;
      }
      pendingClears := pendingClears - 1;
      modal.SetProps(selectedProject, isModalOpen);
    }

    /**
     * A key press reaches the overlay's listener while it is open: Escape
     * closes through `CloseModal`, the arrow keys move the carousel.
     */
    method KeyDown(key: string)
      requires Valid()
      modifies this, modal
      ensures Valid()
      ensures isModalOpen == (old(isModalOpen) && key != "Escape")
      ensures selectedProject == old(selectedProject)
      ensures pendingClears == old(pendingClears) + (if old(isModalOpen) && key == "Escape" then 1 else 0)
      ensures modal.currentImageIndex ==
        if old(isModalOpen) && key == "ArrowLeft" && selectedProject.Some?
        then PrevIndex(old(modal.currentImageIndex), modal.ImageCount())
        else if old(isModalOpen) && key == "ArrowRight" && selectedProject.Some?
        then NextIndex(old(modal.currentImageIndex), modal.ImageCount())
        else old(modal.currentImageIndex)
      ensures modal.isDragging == old(modal.isDragging) && modal.startX == old(modal.startX)
      ensures modal.translateX == old(modal.translateX)
      ensures old(ShowsSelection()) ==> ShowsSelection()
      ensures old(modal.Valid()) ==> modal.Valid()
    {
      var close := modal.KeyDown(key);
      if close {
        CloseModal();
      }
    }
  }

  /**
   * Reopening within the close delay, as written: the clear scheduled by the
   * first close fires after the second open, leaving the overlay open with
   * no project to show and scrolling still locked.
   */
  method ReopenWithinDelay() returns (open: bool, shown: Option<Project>, locked: bool)
    ensures open && shown == None && locked
  {
    var page := new Page();
    page.OpenProject(Projects()[0]);
    page.CloseModal();
    page.OpenProject(Projects()[1]);
    page.ClearSelection();
    open, shown, locked := page.isModalOpen, page.selectedProject, page.modal.scrollLocked;
  }

  /**
   * A consequence of the same clear, as written: the emptied overlay lets a
   * card be clicked while it is still open, so the open effect does not run
   * and the index left by a four-image project is kept on a three-image one.
   * The "next" arrow button then moves further out instead of wrapping.
   */
  method ReopenStaleIndex() returns (index: int, count: int, afterNext: int)
    ensures index == 3 && count == 3 && afterNext == 4
  {
    var page := new Page();
    page.OpenProject(Projects()[1]);
    page.CloseModal();
    page.OpenProject(Projects()[0]);
    page.KeyDown("ArrowLeft");
    page.ClearSelection();
    page.OpenProject(Projects()[1]);
    index, count := page.modal.currentImageIndex, page.modal.ImageCount();
    page.modal.NextImage();
    afterNext := page.modal.currentImageIndex;
  }

  /** The same sequence with the intended deferred clear keeps the reopened project. */
  method ReopenWithinDelayCorrected() returns (open: bool, shown: Option<Project>)
    ensures open && shown == Some(Projects()[1])
  {
    var page := new Page();
    page.OpenProject(Projects()[0]);
    page.CloseModal();
    page.OpenProject(Projects()[1]);
    page.ClearSelectionIfClosed();
    open, shown := page.isModalOpen, page.selectedProject;
  }

  /** Opening, browsing to the last image, closing and reopening starts again at image 0. */
  method ReopenResetsIndex(k: nat) returns (indexBefore: int, indexAfter: int)
    requires k < 6
    ensures indexBefore == |Projects()[k].images| - 1 && indexAfter == 0
  {
    var page := new Page();
    var p := Projects()[k];
    page.OpenProject(p);
    page.modal.PrevImage();
    indexBefore := page.modal.currentImageIndex;
    page.CloseModal();
    page.ClearSelectionIfClosed();
    page.OpenProject(p);
    indexAfter := page.modal.currentImageIndex;
  }
}
