/**
 * The two project-modal controllers: the handlers set up by
 * `initProjectModals` in main-clean.js, and the `ProjectModal` class of
 * projects.js. Both show a project's record in the shared modal body, mark the
 * modal active and lock page scrolling; they differ in how they close.
 */
module Modal {
  import opened Wrappers
  import opened Projects

  /** The modal as a state machine: closed, or open on one project. */
  datatype ModalState = Closed | Open(id: string)

  /** The overflow style that locks page scrolling while the modal is open. */
  const Locked := "hidden"
  /** The overflow style `closeModal` leaves behind. */
  const Unlocked := ""

  /** The modal of main-clean.js. */
  class CleanModal {
    /** The `active` class of `#projectModal`. */
    var active: bool
    /** What `#modalBody` shows: None while it still holds the page's own markup. */
    var body: Option<View>
    /** `document.body.style.overflow`. */
    var overflow: string
    /** The id of the project shown last, if any. */
    ghost var shown: Option<string>
    /** Whether `.modal-close` and `.modal-overlay` exist, so that their click listeners were registered. */
    const hasCloseButton: bool
    const hasOverlay: bool

    /** While open, scrolling is locked and the body shows the record of the table entry that was opened. */
    ghost predicate Valid()
      reads this
    {
      (active ==> overflow == Locked && shown.Some?) &&
      (shown.Some? ==> shown.value in CleanProjects() && body == Some(RenderClean(CleanProjects()[shown.value])))
    }

    ghost function State(): ModalState
      reads this
    {
      if active && shown.Some? then Open(shown.value) else Closed
    }

    /** The page as loaded: the modal closed, its body untouched, the page's overflow whatever it was. */
    constructor (overflow: string, hasCloseButton: bool, hasOverlay: bool)
      ensures Valid() && State() == Closed
      ensures !active && body == None && this.overflow == overflow
      ensures this.hasCloseButton == hasCloseButton && this.hasOverlay == hasOverlay
    {
      active := false;
      body := None;
      this.overflow := overflow;
      shown := None;
      this.hasCloseButton := hasCloseButton;
      this.hasOverlay := hasOverlay;
    }

    /**
     * `showProjectModal(projects[id])`: an id missing from the table changes
     * nothing; a known id renders its record and opens the modal.
     */
    method Show(id: string)
      modifies this
      ensures id in CleanProjects() ==>
        active && overflow == Locked && body == Some(RenderClean(CleanProjects()[id])) && shown == Some(id)
      ensures id !in CleanProjects() ==>
        active == old(active) && overflow == old(overflow) && body == old(body) && shown == old(shown)
      ensures old(Valid()) ==> Valid()
      ensures id in CleanProjects() ==> State() == Open(id)
    {
      var project := Lookup(CleanProjects(), id);
      if project.None? {
        return;
      }
      body := Some(RenderClean(project.value));
      shown := Some(id);
      active := true;
      overflow := Locked;
    }

    /** `closeModal`: the modal is inactive and the overflow cleared; the body keeps what it showed. */
    method Close()
      modifies this
      ensures !active && overflow == Unlocked
      ensures body == old(body) && shown == old(shown)
      ensures old(Valid()) ==> Valid()
      ensures State() == Closed
    {
      active := false;
      overflow := Unlocked;
    }

    /** The keydown handler: Escape closes the modal, but only while it is active. */
    method KeyDown(key: string)
      modifies this
      ensures key == "Escape" && old(active) ==> !active && overflow == Unlocked
      ensures !(key == "Escape" && old(active)) ==> active == old(active) && overflow == old(overflow)
      ensures body == old(body) && shown == old(shown)
      ensures old(Valid()) ==> Valid()
    {
      if key == "Escape" && active {
        Close();
      }
    }

    /** A click on the close button. */
    method CloseButtonClick()
      modifies this
      ensures hasCloseButton ==> !active && overflow == Unlocked
      ensures !hasCloseButton ==> active == old(active) && overflow == old(overflow)
      ensures body == old(body) && shown == old(shown)
      ensures old(Valid()) ==> Valid()
    {
      if hasCloseButton {
        Close();
      }
    }

    /** A click on the overlay behind the modal. */
    method OverlayClick()
      modifies this
      ensures hasOverlay ==> !active && overflow == Unlocked
      ensures !hasOverlay ==> active == old(active) && overflow == old(overflow)
      ensures body == old(body) && shown == old(shown)
      ensures old(Valid()) ==> Valid()
    {
      if hasOverlay {
        Close();
      }
    }
  }

  /** The modal of projects.js. */
  class ProjectModal {
    /** The `active` class of `#projectModal`. */
    var active: bool
    /** What `#modalBody` shows: None while it still holds the page's own markup. */
    var body: Option<View>
    /** `document.body.style.overflow`. */
    var overflow: string
    /** The id of the project shown last, if any. */
    ghost var shown: Option<string>
    /**
     * Whether the close listeners were registered. Without a `.modal-close`
     * button `init` fails before registering the close-button, backdrop and
     * Escape listeners.
     */
    const closeListeners: bool

    ghost predicate Valid()
      reads this
    {
      (active ==> overflow == Locked && shown.Some?) &&
      (shown.Some? ==> shown.value in ModalProjects() && body == Some(RenderModal(ModalProjects()[shown.value])))
    }

    ghost function State(): ModalState
      reads this
    {
      if active && shown.Some? then Open(shown.value) else Closed
    }

    constructor (overflow: string, hasCloseButton: bool)
      ensures Valid() && State() == Closed
      ensures !active && body == None && this.overflow == overflow
      ensures closeListeners == hasCloseButton
    {
      active := false;
      body := None;
      this.overflow := overflow;
      shown := None;
      closeListeners := hasCloseButton;
    }

    /** `showProject(id)`: an id missing from the table changes nothing; a known id renders and opens. */
    method ShowProject(id: string)
      modifies this
      ensures id in ModalProjects() ==>
        active && overflow == Locked && body == Some(RenderModal(ModalProjects()[id])) && shown == Some(id)
      ensures id !in ModalProjects() ==>
        active == old(active) && overflow == old(overflow) && body == old(body) && shown == old(shown)
      ensures old(Valid()) ==> Valid()
      ensures id in ModalProjects() ==> State() == Open(id)
    {
      var project := Lookup(ModalProjects(), id);
      if project.None? {
        return;
      }
      body := Some(RenderModal(project.value));
      shown := Some(id);
      active := true;
      overflow := Locked;
    }

    /** `closeModal`: the modal is inactive and the overflow cleared, whatever the state before. */
    method CloseModal()
      modifies this
      ensures !active && overflow == Unlocked
      ensures body == old(body) && shown == old(shown)
      ensures old(Valid()) ==> Valid()
      ensures State() == Closed
    {
      active := false;
      overflow := Unlocked;
    }

    /** The keydown handler: Escape closes unconditionally, even a modal that is already closed. */
    method KeyDown(key: string)
      modifies this
      ensures closeListeners && key == "Escape" ==> !active && overflow == Unlocked
      ensures !(closeListeners && key == "Escape") ==> active == old(active) && overflow == old(overflow)
      ensures body == old(body) && shown == old(shown)
      ensures old(Valid()) ==> Valid()
    {
      if closeListeners && key == "Escape" {
        CloseModal();
      }
    }

    /** A click on the modal: it closes only when the click landed on the modal element itself, the backdrop. */
    method ModalClick(targetIsModal: bool)
      modifies this
      ensures closeListeners && targetIsModal ==> !active && overflow == Unlocked
      ensures !(closeListeners && targetIsModal) ==> active == old(active) && overflow == old(overflow)
      ensures body == old(body) && shown == old(shown)
      ensures old(Valid()) ==> Valid()
    {
      if closeListeners && targetIsModal {
        CloseModal();
      }
    }

    /** A click on the close button. */
    method CloseButtonClick()
      modifies this
      ensures closeListeners ==> !active && overflow == Unlocked
      ensures !closeListeners ==> active == old(active) && overflow == old(overflow)
      ensures body == old(body) && shown == old(shown)
      ensures old(Valid()) ==> Valid()
    {
      if closeListeners {
        CloseModal();
      }
    }
  }

  /** Closing twice leaves the projects.js modal exactly as closing once does. */
  method CloseTwiceIsCloseOnce(m: ProjectModal)
    modifies m
    ensures !m.active && m.overflow == Unlocked && m.body == old(m.body) && m.shown == old(m.shown)
  {
    m.CloseModal();
    ghost var once := (m.active, m.overflow, m.body, m.shown);
    m.CloseModal();
    assert (m.active, m.overflow, m.body, m.shown) == once;
  }

  /**
   * The two Escape rules differ on a closed modal: main-clean.js leaves a
   * page overflow of "hidden" alone, projects.js clears it.
   */
  method EscapeOnClosedModal() returns (cleanOverflow: string, modalOverflow: string)
    ensures cleanOverflow == Locked && modalOverflow == Unlocked
  {
    var clean := new CleanModal(Locked, true, true);
    clean.KeyDown("Escape");
    cleanOverflow := clean.overflow;
    var modal := new ProjectModal(Locked, true);
    modal.KeyDown("Escape");
    modalOverflow := modal.overflow;
  }

  /** Opening "chat" and closing again returns to Closed with scrolling unlocked, not to the overflow from before. */
  method OpenThenClose(initialOverflow: string) returns (openOverflow: string, closedActive: bool, closedOverflow: string)
    ensures openOverflow == Locked
    ensures !closedActive && closedOverflow == Unlocked
  {
    var m := new ProjectModal(initialOverflow, true);
    m.ShowProject("chat");
    assert m.State() == Open("chat");
    openOverflow := m.overflow;
    m.CloseModal();
    assert m.State() == Closed;
    closedActive, closedOverflow := m.active, m.overflow;
  }
}
