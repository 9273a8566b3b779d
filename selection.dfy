/**
 * The selection state shared by the experience, leadership and certification
 * sections: a card click selects a record, closing clears it, and the popup's
 * scroll-lock effect depends on the selected record itself, so it is cleaned
 * up and re-run whenever the record changes. The cleanup only schedules the release for the
 * next animation frame, so on a switch between two records the release follows the re-run and
 * the body ends up unpinned while the popup is still open.
 */
module Selection {
  import opened Wrappers
  import opened Decimal
  import opened ScrollLock
  import opened Overlay

  /** A section's selected record, with the page body its popup pins. */
  class RecordPopup<T(==)> {
    var selected: Option<T>
    const body: Body
    /** The offset captured when the popup last opened. */
    ghost var savedOffset: nat

    /**
     * The body is pinned only while a record is selected (a switch between records may have
     * unpinned it), and while one is selected it holds the captured offset.
     */
    ghost predicate Valid()
      reads this, body
    {
      (body.position == "fixed" ==> selected.Some?) &&
      (selected.Some? ==> body.scrollYData == Some(NatToString(savedOffset)))
    }

    /** `useState(null)` on a page whose body carries no pin. */
    constructor (body: Body)
      requires body.position == ""
      ensures Valid() && this.body == body && selected == None
    {
      this.body := body;
      selected := None;
    }

    function Open(): bool
      reads this
    {
      selected.Some?
    }

    /**
     * A card click: the record becomes the selection, and the effect runs again when the
     * selection changed. Opening captures the current offset and pins the body; moving to another
     * record while open captures the current offset too, but the previous run's deferred release
     * then unpins the body.
     */
    method Select(r: T)
      requires Valid()
      modifies this, body
      ensures Valid()
      ensures selected == Some(r)
      ensures body.State() == AfterCommit(old(selected) != Some(r), old(selected).Some?, true, old(body.State()))
      ensures old(selected) != Some(r) ==> savedOffset == old(body.windowScrollY)
      ensures old(selected) == Some(r) ==> savedOffset == old(savedOffset) && body.State() == old(body.State())
      ensures old(selected).None? ==> body.position == "fixed"
      ensures old(selected).Some? && old(selected) != Some(r) ==>
        body.State().Unstyled() && body.windowScrollY == old(body.windowScrollY)
    {
      var wasOpen := selected.Some?;
      var changed := selected != Some(r);
      selected := Some(r);
      body.Commit(changed, wasOpen, true);
      if changed {
        savedOffset := old(body.windowScrollY);
        if wasOpen {
          SwitchUnpins(old(body.State()));
        }
      }
    }

    /** `onClose`: the selection is cleared and the cleanup scrolls back to the captured offset. */
    method Close()
      requires Valid()
      modifies this, body
      ensures Valid()
      ensures selected == None
      ensures body.State() == AfterCommit(old(selected).Some?, old(selected).Some?, false, old(body.State()))
      ensures old(selected).Some? ==> body.windowScrollY == old(savedOffset) && body.State().Unstyled()
      ensures old(selected).None? ==> body.State() == old(body.State())
    {
      var wasOpen := selected.Some?;
      selected := None;
      body.Commit(wasOpen, wasOpen, false);
      if wasOpen {
        RestoreCaptured(savedOffset);
      }
    }

    /**
     * A click inside the open popup, which has a backdrop, a dialog and a close
     * button but no zoomable image.
     */
    method ClickPopup(t: ClickTarget)
      requires Valid() && selected.Some? && !t.ZoomImage?
      modifies this, body
      ensures Valid()
      ensures ClosesPopup(t) ==> selected == None && body.windowScrollY == old(savedOffset)
      ensures ClosesPopup(t) ==> body.State().Unstyled()
      ensures !ClosesPopup(t) ==> selected == old(selected) && body.State() == old(body.State())
    {
      ClickRouting(t);
      if ClosesPopup(t) {
        Close();
      }
    }
  }

  /**
   * Opening on a page scrolled to `offset` and then closing scrolls the page
   * back to `offset` and leaves the body without a pin.
   */
  method OpenThenClose<T(==)>(section: RecordPopup<T>, r: T)
    requires section.Valid() && section.selected.None?
    modifies section, section.body
    ensures section.Valid() && section.selected.None?
    ensures section.body.windowScrollY == old(section.body.windowScrollY)
    ensures section.body.State().Unstyled()
  {
    section.Select(r);
    section.Close();
  }

  /**
   * The user scrolls the page to `offset`, opens a popup and closes it again: the popup
   * captures that offset, and closing scrolls back to it and leaves the body unpinned.
   */
  method ScrollOpenClose<T(==)>(section: RecordPopup<T>, offset: nat, r: T)
    requires section.Valid() && section.selected.None?
    modifies section, section.body
    ensures section.Valid() && section.selected.None?
    ensures section.body.windowScrollY == offset
    ensures section.body.State().Unstyled()
  {
    section.body.ScrollTo(offset);
    section.Select(r);
    section.Close();
  }
}
