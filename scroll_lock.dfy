/**
 * The scroll lock every detail popup installs while it is open. The DOM is reduced to the
 * fields the popups touch: `document.body.style.position`, `.top` and `.width`,
 * `document.body.dataset.scrollY` and `window.scrollY` (a whole, non-negative offset).
 */
module ScrollLock {
  import opened Wrappers
  import opened Decimal

  /** A snapshot of the page fields the scroll lock reads and writes. */
  datatype BodyState = BodyState(
    position: string,
    top: string,
    width: string,
    scrollYData: Option<string>,
    windowScrollY: nat)
  {
    /** No inline pinning style: the page scrolls normally. */
    predicate Unstyled() {
      position == "" && top == "" && width == ""
    }
  }

  /** The effect run when a popup opens: remember the offset, then fix the body in place. */
  function Pinned(s: BodyState): BodyState {
    var scrollY := s.windowScrollY;
    s.(position := "fixed",
       top := "-" + NatToString(scrollY) + "px",
       width := "100%",
       scrollYData := Some(NatToString(scrollY)))
  }

  /**
   * The offset the cleanup scrolls back to: `parseInt(y || '0')`. An absent or empty
   * `dataset.scrollY` reads as "0"; text that is not a number gives NaN, which
   * `window.scrollTo` treats as 0.
   */
  function RestoreTarget(y: Option<string>): (offset: nat)
    ensures y.None? ==> offset == 0
  {
    var text := if y.None? || y.value == "" then "0" else y.value;
    match ParseInt(text)
    case None => 0
    case Some(v) => v
  }

  /** The cleanup run when a popup closes: clear the pinning style and scroll back. */
  function Released(s: BodyState): BodyState {
    s.(position := "", top := "", width := "", windowScrollY := RestoreTarget(s.scrollYData))
  }

  /**
   * What React does with such an effect when a render commits, up to the next animation frame.
   * If the dependency changed, the previous run's cleanup goes first (there is one only if the
   * previous run pinned the body), but all it does is schedule the release for the next frame;
   * the effect then runs again and pins the body if the popup is now open; and the scheduled
   * release runs last, reading whatever offset is stored by then.
   */
  function AfterCommit(changed: bool, wasOpen: bool, isOpen: bool, s: BodyState): BodyState {
    if !changed then s
    else
      var rerun := if isOpen then Pinned(s) else s;
      if wasOpen then Released(rerun) else rerun
  }

  /** Whatever offset was captured is the offset restored. */
  lemma RestoreCaptured(n: nat)
    ensures RestoreTarget(Some(NatToString(n))) == n
  {
    ParseIntOfNatToString(n);
  }

  /** With nothing usable stored, the cleanup scrolls to the top. */
  lemma RestoreWithoutCapture(y: Option<string>)
    requires y.None? || y == Some("")
    ensures RestoreTarget(y) == 0
  {
    assert ParseInt("0") == Some(0);
  }

  /** Pinning records the offset both in the body's `top` and in its dataset. */
  lemma PinnedRecordsOffset(s: BodyState)
    ensures Pinned(s).position == "fixed"
    ensures Pinned(s).scrollYData.Some?
    ensures RestoreTarget(Pinned(s).scrollYData) == s.windowScrollY
    ensures Pinned(s).top == "-" + Pinned(s).scrollYData.value + "px"
  {
    RestoreCaptured(s.windowScrollY);
  }

  /**
   * Opening and then closing a popup is a round trip: the page is back at the offset it had,
   * and if the body carried no pinning style before, it carries none after; only the stored
   * `dataset.scrollY` remains.
   */
  lemma PinReleaseRoundTrip(s: BodyState)
    ensures Released(Pinned(s)).windowScrollY == s.windowScrollY
    ensures Released(Pinned(s)).Unstyled()
    ensures s.Unstyled() ==>
      Released(Pinned(s)) == s.(scrollYData := Some(NatToString(s.windowScrollY)))
  {
    RestoreCaptured(s.windowScrollY);
  }

  /** The same round trip through React's commits: select a record, then close the popup. */
  lemma OpenCloseRestoresOffset(s: BodyState)
    ensures AfterCommit(true, true, false, AfterCommit(true, false, true, s)).windowScrollY
            == s.windowScrollY
    ensures AfterCommit(true, true, false, AfterCommit(true, false, true, s)).Unstyled()
  {
    PinReleaseRoundTrip(s);
  }

  /**
   * Switching straight from one open record to another does not keep the pin: the re-run pins
   * again and stores the current offset, and the deferred release of the previous run then
   * clears the style, so the popup stays open over a page that scrolls, at the offset it had.
   */
  lemma SwitchUnpins(s: BodyState)
    ensures AfterCommit(true, true, true, s).Unstyled()
    ensures AfterCommit(true, true, true, s).windowScrollY == s.windowScrollY
    ensures AfterCommit(true, true, true, s).scrollYData == Some(NatToString(s.windowScrollY))
  {
    RestoreCaptured(s.windowScrollY);
  }

  /** `document.body` together with `window.scrollY`, updated in place. */
  class Body {
    var position: string
    var top: string
    var width: string
    var scrollYData: Option<string>
    var windowScrollY: nat

    function State(): BodyState
      reads this
    {
      BodyState(position, top, width, scrollYData, windowScrollY)
    }

    /** A freshly loaded page scrolled to `offset`, with no inline style and no stored offset. */
    constructor (offset: nat)
      ensures State() == BodyState("", "", "", None, offset)
    {
      position, top, width := "", "", "";
      scrollYData := None;
      windowScrollY := offset;
    }

    /** The user scrolls the page (only meaningful while it is not pinned). */
    method ScrollTo(offset: nat)
      modifies this
      ensures State() == old(State()).(windowScrollY := offset)
    {
      windowScrollY := offset;
    }

    /** The popup's effect body, run when the popup opens. */
    method Pin()
      modifies this
      ensures State() == Pinned(old(State()))
    {
      var scrollY := windowScrollY;
      position := "fixed";
      top := "-" + NatToString(scrollY) + "px";
      width := "100%";
      scrollYData := Some(NatToString(scrollY));
    }

    /** The release the effect's cleanup schedules, run on the next animation frame. */
    method Release()
      modifies this
      ensures State() == Released(old(State()))
    {
      var y := scrollYData;
      position := "";
      top := "";
      width := "";
      windowScrollY := RestoreTarget(y);
    }

    /**
     * React's handling of the effect after a render, up to the next frame: the new run pins at
     * once, and the release the old run's cleanup scheduled follows it.
     */
    method Commit(changed: bool, wasOpen: bool, isOpen: bool)
      modifies this
      ensures State() == AfterCommit(changed, wasOpen, isOpen, old(State()))
    {
      if changed {
        if isOpen {
          Pin();
        }
        if wasOpen {
          Release();
        }
      }
    }
  }
}
