/** The popover that holds the emoji picker (webapp/components/emoji_picker/emoji_picker_overlay.jsx):
    where it opens relative to its target. The placement is chosen once, each time the overlay goes
    from hidden to shown, from the target's bounding box and the window height. */
module EmojiPickerOverlay {
  import opened EmojiPicker

  /** Room the picker needs above its target to open on top. */
  const SpaceRequiredAbove := 422

  /** Room the picker needs below its target to open underneath. */
  const SpaceRequiredBelow := 436

  /** Top when there is strictly more room above than the picker needs, else bottom when there is
      strictly more below, else left. */
  function ChoosePlacement(targetTop: int, targetBottom: int, innerHeight: int): (p: Placement)
    ensures p == Top <==> targetTop > SpaceRequiredAbove
    ensures p == Bottom <==> targetTop <= SpaceRequiredAbove && innerHeight - targetBottom > SpaceRequiredBelow
    ensures p == Left <==> targetTop <= SpaceRequiredAbove && innerHeight - targetBottom <= SpaceRequiredBelow
  {
    if targetTop > SpaceRequiredAbove then Top
    else if innerHeight - targetBottom > SpaceRequiredBelow then Bottom
    else Left
  }

  /** New props: whether to show, and the geometry read from the target when it is shown. */
  datatype Update = Update(show: bool, targetTop: int, targetBottom: int, innerHeight: int)

  datatype OverlayState = OverlayState(show: bool, placement: Placement)

  /** The update goes from hidden to shown. */
  predicate Reveals(st: OverlayState, u: Update)
  {
    u.show && !st.show
  }

  /** componentWillUpdate followed by the props taking effect. */
  function Step(st: OverlayState, u: Update): (r: OverlayState)
    ensures r.show == u.show
    ensures Reveals(st, u) ==> r.placement == ChoosePlacement(u.targetTop, u.targetBottom, u.innerHeight)
    ensures !Reveals(st, u) ==> r.placement == st.placement
  {
    OverlayState(u.show, if Reveals(st, u) then ChoosePlacement(u.targetTop, u.targetBottom, u.innerHeight) else st.placement)
  }

  /** A sequence of updates applied in turn. */
  function Run(st: OverlayState, us: seq<Update>): OverlayState
    decreases |us|
  {
    if us == [] then st else Step(Run(st, us[..|us| - 1]), us[|us| - 1])
  }

  /** Without a hidden-to-shown transition the placement never changes. */
  lemma {:induction false} RunWithoutRevealKeepsPlacement(st: OverlayState, us: seq<Update>)
    requires forall i :: 0 <= i < |us| ==> !Reveals(Run(st, us[..i]), us[i])
    ensures Run(st, us).placement == st.placement
  {
    if us != [] {
      var init := us[..|us| - 1];
      forall i | 0 <= i < |init| ensures !Reveals(Run(st, init[..i]), init[i]) {
        assert init[..i] == us[..i];
      }
      RunWithoutRevealKeepsPlacement(st, init);
    }
  }

  /** While the overlay stays open, moving the target does not move the picker. */
  lemma {:induction false} StayingShownKeepsPlacement(st: OverlayState, us: seq<Update>)
    requires st.show
    requires forall i :: 0 <= i < |us| ==> us[i].show
    ensures Run(st, us).show
    ensures Run(st, us).placement == st.placement
  {
    if us != [] {
      var init := us[..|us| - 1];
      assert forall i :: 0 <= i < |init| ==> init[i] == us[i];
      StayingShownKeepsPlacement(st, init);
    }
  }

  /** EmojiPickerOverlay: its `show` prop and its one state field. */
  class Overlay {
    var show: bool
    var placement: Placement

    constructor (show: bool)
      ensures this.show == show && placement == Top
    {
      this.show := show;
      placement := Top;
    }

    /** componentWillUpdate(nextProps), after which nextProps are the props. */
    method WillUpdate(u: Update)
      modifies this
      ensures OverlayState(show, placement) == Step(OverlayState(old(show), old(placement)), u)
    {
      if u.show && !show {
        var spaceRequiredAbove := SpaceRequiredAbove;
        var spaceRequiredBelow := SpaceRequiredBelow;
        var p;
        if u.targetTop > spaceRequiredAbove {
          p := Top;
        } else if u.innerHeight - u.targetBottom > spaceRequiredBelow {
          p := Bottom;
        } else {
          p := Left;
        }
        placement := p;
      }
      show := u.show;
    }
  }
}
