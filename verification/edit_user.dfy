/** The user editor's checkbox groups: each option list is mirrored by a
    list of boolean controls, and the selection stored in the form is the
    options whose box is ticked, in option order. A `view=true` query turns
    the screen read-only. */
module EditUser {
  import opened Values

  const SexualOrientations: seq<string> :=
    ["Straight", "Gay", "Lesbian", "Bisexual", "Asexual", "Demisexual", "Pansexual", "Queer"]

  const Interests: seq<string> :=
    ["Photography", "Shopping", "Video games", "Drink", "Music", "Extreme", "Traveling", "Art",
     "Swimming", "Run", "Tennis", "Cooking", "Karaoke"]

  datatype Screen = Screen(
    isViewMode: bool,
    disabled: bool,
    orientationBoxes: seq<bool>,
    interestBoxes: seq<bool>,
    sexualOrientation: seq<string>,
    interest: seq<string>,
    navigation: Option<seq<string>>)

  function Initial(): (s: Screen)
    ensures !s.isViewMode && !s.disabled && s.orientationBoxes == [] && s.interestBoxes == []
  {
    Screen(false, false, [], [], [], [], None)
  }

  /** `n` unticked boxes. */
  function Unticked(n: nat): (r: seq<bool>)
    ensures |r| == n
    ensures forall i :: 0 <= i < n ==> !r[i]
  {
    seq(n, _ => false)
  }

  /** `setUpCheckboxArrays`: both groups are cleared and refilled with one
      unticked box per option. */
  function SetUp(s: Screen): (r: Screen)
    ensures |r.orientationBoxes| == |SexualOrientations| && |r.interestBoxes| == |Interests|
    ensures forall i :: 0 <= i < |r.orientationBoxes| ==> !r.orientationBoxes[i]
    ensures forall i :: 0 <= i < |r.interestBoxes| ==> !r.interestBoxes[i]
    ensures r.(orientationBoxes := s.orientationBoxes, interestBoxes := s.interestBoxes) == s
  {
    s.(orientationBoxes := Unticked(|SexualOrientations|), interestBoxes := Unticked(|Interests|))
  }

  /** `options.filter((_, i) => boxes.at(i).value)`. */
  function Selected(options: seq<string>, boxes: seq<bool>): (r: seq<string>)
    requires |boxes| == |options|
    ensures |r| <= |options|
    ensures forall i :: 0 <= i < |options| && boxes[i] ==> options[i] in r
    ensures forall x :: x in r ==> exists i :: 0 <= i < |options| && boxes[i] && options[i] == x
  {
    if |options| == 0 then []
    else
      var rest := Selected(options[1..], boxes[1..]);
      assert forall i :: 1 <= i < |options| && boxes[i] ==> options[i] in rest by {
        forall i | 1 <= i < |options| && boxes[i] ensures options[i] in rest {
          assert options[1..][i - 1] == options[i];
        }
      }
      if boxes[0] then [options[0]] + rest else rest
  }

  /** The number of ticked boxes. */
  function Ticked(boxes: seq<bool>): nat {
    if |boxes| == 0 then 0 else (if boxes[0] then 1 else 0) + Ticked(boxes[1..])
  }

  /** The selection holds one entry per ticked box; no box ticked selects
      nothing and every box ticked selects every option. */
  lemma {:induction false} SelectionCounts(options: seq<string>, boxes: seq<bool>)
    requires |boxes| == |options|
    ensures |Selected(options, boxes)| == Ticked(boxes)
    ensures (forall i :: 0 <= i < |boxes| ==> !boxes[i]) ==> Selected(options, boxes) == []
    ensures (forall i :: 0 <= i < |boxes| ==> boxes[i]) ==> Selected(options, boxes) == options
  {
    if |options| > 0 {
      SelectionCounts(options[1..], boxes[1..]);
      if forall i :: 0 <= i < |boxes| ==> boxes[i] {
        assert forall i :: 0 <= i < |boxes[1..]| ==> boxes[1..][i];
        assert options == [options[0]] + options[1..];
      }
      if forall i :: 0 <= i < |boxes| ==> !boxes[i] {
        assert forall i :: 0 <= i < |boxes[1..]| ==> !boxes[1..][i];
      }
    }
  }

  /** `xs` is `ys` with some entries dropped and the order kept. */
  predicate SubsequenceOf(xs: seq<string>, ys: seq<string>)
    decreases |ys|
  {
    if |ys| == 0 then |xs| == 0
    else (|xs| > 0 && xs[0] == ys[0] && SubsequenceOf(xs[1..], ys[1..])) || SubsequenceOf(xs, ys[1..])
  }

  /** The selection is a subsequence of the options: the unticked ones
      dropped, the order kept. */
  lemma {:induction false} SelectionIsSubsequence(options: seq<string>, boxes: seq<bool>)
    requires |boxes| == |options|
    ensures SubsequenceOf(Selected(options, boxes), options)
  {
    if |options| > 0 {
      SelectionIsSubsequence(options[1..], boxes[1..]);
      if boxes[0] {
        assert Selected(options, boxes)[1..] == Selected(options[1..], boxes[1..]);
      }
    }
  }

  /** Ticking or unticking box `i` of a group re-derives that group's selection. */
  function TickOrientation(s: Screen, i: nat, value: bool): (r: Screen)
    requires |s.orientationBoxes| == |SexualOrientations| && i < |SexualOrientations|
    ensures r.orientationBoxes == s.orientationBoxes[i := value]
    ensures r.sexualOrientation == Selected(SexualOrientations, r.orientationBoxes)
    ensures r.interest == s.interest && r.interestBoxes == s.interestBoxes
  {
    var boxes := s.orientationBoxes[i := value];
    s.(orientationBoxes := boxes, sexualOrientation := Selected(SexualOrientations, boxes))
  }

  function TickInterest(s: Screen, i: nat, value: bool): (r: Screen)
    requires |s.interestBoxes| == |Interests| && i < |Interests|
    ensures r.interestBoxes == s.interestBoxes[i := value]
    ensures r.interest == Selected(Interests, r.interestBoxes)
    ensures r.sexualOrientation == s.sexualOrientation && r.orientationBoxes == s.orientationBoxes
  {
    var boxes := s.interestBoxes[i := value];
    s.(interestBoxes := boxes, interest := Selected(Interests, boxes))
  }

  /** The query parameters arrive: view mode exactly for `view=true`, the
      boxes set up afresh, and the form disabled exactly in view mode. The
      fresh boxes are enabled controls, and pushing them makes the group's
      status valid again, so a form disabled by an earlier view is enabled
      by a later open that is not a view; `disable()` runs only after the
      set-up, in view mode. Both selections come out empty: on a first open
      they still hold the form's initial `[]`, and on a re-open the
      `valueChanges` listeners of the earlier opens see the last fresh box
      pushed and patch each selection to the (empty) ticked options. */
  function Open(s: Screen, view: Option<string>): (r: Screen)
    ensures r.isViewMode <==> view == Some("true")
    ensures r.disabled <==> view == Some("true")
    ensures r.sexualOrientation == [] && r.interest == []
    ensures r == SetUp(s).(isViewMode := r.isViewMode, disabled := r.disabled,
                           sexualOrientation := [], interest := [])
  {
    var viewMode := view == Some("true");
    SetUp(s).(isViewMode := viewMode, disabled := viewMode, sexualOrientation := [], interest := [])
  }

  /** The screens `Open` produces: the form is disabled exactly in view mode
      and each group has one box per option. */
  predicate Opened(s: Screen) {
    s.disabled == s.isViewMode
    && |s.orientationBoxes| == |SexualOrientations| && |s.interestBoxes| == |Interests|
  }

  /** `onSubmit`: nothing in view mode; otherwise the selections are copied
      from the boxes, and a form that is valid (there are no validators, but
      a disabled form is never valid) returns to `/users`. A disabled form
      outside view mode is not reachable through `Open`, see
      `OpenedEditorSubmits`. */
  function Submit(s: Screen): (r: Screen)
    requires |s.orientationBoxes| == |SexualOrientations| && |s.interestBoxes| == |Interests|
    ensures s.isViewMode ==> r == s
    ensures !s.isViewMode ==> r.sexualOrientation == Selected(SexualOrientations, s.orientationBoxes)
    ensures !s.isViewMode ==> r.interest == Selected(Interests, s.interestBoxes)
    ensures s.disabled ==> r.navigation == s.navigation
    ensures !s.isViewMode && !s.disabled ==> r.navigation == Some(["/users"])
  {
    if s.isViewMode then s
    else
      var patched := s.(sexualOrientation := Selected(SexualOrientations, s.orientationBoxes),
                        interest := Selected(Interests, s.interestBoxes));
      if s.disabled then patched else patched.(navigation := Some(["/users"]))
  }

  /** Opened for editing on a fresh screen and submitted at once, the editor
      returns to `/users` with both selections empty; opened for viewing it
      does nothing. */
  lemma FreshSubmit(view: Option<string>)
    ensures view == Some("true") ==> Submit(Open(Initial(), view)) == Open(Initial(), view)
    ensures view != Some("true") ==> Submit(Open(Initial(), view)).navigation == Some(["/users"])
    ensures view != Some("true") ==> Submit(Open(Initial(), view)).sexualOrientation == []
    ensures view != Some("true") ==> Submit(Open(Initial(), view)).interest == []
  {
    var s := Open(Initial(), view);
    SelectionCounts(SexualOrientations, s.orientationBoxes);
    SelectionCounts(Interests, s.interestBoxes);
  }

  /** Every open leaves an opened screen, and ticking boxes keeps it one. */
  lemma OpenIsOpened(s: Screen, view: Option<string>, i: nat, value: bool)
    ensures Opened(Open(s, view))
    ensures i < |SexualOrientations| ==> Opened(TickOrientation(Open(s, view), i, value))
    ensures i < |Interests| ==> Opened(TickInterest(Open(s, view), i, value))
  {
  }

  /** On an opened screen outside view mode a submit always returns to
      `/users`, whatever was opened before; in view mode it does nothing. */
  lemma OpenedEditorSubmits(s: Screen)
    requires Opened(s)
    ensures !s.isViewMode ==> Submit(s).navigation == Some(["/users"])
    ensures s.isViewMode ==> Submit(s) == s
  {
  }

  /** A screen first opened for viewing and then re-opened without
      `view=true` is enabled again, and its submit returns to `/users` with
      empty selections. */
  lemma ViewThenEditSubmits(s: Screen, view: Option<string>)
    requires view != Some("true")
    ensures Open(Open(s, Some("true")), view).disabled
      != Open(s, Some("true")).disabled
    ensures Submit(Open(Open(s, Some("true")), view)).navigation == Some(["/users"])
    ensures Submit(Open(Open(s, Some("true")), view)).sexualOrientation == []
    ensures Submit(Open(Open(s, Some("true")), view)).interest == []
  {
    var s2 := Open(Open(s, Some("true")), view);
    SelectionCounts(SexualOrientations, s2.orientationBoxes);
    SelectionCounts(Interests, s2.interestBoxes);
  }

  /** A box ticked before a re-open is forgotten: the boxes are unticked
      again and both selections are empty, in view mode as well, so a view
      submit returns nothing that was ticked before. */
  lemma ReopenForgetsTicks(view: Option<string>)
    ensures TickOrientation(Open(Initial(), None), 0, true).sexualOrientation == ["Straight"]
    ensures Open(TickOrientation(Open(Initial(), None), 0, true), view).sexualOrientation == []
    ensures Open(TickOrientation(Open(Initial(), None), 0, true), view).orientationBoxes
      == Unticked(|SexualOrientations|)
  {
    var s := TickOrientation(Open(Initial(), None), 0, true);
    var boxes := Unticked(|SexualOrientations|)[0 := true];
    assert s.orientationBoxes == boxes;
    assert Selected(SexualOrientations[1..], boxes[1..]) == [] by {
      SelectionCounts(SexualOrientations[1..], boxes[1..]);
    }
  }
}
