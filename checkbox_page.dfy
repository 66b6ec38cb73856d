/**
 * The checkboxes page object: the page's checkboxes, addressed by a
 * 1-based number, read, toggled by a click, selected and deselected.
 */
module Checkboxes {
  import opened Wrappers

  /** The `ValueError` of `get_checkbox`: the number asked for and how many checkboxes there are. */
  datatype CheckboxError = OutOfRange(number: int, available: nat)

  /**
   * `get_checkbox` on a page with `count` checkboxes: the 0-based position of
   * checkbox number `n`, or the out-of-range error.
   */
  function CheckboxIndex(count: nat, n: int): (r: Result<nat, CheckboxError>)
    ensures r.Success? <==> 1 <= n <= count
    ensures r.Success? ==> r.value + 1 == n && r.value < count
    ensures r.Failure? ==> r.error == OutOfRange(n, count)
  {
    var index := n - 1;
    if index < 0 || index >= count then Failure(OutOfRange(n, count)) else Success(index)
  }

  /** The states after a click on the checkbox at `i`. */
  function Toggled(states: seq<bool>, i: nat): (r: seq<bool>)
    requires i < |states|
    ensures |r| == |states| && r[i] == !states[i]
    ensures forall j :: 0 <= j < |states| && j != i ==> r[j] == states[j]
  {
    states[i := !states[i]]
  }

  /** Two clicks on the same checkbox restore every state. */
  lemma ToggleTwiceRestores(states: seq<bool>, i: nat)
    requires i < |states|
    ensures Toggled(Toggled(states, i), i) == states
  {
  }

  /** The states with the checkbox at `i` forced to `selected`. */
  function WithState(states: seq<bool>, i: nat, selected: bool): (r: seq<bool>)
    requires i < |states|
    ensures |r| == |states| && r[i] == selected
    ensures forall j :: 0 <= j < |states| && j != i ==> r[j] == states[j]
  {
    states[i := selected]
  }

  /** Forcing a state twice is forcing it once, and forcing the state it has changes nothing. */
  lemma WithStateIdempotent(states: seq<bool>, i: nat, selected: bool)
    requires i < |states|
    ensures WithState(WithState(states, i, selected), i, selected) == WithState(states, i, selected)
    ensures states[i] == selected ==> WithState(states, i, selected) == states
  {
  }

  /** A click on a checkbox in the other state is the same as forcing the state. */
  lemma ToggleReachesState(states: seq<bool>, i: nat, selected: bool)
    requires i < |states| && states[i] != selected
    ensures Toggled(states, i) == WithState(states, i, selected)
  {
  }

  /** The checkboxes page: the selection state of each checkbox element, in page order. */
  class CheckboxesPage {
    /** `is_selected()` of each checkbox element. */
    const boxes: array<bool>
    /** The 0-based positions of the checkboxes clicked so far, in order. */
    var clicks: seq<nat>

    constructor (initial: seq<bool>)
      ensures fresh(boxes) && boxes[..] == initial && clicks == []
    {
      boxes := new bool[|initial|](i requires 0 <= i < |initial| => initial[i]);
      clicks := [];
    }

    /** `is_checkbox_selected(n)`. */
    function IsCheckboxSelected(n: int): (r: Result<bool, CheckboxError>)
      reads this, boxes
      ensures r.Success? <==> 1 <= n <= boxes.Length
      ensures r.Success? ==> r.value == boxes[n - 1]
      ensures r.Failure? ==> r.error == OutOfRange(n, boxes.Length)
    {
      match CheckboxIndex(boxes.Length, n)
      case Failure(e) => Failure(e)
      case Success(i) => Success(boxes[i])
    }

    /**
     * `get_all_checkboxes_state()`: one state per checkbox, each the one
     * `is_checkbox_selected` reports for its number.
     */
    function GetAllCheckboxesState(): (r: seq<bool>)
      reads this, boxes
      ensures |r| == boxes.Length
      ensures forall i :: 0 <= i < |r| ==> IsCheckboxSelected(i + 1) == Success(r[i])
    {
      boxes[..]
    }

    /** `toggle_checkbox(n)`: click checkbox number `n`, or raise before any click. */
    method ToggleCheckbox(n: int) returns (r: Outcome<CheckboxError>)
      modifies this, boxes
      ensures r.Pass? <==> 1 <= n <= boxes.Length
      ensures r.Pass? ==> boxes[..] == Toggled(old(boxes[..]), n - 1) && clicks == old(clicks) + [n - 1]
      ensures r.Fail? ==> r.error == OutOfRange(n, boxes.Length)
      ensures r.Fail? ==> boxes[..] == old(boxes[..]) && clicks == old(clicks)
    {
      var checkbox := CheckboxIndex(boxes.Length, n);
      if checkbox.Failure? {
        return Fail(checkbox.error);
      }
      var i := checkbox.value;
      boxes[i] := !boxes[i];
      clicks := clicks + [i];
      r := Pass;
    }

    /** `select_checkbox(n)`: click checkbox number `n` only when it is not selected. */
    method SelectCheckbox(n: int) returns (r: Outcome<CheckboxError>)
      modifies this, boxes
      ensures r.Pass? <==> 1 <= n <= boxes.Length
      ensures r.Pass? ==> boxes[..] == WithState(old(boxes[..]), n - 1, true)
      ensures r.Pass? && old(boxes[n - 1]) ==> clicks == old(clicks)
      ensures r.Pass? && !old(boxes[n - 1]) ==> clicks == old(clicks) + [n - 1]
      ensures r.Fail? ==> r.error == OutOfRange(n, boxes.Length)
      ensures r.Fail? ==> boxes[..] == old(boxes[..]) && clicks == old(clicks)
    {
      var selected := IsCheckboxSelected(n);
      if selected.Failure? {
        return Fail(selected.error);
      }
      if !selected.value {
        r := ToggleCheckbox(n);
        ToggleReachesState(old(boxes[..]), n - 1, true);
      } else {
        WithStateIdempotent(boxes[..], n - 1, true);
        r := Pass;
      }
    }

    /** `deselect_checkbox(n)`: click checkbox number `n` only when it is selected. */
    method DeselectCheckbox(n: int) returns (r: Outcome<CheckboxError>)
      modifies this, boxes
      ensures r.Pass? <==> 1 <= n <= boxes.Length
      ensures r.Pass? ==> boxes[..] == WithState(old(boxes[..]), n - 1, false)
      ensures r.Pass? && !old(boxes[n - 1]) ==> clicks == old(clicks)
      ensures r.Pass? && old(boxes[n - 1]) ==> clicks == old(clicks) + [n - 1]
      ensures r.Fail? ==> r.error == OutOfRange(n, boxes.Length)
      ensures r.Fail? ==> boxes[..] == old(boxes[..]) && clicks == old(clicks)
    {
      var selected := IsCheckboxSelected(n);
      if selected.Failure? {
        return Fail(selected.error);
      }
      if selected.value {
        r := ToggleCheckbox(n);
        ToggleReachesState(old(boxes[..]), n - 1, false);
      } else {
        WithStateIdempotent(boxes[..], n - 1, false);
        r := Pass;
      }
    }
  }
}
