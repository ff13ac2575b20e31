/**
 * makeDraggable (js/utils.js): a mousedown on the drag handle starts following the cursor,
 * every mousemove shifts the element by the cursor's movement, and mouseup stops it.
 */
module Drag {
  import opened Text

  /** String.prototype.toUpperCase on the ASCII letters. */
  function Upper(s: string): string {
    seq(|s|, i requires 0 <= i < |s| => UpperChar(s[i]))
  }

  const FormControls: seq<string> := ["INPUT", "TEXTAREA", "BUTTON", "SELECT"]

  /** The lower-case tag names of the form controls. */
  const LowerFormControls: seq<string> := ["input", "textarea", "button", "select"]

  /** A mousedown on a form control does not start a drag: the tag name is one of the four
      form controls in any mix of case. */
  predicate BlocksDrag(tagName: string): (b: bool)
    ensures b <==> Lower(tagName) in LowerFormControls
  {
    UpperMatchesLower(tagName, "INPUT");
    UpperMatchesLower(tagName, "TEXTAREA");
    UpperMatchesLower(tagName, "BUTTON");
    UpperMatchesLower(tagName, "SELECT");
    assert Lower("INPUT") == "input" && Lower("TEXTAREA") == "textarea";
    assert Lower("BUTTON") == "button" && Lower("SELECT") == "select";
    Upper(tagName) in FormControls
  }

  /** Against a word of capital letters, upper-casing and lower-casing agree. */
  lemma UpperMatchesLower(t: string, w: string)
    requires forall i :: 0 <= i < |w| ==> 'A' <= w[i] <= 'Z'
    ensures Upper(t) == w <==> Lower(t) == Lower(w)
  {
    if |t| == |w| {
      if Upper(t) == w {
        assert forall i :: 0 <= i < |t| ==> Lower(t)[i] == Lower(w)[i];
      }
      if Lower(t) == Lower(w) {
        forall i | 0 <= i < |t| ensures Upper(t)[i] == w[i] {
          assert Lower(t)[i] == Lower(w)[i];
          assert LowerChar(t[i]) == LowerChar(w[i]);
        }
      }
    }
  }

  /** Tag names that agree letter by letter up to case block a drag alike. */
  lemma BlocksDragIgnoresCase(t: string, u: string)
    requires |t| == |u| && forall i :: 0 <= i < |t| ==> UpperChar(t[i]) == UpperChar(u[i])
    ensures BlocksDrag(t) <==> BlocksDrag(u)
  {
    assert Upper(t) == Upper(u);
  }

  /** Some instances. */
  lemma BlocksDragExamples()
    ensures BlocksDrag("input") && BlocksDrag("Select") && BlocksDrag("BUTTON") && BlocksDrag("textarea")
    ensures !BlocksDrag("DIV") && !BlocksDrag("h3")
  {
    assert Lower("input") == "input";
    assert Lower("Select") == "select";
    assert Lower("BUTTON") == "button";
    assert Lower("textarea") == "textarea";
    assert Lower("h3") == "h3";
    assert Lower("DIV") == "div";
  }

  /** Where the mousedown handler is installed. */
  datatype Handle = PanelHeader | WholeElement

  function HandleFor(hasPanelHeader: bool): (h: Handle)
    ensures h == PanelHeader <==> hasPanelHeader
  {
    if hasPanelHeader then PanelHeader else WholeElement
  }

  /**
   * The closure's variables and what the handlers write: the element's top and left in pixels
   * (offsetTop and offsetLeft are taken to be the last values written), pos1..pos4, and whether
   * the document's mousemove and mouseup handlers are installed.
   */
  datatype DragState = DragState(top: int, left: int, pos1: int, pos2: int, pos3: int, pos4: int, listening: bool)

  /** A mousedown (with whether its target lies inside the handle), a mousemove or a mouseup. */
  datatype MouseEvent = Down(inHandle: bool, tagName: string, x: int, y: int) | Move(x: int, y: int) | Up

  /** The element as makeDraggable leaves it: nothing recorded, no document handlers. */
  function Initial(top: int, left: int): DragState {
    DragState(top, left, 0, 0, 0, 0, false)
  }

  /** One event: only a mousemove while the handlers are installed moves the element, and it moves
      it by the cursor's movement since the last recorded position, which it then records. */
  function Step(s: DragState, e: MouseEvent): (r: DragState)
    ensures e.Move? && s.listening ==>
      r.top == s.top + (e.y - s.pos4) && r.left == s.left + (e.x - s.pos3) &&
      r.pos3 == e.x && r.pos4 == e.y && r.listening
    ensures !(e.Move? && s.listening) ==> r.top == s.top && r.left == s.left
    ensures e.Down? ==> (r.listening <==> s.listening || (e.inHandle && !BlocksDrag(e.tagName)))
    ensures e.Up? ==> !r.listening
  {
    match e
    case Down(inHandle, tagName, x, y) =>
      if !inHandle || BlocksDrag(tagName) then s
      else s.(pos3 := x, pos4 := y, listening := true)
    case Move(x, y) =>
      if !s.listening then s
      else
        var pos1, pos2 := s.pos3 - x, s.pos4 - y;
        s.(pos1 := pos1, pos2 := pos2, pos3 := x, pos4 := y, top := s.top - pos2, left := s.left - pos1)
    case Up => s.(listening := false)
  }

  function Run(s: DragState, es: seq<MouseEvent>): DragState
    decreases |es|
  {
    if es == [] then s else Run(Step(s, es[0]), es[1..])
  }

  /** A mousedown starts a drag exactly when it is on the handle and not on a form control; a
      blocked one changes nothing. */
  lemma DownStartsDrag(s: DragState, inHandle: bool, tagName: string, x: int, y: int)
    ensures var t := Step(s, Down(inHandle, tagName, x, y));
      (t.listening <==> s.listening || (inHandle && !BlocksDrag(tagName))) &&
      (inHandle && !BlocksDrag(tagName) ==> t.pos3 == x && t.pos4 == y && t.top == s.top && t.left == s.left) &&
      (!inHandle || BlocksDrag(tagName) ==> t == s)
  {
  }

  predicate NoDown(es: seq<MouseEvent>) {
    forall i :: 0 <= i < |es| ==> !es[i].Down?
  }

  /** Between mousedowns the element keeps its offset from the last recorded cursor position:
      every move shifts it by exactly the cursor's movement. */
  lemma {:induction false} OffsetFromCursorKept(s: DragState, es: seq<MouseEvent>)
    requires NoDown(es)
    ensures Run(s, es).top - Run(s, es).pos4 == s.top - s.pos4
    ensures Run(s, es).left - Run(s, es).pos3 == s.left - s.pos3
    decreases |es|
  {
    if es != [] {
      assert NoDown(es[1..]) by {
        forall i | 0 <= i < |es[1..]| ensures !es[1..][i].Down? {
          assert es[1..][i] == es[i + 1];
        }
      }
      OffsetFromCursorKept(Step(s, es[0]), es[1..]);
    }
  }

  /** A drag started at (x0, y0) that ends with the cursor at (x, y) has moved the element by
      (x - x0, y - y0). */
  lemma DragDisplacement(s: DragState, tagName: string, x0: int, y0: int, moves: seq<MouseEvent>)
    requires !BlocksDrag(tagName) && moves != [] && forall i :: 0 <= i < |moves| ==> moves[i].Move?
    ensures var r := Run(s, [Down(true, tagName, x0, y0)] + moves);
      r.top == s.top + (moves[|moves| - 1].y - y0) && r.left == s.left + (moves[|moves| - 1].x - x0)
  {
    var es := [Down(true, tagName, x0, y0)] + moves;
    assert es[1..] == moves;
    var d := Step(s, es[0]);
    OffsetFromCursorKept(d, moves);
    LastMoveRecorded(d, moves);
  }

  /** While listening, the recorded cursor position is that of the last move. */
  lemma {:induction false} LastMoveRecorded(s: DragState, moves: seq<MouseEvent>)
    requires s.listening && moves != [] && forall i :: 0 <= i < |moves| ==> moves[i].Move?
    ensures Run(s, moves).pos3 == moves[|moves| - 1].x && Run(s, moves).pos4 == moves[|moves| - 1].y
    ensures Run(s, moves).listening
    decreases |moves|
  {
    if |moves| > 1 {
      var rest := moves[1..];
      assert forall i :: 0 <= i < |rest| ==> rest[i] == moves[i + 1];
      LastMoveRecorded(Step(s, moves[0]), rest);
    } else {
      assert moves[1..] == [];
    }
  }

  /** After a mouseup the handlers are gone: later moves do not reposition the element. */
  lemma {:induction false} MovesAfterUpDoNothing(s: DragState, moves: seq<MouseEvent>)
    requires forall i :: 0 <= i < |moves| ==> moves[i].Move?
    ensures Run(Step(s, Up), moves) == Step(s, Up)
    ensures !Run(Step(s, Up), moves).listening
  {
    if moves != [] {
      var rest := moves[1..];
      assert forall i :: 0 <= i < |rest| ==> rest[i] == moves[i + 1];
      var u := Step(s, Up);
      assert Step(u, moves[0]) == u;
      assert Step(u, Up) == u;
      MovesAfterUpDoNothing(s, rest);
    }
  }

  /** The element made draggable, with the closure's variables as fields. */
  class Draggable {
    const handle: Handle
    var top: int
    var left: int
    var pos1: int
    var pos2: int
    var pos3: int
    var pos4: int
    var listening: bool

    function State(): DragState
      reads this
    {
      DragState(top, left, pos1, pos2, pos3, pos4, listening)
    }

    /** makeDraggable(element): the handle is the element's .panel-header when it has one. */
    constructor (hasPanelHeader: bool, top: int, left: int)
      ensures handle == HandleFor(hasPanelHeader)
      ensures State() == Initial(top, left)
    {
      handle := if hasPanelHeader then PanelHeader else WholeElement;
      this.top, this.left := top, left;
      pos1, pos2, pos3, pos4 := 0, 0, 0, 0;
      listening := false;
    }

    /** dragMouseDown, for a mousedown whose target is or is not inside the handle. */
    method MouseDown(inHandle: bool, tagName: string, x: int, y: int)
      modifies this
      ensures State() == Step(old(State()), Down(inHandle, tagName, x, y))
    {
      if !inHandle {
        return;
      }
      var tag := Upper(tagName);
      if tag == "INPUT" || tag == "TEXTAREA" || tag == "BUTTON" || tag == "SELECT" {
        return;
      }
      pos3 := x;
      pos4 := y;
      listening := true;
    }

    /** The document's mousemove: elementDrag while it is installed. */
    method MouseMove(x: int, y: int)
      modifies this
      ensures State() == Step(old(State()), Move(x, y))
    {
      if !listening {
        return;
      }
      pos1 := pos3 - x;
      pos2 := pos4 - y;
      pos3 := x;
      pos4 := y;
      top := top - pos2;
      left := left - pos1;
    }

    /** closeDragElement */
    method MouseUp()
      modifies this
      ensures State() == Step(old(State()), Up)
    {
      listening := false;
    }
  }
}
