/**
  * One developer annotation on the page: a note card (the "box") tied by a
  * curved connector to an anchor point, both draggable, with editable text.
  * The component keeps a local copy of the stored record's positions and
  * content, drives drags from a single drag-target slot and two reference
  * positions, and reports changes to its parent through callbacks, which
  * are modelled here as the values the handlers return.
  */
module Annotations {
  import opened Wrappers

  // ---------------------------------------------------------------------------
  // Records
  // ---------------------------------------------------------------------------

  /** A point in page coordinates. */
  datatype Position = Position(x: int, y: int)

  /** The stored record of an annotation. */
  datatype AnnotationData = AnnotationData(
    id: string,
    boxPos: Position,
    anchorPos: Position,
    content: string)

  /** `Omit<AnnotationData, 'id'>`: what a duplicate request carries. */
  datatype AnnotationBody = AnnotationBody(
    boxPos: Position,
    anchorPos: Position,
    content: string)

  /** `Partial<AnnotationData>`: the fields an update request sets; an absent
    * field is left as it is. */
  datatype Patch = Patch(
    id: Option<string>,
    boxPos: Option<Position>,
    anchorPos: Option<Position>,
    content: Option<string>)

  /** One call of the `onUpdate` callback. */
  datatype UpdateCall = UpdateCall(id: string, patch: Patch)

  /** The single drag slot: nothing, the note card or the anchor point. */
  datatype DragTarget = NoTarget | BoxTarget | AnchorTarget

  /** A quadratic curve given by its end points and its control point. */
  datatype Curve = Curve(start: Position, control: Position, end: Position)

  // ---------------------------------------------------------------------------
  // Geometry
  // ---------------------------------------------------------------------------

  /** Where a dragged element is drawn: its position when the drag started,
    * moved by how far the pointer has travelled since then. */
  function DragPosition(startElement: Position, startMouse: Position, pointer: Position): (p: Position) {
    Position(startElement.x + (pointer.x - startMouse.x), startElement.y + (pointer.y - startMouse.y))
  }

  /** The element moves by exactly the pointer's displacement since the drag
    * started; with the pointer back at its start point the element is back
    * at its start position. */
  lemma DragFollowsPointer(startElement: Position, startMouse: Position, pointer: Position)
    ensures var p := DragPosition(startElement, startMouse, pointer);
      p.x - startElement.x == pointer.x - startMouse.x && p.y - startElement.y == pointer.y - startMouse.y
    ensures DragPosition(startElement, startMouse, startMouse) == startElement
  {
  }

  /** The position depends only on the pointer's displacement, not on where
    * the drag started: pressing elsewhere and moving the same distance lands
    * in the same place. */
  lemma DragDependsOnDisplacement(startElement: Position, m1: Position, p1: Position, m2: Position, p2: Position)
    requires p1.x - m1.x == p2.x - m2.x && p1.y - m1.y == p2.y - m2.y
    ensures DragPosition(startElement, m1, p1) == DragPosition(startElement, m2, p2)
  {
  }

  /** Where the element is after the pointer has moved through `moves`,
    * starting from `current`: each move redraws it from the drag's start. */
  function AfterMoves(startElement: Position, startMouse: Position, current: Position, moves: seq<Position>): (p: Position)
    decreases |moves|
  {
    if moves == [] then current
    else AfterMoves(startElement, startMouse, DragPosition(startElement, startMouse, moves[0]), moves[1..])
  }

  /** Moves do not accumulate: after any non-empty run of moves the element
    * sits where the last pointer position alone puts it. */
  lemma {:induction false} LastMoveWins(startElement: Position, startMouse: Position, current: Position, moves: seq<Position>)
    requires moves != []
    ensures AfterMoves(startElement, startMouse, current, moves)
      == DragPosition(startElement, startMouse, moves[|moves| - 1])
    decreases |moves|
  {
    if |moves| > 1 {
      LastMoveWins(startElement, startMouse, DragPosition(startElement, startMouse, moves[0]), moves[1..]);
    }
  }

  /** The horizontal offset of the connector's end from the box's top-left
    * corner. */
  const ConnectorInset := 20

  /** getPath: a quadratic curve from the anchor to a point on the box's top
    * edge, 20 to the right of its corner, with the control point level with
    * that end and straight above or below the anchor. */
  function ConnectorPath(anchor: Position, box: Position): (c: Curve)
    ensures c.start == anchor
    ensures c.end == Position(box.x + ConnectorInset, box.y)
    ensures c.control.x == c.start.x && c.control.y == c.end.y
  {
    var start := anchor;
    var end := Position(box.x + ConnectorInset, box.y);
    Curve(start, Position(start.x, end.y), end)
  }

  function Shift(p: Position, dx: int, dy: int): (q: Position) {
    Position(p.x + dx, p.y + dy)
  }

  /** Moving anchor and box together moves the whole connector with them. */
  lemma ConnectorMovesWithBoth(anchor: Position, box: Position, dx: int, dy: int)
    ensures var c := ConnectorPath(anchor, box);
      ConnectorPath(Shift(anchor, dx, dy), Shift(box, dx, dy))
        == Curve(Shift(c.start, dx, dy), Shift(c.control, dx, dy), Shift(c.end, dx, dy))
  {
  }

  /** Moving only the box leaves the connector's start where it was, moves
    * its end by the same amount and its control point only vertically;
    * moving only the anchor leaves the end where it was, moves the start by
    * the same amount and the control point only horizontally. */
  lemma ConnectorEndsMoveIndependently(anchor: Position, box: Position, dx: int, dy: int)
    ensures ConnectorPath(anchor, Shift(box, dx, dy)).start == ConnectorPath(anchor, box).start
    ensures ConnectorPath(anchor, Shift(box, dx, dy)).end == Shift(ConnectorPath(anchor, box).end, dx, dy)
    ensures ConnectorPath(anchor, Shift(box, dx, dy)).control == Shift(ConnectorPath(anchor, box).control, 0, dy)
    ensures ConnectorPath(Shift(anchor, dx, dy), box).end == ConnectorPath(anchor, box).end
    ensures ConnectorPath(Shift(anchor, dx, dy), box).start == Shift(ConnectorPath(anchor, box).start, dx, dy)
    ensures ConnectorPath(Shift(anchor, dx, dy), box).control == Shift(ConnectorPath(anchor, box).control, dx, 0)
  {
  }

  // ---------------------------------------------------------------------------
  // The component
  // ---------------------------------------------------------------------------

  /** The state of one annotation component: the stored record it was given,
    * its local positions and content, the edit and template-menu flags, the
    * drag slot and the two positions recorded when a drag starts. */
  class DraggableAnnotation {
    var data: AnnotationData
    var boxPos: Position
    var anchorPos: Position
    var content: string
    var isEditing: bool
    var showTemplates: bool
    var dragTarget: DragTarget
    var dragStartMouse: Position
    var dragStartElement: Position

    /** Mounting: the local copy starts from the record, not editing, menu
      * closed, no drag, both references at the origin. */
    constructor (d: AnnotationData)
      ensures data == d && boxPos == d.boxPos && anchorPos == d.anchorPos && content == d.content
      ensures !isEditing && !showTemplates && dragTarget == NoTarget
      ensures dragStartMouse == Position(0, 0) && dragStartElement == Position(0, 0)
    {
      data := d;
      boxPos := d.boxPos;
      anchorPos := d.anchorPos;
      content := d.content;
      isEditing := false;
      showTemplates := false;
      dragTarget := NoTarget;
      dragStartMouse := Position(0, 0);
      dragStartElement := Position(0, 0);
    }

    /** The prop-sync effect: a new record from the parent resets the local
      * positions and content to the record's; the flags and the drag state
      * are kept. */
    method SyncProps(d: AnnotationData)
      modifies this`data, this`boxPos, this`anchorPos, this`content
      ensures data == d && boxPos == d.boxPos && anchorPos == d.anchorPos && content == d.content
    {
      data := d;
      boxPos := d.boxPos;
      anchorPos := d.anchorPos;
      content := d.content;
    }

    /** startDragBox: ignored while editing; otherwise the box becomes the
      * drag target, the pointer and the box position are recorded and the
      * template menu closes. */
    method StartDragBox(pointer: Position)
      modifies this`dragTarget, this`dragStartMouse, this`dragStartElement, this`showTemplates
      ensures old(isEditing) ==> unchanged(this)
      ensures !old(isEditing) ==>
        && dragTarget == BoxTarget
        && dragStartMouse == pointer
        && dragStartElement == boxPos
        && !showTemplates
    {
      if isEditing {
        return;
      }
      dragTarget := BoxTarget;
      dragStartMouse := pointer;
      dragStartElement := boxPos;
      showTemplates := false;
    }

    /** startDragAnchor: the anchor becomes the drag target and the pointer
      * and the anchor position are recorded, even while editing; the
      * template menu is left as it is. */
    method StartDragAnchor(pointer: Position)
      modifies this`dragTarget, this`dragStartMouse, this`dragStartElement
      ensures dragTarget == AnchorTarget
      ensures dragStartMouse == pointer && dragStartElement == anchorPos
    {
      dragTarget := AnchorTarget;
      dragStartMouse := pointer;
      dragStartElement := anchorPos;
    }

    /** handleMouseMove: without a drag target nothing happens; otherwise the
      * dragged element (and only it) goes to its drag position for the
      * pointer. */
    method HandleMouseMove(pointer: Position)
      modifies this`boxPos, this`anchorPos
      ensures boxPos == if dragTarget == BoxTarget
        then DragPosition(dragStartElement, dragStartMouse, pointer) else old(boxPos)
      ensures anchorPos == if dragTarget == AnchorTarget
        then DragPosition(dragStartElement, dragStartMouse, pointer) else old(anchorPos)
    {
      if dragTarget == NoTarget {
        return;
      }
      var deltaX := pointer.x - dragStartMouse.x;
      var deltaY := pointer.y - dragStartMouse.y;
      if dragTarget == BoxTarget {
        boxPos := Position(dragStartElement.x + deltaX, dragStartElement.y + deltaY);
      } else if dragTarget == AnchorTarget {
        anchorPos := Position(dragStartElement.x + deltaX, dragStartElement.y + deltaY);
      }
    }

    /** handleMouseUp: a release during a drag reports the local position of
      * the dragged element and the stored position of the other one; either
      * way the drag slot is cleared. */
    method HandleMouseUp() returns (call: Option<UpdateCall>)
      modifies this`dragTarget
      ensures dragTarget == NoTarget
      ensures call.Some? <==> old(dragTarget) != NoTarget
      ensures call.Some? ==> call.value == UpdateCall(data.id, Patch(
        None,
        Some(if old(dragTarget) == BoxTarget then boxPos else data.boxPos),
        Some(if old(dragTarget) == AnchorTarget then anchorPos else data.anchorPos),
        None))
    {
      call := None;
      if dragTarget != NoTarget {
        call := Some(UpdateCall(data.id, Patch(
          None,
          Some(if dragTarget == BoxTarget then boxPos else data.boxPos),
          Some(if dragTarget == AnchorTarget then anchorPos else data.anchorPos),
          None)));
      }
      dragTarget := NoTarget;
    }

    /** handleDuplicate: asks for a copy of what is shown now, the local
      * positions and content rather than the stored ones. */
    method HandleDuplicate() returns (body: AnnotationBody)
      ensures body.boxPos == boxPos && body.anchorPos == anchorPos && body.content == content
    {
      body := AnnotationBody(boxPos, anchorPos, content);
    }

    /** handleDelete: asks for the stored record to be removed. */
    method HandleDelete() returns (id: string)
      ensures id == data.id
    {
      id := data.id;
    }

    /** A click on the content area enters edit mode. */
    method StartEditing()
      modifies this`isEditing
      ensures isEditing
    {
      isEditing := true;
    }

    /** Typing in the text area replaces the local content only. */
    method EditContent(text: string)
      modifies this`content
      ensures content == text
    {
      content := text;
    }

    /** The template button's own click handler flips the menu. */
    method ToggleTemplates()
      modifies this`showTemplates
      ensures showTemplates == !old(showTemplates)
    {
      showTemplates := !showTemplates;
    }

    /** handleContentBlur: leaves edit mode and reports the local content
      * exactly when it differs from the stored content. */
    method HandleContentBlur() returns (call: Option<UpdateCall>)
      modifies this`isEditing
      ensures !isEditing
      ensures call.Some? <==> content != data.content
      ensures call.Some? ==> call.value == UpdateCall(data.id, Patch(None, None, None, Some(content)))
    {
      isEditing := false;
      call := None;
      if content != data.content {
        call := Some(UpdateCall(data.id, Patch(None, None, None, Some(content))));
      }
    }

    /** handleTemplateSelect: the template text becomes the content, the
      * menu closes and the text is reported at once, changed or not. */
    method HandleTemplateSelect(text: string) returns (call: UpdateCall)
      modifies this`content, this`showTemplates
      ensures content == text && !showTemplates
      ensures call == UpdateCall(data.id, Patch(None, None, None, Some(text)))
    {
      content := text;
      showTemplates := false;
      call := UpdateCall(data.id, Patch(None, None, None, Some(text)));
    }

    /** getPath: the connector as drawn for the current local positions,
      * from the anchor, bending at the point level with the box's top edge
      * above or below the anchor, to 20 right of the box's corner. */
    function GetPath(): (c: Curve)
      reads this
      ensures c.start == anchorPos
      ensures c.control == Position(anchorPos.x, boxPos.y)
      ensures c.end == Position(boxPos.x + 20, boxPos.y)
    {
      ConnectorPath(anchorPos, boxPos)
    }
  }

  // ---------------------------------------------------------------------------
  // Whole gestures
  // ---------------------------------------------------------------------------

  /** A full box drag outside edit mode: press at `press`, move the pointer
    * through `moves`, then release. The box ends where the moves put it,
    * which is the drag position of the last pointer position alone; the
    * anchor, the stored record, the content and the edit flag are untouched,
    * the press has closed the template menu, and the commit carries exactly
    * the new box position with the stored anchor position. */
  method DragBox(a: DraggableAnnotation, press: Position, moves: seq<Position>)
    returns (call: Option<UpdateCall>)
    requires !a.isEditing
    modifies a
    ensures a.boxPos == AfterMoves(old(a.boxPos), press, old(a.boxPos), moves)
    ensures moves != [] ==> a.boxPos == DragPosition(old(a.boxPos), press, moves[|moves| - 1])
    ensures a.anchorPos == old(a.anchorPos) && a.dragTarget == NoTarget
    ensures a.data == old(a.data) && a.content == old(a.content)
    ensures !a.isEditing && !a.showTemplates
    ensures call == Some(UpdateCall(old(a.data.id), Patch(None, Some(a.boxPos), Some(old(a.data.anchorPos)), None)))
  {
    a.StartDragBox(press);
    var i := 0;
    while i < |moves|
      invariant 0 <= i <= |moves|
      invariant a.dragTarget == BoxTarget && a.dragStartMouse == press && a.dragStartElement == old(a.boxPos)
      invariant a.anchorPos == old(a.anchorPos) && a.data == old(a.data) && a.content == old(a.content)
      invariant !a.isEditing && !a.showTemplates
      invariant a.boxPos == if i == 0 then old(a.boxPos) else DragPosition(old(a.boxPos), press, moves[i - 1])
    {
      a.HandleMouseMove(moves[i]);
      i := i + 1;
    }
    if moves != [] {
      LastMoveWins(old(a.boxPos), press, old(a.boxPos), moves);
    }
    call := a.HandleMouseUp();
  }

  /** A press on the box header while editing: startDragBox ignores it, but
    * the press takes the focus from the text area, whose blur leaves edit
    * mode and commits the content exactly when it differs from the stored
    * content. No drag has started, so the move and the release change
    * nothing more and commit nothing. */
  method DragBoxWhileEditing(a: DraggableAnnotation, press: Position, pointer: Position)
    returns (blur: Option<UpdateCall>, call: Option<UpdateCall>)
    requires a.isEditing && a.dragTarget == NoTarget
    modifies a
    ensures a.boxPos == old(a.boxPos) && a.anchorPos == old(a.anchorPos)
    ensures a.data == old(a.data) && a.content == old(a.content) && a.showTemplates == old(a.showTemplates)
    ensures a.dragStartMouse == old(a.dragStartMouse) && a.dragStartElement == old(a.dragStartElement)
    ensures !a.isEditing && a.dragTarget == NoTarget
    ensures blur.Some? <==> old(a.content) != old(a.data.content)
    ensures blur.Some? ==> blur.value == UpdateCall(old(a.data.id), Patch(None, None, None, Some(old(a.content))))
    ensures call == None
  {
    a.StartDragBox(press);
    blur := a.HandleContentBlur();
    a.HandleMouseMove(pointer);
    call := a.HandleMouseUp();
  }

  /** The worked example: a box at (100,100) dragged by (30,-10) ends at
    * (130,90) and the release commits exactly (130,90). */
  method DragBoxExample(a: DraggableAnnotation) returns (call: Option<UpdateCall>)
    requires !a.isEditing && a.boxPos == Position(100, 100)
    modifies a
    ensures a.boxPos == Position(130, 90) && a.anchorPos == old(a.anchorPos)
    ensures call.Some? && call.value.patch.boxPos == Some(Position(130, 90))
  {
    call := DragBox(a, Position(500, 400), [Position(510, 420), Position(530, 390)]);
  }

  // ---------------------------------------------------------------------------
  // Clicks on the header buttons
  // ---------------------------------------------------------------------------

  // The duplicate, delete and template buttons sit inside the box's header,
  // whose mousedown starts a box drag, and a mousedown outside the text area
  // takes the focus from it. A click on one of them therefore first runs
  // startDragBox, then (while editing) the text area's blur handler, then the
  // release handler, and only then the button's own click handler.

  /** Pressing and releasing the pointer on the header without moving it.
    * Outside edit mode a box drag starts and ends at once, which closes the
    * template menu and commits the unchanged positions. While editing no drag
    * starts and the menu stays as it was, but the blur leaves edit mode and
    * commits the content exactly when it differs from the stored content.
    * Either way the positions, the content and the stored record are kept. */
  method PressAndReleaseHeader(a: DraggableAnnotation, pointer: Position)
    returns (blur: Option<UpdateCall>, call: Option<UpdateCall>)
    requires a.dragTarget == NoTarget
    modifies a
    ensures a.boxPos == old(a.boxPos) && a.anchorPos == old(a.anchorPos)
    ensures a.data == old(a.data) && a.content == old(a.content)
    ensures !a.isEditing && a.dragTarget == NoTarget
    ensures old(a.isEditing) ==> (blur.Some? <==> old(a.content) != old(a.data.content))
    ensures blur.Some? ==> old(a.isEditing)
    ensures blur.Some? ==> blur.value == UpdateCall(old(a.data.id), Patch(None, None, None, Some(old(a.content))))
    ensures old(a.isEditing) ==> a.showTemplates == old(a.showTemplates) && call == None
    ensures old(a.isEditing) ==> a.dragStartMouse == old(a.dragStartMouse) && a.dragStartElement == old(a.dragStartElement)
    ensures !old(a.isEditing) ==> !a.showTemplates
    ensures !old(a.isEditing) ==> a.dragStartMouse == pointer && a.dragStartElement == old(a.boxPos)
    ensures !old(a.isEditing) ==> call == Some(UpdateCall(old(a.data.id), Patch(None, Some(old(a.boxPos)), Some(old(a.data.anchorPos)), None)))
  {
    a.StartDragBox(pointer);
    blur := None;
    if a.isEditing {
      blur := a.HandleContentBlur();
    }
    call := a.HandleMouseUp();
  }

  /** A click on the template button. While editing the blur commit comes
    * first and the click flips the menu; outside edit mode the header's drag
    * closes the menu first, so the click always leaves it open, and an
    * unchanged-position commit is sent. */
  method ClickTemplateButton(a: DraggableAnnotation, pointer: Position)
    returns (blur: Option<UpdateCall>, call: Option<UpdateCall>)
    requires a.dragTarget == NoTarget
    modifies a
    ensures a.boxPos == old(a.boxPos) && a.anchorPos == old(a.anchorPos)
    ensures a.data == old(a.data) && a.content == old(a.content)
    ensures !a.isEditing && a.dragTarget == NoTarget
    ensures old(a.isEditing) ==> (blur.Some? <==> old(a.content) != old(a.data.content))
    ensures blur.Some? ==> old(a.isEditing)
    ensures blur.Some? ==> blur.value == UpdateCall(old(a.data.id), Patch(None, None, None, Some(old(a.content))))
    ensures old(a.isEditing) ==> a.showTemplates == !old(a.showTemplates) && call == None
    ensures !old(a.isEditing) ==> a.showTemplates
    ensures !old(a.isEditing) ==> call == Some(UpdateCall(old(a.data.id), Patch(None, Some(old(a.boxPos)), Some(old(a.data.anchorPos)), None)))
  {
    blur, call := PressAndReleaseHeader(a, pointer);
    a.ToggleTemplates();
  }

  /** A click on the duplicate button: the duplicate request carries what is
    * shown. While editing the blur commit comes first; outside edit mode the
    * menu closes and an unchanged-position commit goes first. */
  method ClickDuplicateButton(a: DraggableAnnotation, pointer: Position)
    returns (blur: Option<UpdateCall>, call: Option<UpdateCall>, body: AnnotationBody)
    requires a.dragTarget == NoTarget
    modifies a
    ensures body == AnnotationBody(old(a.boxPos), old(a.anchorPos), old(a.content))
    ensures a.boxPos == old(a.boxPos) && a.anchorPos == old(a.anchorPos)
    ensures a.data == old(a.data) && a.content == old(a.content)
    ensures !a.isEditing && a.dragTarget == NoTarget
    ensures old(a.isEditing) ==> (blur.Some? <==> old(a.content) != old(a.data.content))
    ensures blur.Some? ==> old(a.isEditing)
    ensures blur.Some? ==> blur.value == UpdateCall(old(a.data.id), Patch(None, None, None, Some(old(a.content))))
    ensures old(a.isEditing) ==> call == None && a.showTemplates == old(a.showTemplates)
    ensures !old(a.isEditing) ==> !a.showTemplates
    ensures !old(a.isEditing) ==> call == Some(UpdateCall(old(a.data.id), Patch(None, Some(old(a.boxPos)), Some(old(a.data.anchorPos)), None)))
  {
    blur, call := PressAndReleaseHeader(a, pointer);
    body := a.HandleDuplicate();
  }

  /** A click on the delete button: the delete request carries the stored id.
    * While editing the blur commit comes first; outside edit mode the menu
    * closes and an unchanged-position commit goes first. */
  method ClickDeleteButton(a: DraggableAnnotation, pointer: Position)
    returns (blur: Option<UpdateCall>, call: Option<UpdateCall>, id: string)
    requires a.dragTarget == NoTarget
    modifies a
    ensures id == old(a.data.id)
    ensures a.boxPos == old(a.boxPos) && a.anchorPos == old(a.anchorPos)
    ensures a.data == old(a.data) && a.content == old(a.content)
    ensures !a.isEditing && a.dragTarget == NoTarget
    ensures old(a.isEditing) ==> (blur.Some? <==> old(a.content) != old(a.data.content))
    ensures blur.Some? ==> old(a.isEditing)
    ensures blur.Some? ==> blur.value == UpdateCall(old(a.data.id), Patch(None, None, None, Some(old(a.content))))
    ensures old(a.isEditing) ==> call == None && a.showTemplates == old(a.showTemplates)
    ensures !old(a.isEditing) ==> !a.showTemplates
    ensures !old(a.isEditing) ==> call == Some(UpdateCall(old(a.data.id), Patch(None, Some(old(a.boxPos)), Some(old(a.data.anchorPos)), None)))
  {
    blur, call := PressAndReleaseHeader(a, pointer);
    id := a.HandleDelete();
  }
}
