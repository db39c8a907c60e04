/**
  The base of the grid actions that insert, delete or move rows and columns
  of a form's layout: enabling and labelling the action from the caption
  selection, and performing it.
*/
module RowColumnAction {
  import opened Wrappers

  datatype Icon = Icon(name: string)

  /**
    The selected row or column captions of a grid: whether the selection
    belongs to a container, the focused row or column (-1 when none), and
    whether rows rather than columns are selected.
  */
  datatype CaptionSelection = CaptionSelection(hasContainer: bool, focusedIndex: int, isRow: bool)

  /** The enabled flag, text and icon of an action as shown in menus and toolbars. */
  datatype PresentationState = PresentationState(enabled: bool, text: string, icon: Option<Icon>)

  class Presentation {
    var enabled: bool
    var text: string
    var icon: Option<Icon>

    function State(): PresentationState
      reads this
    {
      PresentationState(enabled, text, icon)
    }
  }

  /** The form editor the action runs in, and whether its form may be edited. */
  datatype Editor = Editor(editable: bool)

  /** The observable effects of performing the action, in order. */
  datatype ActionEffect =
    | SubclassAction(selection: CaptionSelection)
    | RevalidateContainer
    | RefreshAndSave
    /** The selection has no container: revalidating it dereferences null and the action stops. */
    | ContainerMissing

  class RowColumnAction {
    const columnText: string
    const columnIcon: Option<Icon>
    const rowText: string
    const rowIcon: Option<Icon>

    constructor (columnText: string, columnIcon: Option<Icon>, rowText: string, rowIcon: Option<Icon>)
      ensures this.columnText == columnText && this.columnIcon == columnIcon
      ensures this.rowText == rowText && this.rowIcon == rowIcon
    {
      this.columnText := columnText;
      this.columnIcon := columnIcon;
      this.rowText := rowText;
      this.rowIcon := rowIcon;
    }

    /** The action applies only to a focused caption of a container. */
    static predicate Applicable(selection: CaptionSelection)
    {
      selection.hasContainer && selection.focusedIndex >= 0
    }

    /** The presentation after an update from `s` for the current caption selection. */
    function Updated(s: PresentationState, selection: Option<CaptionSelection>): (r: PresentationState)
      ensures r.enabled <==> selection.Some? && Applicable(selection.value)
      ensures selection.None? ==> r.text == s.text && r.icon == s.icon
      ensures selection.Some? && selection.value.isRow ==> r.text == rowText
      ensures selection.Some? && !selection.value.isRow ==> r.text == columnText
      ensures selection.Some? && selection.value.isRow ==>
        r.icon == (if rowIcon.Some? then rowIcon else s.icon)
      ensures selection.Some? && !selection.value.isRow ==>
        r.icon == (if columnIcon.Some? then columnIcon else s.icon)
      ensures s.icon.Some? ==> r.icon.Some?
    {
      match selection
      case None => s.(enabled := false)
      case Some(sel) =>
        var configured := if sel.isRow then rowIcon else columnIcon;
        PresentationState(
          Applicable(sel),
          if sel.isRow then rowText else columnText,
          if configured.Some? then configured else s.icon)
    }

    /** Updating twice with the same selection shows what updating once shows. */
    lemma UpdateIdempotent(s: PresentationState, selection: Option<CaptionSelection>)
      ensures Updated(Updated(s, selection), selection) == Updated(s, selection)
    {
    }

    /** Enables, labels and decorates the action for the current caption selection. */
    method Update(selection: Option<CaptionSelection>, presentation: Presentation)
      modifies presentation
      ensures presentation.State() == Updated(old(presentation.State()), selection)
    {
      if selection.None? {
        presentation.enabled := false;
      } else {
        var sel := selection.value;
        presentation.enabled := sel.hasContainer && sel.focusedIndex >= 0;
        if !sel.isRow {
          presentation.text := columnText;
          if columnIcon.Some? {
            presentation.icon := columnIcon;
          }
        } else {
          presentation.text := rowText;
          if rowIcon.Some? {
            presentation.icon := rowIcon;
          }
        }
      }
    }

    /** Performs the action on the caption selection of the editor, and reports its effects. */
    method ActionPerformed(editor: Option<Editor>, selection: Option<CaptionSelection>)
      returns (effects: seq<ActionEffect>)
      ensures effects == [] <==> editor.None? || selection.None? || !editor.value.editable
      ensures effects != [] ==> effects[0] == SubclassAction(selection.value)
      ensures effects != [] && selection.value.hasContainer ==>
        effects == [SubclassAction(selection.value), RevalidateContainer, RefreshAndSave]
      ensures effects != [] && !selection.value.hasContainer ==>
        effects == [SubclassAction(selection.value), ContainerMissing]
    {
      if editor.None? || selection.None? || !editor.value.editable {
        return [];
      }
      effects := [SubclassAction(selection.value)];
      if !selection.value.hasContainer {
        return effects + [ContainerMissing];
      }
      effects := effects + [RevalidateContainer, RefreshAndSave];
    }
  }
}
