/**
 * The property-pane sidebar: which pane it shows for the current selection, and the
 * layout classes of the pane container.
 */
module PropertyPaneSidebar {
  import opened Wrappers

  datatype PropertyPane = CanvasPropertyPane | MultiSelectPropertyPane | WidgetPropertyPane

  /**
   * The `switch (true)` over the number of selected widgets and the dragging flag,
   * tried in order: none selected, several selected, dragging, exactly one. `None`
   * is the `undefined` of a switch that matches no case; the count is a length, so a
   * negative one is only there to make the case analysis total by proof.
   */
  function SelectPropertyPane(selectedCount: int, isDraggingForSelection: bool): (r: Option<PropertyPane>)
    ensures selectedCount >= 0 ==> r.Some?
    ensures selectedCount == 0 ==> r == Some(CanvasPropertyPane)
    ensures selectedCount > 1 ==> r == Some(MultiSelectPropertyPane)
    ensures selectedCount == 1 && isDraggingForSelection ==> r == Some(CanvasPropertyPane)
    ensures selectedCount == 1 && !isDraggingForSelection ==> r == Some(WidgetPropertyPane)
    ensures r == Some(WidgetPropertyPane) <==> selectedCount == 1 && !isDraggingForSelection
    ensures r == Some(MultiSelectPropertyPane) <==> selectedCount > 1
  {
    if selectedCount == 0 then Some(CanvasPropertyPane)
    else if selectedCount > 1 then Some(MultiSelectPropertyPane)
    else if isDraggingForSelection then Some(CanvasPropertyPane)
    else if selectedCount == 1 then Some(WidgetPropertyPane)
    else None
  }

  /** The canvas pane is shown exactly when nothing is selected, or one widget is while dragging. */
  lemma CanvasPaneExactly(selectedCount: nat, isDraggingForSelection: bool)
    ensures (SelectPropertyPane(selectedCount, isDraggingForSelection) == Some(CanvasPropertyPane)
             <==> selectedCount == 0 || (selectedCount == 1 && isDraggingForSelection))
  {
  }

  /**
   * The keys of the `classNames` object of the pane container: the base classes
   * (`js-property-pane-sidebar ... duration-300` followed by the layer), `relative `
   * and `fixed translate-x-full right-0`.
   */
  datatype PaneClass =
    | BaseClasses(layer: string)  // always set; `layer` is `zIndexLayers.PROPERTY_PANE`
    | RelativeClass
    | OffscreenClasses

  /**
   * The keys `classNames` keeps for the pane container, in key order: the base
   * classes, `relative` unless previewing, and the off-screen classes when previewing
   * or commenting.
   */
  function PaneContainerClasses(layer: string, isPreviewMode: bool, isCommentMode: bool): (r: seq<PaneClass>)
    ensures |r| >= 1 && r[0] == BaseClasses(layer)
    ensures |r| == 1 + (if !isPreviewMode then 1 else 0) + (if isPreviewMode || isCommentMode then 1 else 0)
    ensures RelativeClass in r <==> !isPreviewMode
    ensures OffscreenClasses in r <==> isPreviewMode || isCommentMode
    ensures forall i :: 0 < i < |r| ==> !r[i].BaseClasses?
  {
    [BaseClasses(layer)]
      + (if !isPreviewMode then [RelativeClass] else [])
      + (if isPreviewMode || isCommentMode then [OffscreenClasses] else [])
  }

  /** Previewing always moves the pane off-screen and drops `relative`, whatever the comment mode. */
  lemma PreviewHidesPane(layer: string, isCommentMode: bool)
    ensures var r := PaneContainerClasses(layer, true, isCommentMode);
      OffscreenClasses in r && RelativeClass !in r
  {
  }
}
