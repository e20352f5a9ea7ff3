/**
 * Decision helpers of the table widget: the header's sort toggle, the default column
 * record and the style projection, the dropdown's selected index, active option and
 * button label, and the header checkbox's tri-state.
 */
module TableUtilities {
  import opened Wrappers

  // ---------------------------------------------------------------------------
  // TableHeaderCell.handleSortColumn
  // ---------------------------------------------------------------------------

  /**
   * The `sortTableColumn(columnIndex, asc)` request issued by a click on a header, or
   * `None` while a column is being resized. `isAscOrder` is `None` when the column is
   * not sorted.
   */
  function HandleSortColumn(isResizingColumn: bool, columnIndex: int, isAscOrder: Option<bool>)
    : (r: Option<(int, bool)>)
    ensures r.None? <==> isResizingColumn
    ensures r.Some? && isAscOrder == Some(true) ==> r.value.0 == -1
    ensures r.Some? && isAscOrder != Some(true) ==> r.value.0 == columnIndex
    ensures r.Some? ==> (r.value.1 <==> isAscOrder == Some(false))
  {
    if isResizingColumn then None
    else
      var index := if isAscOrder == Some(true) then -1 else columnIndex;
      var sortOrder := if isAscOrder.None? then false else !isAscOrder.value;
      Some((index, sortOrder))
  }

  /**
   * The sort state a request asks for, reading column index -1 as "no column sorted".
   * The `sortTableColumn` callee that gives -1 that meaning is not part of this
   * model; this reading is an assumption about it.
   */
  function RequestedSortState(request: (int, bool)): Option<bool> {
    if request.0 == -1 then None else Some(request.1)
  }

  /**
   * For a real column (index >= 0), the sort state requested by three clicks, as
   * `RequestedSortState` reads it, walks unsorted -> descending -> ascending -> unsorted.
   */
  lemma SortToggleCycles(columnIndex: int, state: Option<bool>)
    requires columnIndex >= 0
    ensures var r := HandleSortColumn(false, columnIndex, state);
      && r.Some?
      && RequestedSortState(r.value) == (match state
                                          case None => Some(false)
                                          case Some(false) => Some(true)
                                          case Some(true) => None)
  {
  }

  // ---------------------------------------------------------------------------
  // Object literals: getDefaultColumnProperties and getTableStyles
  // ---------------------------------------------------------------------------

  /**
   * A property value of the object literals below. `EnumMember` names a constant of a
   * module that is not part of this model (`CellAlignmentTypes.LEFT`, `Colors.THUNDER`, ...).
   */
  datatype Field =
    | Undefined
    | Num(n: int)
    | Text(s: string)
    | Flag(b: bool)
    | EnumMember(name: string)

  /** The property names `getTableStyles` reads, and any other property an object may carry. */
  datatype Prop =
    | TextColor | TextSize | FontStyle | CellBackground | VerticalAlignment | HorizontalAlignment
    | OtherProp(name: string)

  /** A JavaScript object: property names to values. */
  type JsObject = map<Prop, Field>

  /** `o.key`: `undefined` for a missing property. */
  function Get(o: JsObject, key: Prop): Field {
    if key in o then o[key] else Undefined
  }

  /** The six style properties `getTableStyles` copies. */
  const StyleKeys: set<Prop> :=
    {TextColor, TextSize, FontStyle, CellBackground, VerticalAlignment, HorizontalAlignment}

  /**
   * `getTableStyles(props)`: exactly the six style properties of `props`, each with
   * its value unchanged (`undefined` if `props` lacks it); everything else is dropped.
   */
  function GetTableStyles(props: JsObject): (r: JsObject)
    ensures r.Keys == StyleKeys
    ensures forall k :: k in r ==> r[k] == Get(props, k)
  {
    map[
      TextColor := Get(props, TextColor),
      TextSize := Get(props, TextSize),
      FontStyle := Get(props, FontStyle),
      CellBackground := Get(props, CellBackground),
      VerticalAlignment := Get(props, VerticalAlignment),
      HorizontalAlignment := Get(props, HorizontalAlignment)
    ]
  }

  /** Taking the styles of a style object gives it back: the projection is idempotent. */
  lemma TableStylesIdempotent(props: JsObject)
    ensures GetTableStyles(GetTableStyles(props)) == GetTableStyles(props)
  {
  }

  /** Properties other than the six never reach the result, whatever their values. */
  lemma TableStylesIgnoreOtherProps(props: JsObject, name: string, v: Field)
    ensures GetTableStyles(props[OtherProp(name) := v]) == GetTableStyles(props)
  {
  }

  /** The template a non-derived column evaluates: the column `accessor` of every sanitised row of `widgetName`. */
  function ComputedValueTemplate(widgetName: string, accessor: string): string {
    TemplatePrefix(widgetName) + accessor + TemplateSuffix
  }

  function TemplatePrefix(widgetName: string): string {
    "{{" + widgetName + ".sanitizedTableData.map((currentRow) => ( currentRow."
  }

  const TemplateSuffix: string := "))}}"

  /** The accessor a computed-value template of `widgetName` reads, if `computed` has the template's shape. */
  function TemplateAccessor(computed: string, widgetName: string): Option<string> {
    var prefix := TemplatePrefix(widgetName);
    if |computed| >= |prefix| + |TemplateSuffix|
       && computed[..|prefix|] == prefix
       && computed[|computed| - |TemplateSuffix|..] == TemplateSuffix
    then Some(computed[|prefix|..|computed| - |TemplateSuffix|])
    else None
  }

  /** The template determines its accessor: reading it back yields the accessor it was built from. */
  lemma TemplateNamesItsAccessor(widgetName: string, accessor: string)
    ensures TemplateAccessor(ComputedValueTemplate(widgetName, accessor), widgetName) == Some(accessor)
  {
  }

  /** JavaScript truthiness of the optional `isDerived?: boolean` argument. */
  predicate Derived(isDerived: Option<bool>) {
    isDerived == Some(true)
  }

  /** The column record `getDefaultColumnProperties` builds. */
  datatype ColumnProperties = ColumnProperties(
    index: int,
    width: int,
    id: string,
    horizontalAlignment: Field,
    verticalAlignment: Field,
    columnType: Field,
    textColor: Field,
    textSize: Field,
    fontStyle: Field,
    enableFilter: bool,
    enableSort: bool,
    isVisible: bool,
    isDisabled: bool,
    isCellVisible: bool,
    isDerived: bool,
    labelText: string,
    computedValue: string)

  /**
   * `getDefaultColumnProperties(accessor, index, widgetName, isDerived)`: a column
   * named and labelled by its accessor, at the given index, 150 wide, left/centre
   * aligned plain text in the default colour, size and style, sortable, filterable and visible, not disabled; `isDerived`
   * normalised to a boolean; an empty computed value exactly for a derived column,
   * otherwise the template reading the accessor.
   */
  function GetDefaultColumnProperties(accessor: string, index: int, widgetName: string,
                                      isDerived: Option<bool>): (r: ColumnProperties)
    ensures r.id == accessor && r.labelText == accessor
    ensures r.index == index && r.width == 150
    ensures r.horizontalAlignment == EnumMember("CellAlignmentTypes.LEFT")
    ensures r.verticalAlignment == EnumMember("VerticalAlignmentTypes.CENTER")
    ensures r.columnType == EnumMember("ColumnTypes.TEXT")
    ensures r.textColor == EnumMember("Colors.THUNDER")
    ensures r.textSize == EnumMember("TextSizes.PARAGRAPH")
    ensures r.fontStyle == EnumMember("FontStyleTypes.REGULAR")
    ensures r.enableSort && r.enableFilter && r.isVisible && r.isCellVisible && !r.isDisabled
    ensures r.isDerived <==> Derived(isDerived)
    ensures r.computedValue == "" <==> Derived(isDerived)
    ensures !Derived(isDerived) ==> r.computedValue == ComputedValueTemplate(widgetName, accessor)
    ensures !Derived(isDerived) ==> TemplateAccessor(r.computedValue, widgetName) == Some(accessor)
  {
    var computed := if Derived(isDerived) then "" else ComputedValueTemplate(widgetName, accessor);
    TemplateNamesItsAccessor(widgetName, accessor);
    ColumnProperties(
      index,
      150,
      accessor,
      EnumMember("CellAlignmentTypes.LEFT"),
      EnumMember("VerticalAlignmentTypes.CENTER"),
      EnumMember("ColumnTypes.TEXT"),
      EnumMember("Colors.THUNDER"),
      EnumMember("TextSizes.PARAGRAPH"),
      EnumMember("FontStyleTypes.REGULAR"),
      true,
      true,
      true,
      false,
      true,
      Derived(isDerived),
      accessor,
      computed)
  }

  // ---------------------------------------------------------------------------
  // Dropdown cells: SelectCell's selectedIndex, renderDropdown's isOptionSelected and label
  // ---------------------------------------------------------------------------

  datatype DropdownOption<V> = DropdownOption(labelText: string, value: V)

  /**
   * lodash `findIndex(options, o => o.value === value)`: the first index whose option
   * has the value, or -1 if none has. `SelectCell` computes its `selectedIndex` this
   * way for the cell's value and hands it to a dropdown component that is not part of
   * this model; the lemmas below use it as an assumption about what the caller of
   * `renderDropdown` passes.
   */
  function IndexOfValue<V(==)>(options: seq<DropdownOption<V>>, value: V): (r: int)
    ensures -1 <= r < |options|
    ensures r == -1 <==> forall i :: 0 <= i < |options| ==> options[i].value != value
    ensures r >= 0 ==> options[r].value == value
    ensures r >= 0 ==> forall i :: 0 <= i < r ==> options[i].value != value
  {
    if |options| == 0 then -1
    else if options[0].value == value then 0
    else
      var rest := IndexOfValue(options[1..], value);
      if rest == -1 then -1 else rest + 1
  }

  /**
   * `isOptionSelected(o)`: the first index holding `o`'s value is `selectedIndex`
   * (`undefined` never matches). That holds iff `selectedIndex` is defined and is either
   * an in-range index whose option holds `o`'s value with no earlier option holding it,
   * or -1 with no option holding it at all.
   */
  function IsOptionSelected<V(==)>(options: seq<DropdownOption<V>>, selectedIndex: Option<int>,
                                   o: DropdownOption<V>): (r: bool)
    ensures r <==>
      && selectedIndex.Some?
      && ((0 <= selectedIndex.value < |options|
           && options[selectedIndex.value].value == o.value
           && (forall i :: 0 <= i < selectedIndex.value ==> options[i].value != o.value))
          || (selectedIndex.value == -1
              && (forall i :: 0 <= i < |options| ==> options[i].value != o.value)))
  {
    selectedIndex == Some(IndexOfValue(options, o.value))
  }

  /**
   * The option at the selected index is active iff no earlier option has its value;
   * pointing `selectedIndex` at a later duplicate leaves no option active at all.
   */
  lemma SelectedOptionActiveIffFirst<V>(options: seq<DropdownOption<V>>, j: nat)
    requires j < |options|
    ensures (IsOptionSelected(options, Some(j), options[j])
             <==> (forall i :: 0 <= i < j ==> options[i].value != options[j].value))
    ensures (exists i :: 0 <= i < j && options[i].value == options[j].value) ==>
              forall k :: 0 <= k < |options| ==> !IsOptionSelected(options, Some(j), options[k])
  {
  }

  /**
   * When the caller of `renderDropdown` passes as `selectedIndex` the first index
   * holding some value (a `findIndex` like `SelectCell`'s), and some option holds that
   * value, the active options are exactly those holding it: every duplicate of the
   * selected value is active at once.
   */
  lemma ActiveOptionsHoldCellValue<V>(options: seq<DropdownOption<V>>, cellValue: V, k: nat)
    requires k < |options|
    requires IndexOfValue(options, cellValue) >= 0
    ensures (IsOptionSelected(options, Some(IndexOfValue(options, cellValue)), options[k])
             <==> options[k].value == cellValue)
  {
  }

  /** The dropdown button's text, or the TypeError reading `.label` of a missing option throws. */
  datatype ButtonLabel = ButtonText(text: string) | LabelTypeError

  const SelectPlaceholder: string := "-- Select --"

  /**
   * The button label: the selected option's label for a non-empty list and a defined
   * index > -1, else "-- Select --"; an index past the end throws.
   */
  function DropdownLabel<V>(options: seq<DropdownOption<V>>, selectedIndex: Option<int>): (r: ButtonLabel)
    ensures (|options| == 0 || selectedIndex.None? || selectedIndex.value < 0) ==> r == ButtonText(SelectPlaceholder)
    ensures |options| > 0 && selectedIndex.Some? && 0 <= selectedIndex.value < |options| ==>
              r == ButtonText(options[selectedIndex.value].labelText)
    ensures r.LabelTypeError? <==> |options| > 0 && selectedIndex.Some? && selectedIndex.value >= |options|
  {
    if |options| > 0 && selectedIndex.Some? && selectedIndex.value > -1 then
      if selectedIndex.value < |options| then ButtonText(options[selectedIndex.value].labelText)
      else LabelTypeError
    else ButtonText(SelectPlaceholder)
  }

  /**
   * When the caller of `renderDropdown` passes as `selectedIndex` the first index
   * holding some value, or -1 (`findIndex`), the label never throws: it is the label of
   * the first option holding the value, or the placeholder when no option holds it.
   */
  lemma LabelOfSelectedValue<V>(options: seq<DropdownOption<V>>, cellValue: V)
    ensures var r := DropdownLabel(options, Some(IndexOfValue(options, cellValue)));
      && r.ButtonText?
      && ((forall i :: 0 <= i < |options| ==> options[i].value != cellValue) ==> r.text == SelectPlaceholder)
      && (forall i :: 0 <= i < |options| && options[i].value == cellValue ==>
            var first := IndexOfValue(options, cellValue);
            0 <= first <= i && r.text == options[first].labelText)
  {
  }

  // ---------------------------------------------------------------------------
  // renderCheckBoxHeaderCell
  // ---------------------------------------------------------------------------

  datatype HeaderCheckbox = HeaderCheckbox(isChecked: bool, showCheckIcon: bool, showLineIcon: bool)

  /**
   * The header checkbox for `checkState: number | null`: checked for any non-null,
   * non-zero state, the check icon for state 1, the line icon for state 2.
   */
  function CheckBoxHeaderCell(checkState: Option<int>): (r: HeaderCheckbox)
    ensures r.isChecked <==> checkState.Some? && checkState.value != 0
    ensures r.showCheckIcon <==> checkState == Some(1)
    ensures r.showLineIcon <==> checkState == Some(2)
    ensures !(r.showCheckIcon && r.showLineIcon)
    ensures (r.showCheckIcon || r.showLineIcon) ==> r.isChecked
  {
    HeaderCheckbox(
      checkState.Some? && checkState.value != 0,
      checkState == Some(1),
      checkState == Some(2))
  }
}
