# Appsmith client: promise actions, table helpers and the property-pane sidebar

This project models three parts of the Appsmith editor and app-viewer client in Dafny.

- **`PromiseSaga`** (`promise_saga.dfy`) models `executePromiseSaga`. This saga runs a
  promise-style action descriptor: the executors run as one joined group, then each
  `then` link, then `catch` or a log-and-rethrow, then `finally`.
  - The join's outcome is an input.
  - Each follow-up `executeAppAction` call is answered by an oracle, indexed by the
    call's position in the trace.
  - `ExecutePromiseSaga` is an imperative method, proved equal to the specification
    function `PromiseRun`. Its loop helper `RunThenLinks` is proved equal to the
    specification of the `then` chain, `ChainFrom`.
  - The lemmas about `PromiseRun` state how the saga behaves:
    - which calls happen and in what order;
    - which arguments each call receives;
    - when `catch` and `finally` run;
    - what the saga throws.
  - The two error classes the file declares, `TriggerFailureError` and
    `PluginTriggerFailureError`, are the `TriggerFailure` and `PluginTriggerFailure`
    cases of the `SagaError` datatype. Their constructors only store their arguments.
- **`TableUtilities`** (`table_utilities.dfy`) models the table widget's decision helpers:
  - the header's sort toggle;
  - the default column record and its computed-value template;
  - the style projection;
  - the dropdown cell's selected index, its active option and its button label;
  - the header checkbox's tri-state.
- **`PropertyPaneSidebar`** (`property_pane_sidebar.dfy`) models which pane the sidebar
  shows and which class keys the pane container gets.
- **`Wrappers`** (`wrappers.dfy`) holds the shared `Option` datatype.

The model follows the code where it departs from what promise-combinator semantics
would lead one to expect:

- Promise chaining passes each `then` its predecessor's result. Here every `then` link
  receives the same `thenArguments`. A link's result is assigned to `responseData` and
  never read again. `LinkResultsNotThreaded` proves that one link's result never reaches
  another link.
- `Promise.all` would pass on the list of all results. Here, with two or more executors,
  the `then` links receive `[{}]`.
- A promise's `finally` always runs. Here `finally` is not called when a non-cancel error
  has no `catch`, because the saga rethrows it. It is also not called when the `catch`
  call itself throws. Only a completed `try` block, a cancellation or a completed `catch`
  reaches it.
- `isOptionSelected` compares first-match indices, so duplicate option values share their
  selection state. When `selectedIndex` is the first index of a value, every option
  holding that value is active at once (`ActiveOptionsHoldCellValue`). When it points at a
  later duplicate, no option is active (`SelectedOptionActiveIffFirst`).

## Model

| member | source | states |
|---|---|---|
| PromiseSaga.ExecutePromiseSaga | app/client/src/sagas/ActionExecution/PromiseActionSaga.ts:31-98 | The saga's trace of follow-up calls and log entries, and its return or throw, are exactly those of `PromiseRun`, for every join outcome and every collaborator behaviour |
| PromiseSaga.RunThenLinks | app/client/src/sagas/ActionExecution/PromiseActionSaga.ts:49-59 | The `for` loop over the `then` links makes exactly the calls of `ChainFrom(links, 0, ...)` and stops with the error of the first link that throws |
| PromiseSaga.ChainStep | app/client/src/sagas/ActionExecution/PromiseActionSaga.ts:49-59 | One loop turn: the link at position i is called with the shared arguments; the chain ends there if the call throws and goes on to link i+1 if it completes |
| PromiseSaga.ThenArguments | app/client/src/sagas/ActionExecution/PromiseActionSaga.ts:44-48 | The `then` arguments are always truthy: the single response when there is exactly one and it is truthy, otherwise `[{}]` |
| PromiseSaga.CatchArguments | app/client/src/sagas/ActionExecution/PromiseActionSaga.ts:66-70 | The `catch` arguments are always truthy: a plugin failure's `responseData` when truthy (else `[{}]`), and `[e.message]` for any other error |
| PromiseSaga.Or | app/client/src/sagas/ActionExecution/PromiseActionSaga.ts:48 | The or-fallback of `a` to `b` is one of its operands, keeps a truthy `a`, and is truthy whenever `b` is, so a `[{}]` fallback can never give a falsy argument set |
| PromiseSaga.ChainCallsInOrder | app/client/src/sagas/ActionExecution/PromiseActionSaga.ts:49-58 | The links are called in declared order, each with the same arguments and the run's event type and trigger metadata; with no failure, every link is called |
| PromiseSaga.ChainStopsAtFirstFailure | app/client/src/sagas/ActionExecution/PromiseActionSaga.ts:49-59 | Only `then` calls are made; every call but the last completed; a failure is raised by the last call, so later links are never called |
| PromiseSaga.TryBlockShape | app/client/src/sagas/ActionExecution/PromiseActionSaga.ts:36-62 | A failed join makes no `then` call and hands on its error; an absent or empty `then` makes none; otherwise the calls are an in-order prefix of the links, with `ThenArguments(responses)`, ending at the first failure |
| PromiseSaga.LinkResultsNotThreaded | app/client/src/sagas/ActionExecution/PromiseActionSaga.ts:48-59 | Changing the values that the links return, while keeping which calls throw and what they throw, changes nothing in the chain |
| PromiseSaga.RunExtendsTry | app/client/src/sagas/ActionExecution/PromiseActionSaga.ts:36-97 | Every run's trace starts with the `try` block's calls, and no `then` call comes after them |
| PromiseSaga.CancelledFallsThroughToFinally | app/client/src/sagas/ActionExecution/PromiseActionSaga.ts:63-64 | A user cancellation makes no `catch` call and logs nothing; the run goes straight on to the `finally` step and throws only if `finally` throws |
| PromiseSaga.CaughtErrorCallsCatchOnce | app/client/src/sagas/ActionExecution/PromiseActionSaga.ts:65-80 | A non-cancel error with `catch` present calls `catch` exactly once, right after the `try` calls, with `CatchArguments(e)`; nothing is logged; a failing `catch` call is what the run throws, and a completed one leads on to `finally` |
| PromiseSaga.UncaughtErrorSkipsFinally | app/client/src/sagas/ActionExecution/PromiseActionSaga.ts:81-84 | A non-cancel error without `catch` is logged once and rethrown as `UncaughtAppsmithPromiseError(e.message, triggerMeta, e)`; no `catch` or `finally` call is made |
| PromiseSaga.CatchCalledIff | app/client/src/sagas/ActionExecution/PromiseActionSaga.ts:62-80 | A `catch` call is in the trace iff the `try` block failed with an error other than a cancellation and `catch` is present; a successful `try` never calls `catch` |
| PromiseSaga.LoggedIff | app/client/src/sagas/ActionExecution/PromiseActionSaga.ts:62-84 | The error is logged iff the `try` block failed with an error other than a cancellation and `catch` is absent; a successful or cancelled run logs nothing |
| PromiseSaga.FailingCatchSkipsFinally | app/client/src/sagas/ActionExecution/PromiseActionSaga.ts:72-84 | When the `catch` call throws, the run ends with that call and throws its error; `finally` is not called |
| PromiseSaga.FinallyOnceAndLast | app/client/src/sagas/ActionExecution/PromiseActionSaga.ts:87-97 | `finally` is called iff it is present and reached; it is then called once, as the last event, with `[{}]`, and the run throws iff that call throws |
| PromiseSaga.FinallyKeepsContext | app/client/src/sagas/ActionExecution/PromiseActionSaga.ts:88-96 | The `finally` call carries the run's event type, source and trigger property name |
| PromiseSaga.SameContextEverywhere | app/client/src/sagas/ActionExecution/PromiseActionSaga.ts:50-96 | Every `then`, `catch` and `finally` call of a run carries the run's event type, `triggerMeta.source` and `triggerMeta.triggerPropertyName` |
| PromiseSaga.ThrowsUnlessFinallyReached | app/client/src/sagas/ActionExecution/PromiseActionSaga.ts:62-98 | A run that does not reach `finally` always throws; a run that reaches it with no `finally` present returns normally |
| TableUtilities.HandleSortColumn | app/client/src/widgets/TableWidget/component/TableUtilities.tsx:519-528 | No request while resizing, and a request otherwise; the index is -1 when the column is sorted ascending and the column's own index otherwise; ascending is requested iff the column is sorted descending |
| TableUtilities.SortToggleCycles | app/client/src/widgets/TableWidget/component/TableUtilities.tsx:519-528 | For a real column, the requested sort state (reading index -1 as "unsorted") walks unsorted, then descending, then ascending, then unsorted again |
| TableUtilities.GetTableStyles | app/client/src/widgets/TableWidget/component/TableUtilities.tsx:600-609 | The result has exactly the six style keys, each holding the input's value (undefined if absent) |
| TableUtilities.TableStylesIdempotent | app/client/src/widgets/TableWidget/component/TableUtilities.tsx:600-609 | Projecting the styles twice gives the same object as projecting once |
| TableUtilities.TableStylesIgnoreOtherProps | app/client/src/widgets/TableWidget/component/TableUtilities.tsx:600-609 | Adding or changing any non-style property leaves the styles unchanged |
| TableUtilities.TemplateNamesItsAccessor | app/client/src/widgets/TableWidget/component/TableUtilities.tsx:592-594 | The computed-value template built for an accessor reads back as that accessor |
| TableUtilities.GetDefaultColumnProperties | app/client/src/widgets/TableWidget/component/TableUtilities.tsx:569-598 | Id and label are the accessor, the index is the one given and the width is 150; it is a left- and centre-aligned text column with the default colour, text size and font style; the column is sortable, filterable and visible and not disabled; `isDerived` is normalised to a boolean; the computed value is empty exactly for a derived column, and otherwise is the template that reads back as the accessor |
| TableUtilities.IndexOfValue | app/client/src/widgets/TableWidget/component/TableUtilities.tsx:745-748 | `findIndex` gives -1 iff no option has the value; otherwise the index of the first option that has it |
| TableUtilities.IsOptionSelected | app/client/src/widgets/TableWidget/component/TableUtilities.tsx:658-663 | An option is selected iff `selectedIndex` is defined and is the first index holding the option's value, or is -1 when no option holds that value |
| TableUtilities.SelectedOptionActiveIffFirst | app/client/src/widgets/TableWidget/component/TableUtilities.tsx:658-663 | The option at `selectedIndex` is active iff no earlier option shares its value; if one does, no option is active |
| TableUtilities.ActiveOptionsHoldCellValue | app/client/src/widgets/TableWidget/component/TableUtilities.tsx:658-663 | If the caller of `renderDropdown` passes the first index holding a value some option holds (as `SelectCell`'s `findIndex` computes), an option is active iff it holds that value, so all its duplicates are active together |
| TableUtilities.DropdownLabel | app/client/src/widgets/TableWidget/component/TableUtilities.tsx:707-712 | `-- Select --` for an empty list or an undefined or negative index; the selected option's label for an index in range; a TypeError for an index past the end |
| TableUtilities.LabelOfSelectedValue | app/client/src/widgets/TableWidget/component/TableUtilities.tsx:707-712 | If the caller of `renderDropdown` passes a `findIndex` result for some value, the label never throws: it is the first matching option's label, or `-- Select --` when no option matches |
| TableUtilities.CheckBoxHeaderCell | app/client/src/widgets/TableWidget/component/TableUtilities.tsx:397-413 | Checked iff the state is non-null and non-zero; the check icon iff the state is 1; the line icon iff it is 2; never both icons; an icon only on a checked box |
| PropertyPaneSidebar.SelectPropertyPane | app/client/src/components/editorComponents/PropertyPaneSidebar.tsx:55-66 | Canvas pane for no selection; multi-select pane iff more than one widget is selected; canvas pane for one widget while dragging; widget pane iff exactly one widget is selected and there is no dragging |
| PropertyPaneSidebar.CanvasPaneExactly | app/client/src/components/editorComponents/PropertyPaneSidebar.tsx:55-66 | The canvas pane shows iff nothing is selected, or one widget is selected while dragging |
| PropertyPaneSidebar.PaneContainerClasses | app/client/src/components/editorComponents/PropertyPaneSidebar.tsx:85-90 | The base classes come first and only once, and no key is repeated; `relative` is present iff not previewing; the off-screen classes are present iff previewing or commenting |
| PropertyPaneSidebar.PreviewHidesPane | app/client/src/components/editorComponents/PropertyPaneSidebar.tsx:88-89 | Previewing always moves the pane off-screen and drops `relative`, whatever the comment mode |

## Left out

- Concurrency of redux-saga's `all`: the joined group is an input (`JoinOutcome`), either
  the responses in executor order or the one error raised. The executors themselves
  (`executeActionTriggers`) are not part of this model.
- `executeAppAction` and the actions it evaluates: an oracle stands in for them and answers
  each call by its position in the trace. Any collaborator behaviour is therefore covered.
- `errorUtils` (`UserCancelledActionExecutionError`, `UncaughtAppsmithPromiseError`) is not
  part of this model beyond the constructor cases of `SagaError`.
- `log.error` is recorded as a `LogError` event in the trace. The logging itself is left out.
- `triggerMeta` is reduced to the two fields the saga forwards.
- JavaScript values are reduced to the truthiness the saga tests (`Value`). Other objects are
  opaque, and the messages of errors thrown by collaborators are free strings.
- The enum constants (`CellAlignmentTypes`, `Colors`, `TextSizes` and others) come from modules
  that are not part of this model. They appear as symbolic `EnumMember` names.
- JSX rendering, styled components, CSS, `useState`/`useMemo`/`useSelector` hooks,
  `PerformanceTracker`, the resize handler and redux state are left out. Only the decisions
  that these render are modelled.
- `classNames` string joining is left out: the model keeps the class keys in key order, and
  the datatype's comment names the class string of each key. `zIndexLayers.PROPERTY_PANE`
  is a string parameter.
- The other table cell renderers (URL detection by regular expression, `JSON.parse` in the
  switch cell, the floating-point widths of `renderEmptyRows`) are not part of this model.
- `PropertyPaneSidebar.SelectPropertyPane` takes the selection count as an integer. It
  returns `None` (JavaScript `undefined`) only for a negative count, which a length never is.
- JavaScript numbers are modelled as unbounded integers. `TableUtilities.CheckBoxHeaderCell`
  therefore does not model a `NaN` check state (`!!NaN` is false) or a fractional one; only
  null and integer states are covered.
- Collaborators are assumed to throw `Error` objects, so every `SagaError` has a message. A
  thrown `undefined` or `null` would make reading `e.message` at PromiseActionSaga.ts lines
  66 and 83 itself throw. The model does not capture that.
- The `renderDropdown` caller that supplies `selectedIndex` is not part of this model. The
  lemmas that combine it with `SelectCell`'s `findIndex` state their premise as an assumption
  about that caller.
- The `sortTableColumn` callee that receives the header's sort request is not part of this
  model. Reading index -1 as "clear the sort", and the header's `isAscOrder` then becoming
  the requested order, are assumptions about that callee (`TableUtilities.RequestedSortState`).
