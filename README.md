# To-do list web part: form state and list rules

This project models the two self-contained pieces of logic in a to-do list
web part that runs inside a collaboration-platform page.

- **`Form`** (`form.dfy`) models the `useForm` form-state controller. It holds
  the field values (`inputs`) and the validation messages (`errors`).
  `HandleInputChange` replaces `inputs` by a merged copy.
  `HandleSubmit` models running the handler that `handleSubmit(fn)` returns.
  It runs the caller's validator, replaces `errors` by the result, and calls
  `fn` with the current values only when that result has no keys.
  A key whose message is `""` still blocks.
  The calls to `fn` are kept in a ghost log (`calls`).
  The controller is also given as a state machine over values (`FormState`, `Step`, `Run`).
  Lemmas about whole runs of typing and submitting are proved on it.
- **`TodoList`** (`todo_list.dfy`) models the rules of the `ItemList` component.
  It covers the status-to-style classifier `_itemStatus`, the fixed status
  drop-down options, and the icon-name rule used when a task is rendered.
  It also covers the `txtChange`/`statusChange` handlers. These write one field
  of the held `newItem` record in place: the record stays the same object, so
  anything else that holds it sees the change.
  Finally it covers the append to `items` after an add.
  Style class names are opaque constants (`Style`). The item that the remote
  list returns from an add is a parameter.
- **`Wrappers`** (`wrappers.dfy`) holds the `Option` type used for absent
  fields and for "callback not called".

The icon rule is modelled as written. The non-completed branch of the template
literal yields the four-letter string `"null"`, not an absent icon name.

## Model

| member | source | states |
|---|---|---|
| Form.Merge | src/webparts/todoList/components/Form.ts:26 | the merged copy maps `field` to `value`, keeps every other key with its old value, and removes no key |
| Form.NoErrors | src/webparts/todoList/components/Form.ts:15 | a validation result passes exactly when it has no keys; any present key, even with message `""`, fails |
| Form.Init | src/webparts/todoList/components/Form.ts:4-9 | the state of a fresh controller: inputs are exactly the initial values; errors map exactly `title` and `status` to `""`; no callback yet |
| Form.Step | src/webparts/todoList/components/Form.ts:11-27 | one input change or submit applied to the state: typing never changes `errors`, a submit never changes `inputs`, no input key is removed, and the callback log grows by at most the current values, only on a submit whose validation result has no keys |
| Form.Run | src/webparts/todoList/components/Form.ts:11-27 | a sequence of input changes and submits applied in order: no input key is removed, and the callback log only grows, by at most one entry per event |
| Form.InputChangeFrame | src/webparts/todoList/components/Form.ts:25-27 | a change sets `inputs[field]` to the value, keeps all other keys and values, and leaves `errors` and the callback log alone |
| Form.InputChangeIdempotent | src/webparts/todoList/components/Form.ts:26 | applying the same change twice gives the same state as applying it once |
| Form.SubmitContract | src/webparts/todoList/components/Form.ts:11-22 | a submit sets `errors` to exactly `validate(inputs)` and leaves `inputs` unchanged; the callback fires once, with the current inputs, iff that result has no keys, and otherwise does not fire |
| Form.EmptyMessageBlocks | src/webparts/todoList/components/Form.ts:15-18 | a result like `{title: ""}` blocks the callback and is still stored as the errors |
| Form.LastSubmitDecidesErrors | src/webparts/todoList/components/Form.ts:14-16 | after any history, the errors following a submit are exactly the validator's result on the inputs at that moment; the inputs are unchanged |
| Form.TwoSubmitsKeepSecond | src/webparts/todoList/components/Form.ts:14-16 | two submits, with any events between them, leave only the second submit's validation result |
| Form.TypingOnly | src/webparts/todoList/components/Form.ts:25-27 | any run made only of input changes never changes `errors` and never calls back |
| Form.CallsAreValidated | src/webparts/todoList/components/Form.ts:15-18 | over any run the callback log only grows, and every snapshot added to it is one the validator passed with zero keys |
| Form.Controller.constructor | src/webparts/todoList/components/Form.ts:4-9 | `inputs` is the initial values; `errors` maps `title` and `status` to `""`; the callback log is empty |
| Form.Controller.HandleInputChange | src/webparts/todoList/components/Form.ts:25-27 | `inputs` becomes the merged copy; `errors` and the callback log are unchanged |
| Form.Controller.HandleSubmit | src/webparts/todoList/components/Form.ts:11-22 | `errors` becomes `validate(inputs)` and `inputs` is unchanged; if that result has no keys the callback is logged once with the inputs and the handler returns that snapshot, otherwise nothing is logged and it returns `None` |
| TodoList.StatusOptions | src/webparts/todoList/components/TodoList.tsx:104-108 | exactly four options: Pending, Completed, Active, Overdue, in that order, each keyed by its own text |
| TodoList.StatusClass | src/webparts/todoList/components/TodoList.tsx:129-146 | each of the four labels, and only that label, gets its own style; every other status gets the base `itemStatus` style |
| TodoList.IconName | src/webparts/todoList/components/TodoList.tsx:178 | the icon name is `"Completed"` iff the status is `"Completed"`, and the string `"null"` otherwise |
| TodoList.Appended | src/webparts/todoList/components/TodoList.tsx:59 | the new list is one longer, starts with the old list unchanged, and ends with the new item |
| TodoList.StyledExactlyTheOptions | src/webparts/todoList/components/TodoList.tsx:104-146 | a status gets a specific style exactly when it is a drop-down option's key, and distinct options get distinct styles |
| TodoList.IconFollowsStyle | src/webparts/todoList/components/TodoList.tsx:178 | the completed icon appears exactly for the statuses that get the completed style |
| TodoList.NewItem.constructor | src/webparts/todoList/components/TodoList.tsx:44 | the form's record starts with neither title nor status |
| TodoList.ItemList.constructor | src/webparts/todoList/components/TodoList.tsx:39-46 | no items, an empty fresh record, no error message |
| TodoList.ItemList.TxtChange | src/webparts/todoList/components/TodoList.tsx:88-95 | the held record, still the same object, gets the entered text as title; its status and the rest of the state are unchanged |
| TodoList.ItemList.StatusChange | src/webparts/todoList/components/TodoList.tsx:96-102 | the held record, still the same object, gets the option's key as status; its title and the rest of the state are unchanged |
| TodoList.EnterThenRequest | src/webparts/todoList/components/TodoList.tsx:54-57 | after the text handler and then the status handler run on a list's form, the add request carries exactly the entered title and the chosen option's key; the held record is still the same object and `items` is unchanged |
| TodoList.ItemList.AddTodoItem | src/webparts/todoList/components/TodoList.tsx:51-60 | `items` becomes the old items with the returned item appended; the form's record and the error message are unchanged |

## Left out

- Remote list calls: `_getListData`'s request and response parsing, sending the `list.items.add` request (its title and status fields are modelled by `AddRequest`), `removeTodoItem`'s delete, and `getSP()`/`spfi`. They are network I/O; the item an add returns is a parameter of `AddTodoItem`.
- The `confirm` dialog in `removeTodoItem`: user interaction around a network call.
- All JSX rendering, Fluent UI components and the actual `styles.*` class strings: presentation only. The classifier's styles are opaque constants.
- `console.log`/`console.error` (including the "errors try again" report on a failed submit): diagnostics only.
- `e.preventDefault()` in the submit handler: browser event plumbing.
- React state scheduling (batching, re-render timing, and which render's `inputs` the submit closure captured). The model updates state at once, and a submit acts on the controller's current `inputs`.
- What the success callback does (it may be asynchronous): the model records only that it was called and with which values.
- Form.Value: JavaScript numbers are modelled as `real`, without floating-point behaviour such as `NaN`.
- The `ITodoFormValues` interface file is not part of this model. Field values are a general map from field name to string or number.
- The outer `TodoList` component (constructor and heading markup): presentation only.
