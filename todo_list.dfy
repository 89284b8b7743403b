/**
 * The status and record-update rules of the to-do list component (`ItemList`).
 *
 * A task carries a free-text status; four labels get their own display style
 * and anything else falls back to the base style. The creation form edits a
 * single held record (`newItem`) in place, one field per handler, and a
 * successful add appends the stored item to the displayed list.
 *
 * The stylesheet's class names are opaque constants here, and the item that
 * the remote list returns from an add is given to the model as a parameter.
 */
module TodoList {
  import opened Wrappers

  /** The stylesheet class names the status classifier chooses from, as opaque constants. */
  datatype Style = ItemPending | ItemCompleted | ItemActive | ItemOverdue | ItemStatus

  /** A stored task: its identifier, title and status as the remote list reports them. */
  datatype ListItem = ListItem(id: string, title: string, status: string)

  /** An entry of the status drop-down. */
  datatype DropdownOption = DropdownOption(key: string, text: string)

  /** The closed set of status labels, in the order the drop-down shows them. */
  const StatusLabels: seq<string> := ["Pending", "Completed", "Active", "Overdue"]

  /** The drop-down's options: one per status label, each keyed by its own text. */
  function StatusOptions(): (opts: seq<DropdownOption>)
    ensures |opts| == |StatusLabels|
    ensures forall i :: 0 <= i < |opts| ==> opts[i].key == StatusLabels[i] && opts[i].text == StatusLabels[i]
  {
    [ DropdownOption("Pending", "Pending"),
      DropdownOption("Completed", "Completed"),
      DropdownOption("Active", "Active"),
      DropdownOption("Overdue", "Overdue") ]
  }

  /** `_itemStatus`: the style class for a status; each label has its own, anything else the base one. */
  function StatusClass(status: string): (c: Style)
    ensures c == ItemPending <==> status == "Pending"
    ensures c == ItemCompleted <==> status == "Completed"
    ensures c == ItemActive <==> status == "Active"
    ensures c == ItemOverdue <==> status == "Overdue"
    ensures c == ItemStatus <==> status !in StatusLabels
  {
    match status
    case "Pending" => ItemPending
    case "Completed" => ItemCompleted
    case "Active" => ItemActive
    case "Overdue" => ItemOverdue
    case _ => ItemStatus
  }

  /**
   * The icon name rendered beside a task. The template literal turns the
   * `null` of the non-completed branch into the four-letter string "null".
   */
  function IconName(status: string): (name: string)
    ensures name == "Completed" || name == "null"
    ensures name == "Completed" <==> status == "Completed"
  {
    if status == "Completed" then "Completed" else "null"
  }

  /** `[...items, newItem]`: the list with one item added at the end, earlier items untouched. */
  function Appended(items: seq<ListItem>, item: ListItem): (r: seq<ListItem>)
    ensures |r| == |items| + 1
    ensures r[..|items|] == items
    ensures r[|items|] == item
  {
    items + [item]
  }

  /**
   * A status gets a specific style exactly when it is the key of one of the
   * drop-down's options, and different options get different styles.
   */
  lemma StyledExactlyTheOptions(status: string)
    ensures StatusClass(status) != ItemStatus <==> exists o :: o in StatusOptions() && o.key == status
    ensures forall o, p :: o in StatusOptions() && p in StatusOptions() && o.key != p.key ==>
      StatusClass(o.key) != StatusClass(p.key)
  {
    var opts := StatusOptions();
    if status in StatusLabels {
      var i :| 0 <= i < |StatusLabels| && StatusLabels[i] == status;
      assert opts[i] in opts && opts[i].key == status;
    }
  }

  /** The completed icon is shown exactly for the tasks that get the completed style. */
  lemma IconFollowsStyle(status: string)
    ensures IconName(status) == "Completed" <==> StatusClass(status) == ItemCompleted
  {
  }

  /** The creation form's record; a field the user has not touched yet is absent. */
  class NewItem {
    var title: Option<string>
    var status: Option<string>

    /** The empty record `{}`. */
    constructor ()
      ensures title == None && status == None
    {
      title := None;
      status := None;
    }
  }

  /**
   * What the user fills in is what gets sent: after typing `text` and
   * choosing `option` on a list's form, the add request carries exactly that
   * title and that option's key. The handlers write into the record already
   * held, so a reference `held` taken before them sees the same values.
   */
  method EnterThenRequest(list: ItemList, text: string, option: DropdownOption)
    returns (title: Option<string>, status: Option<string>)
    modifies list.newItem
    ensures title == Some(text) && status == Some(option.key)
    ensures list.newItem == old(list.newItem)
    ensures list.items == old(list.items)
  {
    ghost var held := list.newItem;
    list.TxtChange(text);
    list.StatusChange(option);
    title, status := list.AddRequest();
    assert held.title == Some(text) && held.status == Some(option.key);
  }

  /** The component's state and the handlers that change it. */
  class ItemList {
    var items: seq<ListItem>
    var newItem: NewItem
    var errorMessage: Option<string>

    /** The initial state: no items, an empty record, no error. */
    constructor ()
      ensures items == [] && errorMessage == None
      ensures fresh(newItem) && newItem.title == None && newItem.status == None
    {
      items := [];
      newItem := new NewItem();
      errorMessage := None;
    }

    /** `txtChange`: the entered text becomes the title, on the very record already held. */
    method TxtChange(text: string)
      modifies newItem
      ensures newItem == old(newItem)
      ensures newItem.title == Some(text) && newItem.status == old(newItem.status)
      ensures items == old(items) && errorMessage == old(errorMessage)
    {
      newItem.title := Some(text);
    }

    /** `statusChange`: the chosen option's key becomes the status, on the very record already held. */
    method StatusChange(option: DropdownOption)
      modifies newItem
      ensures newItem == old(newItem)
      ensures newItem.status == Some(option.key) && newItem.title == old(newItem.title)
      ensures items == old(items) && errorMessage == old(errorMessage)
    {
      newItem.status := Some(option.key);
    }

    /** The title and status that `addTodoItem` sends to the remote list. */
    method AddRequest() returns (title: Option<string>, status: Option<string>)
      ensures title == newItem.title && status == newItem.status
    {
      title := newItem.title;
      status := newItem.status;
    }

    /**
     * The state change of `addTodoItem` once the remote list has stored the
     * task and returned it as `added`: the item goes at the end of `items`;
     * the form's record is neither replaced nor cleared.
     */
    method AddTodoItem(added: ListItem)
      modifies this
      ensures items == Appended(old(items), added)
      ensures newItem == old(newItem) && errorMessage == old(errorMessage)
    {
      items := Appended(items, added);
    }
  }
}
