/** The catalogue items screen: the list of garment items (name, price,
    options with their customisations) and the add/edit form with its
    option editors. */
module Items {
  import opened Base
  import opened Text
  import opened Lists

  /** An option of an item (e.g. "Collar") and the customisations offered
      for it. */
  datatype CatalogOption = CatalogOption(name: string, customizations: seq<string>)

  datatype Item = Item(id: string, name: string, price: int, options: seq<CatalogOption>)

  /** `{ name: '', customizations: [''] }`. */
  const BlankOption := CatalogOption("", [""])

  datatype ItemVerdict = NameRequired | PriceRequired | ItemAccepted

  /** handleAddItem's checks: a non-blank name, then a positive price. */
  function CheckNewItem(name: string, price: int): (v: ItemVerdict)
    ensures v == ItemAccepted <==> !IsBlank(name) && price > 0
    ensures v == NameRequired <==> IsBlank(name)
  {
    if IsBlank(name) then NameRequired
    else if price <= 0 then PriceRequired
    else ItemAccepted
  }

  /** handleEditItem's check: only the name. */
  function CheckEditedItem(name: string): (v: ItemVerdict)
    ensures v != PriceRequired
    ensures v == ItemAccepted <==> !IsBlank(name)
  {
    if IsBlank(name) then NameRequired else ItemAccepted
  }

  /** The edit check is weaker than the add check: every accepted new item
      is accepted as an edit, but an edit may set a price of 0. */
  lemma EditCheckWeaker(name: string, price: int)
    ensures CheckNewItem(name, price) == ItemAccepted ==> CheckEditedItem(name) == ItemAccepted
    ensures CheckEditedItem(name) == ItemAccepted ==> CheckNewItem(name, 0) == PriceRequired
  {
  }

  /** `items.map(item => item._id === itemId ? reply : item)`; a null id
      matches nothing. */
  function ItemsAfterEdit(items: seq<Item>, itemId: Option<string>, reply: Item): (r: seq<Item>)
    ensures |r| == |items|
    ensures forall i :: 0 <= i < |r| ==> r[i] == if Some(items[i].id) == itemId then reply else items[i]
  {
    seq(|items|, i requires 0 <= i < |items| => if Some(items[i].id) == itemId then reply else items[i])
  }

  /** `items.filter(item => item._id !== itemId)`. */
  function ItemsAfterDelete(items: seq<Item>, itemId: string): (r: seq<Item>)
    ensures forall x :: x in r <==> x in items && x.id != itemId
  {
    Filter(items, (x: Item) => x.id != itemId)
  }

  /** Delete keeps the other items in order. */
  lemma DeleteKeepsOrder(items: seq<Item>, itemId: string)
    ensures IsSubsequence(ItemsAfterDelete(items, itemId), items)
  {
    FilterIsSubsequence(items, (x: Item) => x.id != itemId);
  }

  /** An id that is not listed leaves the list as it is, for edit and
      delete alike. */
  lemma AbsentIdChangesNothing(items: seq<Item>, itemId: string, reply: Item)
    requires forall i :: 0 <= i < |items| ==> items[i].id != itemId
    ensures ItemsAfterEdit(items, Some(itemId), reply) == items
    ensures ItemsAfterDelete(items, itemId) == items
  {
    FilterKeepsAll(items, (x: Item) => x.id != itemId);
    var edited := ItemsAfterEdit(items, Some(itemId), reply);
    assert forall i :: 0 <= i < |items| ==> edited[i] == items[i];
  }

  /** Editing an item and then deleting it is the same as deleting it. */
  lemma {:induction false} EditThenDeleteIsDelete(items: seq<Item>, itemId: string, reply: Item)
    requires reply.id == itemId
    ensures ItemsAfterDelete(ItemsAfterEdit(items, Some(itemId), reply), itemId) == ItemsAfterDelete(items, itemId)
  {
    if items != [] {
      EditThenDeleteIsDelete(items[1..], itemId, reply);
      var edited := ItemsAfterEdit(items, Some(itemId), reply);
      assert edited[1..] == ItemsAfterEdit(items[1..], Some(itemId), reply);
    }
  }

  /** Where the submit button goes: "Update Item" edits the item with the
      remembered id, "Add Item" adds. */
  datatype Submission = AddNew | EditExisting(itemId: Option<string>)

  function SubmitAction(isEditing: bool, editingItemId: Option<string>): (s: Submission)
    ensures s.AddNew? <==> !isEditing
    ensures s.EditExisting? ==> s.itemId == editingItemId
  {
    if isEditing then EditExisting(editingItemId) else AddNew
  }

  /** After "Cancel Editing" as written the page is still in edit mode
      with no remembered id: the next submit is an edit of no item, which
      leaves the list as it is, instead of adding the item typed in. */
  lemma CancelledEditSubmitsNowhere(items: seq<Item>, reply: Item)
    ensures SubmitAction(true, None) == EditExisting(None)
    ensures ItemsAfterEdit(items, None, reply) == items
  {
  }

  // ---------------------------------------------------------------------
  // Option editors

  /** The fields handleOptionChange knows. */
  datatype OptionUpdate = RenameOption(name: string) | ReplaceCustomizations(customizations: seq<string>) | OtherField

  function WithOptionChange(options: seq<CatalogOption>, index: int, update: OptionUpdate): (r: seq<CatalogOption>)
    requires 0 <= index < |options|
    ensures |r| == |options|
    ensures forall j :: 0 <= j < |r| && j != index ==> r[j] == options[j]
    ensures update.RenameOption? ==> r[index] == options[index].(name := update.name)
    ensures update.ReplaceCustomizations? ==> r[index] == options[index].(customizations := update.customizations)
    ensures update.OtherField? ==> r == options
  {
    match update
    case RenameOption(n) => options[index := options[index].(name := n)]
    case ReplaceCustomizations(cs) => options[index := options[index].(customizations := cs)]
    case OtherField => options
  }

  /** handleCustomizationChange: one customisation of one option. */
  function WithCustomization(options: seq<CatalogOption>, index: int, sub: int, value: string): (r: seq<CatalogOption>)
    requires 0 <= index < |options| && 0 <= sub < |options[index].customizations|
    ensures |r| == |options|
    ensures forall j :: 0 <= j < |r| && j != index ==> r[j] == options[j]
    ensures r[index].name == options[index].name
    ensures r[index].customizations == options[index].customizations[sub := value]
  {
    options[index := options[index].(customizations := options[index].customizations[sub := value])]
  }

  /** handleAddOption. */
  function WithNewOption(options: seq<CatalogOption>): (r: seq<CatalogOption>)
    ensures |r| == |options| + 1 && r[..|options|] == options && r[|options|] == BlankOption
  {
    options + [BlankOption]
  }

  /** handleAddCustomization: a blank customisation at the end of one
      option's list. */
  function WithNewCustomization(options: seq<CatalogOption>, index: int): (r: seq<CatalogOption>)
    requires 0 <= index < |options|
    ensures |r| == |options|
    ensures forall j :: 0 <= j < |r| && j != index ==> r[j] == options[j]
    ensures r[index].name == options[index].name
    ensures r[index].customizations == options[index].customizations + [""]
  {
    options[index := options[index].(customizations := options[index].customizations + [""])]
  }

  /** Adding a customisation and typing into it extends that option's list
      by the typed value; the other options are untouched. */
  lemma NewCustomizationThenType(options: seq<CatalogOption>, index: int, value: string)
    requires 0 <= index < |options|
    ensures var added := WithNewCustomization(options, index);
            var typed := WithCustomization(added, index, |options[index].customizations|, value);
            && typed[index].customizations == options[index].customizations + [value]
            && forall j :: 0 <= j < |options| && j != index ==> typed[j] == options[j]
  {
    var cs := options[index].customizations;
    assert (cs + [""])[|cs| := value] == cs + [value];
  }

  // ---------------------------------------------------------------------
  // The page

  class ItemsPage {
    var items: seq<Item>
    var name: string
    var price: int
    var options: seq<CatalogOption>
    var isEditing: bool
    var editingItemId: Option<string>

    constructor (fetched: seq<Item>)
      ensures items == fetched && name == "" && price == 0 && options == [BlankOption]
      ensures !isEditing && editingItemId == None
    {
      items := fetched;
      name := "";
      price := 0;
      options := [BlankOption];
      isEditing := false;
      editingItemId := None;
    }

    /** resetForm as written: the edit mode flag is left as it was. */
    method ResetForm()
      modifies this
      ensures name == "" && price == 0 && options == [BlankOption] && editingItemId == None
      ensures isEditing == old(isEditing) && items == old(items)
    {
      name := "";
      price := 0;
      options := [BlankOption];
      editingItemId := None;
    }

    /** The "Reset Form" / "Cancel Editing" button, leaving edit mode as
        its label says: the next submit adds a new item. */
    method CancelEditing()
      modifies this
      ensures name == "" && price == 0 && options == [BlankOption] && editingItemId == None
      ensures !isEditing && items == old(items)
      ensures SubmitAction(isEditing, editingItemId) == AddNew
    {
      ResetForm();
      isEditing := false;
    }

    /** The edit button of a row loads the item into the form. */
    method StartEditing(item: Item)
      modifies this
      ensures name == item.name && price == item.price && options == item.options
      ensures isEditing && editingItemId == Some(item.id) && items == old(items)
      ensures SubmitAction(isEditing, editingItemId) == EditExisting(Some(item.id))
    {
      name := item.name;
      price := item.price;
      options := item.options;
      isEditing := true;
      editingItemId := Some(item.id);
    }

    method SetName(value: string)
      modifies this
      ensures name == value && price == old(price) && options == old(options) && items == old(items)
      ensures isEditing == old(isEditing) && editingItemId == old(editingItemId)
    {
      name := value;
    }

    method SetPrice(value: int)
      modifies this
      ensures price == value && name == old(name) && options == old(options) && items == old(items)
      ensures isEditing == old(isEditing) && editingItemId == old(editingItemId)
    {
      price := value;
    }

    /** handleAddItem: after the checks, the reply (None when the request
        failed) is appended and the form is reset. */
    method HandleAddItem(reply: Option<Item>) returns (v: ItemVerdict)
      modifies this
      ensures v == CheckNewItem(old(name), old(price))
      ensures v == ItemAccepted && reply.Some? ==>
                items == old(items) + [reply.value] && name == "" && price == 0 && options == [BlankOption]
                && editingItemId == None
      ensures v != ItemAccepted || reply.None? ==>
                items == old(items) && name == old(name) && price == old(price) && options == old(options)
                && editingItemId == old(editingItemId)
      ensures isEditing == old(isEditing)
    {
      v := CheckNewItem(name, price);
      if v == ItemAccepted && reply.Some? {
        items := items + [reply.value];
        ResetForm();
      }
    }

    /** handleEditItem for the remembered id: the reply replaces the items
        with that id, the form is reset and edit mode ends. */
    method HandleEditItem(reply: Option<Item>) returns (v: ItemVerdict)
      modifies this
      ensures v == CheckEditedItem(old(name))
      ensures v == ItemAccepted && reply.Some? ==>
                items == ItemsAfterEdit(old(items), old(editingItemId), reply.value)
                && name == "" && price == 0 && options == [BlankOption] && editingItemId == None && !isEditing
      ensures v != ItemAccepted || reply.None? ==>
                items == old(items) && name == old(name) && price == old(price) && options == old(options)
                && isEditing == old(isEditing) && editingItemId == old(editingItemId)
    {
      v := CheckEditedItem(name);
      if v == ItemAccepted && reply.Some? {
        items := ItemsAfterEdit(items, editingItemId, reply.value);
        ResetForm();
        isEditing := false;
      }
    }

    /** handleDeleteItem, once the request succeeded. */
    method HandleDeleteItem(itemId: string, deleted: bool)
      modifies this
      ensures items == if deleted then ItemsAfterDelete(old(items), itemId) else old(items)
      ensures name == old(name) && price == old(price) && options == old(options)
      ensures isEditing == old(isEditing) && editingItemId == old(editingItemId)
    {
      if deleted {
        items := ItemsAfterDelete(items, itemId);
      }
    }

    method HandleOptionChange(index: int, update: OptionUpdate)
      requires 0 <= index < |options|
      modifies this
      ensures options == WithOptionChange(old(options), index, update)
      ensures items == old(items) && name == old(name) && price == old(price)
      ensures isEditing == old(isEditing) && editingItemId == old(editingItemId)
    {
      options := WithOptionChange(options, index, update);
    }

    method HandleCustomizationChange(index: int, sub: int, value: string)
      requires 0 <= index < |options| && 0 <= sub < |options[index].customizations|
      modifies this
      ensures options == WithCustomization(old(options), index, sub, value)
      ensures items == old(items) && name == old(name) && price == old(price)
      ensures isEditing == old(isEditing) && editingItemId == old(editingItemId)
    {
      options := WithCustomization(options, index, sub, value);
    }

    method HandleAddOption()
      modifies this
      ensures options == WithNewOption(old(options))
      ensures items == old(items) && name == old(name) && price == old(price)
      ensures isEditing == old(isEditing) && editingItemId == old(editingItemId)
    {
      options := WithNewOption(options);
    }

    method HandleAddCustomization(index: int)
      requires 0 <= index < |options|
      modifies this
      ensures options == WithNewCustomization(old(options), index)
      ensures items == old(items) && name == old(name) && price == old(price)
      ensures isEditing == old(isEditing) && editingItemId == old(editingItemId)
    {
      options := WithNewCustomization(options, index);
    }
  }
}
