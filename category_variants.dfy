/**
 * Variant attributes of a category (src/components/features/categoryVariants.tsx):
 * the attribute form's initial state and its predefined-value edits, and the panel
 * handlers that create, update and delete, guarded on the attribute having an id.
 */
module CategoryVariants {
  import opened Wrappers
  import opened Seqs
  import opened Types
  import opened Http
  import opened CategoryService

  /** JavaScript truthiness of an optional id: present and not 0. */
  predicate HasId(a: VariantAttribute) {
    a.id.Some? && a.id.value != 0
  }

  /**
   * The form's first state: the initial attribute's fields with defaults "", "text", "",
   * 0 and no values; its id only when truthy; its category is not copied.
   */
  function InitialForm(initial: Option<VariantAttribute>): (f: VariantAttribute)
    ensures initial.None? ==> f == VariantAttribute(None, None, "", Text, Some(""), 0, Some([]))
    ensures initial.Some? ==> f.name == initial.value.name && f.attrType == initial.value.attrType
                              && f.displayOrder == initial.value.displayOrder
                              && f.unit == Some(initial.value.unit.GetOr(""))
                              && f.predefinedValues == Some(initial.value.predefinedValues.GetOr([]))
    ensures f.id.Some? <==> initial.Some? && HasId(initial.value)
    ensures f.id.Some? ==> f.id == initial.value.id
    ensures f.categoryId.None?
  {
    match initial
    case None => VariantAttribute(None, None, "", Text, Some(""), 0, Some([]))
    case Some(a) =>
      VariantAttribute(if HasId(a) then a.id else None, None, a.name, a.attrType, Some(a.unit.GetOr("")),
                       a.displayOrder, Some(a.predefinedValues.GetOr([])))
  }

  /** The form's value list; an absent list reads as empty. */
  function Values(form: VariantAttribute): seq<AttributeValue> {
    form.predefinedValues.GetOr([])
  }

  /** Every entry's order is its position. */
  predicate OrdersAreIndices(vs: seq<AttributeValue>) {
    forall i :: 0 <= i < |vs| ==> vs[i].displayOrder == i
  }

  /** "Add Value": append an empty value whose order is the current length; nothing else changes. */
  function AddValue(form: VariantAttribute): (r: VariantAttribute)
    ensures r.predefinedValues.Some?
    ensures |Values(r)| == |Values(form)| + 1
    ensures Values(r)[..|Values(form)|] == Values(form)
    ensures Values(r)[|Values(form)|] == AttributeValue("", |Values(form)|)
    ensures r.(predefinedValues := form.predefinedValues) == form
  {
    var vs := Values(form);
    form.(predefinedValues := Some(vs + [AttributeValue("", |vs|)]))
  }

  /** If every order equals its position, adding a value keeps it so. */
  lemma AddValueKeepsOrders(form: VariantAttribute)
    requires OrdersAreIndices(Values(form))
    ensures OrdersAreIndices(Values(AddValue(form)))
  {
    var vs, ws := Values(form), Values(AddValue(form));
    forall i | 0 <= i < |ws| ensures ws[i].displayOrder == i {
      if i < |vs| {
        assert ws[i] == ws[..|vs|][i] == vs[i];
      }
    }
  }

  /** Typing a value at position `i`: that entry keeps its order, every other entry stays. */
  function SetValueText(form: VariantAttribute, i: nat, text: string): (r: VariantAttribute)
    requires i < |Values(form)|
    ensures |Values(r)| == |Values(form)|
    ensures Values(r)[i].value == text && Values(r)[i].displayOrder == Values(form)[i].displayOrder
    ensures forall j :: 0 <= j < |Values(form)| && j != i ==> Values(r)[j] == Values(form)[j]
    ensures r.(predefinedValues := form.predefinedValues) == form
  {
    var vs := Values(form);
    form.(predefinedValues := Some(vs[i := vs[i].(value := text)]))
  }

  /** Typing an order at position `i`: that entry keeps its value, every other entry stays. */
  function SetValueOrder(form: VariantAttribute, i: nat, order: int): (r: VariantAttribute)
    requires i < |Values(form)|
    ensures |Values(r)| == |Values(form)|
    ensures Values(r)[i].displayOrder == order && Values(r)[i].value == Values(form)[i].value
    ensures forall j :: 0 <= j < |Values(form)| && j != i ==> Values(r)[j] == Values(form)[j]
    ensures r.(predefinedValues := form.predefinedValues) == form
  {
    var vs := Values(form);
    form.(predefinedValues := Some(vs[i := vs[i].(displayOrder := order)]))
  }

  /** The remove button of position `i` drops exactly that entry. */
  function RemoveValue(form: VariantAttribute, i: nat): (r: VariantAttribute)
    requires i < |Values(form)|
    ensures |Values(r)| == |Values(form)| - 1
    ensures Values(r) == Values(form)[..i] + Values(form)[i + 1..]
    ensures r.(predefinedValues := form.predefinedValues) == form
  {
    form.(predefinedValues := Some(RemoveAt(Values(form), i)))
  }

  /** `handleUpdate`'s call: none without a truthy id, otherwise update by that id with the whole form. */
  function UpdateOp(data: VariantAttribute): (r: Option<CategoryOp>)
    ensures r.None? <==> !HasId(data)
    ensures r.Some? ==> Route(r.value) == Request(Put, ItemPath("variant-attributes", data.id.value), VariantBody(data))
  {
    if HasId(data) then Some(UpdateVariantAttribute(data.id.value, data)) else None
  }

  /** The delete button's call: only for an attribute with a truthy id; no confirmation is asked. */
  function DeleteOp(a: VariantAttribute): (r: Option<CategoryOp>)
    ensures r.None? <==> !HasId(a)
    ensures r.Some? ==> Route(r.value) == Request(Delete, ItemPath("variant-attributes", a.id.value), NoBody)
  {
    if HasId(a) then Some(DeleteVariantAttribute(a.id.value)) else None
  }

  /** The panel's state. */
  class VariantAttributesPanel {
    const categoryId: int
    var attributes: seq<VariantAttribute>
    var isAddDialogOpen: bool
    var isEditDialogOpen: bool
    var selectedAttribute: Option<VariantAttribute>

    constructor (categoryId: int)
      ensures this.categoryId == categoryId && attributes == [] && !isAddDialogOpen && !isEditDialogOpen
      ensures selectedAttribute.None?
    {
      this.categoryId := categoryId;
      attributes, isAddDialogOpen, isEditDialogOpen, selectedAttribute := [], false, false, None;
    }

    /** `fetchAttributes`: a successful fetch replaces the list; a failed one leaves it. */
    method FetchAttributes(loaded: Option<seq<VariantAttribute>>)
      modifies this`attributes
      ensures attributes == if loaded.Some? then loaded.value else old(attributes)
    {
      if loaded.Some? {
        attributes := loaded.value;
      }
    }

    /** `handleCreate`: create under the panel's category; on success close the add dialog and refetch. */
    method HandleCreate(data: VariantAttribute, succeeded: bool, reloaded: Option<seq<VariantAttribute>>) returns (call: CategoryOp)
      modifies this`attributes, this`isAddDialogOpen
      ensures call == CreateVariantAttribute(categoryId, data)
      ensures isAddDialogOpen == (old(isAddDialogOpen) && !succeeded)
      ensures attributes == if succeeded && reloaded.Some? then reloaded.value else old(attributes)
    {
      call := CreateVariantAttribute(categoryId, data);
      if succeeded {
        isAddDialogOpen := false;
        FetchAttributes(reloaded);
      }
    }

    /** `handleUpdate`: without a truthy id nothing is called and nothing changes. */
    method HandleUpdate(data: VariantAttribute, succeeded: bool, reloaded: Option<seq<VariantAttribute>>) returns (call: Option<CategoryOp>)
      modifies this`attributes, this`isEditDialogOpen
      ensures call == UpdateOp(data)
      ensures isEditDialogOpen == (old(isEditDialogOpen) && !(call.Some? && succeeded))
      ensures attributes == if call.Some? && succeeded && reloaded.Some? then reloaded.value else old(attributes)
    {
      if !HasId(data) {
        return None;
      }
      call := Some(UpdateVariantAttribute(data.id.value, data));
      if succeeded {
        isEditDialogOpen := false;
        FetchAttributes(reloaded);
      }
    }

    /** The delete button: deletes only an attribute with a truthy id. */
    method DeleteClicked(a: VariantAttribute, succeeded: bool, reloaded: Option<seq<VariantAttribute>>) returns (call: Option<CategoryOp>)
      modifies this`attributes
      ensures call == DeleteOp(a)
      ensures attributes == if call.Some? && succeeded && reloaded.Some? then reloaded.value else old(attributes)
    {
      if !HasId(a) {
        return None;
      }
      call := Some(DeleteVariantAttribute(a.id.value));
      if succeeded {
        FetchAttributes(reloaded);
      }
    }

    /** The edit button: select the attribute and open the edit dialog. */
    method EditClicked(a: VariantAttribute)
      modifies this`selectedAttribute, this`isEditDialogOpen
      ensures selectedAttribute == Some(a) && isEditDialogOpen
    {
      selectedAttribute := Some(a);
      isEditDialogOpen := true;
    }
  }
}
