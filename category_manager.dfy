/**
 * The local category editor (src/components/features/categoryManager.tsx): categories kept in
 * component state, one selected category, and a draft attribute that `handleAddAttribute`
 * appends to the selected category.
 */
module CategoryManager {
  import opened Wrappers
  import opened Types

  /** The component's own attribute record (declared locally, not the shared one). */
  datatype ManagerAttribute = ManagerAttribute(
    id: int, attributeName: string, attributeType: AttributeType, isRequired: bool,
    possibleValues: Option<seq<string>>)

  datatype ManagerCategory = ManagerCategory(id: int, name: string, attributes: seq<ManagerAttribute>)

  /** The partial attribute being typed: the name may be missing, type and flag are always set. */
  datatype Draft = Draft(attributeName: Option<string>, attributeType: AttributeType, isRequired: bool)

  /** The draft's starting and reset value: type text, not required, no name. */
  const EmptyDraft := Draft(None, Text, false)

  /** The add button's guard: a category is selected and the draft has a non-empty name. */
  predicate CanAdd(selected: Option<ManagerCategory>, draft: Draft) {
    selected.Some? && draft.attributeName.Some? && draft.attributeName.value != ""
  }

  /**
   * The selected category with one more attribute at the end, built from the draft and a fresh id;
   * everything else about the category stays.
   */
  function WithAttribute(cat: ManagerCategory, freshId: int, draft: Draft): (r: ManagerCategory)
    requires draft.attributeName.Some?
    ensures r.id == cat.id && r.name == cat.name
    ensures |r.attributes| == |cat.attributes| + 1
    ensures r.attributes[..|cat.attributes|] == cat.attributes
    ensures r.attributes[|cat.attributes|]
            == ManagerAttribute(freshId, draft.attributeName.value, draft.attributeType, draft.isRequired, None)
  {
    var added := ManagerAttribute(freshId, draft.attributeName.value, draft.attributeType, draft.isRequired, None);
    cat.(attributes := cat.attributes + [added])
  }

  /** Replace every entry whose id is `updated.id` by `updated`; length, order and other entries stay. */
  function ReplaceById(cats: seq<ManagerCategory>, updated: ManagerCategory): (r: seq<ManagerCategory>)
    ensures |r| == |cats|
    ensures forall i :: 0 <= i < |cats| && cats[i].id == updated.id ==> r[i] == updated
    ensures forall i :: 0 <= i < |cats| && cats[i].id != updated.id ==> r[i] == cats[i]
    ensures forall i :: 0 <= i < |cats| ==> r[i].id == cats[i].id
    decreases |cats|
  {
    if cats == [] then []
    else [if cats[0].id == updated.id then updated else cats[0]] + ReplaceById(cats[1..], updated)
  }

  /** A category present in the list is found in its updated form after the replacement. */
  lemma {:induction false} ReplacedIsListed(cats: seq<ManagerCategory>, updated: ManagerCategory)
    requires exists c :: c in cats && c.id == updated.id
    ensures updated in ReplaceById(cats, updated)
  {
    var c :| c in cats && c.id == updated.id;
    var i :| 0 <= i < |cats| && cats[i] == c;
    assert ReplaceById(cats, updated)[i] == updated;
  }

  /** Replacing with a category whose id is not listed changes nothing. */
  lemma ReplaceUnlistedIsIdentity(cats: seq<ManagerCategory>, updated: ManagerCategory)
    requires forall c :: c in cats ==> c.id != updated.id
    ensures ReplaceById(cats, updated) == cats
  {
    var r := ReplaceById(cats, updated);
    forall i | 0 <= i < |cats| ensures r[i] == cats[i] {
      assert cats[i] in cats;
    }
  }

  class Manager {
    var categories: seq<ManagerCategory>
    var selectedCategory: Option<ManagerCategory>
    var newAttribute: Draft

    constructor ()
      ensures categories == [] && selectedCategory.None? && newAttribute == EmptyDraft
    {
      categories, selectedCategory, newAttribute := [], None, EmptyDraft;
    }

    /** Clicking a category in the list selects it. */
    method Select(c: ManagerCategory)
      modifies this`selectedCategory
      ensures selectedCategory == Some(c)
    {
      selectedCategory := Some(c);
    }

    /** The draft's inputs: each overwrites one field and keeps the others. */
    method SetDraftName(name: string)
      modifies this`newAttribute
      ensures newAttribute == old(newAttribute).(attributeName := Some(name))
    {
      newAttribute := newAttribute.(attributeName := Some(name));
    }

    method SetDraftType(t: AttributeType)
      modifies this`newAttribute
      ensures newAttribute == old(newAttribute).(attributeType := t)
    {
      newAttribute := newAttribute.(attributeType := t);
    }

    method SetDraftRequired(required: bool)
      modifies this`newAttribute
      ensures newAttribute == old(newAttribute).(isRequired := required)
    {
      newAttribute := newAttribute.(isRequired := required);
    }

    /**
     * `handleAddAttribute`: without a selected category or a draft name nothing changes; otherwise the
     * selected category gains the draft as its last attribute, replaces its entry in the list, stays
     * selected in its new form, and the draft resets.
     */
    method HandleAddAttribute(freshId: int)
      modifies this`categories, this`selectedCategory, this`newAttribute
      ensures !CanAdd(old(selectedCategory), old(newAttribute)) ==>
                categories == old(categories) && selectedCategory == old(selectedCategory)
                && newAttribute == old(newAttribute)
      ensures CanAdd(old(selectedCategory), old(newAttribute)) ==>
                var updated := WithAttribute(old(selectedCategory).value, freshId, old(newAttribute));
                categories == ReplaceById(old(categories), updated)
                && selectedCategory == Some(updated)
                && newAttribute == EmptyDraft
    {
      if !CanAdd(selectedCategory, newAttribute) {
        return;
      }
      var updated := WithAttribute(selectedCategory.value, freshId, newAttribute);
      categories := ReplaceById(categories, updated);
      selectedCategory := Some(updated);
      newAttribute := EmptyDraft;
    }
  }
}
