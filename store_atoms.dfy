/**
 * The active store selection (src/Atoms/store-atoms.ts): three persisted cells,
 * each under its own storage key, holding the selected store's id, name and logo.
 * An id of 0 means that no store is selected.
 */
module StoreAtoms {
  import opened Wrappers

  /** The storage keys of the three cells. */
  const StoreIdKey: string := "selectedStoreId"
  const StoreNameKey: string := "selectedStoreName"
  const StoreLogoKey: string := "selectedStoreLogo"

  /** The value of the three cells read together. */
  datatype Selection = Selection(id: int, name: string, logo: Option<string>)

  /** The value the cells hold before anything was written: no store. */
  const Unselected: Selection := Selection(0, "", None)

  class StoreSelection {
    var id: int
    var name: string
    var logo: Option<string>

    function Current(): (s: Selection)
      reads this
      ensures s.id == id && s.name == name && s.logo == logo
    {
      Selection(id, name, logo)
    }

    /** Every cell starts at its default: id 0, empty name, no logo. */
    constructor ()
      ensures Current() == Unselected
    {
      id, name, logo := 0, "", None;
    }

    /** Writing one cell leaves the other two as they were. */
    method SetId(v: int)
      modifies this`id
      ensures id == v
    {
      id := v;
    }

    method SetName(v: string)
      modifies this`name
      ensures name == v
    {
      name := v;
    }

    method SetLogo(v: Option<string>)
      modifies this`logo
      ensures logo == v
    {
      logo := v;
    }
  }

  /** The three cells live under three distinct keys. */
  lemma KeysDistinct()
    ensures StoreIdKey != StoreNameKey && StoreIdKey != StoreLogoKey && StoreNameKey != StoreLogoKey
  {
    assert StoreIdKey[13] == 'I' && StoreNameKey[13] == 'N' && StoreLogoKey[13] == 'L';
  }
}
