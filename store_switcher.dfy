/**
 * The store switcher (src/components/store-switcher.tsx): which store is shown as
 * active, how a logo reference becomes an image URL, and the switch action that
 * writes the three selection cells.
 */
module StoreSwitcher {
  import opened Wrappers
  import opened Seqs
  import opened Types
  import opened StoreAtoms

  /** Where relative logo paths are served from. */
  const PublicAssetBase: string := "http://localhost:8001/public"

  predicate IsAbsoluteUrl(logo: string) {
    StartsWith(logo, "http://") || StartsWith(logo, "https://")
  }

  /**
   * `getLogoUrl`: no URL for a missing or empty logo; an absolute http(s) URL as it is;
   * anything else served from the public asset base.
   */
  function GetLogoUrl(logo: Option<string>): (r: Option<string>)
    ensures r.None? <==> logo.None? || logo.value == ""
    ensures r.Some? && IsAbsoluteUrl(logo.value) ==> r.value == logo.value
    ensures r.Some? && !IsAbsoluteUrl(logo.value) ==> r.value == PublicAssetBase + logo.value
    ensures r.Some? ==> IsAbsoluteUrl(r.value) && EndsWith(r.value, logo.value)
  {
    if logo.None? || logo.value == "" then None
    else if IsAbsoluteUrl(logo.value) then
      assert logo.value[|logo.value| - |logo.value|..] == logo.value;
      logo
    else
      var url := PublicAssetBase + logo.value;
      StartsWithConcat(PublicAssetBase, logo.value);
      StartsWithTrans(url, PublicAssetBase, "http://");
      assert url[|url| - |logo.value|..] == logo.value;
      Some(url)
  }

  /** Normalising an already normalised logo changes nothing. */
  lemma GetLogoUrlIdempotent(logo: Option<string>)
    requires GetLogoUrl(logo).Some?
    ensures GetLogoUrl(GetLogoUrl(logo)) == GetLogoUrl(logo)
  {
  }

  /** `stores.find(s => s.id === id)`, as a position: the first store with that id, or -1. */
  function FindIndex(stores: seq<Store>, id: int): (k: int)
    ensures -1 <= k < |stores|
    ensures k == -1 <==> forall i :: 0 <= i < |stores| ==> stores[i].id != id
    ensures 0 <= k ==> stores[k].id == id && forall j :: 0 <= j < k ==> stores[j].id != id
  {
    if stores == [] then -1
    else if stores[0].id == id then 0
    else
      var k := FindIndex(stores[1..], id);
      if k == -1 then -1 else k + 1
  }

  /**
   * The store shown as active: the first store whose id is the selected id; failing
   * that the first store; failing that none.
   */
  function ActiveStore(stores: seq<Store>, selectedId: int): (r: Option<Store>)
    ensures r.None? <==> stores == []
    ensures forall i :: 0 <= i < |stores| && stores[i].id == selectedId && (forall j :: 0 <= j < i ==> stores[j].id != selectedId)
              ==> r == Some(stores[i])
    ensures stores != [] && (forall i :: 0 <= i < |stores| ==> stores[i].id != selectedId) ==> r == Some(stores[0])
  {
    var k := FindIndex(stores, selectedId);
    if k >= 0 then Some(stores[k])
    else if stores != [] then Some(stores[0])
    else None
  }

  /** `handleStoreChanges`: the three cells now describe the chosen store; a store without a logo clears the logo. */
  method HandleStoreChanges(cells: StoreSelection, selected: Store)
    modifies cells
    ensures cells.Current() == Selection(selected.id, selected.name, selected.logo)
  {
    cells.SetId(selected.id);
    cells.SetName(selected.name);
    cells.SetLogo(selected.logo);
  }

  /** After a switch the active store is the chosen one, whenever it is in the list and its id is not shared with an earlier store. */
  lemma SwitchMakesActive(stores: seq<Store>, i: nat)
    requires i < |stores|
    requires forall j :: 0 <= j < i ==> stores[j].id != stores[i].id
    ensures ActiveStore(stores, stores[i].id) == Some(stores[i])
  {
  }
}
