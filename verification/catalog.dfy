/** The static material and colour tables of frontend/src/App.jsx
    (`MATERIALS`, `COLORSLIST`) and the two selection handlers that read
    them. JavaScript objects are association lists here, in the objects'
    key order. */
module Catalog {
  import opened Wrappers

  datatype Material = Material(name: string, density: real, pricePerKg: Option<real>)

  /** One colour of a material, with its display fields. */
  datatype Variant = Variant(
    color: string, color2: string, color3: string,
    opacity: real, finish: string, stock: bool, information: string)

  /** `MATERIALS`: no entry carries a price per kilogram. */
  const Materials: seq<Material> := [
    Material("PLA+ 2.0", 1.24, None),
    Material("PLA+ Silk", 1.24, None),
    Material("PLA Meta", 1.24, None),
    Material("PLA Firefly", 1.24, None),
    Material("PLA Glow in the dark", 1.24, None),
    Material("PLA", 1.24, None),
    Material("TPU", 1.3, None),
    Material("PETG", 1.27, None),
    Material("ASA", 1.07, None)
  ]

  const PlaPlusInfo := "Improved PLA with higher strength and toughness, still not very heat-resistant."

  /** A single-colour variant: the three colour fields agree. */
  function Solid(c: string, opacity: real, finish: string, stock: bool, info: string): Variant
  {
    Variant(c, c, c, opacity, finish, stock, info)
  }

  /** `COLORSLIST`: material name to colour name to variant. */
  const ColorsList: seq<(string, seq<(string, Variant)>)> := [
    ("PLA+ 2.0", [
      ("Black", Solid("#2e2e2e", 1.0, "glossy", false, PlaPlusInfo)),
      ("Off-White", Solid("#e4e6ea", 1.0, "glossy", true, PlaPlusInfo)),
      ("Oak", Solid("#bea98b", 1.0, "glossy", true, PlaPlusInfo)),
      ("Sunny Orange", Solid("#ff8635", 1.0, "glossy", true, PlaPlusInfo)),
      ("Cyan", Solid("#2aa0dc", 1.0, "glossy", true, PlaPlusInfo))]),
    ("PLA+ Silk", [
      ("Bronze", Solid("#e37e63", 1.0, "glossy", true,
        "Silky smooth, slightly metallic finish. Good for decorative prints, "
        + "not as strong as standard PLA+.")),
      ("Gold", Solid("#f8cc36", 1.0, "glossy", true,
        "Silky smooth, slightly metallic finish. Best for display pieces and artistic projects.")),
      ("Red-Yellow-Blue", Variant("#2a1e5b", "#b6447f", "#616214", 1.0, "glossy", true,
        "Color-shifting silk filament. Metallic look, colors will vary when printed. "
        + "More for visuals than strength."))]),
    ("TPU", [
      ("Black", Solid("#454545", 1.0, "satin", true,
        "Flexible and impact-resistant. Great for phone cases, seals, or parts needing bendability.")),
      ("Gray", Solid("#77767d", 1.0, "satin", true,
        "Flexible and durable. Useful for parts that need to bend without breaking."))]),
    ("PLA Firefly", [
      ("Blue", Solid("#00ccff", 0.8, "glossy", true,
        "PLA that glows under UV light. Similar strength to normal PLA, mainly for decorative prints."))]),
    ("PLA Glow in the dark", [
      ("Blue", Variant("#39c5e6", "#eaebdc", "#eaebdc", 1.0, "glossy", true,
        "Glows in the dark after light exposure. Slightly more brittle than regular PLA.")),
      ("Green", Variant("#37dc6e", "#eaebdc", "#eaebdc", 1.0, "glossy", false,
        "Glows in the dark. Fun for display prints, not ideal for functional parts."))]),
    ("PLA Meta", [
      ("Gray", Solid("#707070", 1.0, "satin", true,
        "Special PLA blend with matte finish. Hides layer lines well, but slightly weaker than PLA+."))]),
    ("PLA", [
      ("Green", Solid("#4fb84e", 1.0, "glossy", false,
        "Easy to print, good detail. Decently strong but brittle, weak to UV and heat."))]),
    ("PETG", [
      ("Off-White", Solid("#e5e7eb", 1.0, "glossy", true,
        "Strong and slightly flexible. Good chemical and weather resistance, harder to print than PLA."))]),
    ("ASA", [
      ("Gray", Solid("#787576", 1.0, "glossy", true,
        "Similar to ABS but with strong UV resistance. Great for outdoor parts."))])
  ]

  /** Property access on an object: the value under the first entry with
      that key, or None (`undefined`). */
  function Lookup<V>(table: seq<(string, V)>, key: string): (r: Option<V>)
    ensures r.Some? <==> exists i :: 0 <= i < |table| && table[i].0 == key
    ensures r.Some? ==> exists i :: 0 <= i < |table| && table[i] == (key, r.value)
  {
    if table == [] then None
    else if table[0].0 == key then Some(table[0].1)
    else
      var r := Lookup(table[1..], key);
      assert forall i :: 1 <= i < |table| ==> table[i] == table[1..][i - 1];
      assert r.Some? ==> exists i :: 0 <= i < |table[1..]| && table[1..][i] == (key, r.value);
      r
  }

  function MaterialNamed(name: string): (r: Option<Material>)
    ensures r.Some? ==> r.value.name == name && r.value in Materials
  {
    Lookup(MaterialTable(Materials), name)
  }

  function MaterialTable(ms: seq<Material>): (r: seq<(string, Material)>)
    ensures |r| == |ms|
    ensures forall i :: 0 <= i < |ms| ==> r[i] == (ms[i].name, ms[i])
  {
    seq(|ms|, i requires 0 <= i < |ms| => (ms[i].name, ms[i]))
  }

  function ColoursOf(name: string): Option<seq<(string, Variant)>>
  {
    Lookup(ColorsList, name)
  }

  /** What `selectedcolor` holds: a bare colour name (its initial value) or
      a variant object picked from the table. */
  datatype Selected = ColorName(name: string) | Chosen(variant: Variant)

  /** The selection part of the page state. */
  datatype UiState = UiState(
    material: string, selectedColor: Selected, selectedColor2: string,
    information: string, inStock: bool)

  /** `handleMaterialChange(e)`: select the material and the first colour
      variant listed for it, copying that variant's information and stock
      flag; the colour drop-down value is not touched. A name with no colour
      list (or an empty one) makes the handler throw: None. */
  function HandleMaterialChange(st: UiState, value: string): (r: Option<UiState>)
    ensures r.Some? <==> ColoursOf(value).Some? && ColoursOf(value).value != []
    ensures r.Some? ==>
      var first := ColoursOf(value).value[0].1;
      && r.value.material == value
      && r.value.selectedColor == Chosen(first)
      && r.value.information == first.information
      && r.value.inStock == first.stock
      && r.value.selectedColor2 == st.selectedColor2
  {
    match ColoursOf(value)
    case None => None
    case Some(vs) =>
      if vs == [] then None
      else
        var first := vs[0].1;
        Some(st.(material := value, selectedColor := Chosen(first),
                 information := first.information, inStock := first.stock))
  }

  /** `handleColorChange(e)`: record the colour name and copy the named
      variant of the current material. An unknown name makes the handler
      throw (reading a field of `undefined`): None. */
  function HandleColorChange(st: UiState, value: string): (r: Option<UiState>)
    ensures r.Some? <==>
      ColoursOf(st.material).Some? && Lookup(ColoursOf(st.material).value, value).Some?
    ensures r.Some? ==> r.value.material == st.material && r.value.selectedColor2 == value
  {
    match ColoursOf(st.material)
    case None => None
    case Some(vs) =>
      match Lookup(vs, value)
      case None => None
      case Some(v) =>
        Some(st.(selectedColor2 := value, selectedColor := Chosen(v),
                 information := v.information, inStock := v.stock))
  }

  /** The displayed information and availability belong to the selected
      variant, and that variant is one of the current material's colours. */
  predicate Consistent(st: UiState)
  {
    && st.selectedColor.Chosen?
    && ColoursOf(st.material).Some?
    && (exists i :: 0 <= i < |ColoursOf(st.material).value|
          && ColoursOf(st.material).value[i].1 == st.selectedColor.variant)
    && st.information == st.selectedColor.variant.information
    && st.inStock == st.selectedColor.variant.stock
  }

  /** Consistent, and the colour drop-down shows the selected variant's
      name. */
  predicate Synced(st: UiState)
  {
    && Consistent(st)
    && ColoursOf(st.material).Some?
    && Lookup(ColoursOf(st.material).value, st.selectedColor2) == Some(st.selectedColor.variant)
  }

  /** The first entry with the key is the one a lookup finds. */
  lemma {:induction false} LookupFinds<V>(table: seq<(string, V)>, key: string, i: nat)
    requires i < |table| && table[i].0 == key
    requires forall j :: 0 <= j < i ==> table[j].0 != key
    ensures Lookup(table, key) == Some(table[i].1)
  {
    if i > 0 {
      LookupFinds(table[1..], key, i - 1);
    }
  }

  lemma ColourListsNonEmpty()
    ensures forall j :: 0 <= j < |ColorsList| ==> ColorsList[j].1 != []
  {
  }

  /** Every material offered in the material drop-down has a non-empty
      colour list, so the first-variant pick is always defined. */
  lemma EveryMaterialHasColours(name: string)
    requires MaterialNamed(name).Some?
    ensures ColoursOf(name).Some? && ColoursOf(name).value != []
  {
    var i :| 0 <= i < |Materials| && MaterialTable(Materials)[i] == (name, MaterialNamed(name).value);
    var j := ColourIndex(i);
    assert ColorsList[j].0 == name;
    ColourListsNonEmpty();
  }

  /** Where each material's colour list sits in `COLORSLIST`. */
  function ColourIndex(i: nat): (j: nat)
    requires i < |Materials|
    ensures j < |ColorsList| && ColorsList[j].0 == Materials[i].name
  {
    [0, 1, 5, 3, 4, 6, 2, 7, 8][i]
  }

  /** A material change from the drop-down always succeeds and leaves a
      consistent state. */
  lemma MaterialChangeConsistent(st: UiState, value: string)
    requires MaterialNamed(value).Some?
    ensures HandleMaterialChange(st, value).Some?
    ensures Consistent(HandleMaterialChange(st, value).value)
  {
    EveryMaterialHasColours(value);
    var r := HandleMaterialChange(st, value).value;
    assert ColoursOf(r.material).value[0].1 == r.selectedColor.variant;
  }

  /** A colour change keeps the material and leaves the state synced with
      the drop-down. */
  lemma ColorChangeSynced(st: UiState, value: string)
    requires HandleColorChange(st, value).Some?
    ensures HandleColorChange(st, value).value.material == st.material
    ensures Synced(HandleColorChange(st, value).value)
  {
    var vs := ColoursOf(st.material).value;
    var v := Lookup(vs, value).value;
    var i :| 0 <= i < |vs| && vs[i] == (value, v);
    assert vs[i].1 == v;
  }

  lemma PlaColours()
    ensures ColoursOf("PLA") == Some(ColorsList[6].1)
    ensures Lookup(ColorsList[6].1, "Green") == Some(ColorsList[6].1[0].1)
  {
    LookupFinds(ColorsList, "PLA", 6);
    LookupFinds(ColorsList[6].1, "Green", 0);
  }

  lemma TpuColours()
    ensures ColoursOf("TPU") == Some(ColorsList[2].1)
    ensures Lookup(ColorsList[2].1, "Green").None?
  {
    LookupFinds(ColorsList, "TPU", 2);
    assert ColorsList[2].1[0].0 != "Green" && ColorsList[2].1[1].0 != "Green";
  }

  /** After a material change the colour drop-down keeps its old value,
      which need not name a colour of the new material: from PLA/Green to
      TPU, "Green" is not a TPU colour. */
  lemma MaterialChangeKeepsStaleColourName()
    ensures HandleMaterialChange(InitialState, "TPU").Some?
    ensures HandleMaterialChange(InitialState, "TPU").value.selectedColor2 == "Green"
    ensures ColoursOf("TPU").Some? && Lookup(ColoursOf("TPU").value, "Green").None?
  {
    TpuColours();
  }

  /** The initial page state as written: material PLA, colour "Green",
      PLA/Green's information text, and available. */
  const InitialState: UiState := UiState(
    "PLA", ColorName("Green"), "Green",
    "Easy to print, good detail. Decently strong but brittle, weak to UV and heat.", true)

  /** The written initial state claims availability that the PLA/Green
      variant it describes does not have, and holds a bare name rather than
      the variant. */
  lemma InitialStateInconsistent()
    ensures ColoursOf("PLA").Some? && Lookup(ColoursOf("PLA").value, "Green").Some?
    ensures InitialState.inStock != Lookup(ColoursOf("PLA").value, "Green").value.stock
    ensures !Consistent(InitialState)
  {
    PlaColours();
  }

  /** The initial state as a colour pick of PLA/Green would leave it. */
  const CorrectedInitialState: UiState :=
    var v := Solid("#4fb84e", 1.0, "glossy", false,
      "Easy to print, good detail. Decently strong but brittle, weak to UV and heat.");
    UiState("PLA", Chosen(v), "Green", v.information, v.stock)

  /** The corrected initial state agrees with the table and is exactly what
      picking Green under PLA produces. */
  lemma CorrectedInitialStateSynced()
    ensures Synced(CorrectedInitialState)
    ensures HandleColorChange(CorrectedInitialState, "Green") == Some(CorrectedInitialState)
  {
    PlaColours();
    assert ColorsList[6].1[0].1 == CorrectedInitialState.selectedColor.variant;
  }
}
