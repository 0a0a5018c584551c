/** Product variants: price, stock, and the variation options attached through the pivot table. */
module Variants {
  import opened Base
  import opened Inventory
  import opened Products

  /** The columns of a product variant the storefront logic reads. */
  datatype Variant = Variant(id: int, productId: int, sku: string, variantName: string, priceAdjustment: real)

  /** A variation type such as Color or Size; its slug is unique. */
  datatype VariationType = VariationType(id: int, name: string, slug: string)

  /** One value of a variation type; (typeId, name) is unique. */
  datatype VariationOption = VariationOption(
    id: int, typeId: int, name: string, value: Option<string>, displayOrder: int, isActive: bool)

  /** final_price: the product's final price shifted by the variant's adjustment, not clamped. */
  function VariantFinalPrice(p: Product, v: Variant): (r: real)
    requires p.id == v.productId
    ensures r - v.priceAdjustment == FinalPrice(p)
    ensures v.priceAdjustment <= 0.0 ==> r <= FinalPrice(p)
  {
    FinalPrice(p) + v.priceAdjustment
  }

  /** A large enough negative adjustment gives a negative price. */
  lemma VariantPriceCanBeNegative()
    ensures VariantFinalPrice(Product(1, "p", "P-1", 10.0, None), Variant(2, 1, "P-1-A", "A", -15.0)) < 0.0
  {
  }

  // ---------------------------------------------------------------------------
  // the variant's inventory row

  /** The variant's inventory relation: the first row whose variant_id is the variant's id. */
  function FindVariantRow(rows: seq<Stock>, variantId: int): (r: Option<nat>)
    ensures r.Some? ==> r.value < |rows| && rows[r.value].key.variantId == Some(variantId)
    ensures r.Some? ==> forall j :: 0 <= j < r.value ==> rows[j].key.variantId != Some(variantId)
    ensures r.None? ==> forall j :: 0 <= j < |rows| ==> rows[j].key.variantId != Some(variantId)
  {
    if |rows| == 0 then None
    else if rows[0].key.variantId == Some(variantId) then Some(0)
    else match FindVariantRow(rows[1..], variantId)
      case None => None
      case Some(j) => Some(j + 1)
  }

  function VariantRow(rows: seq<Stock>, v: Variant): Option<Stock>
  {
    match FindVariantRow(rows, v.id)
    case None => None
    case Some(i) => Some(rows[i])
  }

  /** available_quantity: zero without an inventory row, else the row's available quantity. */
  function VariantAvailable(rows: seq<Stock>, v: Variant): (a: int)
    ensures a >= 0
    ensures VariantRow(rows, v).None? ==> a == 0
    ensures VariantRow(rows, v).Some? ==> a == AvailableQuantity(VariantRow(rows, v).value)
  {
    match VariantRow(rows, v)
    case None => 0
    case Some(s) => AvailableQuantity(s)
  }

  /** isInStock: false without an inventory row, else whether anything is available. */
  predicate VariantInStock(rows: seq<Stock>, v: Variant)
  {
    match VariantRow(rows, v)
    case None => false
    case Some(s) => AvailableQuantity(s) > 0
  }

  /** A variant is in stock exactly when its available quantity is positive. */
  lemma VariantInStockIffAvailable(rows: seq<Stock>, v: Variant)
    ensures VariantInStock(rows, v) <==> VariantAvailable(rows, v) > 0
  {
  }

  /** The variant check ignores the tracking flag that the row's own isInStock honours. */
  lemma VariantStockIgnoresTracking()
    ensures var row := Stock(StockKey(1, Some(2)), 0, 0, 10, false);
            Inventory.IsInStock(row) && !VariantInStock([row], Variant(2, 1, "S", "S", 0.0))
  {
  }

  /**
   * When every row naming the variant belongs to the variant's product (the foreign keys
   * the admin forms create), the variant's row is the row keyed (product, variant).
   */
  lemma {:induction false} VariantRowIsKeyedRow(rows: seq<Stock>, v: Variant)
    requires forall i :: 0 <= i < |rows| && rows[i].key.variantId == Some(v.id) ==> rows[i].key.productId == v.productId
    ensures VariantRow(rows, v) == RowFor(rows, StockKey(v.productId, Some(v.id)))
  {
    if |rows| > 0 && rows[0].key.variantId != Some(v.id) {
      VariantRowIsKeyedRow(rows[1..], v);
      assert VariantRow(rows, v) == VariantRow(rows[1..], v);
      assert RowFor(rows, StockKey(v.productId, Some(v.id))) == RowFor(rows[1..], StockKey(v.productId, Some(v.id)));
    }
  }

  // ---------------------------------------------------------------------------
  // variation_attributes

  /** One of the variant's options together with its variation type. */
  datatype OptionEntry = OptionEntry(vtype: VariationType, option: VariationOption)

  /** One entry of variation_attributes. */
  datatype Attribute = Attribute(typeName: string, valueName: string, valueData: Option<string>)

  function AttributeOf(e: OptionEntry): Attribute
  {
    Attribute(e.vtype.name, e.option.name, e.option.value)
  }

  /** The dictionary the loop builds: entries keyed by type slug, a later option overwriting an earlier one. */
  function AttributesOf(entries: seq<OptionEntry>): map<string, Attribute>
  {
    if |entries| == 0 then map[]
    else
      var last := entries[|entries| - 1];
      AttributesOf(entries[..|entries| - 1])[last.vtype.slug := AttributeOf(last)]
  }

  /** There is exactly one entry per type slug present among the options. */
  lemma {:induction false} AttributesKeys(entries: seq<OptionEntry>)
    ensures AttributesOf(entries).Keys == set e | e in entries :: e.vtype.slug
  {
    if |entries| > 0 {
      var init := entries[..|entries| - 1];
      AttributesKeys(init);
      assert entries == init + [entries[|entries| - 1]];
    }
  }

  /** Each slug maps to the attribute of the last option of that type. */
  lemma {:induction false} AttributesLastWins(entries: seq<OptionEntry>, i: nat)
    requires i < |entries|
    requires forall j :: i < j < |entries| ==> entries[j].vtype.slug != entries[i].vtype.slug
    ensures entries[i].vtype.slug in AttributesOf(entries)
    ensures AttributesOf(entries)[entries[i].vtype.slug] == AttributeOf(entries[i])
  {
    if i < |entries| - 1 {
      var init := entries[..|entries| - 1];
      AttributesLastWins(init, i);
    }
  }

  /** getVariationAttributesAttribute, as the loop the source writes. */
  method VariationAttributes(entries: seq<OptionEntry>) returns (attributes: map<string, Attribute>)
    ensures attributes == AttributesOf(entries)
  {
    attributes := map[];
    var i := 0;
    while i < |entries|
      invariant 0 <= i <= |entries|
      invariant attributes == AttributesOf(entries[..i])
    {
      var e := entries[i];
      attributes := attributes[e.vtype.slug := Attribute(e.vtype.name, e.option.name, e.option.value)];
      assert entries[..i + 1][..i] == entries[..i];
      i := i + 1;
    }
    assert entries[..i] == entries;
  }

  // ---------------------------------------------------------------------------
  // the product_variant_options pivot

  /** One pivot row: the variant takes this option for this variation type. */
  datatype Assignment = Assignment(variantId: int, typeId: int, optionId: int)

  /** The pivot's unique index: one option per (variant, type). */
  ghost predicate OneOptionPerType(rows: seq<Assignment>)
  {
    forall i, j :: 0 <= i < j < |rows| ==>
      rows[i].variantId != rows[j].variantId || rows[i].typeId != rows[j].typeId
  }

  /** The pivot after deleting the variant's row for one type. */
  function WithoutType(rows: seq<Assignment>, variantId: int, typeId: int): (r: seq<Assignment>)
    ensures forall a :: a in r <==> a in rows && (a.variantId != variantId || a.typeId != typeId)
    ensures OneOptionPerType(rows) ==> OneOptionPerType(r)
  {
    if |rows| == 0 then []
    else
      var rest := WithoutType(rows[1..], variantId, typeId);
      if rows[0].variantId == variantId && rows[0].typeId == typeId then rest
      else
        assert OneOptionPerType(rows) ==> forall a :: a in rest ==> a.variantId != rows[0].variantId || a.typeId != rows[0].typeId;
        [rows[0]] + rest
  }

  /** The option the pivot assigns to (variant, type), if any. */
  function OptionFor(rows: seq<Assignment>, variantId: int, typeId: int): Option<int>
  {
    if |rows| == 0 then None
    else if rows[0].variantId == variantId && rows[0].typeId == typeId then Some(rows[0].optionId)
    else OptionFor(rows[1..], variantId, typeId)
  }

  /** Under the unique index, the pivot assigns an option exactly when it holds that row. */
  lemma {:induction false} OptionForFindsRow(rows: seq<Assignment>, a: Assignment)
    requires OneOptionPerType(rows) && a in rows
    ensures OptionFor(rows, a.variantId, a.typeId) == Some(a.optionId)
  {
    if rows[0] != a {
      assert a in rows[1..];
      assert OneOptionPerType(rows[1..]) by {
        forall i, j | 0 <= i < j < |rows| - 1
          ensures rows[1..][i].variantId != rows[1..][j].variantId || rows[1..][i].typeId != rows[1..][j].typeId
        {
          assert rows[1..][i] == rows[i + 1] && rows[1..][j] == rows[j + 1];
        }
      }
      OptionForFindsRow(rows[1..], a);
      var k :| 1 <= k < |rows| && rows[k] == a;
      assert rows[0].variantId != a.variantId || rows[0].typeId != a.typeId;
    }
  }

  class VariantOptionTable {
    var rows: seq<Assignment>

    ghost predicate Valid()
      reads this
    {
      OneOptionPerType(rows)
    }

    constructor ()
      ensures rows == [] && Valid()
    {
      rows := [];
    }

    /**
     * setVariationOption: delete the variant's row for the type, then insert the new one.
     * Afterwards the type has exactly the new option and every other row is kept.
     */
    method SetVariationOption(variantId: int, typeId: int, optionId: int)
      requires Valid()
      modifies this
      ensures Valid()
      ensures forall a :: a in rows <==>
                a == Assignment(variantId, typeId, optionId) ||
                (a in old(rows) && (a.variantId != variantId || a.typeId != typeId))
      ensures OptionFor(rows, variantId, typeId) == Some(optionId)
    {
      var kept := WithoutType(rows, variantId, typeId);
      rows := kept + [Assignment(variantId, typeId, optionId)];
      OptionForFindsRow(rows, Assignment(variantId, typeId, optionId));
    }
  }
}
