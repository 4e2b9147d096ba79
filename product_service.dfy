/** The product service over in-memory product, option, option-value and
    variant tables: creating a product with its standard options and its
    variants, updating it, and deleting it with everything that hangs off
    it (the foreign keys cascade on delete). */
module ProductService {
  import opened Wrappers
  import opened JvmInt
  import opened Products
  import opened VariantTables

  const NOT_FOUND: string := "Product not found"

  /** getStandardColors */
  function StandardColors(): (r: seq<string>)
    ensures |r| == 7
    ensures forall i, j :: 0 <= i < j < |r| ==> r[i] != r[j]
  {
    ["Black", "White", "Red", "Blue", "Green", "Beige", "Dark Blue"]
  }

  /** getStandardSizes */
  function StandardSizes(): (r: seq<string>)
    ensures |r| == 7
    ensures forall i, j :: 0 <= i < j < |r| ==> r[i] != r[j]
  {
    ["XXS", "XS", "S", "M", "L", "XL", "XXL"]
  }

  /** The two standard option names, in position order. */
  const STANDARD_OPTION_NAMES: seq<string> := ["color", "size"]

  /** getStandardProductOptions: what the form offers before anything is saved. */
  function GetStandardProductOptions(): (r: seq<ProductOptionPayload>)
    ensures |r| == |STANDARD_OPTION_NAMES|
    ensures forall i :: 0 <= i < |r| ==> r[i].name == STANDARD_OPTION_NAMES[i]
  {
    [ProductOptionPayload("color", StandardColors()), ProductOptionPayload("size", StandardSizes())]
  }

  /** `names.mapIndexed { position, name -> … }` saved in order: one value
      of the option per name, at the name's index, with consecutive ids. */
  function OptionValues(firstId: int, optionId: int, names: seq<string>): (r: seq<ProductOptionValue>)
    ensures |r| == |names|
    ensures forall i :: 0 <= i < |names| ==>
      r[i].id == firstId + i && r[i].productOptionId == optionId && r[i].value == names[i] && r[i].position == i
  {
    seq(|names|, i requires 0 <= i < |names| => ProductOptionValue(firstId + i, optionId, names[i], i))
  }

  /** The values of one option, in table order. */
  function ValuesOf(values: seq<ProductOptionValue>, optionId: int): (r: seq<ProductOptionValue>)
    ensures forall i :: 0 <= i < |r| ==> r[i].productOptionId == optionId
  {
    if values == [] then []
    else ValuesOf(values[..|values| - 1], optionId)
         + (if values[|values| - 1].productOptionId == optionId then [values[|values| - 1]] else [])
  }

  lemma {:induction false} ValuesOfAppend(a: seq<ProductOptionValue>, b: seq<ProductOptionValue>, optionId: int)
    ensures ValuesOf(a + b, optionId) == ValuesOf(a, optionId) + ValuesOf(b, optionId)
  {
    if b != [] {
      assert (a + b)[..|a + b| - 1] == a + b[..|b| - 1];
      ValuesOfAppend(a, b[..|b| - 1], optionId);
    } else {
      assert a + b == a;
    }
  }

  lemma {:induction false} ValuesOfAll(values: seq<ProductOptionValue>, optionId: int)
    requires forall i :: 0 <= i < |values| ==> values[i].productOptionId == optionId
    ensures ValuesOf(values, optionId) == values
  {
    if values != [] {
      ValuesOfAll(values[..|values| - 1], optionId);
    }
  }

  lemma {:induction false} ValuesOfNone(values: seq<ProductOptionValue>, optionId: int)
    requires forall i :: 0 <= i < |values| ==> values[i].productOptionId != optionId
    ensures ValuesOf(values, optionId) == []
  {
    if values != [] {
      ValuesOfNone(values[..|values| - 1], optionId);
    }
  }

  /** Options that belong to other products. */
  function OptionsNotOf(options: seq<ProductOption>, productId: int): (r: seq<ProductOption>)
    ensures forall i :: 0 <= i < |r| ==> r[i] in options && r[i].productId != productId
  {
    if options == [] then []
    else OptionsNotOf(options[..|options| - 1], productId)
         + (if options[|options| - 1].productId != productId then [options[|options| - 1]] else [])
  }

  /** The ids of the product's options. */
  function OptionIdsOf(options: seq<ProductOption>, productId: int): set<int> {
    set i | 0 <= i < |options| && options[i].productId == productId :: options[i].id
  }

  /** Option values whose option is not among the given ids. */
  function ValuesNotUnder(values: seq<ProductOptionValue>, optionIds: set<int>): (r: seq<ProductOptionValue>)
    ensures forall i :: 0 <= i < |r| ==> r[i] in values && r[i].productOptionId !in optionIds
  {
    if values == [] then []
    else ValuesNotUnder(values[..|values| - 1], optionIds)
         + (if values[|values| - 1].productOptionId !in optionIds then [values[|values| - 1]] else [])
  }

  /** createVariants: a product without variants but with a SKU gets one
      default variant (price and stock 0 when absent, no options); otherwise
      every variant payload is upserted by (product, option map). */
  function CreateVariantsResult(t: VariantTable, productId: int, request: CreateProductPayload): VariantTable {
    if !request.hasVariants && request.productSku.Some? then
      Insert(t, productId, request.productSku.value, request.productPriceCents.GetOr(0),
             request.productStockQty.GetOr(0), map[])
    else
      UpsertAll(t, productId, request.variants)
  }

  /** The variant side of updateProduct: a product without variants but
      with a SKU has all its variants replaced by one default variant;
      otherwise the variant updates are applied in order. */
  function UpdateVariantsResult(t: VariantTable, productId: int, request: UpdateProductPayload): VariantTable {
    if !request.hasVariants && request.productSku.Some? then
      ReplaceRows(t, productId, request.productSku.value,
                  request.productPriceCents.GetOr(0), request.productStockQty.GetOr(0))
    else
      ApplyUpdates(t, productId, request.variants)
  }

  /** A new product (one no row refers to yet) created without variants but
      with a SKU has exactly one variant: the default one. */
  lemma NewProductDefaultVariant(t: VariantTable, productId: int, request: CreateProductPayload)
    requires forall i :: 0 <= i < |t.rows| ==> t.rows[i].productId != productId
    requires !request.hasVariants && request.productSku.Some?
    ensures RowsOf(CreateVariantsResult(t, productId, request).rows, productId)
      == [Variant(t.nextId, productId, request.productSku.value, request.productPriceCents.GetOr(0),
                  request.productStockQty.GetOr(0), map[], false)]
  {
    var v := Variant(t.nextId, productId, request.productSku.value, request.productPriceCents.GetOr(0),
                     request.productStockQty.GetOr(0), map[], false);
    RowsOfAppend(t.rows, [v], productId);
    RowsOfNone(t.rows, productId);
    assert [v][..0] == [];
  }

  /** For a new product created from variant payloads, no two of its
      variants share an option map, and each option map the payloads carry
      is one row holding the first SKU, the last price and the summed stock. */
  lemma NewProductVariantsCollapse(t: VariantTable, productId: int, request: CreateProductPayload,
                                   optionMap: map<string, string>)
    requires forall i :: 0 <= i < |t.rows| ==> t.rows[i].productId != productId
    requires request.hasVariants || request.productSku.None?
    ensures KeysUnique(CreateVariantsResult(t, productId, request).rows, productId)
    ensures Collapsed(CreateVariantsResult(t, productId, request).rows, productId, request.variants, optionMap)
  {
    UpsertAllKeepsKeysUnique(t, productId, request.variants);
    CollapsedRow(t, productId, request.variants, optionMap);
  }

  /** After the replace-all path of updateProduct, the product has exactly
      its one default variant, and every other product's variants are kept
      in order. */
  lemma UpdateLeavesSingleVariant(t: VariantTable, productId: int, request: UpdateProductPayload)
    requires !request.hasVariants && request.productSku.Some?
    ensures RowsOf(UpdateVariantsResult(t, productId, request).rows, productId)
      == [Variant(t.nextId, productId, request.productSku.value, request.productPriceCents.GetOr(0),
                  request.productStockQty.GetOr(0), map[], false)]
    ensures UpdateVariantsResult(t, productId, request).rows[..|OtherRows(t.rows, productId)|]
      == OtherRows(t.rows, productId)
  {
    var v := Variant(t.nextId, productId, request.productSku.value, request.productPriceCents.GetOr(0),
                     request.productStockQty.GetOr(0), map[], false);
    RowsOfAppend(OtherRows(t.rows, productId), [v], productId);
    RowsOfOtherRows(t.rows, productId);
    assert [v][..0] == [];
  }

  ghost predicate ProductsValid(products: map<int, Product>, nextId: int) {
    forall id :: id in products ==> products[id].id == id && 1 <= id < nextId
  }

  ghost predicate OptionsValid(options: seq<ProductOption>, products: set<int>, nextId: int) {
    forall i :: 0 <= i < |options| ==> options[i].productId in products && 1 <= options[i].id < nextId
  }

  ghost predicate ValuesValid(values: seq<ProductOptionValue>, nextId: int, nextOptionId: int) {
    forall i :: 0 <= i < |values| ==> 1 <= values[i].id < nextId && values[i].productOptionId < nextOptionId
  }

  lemma OptionsNotOfValid(options: seq<ProductOption>, productId: int, products: set<int>, nextId: int)
    requires OptionsValid(options, products, nextId)
    ensures OptionsValid(OptionsNotOf(options, productId), products - {productId}, nextId)
  {
    var r := OptionsNotOf(options, productId);
    forall i | 0 <= i < |r| ensures r[i].productId in products - {productId} && 1 <= r[i].id < nextId {
      assert r[i] in options;
    }
  }

  lemma ValuesNotUnderValid(values: seq<ProductOptionValue>, optionIds: set<int>, nextId: int, nextOptionId: int)
    requires ValuesValid(values, nextId, nextOptionId)
    ensures ValuesValid(ValuesNotUnder(values, optionIds), nextId, nextOptionId)
  {
    var r := ValuesNotUnder(values, optionIds);
    forall i | 0 <= i < |r| ensures 1 <= r[i].id < nextId && r[i].productOptionId < nextOptionId {
      assert r[i] in values;
    }
  }

  /** The catalogue: the four tables with their identifier counters. */
  class ProductService {
    var products: map<int, Product>
    var nextProductId: int
    var options: seq<ProductOption>
    var nextOptionId: int
    var optionValues: seq<ProductOptionValue>
    var nextValueId: int
    var variants: seq<Variant>
    var nextVariantId: int

    function VariantState(): VariantTable
      reads this
    {
      VariantTable(variants, nextVariantId)
    }

    /** Generated identifiers, and every variant and option belongs to a
        stored product. */
    ghost predicate Valid()
      reads this
    {
      && nextProductId >= 1 && nextOptionId >= 1 && nextValueId >= 1 && nextVariantId >= 1
      && ProductsValid(products, nextProductId)
      && TableValid(VariantState())
      && ProductIdsIn(variants, products.Keys)
      && OptionsValid(options, products.Keys, nextOptionId)
      && ValuesValid(optionValues, nextValueId, nextOptionId)
    }

    constructor ()
      ensures Valid() && products == map[] && options == [] && optionValues == [] && variants == []
    {
      products := map[];
      nextProductId := 1;
      options := [];
      nextOptionId := 1;
      optionValues := [];
      nextValueId := 1;
      variants := [];
      nextVariantId := 1;
    }

    /** createStandardProductOptionsWithValues: "color" at position 0 and
        "size" at position 1, then the seven colours and the seven sizes as
        their values, at positions 0..6 in list order. */
    method CreateStandardProductOptionsWithValues(productId: int)
      requires Valid() && productId in products
      modifies this`options, this`nextOptionId, this`optionValues, this`nextValueId
      ensures Valid()
      ensures options == old(options) + [ProductOption(old(nextOptionId), productId, "color", 0),
                                         ProductOption(old(nextOptionId) + 1, productId, "size", 1)]
      ensures optionValues == old(optionValues)
                              + OptionValues(old(nextValueId), old(nextOptionId), StandardColors())
                              + OptionValues(old(nextValueId) + 7, old(nextOptionId) + 1, StandardSizes())
      ensures nextOptionId == old(nextOptionId) + 2 && nextValueId == old(nextValueId) + 14
    {
      var colorOption := ProductOption(nextOptionId, productId, "color", 0);
      var sizeOption := ProductOption(nextOptionId + 1, productId, "size", 1);
      options := options + [colorOption, sizeOption];
      nextOptionId := nextOptionId + 2;
      var colorValues := OptionValues(nextValueId, colorOption.id, StandardColors());
      var sizeValues := OptionValues(nextValueId + 7, sizeOption.id, StandardSizes());
      optionValues := optionValues + colorValues + sizeValues;
      nextValueId := nextValueId + 14;
    }

    /** createVariants, one payload at a time against the table as it
        stands (a payload sees the rows the earlier ones inserted). */
    method CreateVariants(productId: int, request: CreateProductPayload)
      requires Valid() && productId in products
      modifies this`variants, this`nextVariantId
      ensures Valid()
      ensures VariantState() == CreateVariantsResult(old(VariantState()), productId, request)
    {
      if !request.hasVariants && request.productSku.Some? {
        InsertKeepsValid(VariantState(), productId, request.productSku.value,
                         request.productPriceCents.GetOr(0), request.productStockQty.GetOr(0), map[]);
        variants := variants + [Variant(nextVariantId, productId, request.productSku.value,
                                        request.productPriceCents.GetOr(0), request.productStockQty.GetOr(0),
                                        map[], false)];
        nextVariantId := nextVariantId + 1;
      } else {
        ghost var before := VariantState();
        var ps := request.variants;
        var i := 0;
        while i < |ps|
          invariant 0 <= i <= |ps|
          invariant VariantState() == UpsertAll(before, productId, ps[..i])
        {
          var p := ps[i];
          assert ps[..i + 1][..i] == ps[..i];
          var existing := FindVariant(variants, productId, p.optionCombination);
          if existing.Some? {
            var v := variants[existing.value];
            v := v.(stockQty := AddInt32(v.stockQty, p.stockQty));
            v := v.(priceCents := p.priceCents);
            variants := variants[existing.value := v];
          } else {
            variants := variants + [Variant(nextVariantId, productId, p.sku, p.priceCents, p.stockQty,
                                            p.optionCombination, false)];
            nextVariantId := nextVariantId + 1;
          }
          i := i + 1;
        }
        assert ps[..i] == ps;
        UpsertAllKeepsValid(before, productId, ps);
        UpsertAllKeepsProductIds(before, productId, ps, products.Keys);
      }
    }

    /** createProduct: save the product, then its standard options, then
        its variants. */
    method CreateProduct(request: CreateProductPayload) returns (saved: Product)
      requires Valid()
      modifies this
      ensures Valid()
      ensures saved == Product(old(nextProductId), request.name, request.description, request.hasVariants)
      ensures saved.id !in old(products) && products == old(products)[saved.id := saved]
      ensures nextProductId == old(nextProductId) + 1
      ensures options == old(options) + [ProductOption(old(nextOptionId), saved.id, "color", 0),
                                         ProductOption(old(nextOptionId) + 1, saved.id, "size", 1)]
      ensures optionValues == old(optionValues)
                              + OptionValues(old(nextValueId), old(nextOptionId), StandardColors())
                              + OptionValues(old(nextValueId) + 7, old(nextOptionId) + 1, StandardSizes())
      ensures nextOptionId == old(nextOptionId) + 2 && nextValueId == old(nextValueId) + 14
      ensures VariantState() == CreateVariantsResult(old(VariantState()), saved.id, request)
      ensures forall i :: 0 <= i < |old(variants)| ==> old(variants)[i].productId != saved.id
    {
      saved := Product(nextProductId, request.name, request.description, request.hasVariants);
      products := products[saved.id := saved];
      nextProductId := nextProductId + 1;
      CreateStandardProductOptionsWithValues(saved.id);
      CreateVariants(saved.id, request);
    }

    /** processVariantUpdates, one entry at a time. */
    method ProcessVariantUpdates(productId: int, updates: seq<UpdateVariantPayload>)
      requires Valid() && productId in products
      modifies this`variants, this`nextVariantId
      ensures Valid()
      ensures VariantState() == ApplyUpdates(old(VariantState()), productId, updates)
    {
      ghost var before := VariantState();
      var i := 0;
      while i < |updates|
        invariant 0 <= i <= |updates|
        invariant VariantState() == ApplyUpdates(before, productId, updates[..i])
      {
        assert updates[..i + 1][..i] == updates[..i];
        ProcessVariantUpdate(productId, updates[i]);
        i := i + 1;
      }
      assert updates[..i] == updates;
      ApplyUpdatesKeepsValid(before, productId, updates);
      ApplyUpdatesKeepsProductIds(before, productId, updates, products.Keys);
    }

    /** One entry of processVariantUpdates. */
    method ProcessVariantUpdate(productId: int, u: UpdateVariantPayload)
      modifies this`variants, this`nextVariantId
      ensures VariantState() == ApplyUpdate(old(VariantState()), productId, u)
    {
      if u.deleted && u.id.Some? {
        variants := RemoveId(variants, u.id.value);
      } else if u.id.Some? && !u.deleted {
        var existing := IndexOfId(variants, u.id.value);
        if existing.Some? {
          var v := variants[existing.value];
          v := v.(stockQty := u.stockQty);
          variants := variants[existing.value := v];
        }
      } else if u.id.None? && !u.deleted {
        variants := variants + [Variant(nextVariantId, productId, u.sku, u.priceCents, u.stockQty,
                                        u.optionCombination, false)];
        nextVariantId := nextVariantId + 1;
      }
    }

    /** The single-variant path of updateProduct: the product's variants are
        deleted and one default variant takes their place. */
    method ReplaceWithDefaultVariant(productId: int, sku: string, priceCents: int32, stockQty: int32)
      requires Valid() && productId in products
      modifies this`variants, this`nextVariantId
      ensures Valid()
      ensures VariantState() == ReplaceRows(old(VariantState()), productId, sku, priceCents, stockQty)
    {
      ReplaceRowsKeepsValid(VariantState(), productId, sku, priceCents, stockQty, products.Keys);
      variants := OtherRows(variants, productId);
      variants := variants + [Variant(nextVariantId, productId, sku, priceCents, stockQty, map[], false)];
      nextVariantId := nextVariantId + 1;
    }

    /** updateProduct: a missing product fails and changes nothing;
        otherwise its fields are replaced and its variants either replaced
        by one default variant or updated entry by entry. Options stay. */
    method UpdateProduct(productId: int, request: UpdateProductPayload) returns (r: Result<Product, string>)
      requires Valid()
      modifies this`products, this`variants, this`nextVariantId
      ensures Valid()
      ensures r.Failure? <==> productId !in old(products)
      ensures r.Failure? ==> r.error == NOT_FOUND && products == old(products) && VariantState() == old(VariantState())
      ensures r.Success? ==>
        && r.value == Product(productId, request.name, request.description, request.hasVariants)
        && products == old(products)[productId := r.value]
        && VariantState() == UpdateVariantsResult(old(VariantState()), productId, request)
    {
      if productId !in products {
        return Failure(NOT_FOUND);
      }
      var product := products[productId];
      product := product.(name := request.name, description := request.description);
      product := product.(hasVariants := request.hasVariants);
      if !request.hasVariants && request.productSku.Some? {
        ReplaceWithDefaultVariant(productId, request.productSku.value,
                                  request.productPriceCents.GetOr(0), request.productStockQty.GetOr(0));
      } else {
        ProcessVariantUpdates(productId, request.variants);
      }
      assert product.id == productId;
      products := products[productId := product];
      return Success(product);
    }

    /** deleteProduct: a missing product fails and changes nothing;
        otherwise the product goes, and the cascade takes its variants, its
        options and those options' values. */
    method DeleteProduct(productId: int) returns (r: Outcome<string>)
      requires Valid()
      modifies this`products, this`variants, this`options, this`optionValues
      ensures Valid()
      ensures r.Fail? <==> productId !in old(products)
      ensures r.Fail? ==>
        && r.error == NOT_FOUND && products == old(products)
        && variants == old(variants) && options == old(options) && optionValues == old(optionValues)
      ensures r.Pass? ==>
        && products == old(products) - {productId}
        && variants == OtherRows(old(variants), productId)
        && options == OptionsNotOf(old(options), productId)
        && optionValues == ValuesNotUnder(old(optionValues), OptionIdsOf(old(options), productId))
    {
      if productId !in products {
        return Fail(NOT_FOUND);
      }
      OtherRowsKeepsValid(VariantState(), productId);
      OtherRowsProductIds(variants, productId, products.Keys);
      OptionsNotOfValid(options, productId, products.Keys, nextOptionId);
      var removedOptions := OptionIdsOf(options, productId);
      products := products - {productId};
      variants := OtherRows(variants, productId);
      ValuesNotUnderValid(optionValues, removedOptions, nextValueId, nextOptionId);
      optionValues := ValuesNotUnder(optionValues, removedOptions);
      options := OptionsNotOf(options, productId);
      return Pass;
    }
  }

  /** The standard options a new product is given are the ones
      getStandardProductOptions offers: the same names at the same
      positions, and under each exactly the offered values at their list
      positions. */
  lemma StandardOptionsAsOffered(before: seq<ProductOptionValue>, firstValueId: int, colorId: int)
    requires forall i :: 0 <= i < |before| ==> before[i].productOptionId < colorId
    ensures var stored := before + OptionValues(firstValueId, colorId, StandardColors())
                                 + OptionValues(firstValueId + 7, colorId + 1, StandardSizes());
      && ValuesOf(stored, colorId) == OptionValues(firstValueId, colorId, GetStandardProductOptions()[0].values)
      && ValuesOf(stored, colorId + 1) == OptionValues(firstValueId + 7, colorId + 1, GetStandardProductOptions()[1].values)
  {
    var colors := OptionValues(firstValueId, colorId, StandardColors());
    var sizes := OptionValues(firstValueId + 7, colorId + 1, StandardSizes());
    TwoOptionsStored(before, colors, sizes, colorId);
  }

  /** The values stored for two new options after the existing ones: under
      each option id comes back exactly what was saved for it. */
  lemma TwoOptionsStored(before: seq<ProductOptionValue>, first: seq<ProductOptionValue>,
                         second: seq<ProductOptionValue>, firstId: int)
    requires forall i :: 0 <= i < |before| ==> before[i].productOptionId < firstId
    requires forall i :: 0 <= i < |first| ==> first[i].productOptionId == firstId
    requires forall i :: 0 <= i < |second| ==> second[i].productOptionId == firstId + 1
    ensures ValuesOf(before + first + second, firstId) == first
    ensures ValuesOf(before + first + second, firstId + 1) == second
  {
    ValuesOfAppend(before + first, second, firstId);
    ValuesOfAppend(before, first, firstId);
    ValuesOfAppend(before + first, second, firstId + 1);
    ValuesOfAppend(before, first, firstId + 1);
    ValuesOfNone(before, firstId);
    ValuesOfNone(before, firstId + 1);
    ValuesOfAll(first, firstId);
    ValuesOfNone(first, firstId + 1);
    ValuesOfNone(second, firstId);
    ValuesOfAll(second, firstId + 1);
  }
}
