/** The product catalogue's entities and the payloads its service works
    from. Prices and stock are the JVM's 32-bit Int. */
module Products {
  import opened Wrappers
  import opened JvmInt

  datatype Product = Product(id: int, name: string, description: Option<string>, hasVariants: bool)

  /** A sellable combination of option values (e.g. color Black, size M). */
  datatype Variant = Variant(
    id: int,
    productId: int,
    sku: string,
    priceCents: int32,
    stockQty: int32,
    optionMap: map<string, string>,
    isDefault: bool)

  datatype ProductOption = ProductOption(id: int, productId: int, name: string, position: int)

  datatype ProductOptionValue = ProductOptionValue(id: int, productOptionId: int, value: string, position: int)

  datatype VariantPayload = VariantPayload(
    sku: string,
    priceCents: int32,
    stockQty: int32,
    isDefault: bool,
    optionCombination: map<string, string>)

  /** The product fields of a create request; the product itself gets no
      SKU, the optional sku, price and stock describe its default variant. */
  datatype CreateProductPayload = CreateProductPayload(
    name: string,
    description: Option<string>,
    hasVariants: bool,
    productSku: Option<string>,
    productPriceCents: Option<int32>,
    productStockQty: Option<int32>,
    variants: seq<VariantPayload>)

  datatype UpdateVariantPayload = UpdateVariantPayload(
    id: Option<int>,
    sku: string,
    priceCents: int32,
    stockQty: int32,
    deleted: bool,
    optionCombination: map<string, string>)

  datatype UpdateProductPayload = UpdateProductPayload(
    name: string,
    description: Option<string>,
    hasVariants: bool,
    productSku: Option<string>,
    productPriceCents: Option<int32>,
    productStockQty: Option<int32>,
    variants: seq<UpdateVariantPayload>)

  datatype ProductOptionPayload = ProductOptionPayload(name: string, values: seq<string>)
}
