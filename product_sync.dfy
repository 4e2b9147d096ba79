/** The Famme import: how one product of the shop's `products.json`
    becomes a create request for the catalogue. Fetching the feed, the
    hourly schedule and the tenant context are not modelled; the price
    string's floating-point conversion is a parameter. */
module ProductSync {
  import opened Wrappers
  import opened JvmInt
  import opened Text
  import opened Products
  import opened VariantTables
  import ProductService

  datatype FammeVariant = FammeVariant(
    option1: Option<string>,
    option2: Option<string>,
    option3: Option<string>,
    sku: string,
    available: bool,
    price: string)

  datatype FammeProduct = FammeProduct(title: string, bodyHtml: Option<string>, variants: seq<FammeVariant>)

  /** How many products one sync converts. */
  const SYNC_LIMIT: nat := 50

  /** `take(50)`: the first products of the feed, in feed order. */
  function SyncBatch(products: seq<FammeProduct>): (r: seq<FammeProduct>)
    ensures |r| <= SYNC_LIMIT && |r| <= |products| && r == products[..|r|]
    ensures |r| == SYNC_LIMIT || r == products
  {
    if |products| <= SYNC_LIMIT then products else products[..SYNC_LIMIT]
  }

  // ---------------------------------------------------------------------
  // stripHtml

  /** No `<` is followed, anywhere later, by a `>`: nothing is left that
      the pattern `<[^>]*>` could match. */
  predicate TagFree(s: string) {
    forall i, j :: 0 <= i < j < |s| && s[i] == '<' ==> s[j] != '>'
  }

  /** `replace(Regex("<[^>]*>"), "")`: scanning left to right, a `<` and
      everything up to the first `>` after it goes; a `<` with no `>`
      after it stays, and then so does the rest (it holds no `>`). */
  function StripTags(s: string): (r: string)
    ensures TagFree(r)
    ensures |r| <= |s|
  {
    if s == [] then []
    else if s[0] == '<' then
      match IndexOf(s[1..], '>')
      case Some(k) => StripTags(s[k + 2..])
      case None =>
        assert forall j :: 1 <= j < |s| ==> s[j] == s[1..][j - 1];
        s
    else
      var rest := StripTags(s[1..]);
      assert forall j :: 1 <= j < |[s[0]] + rest| ==> ([s[0]] + rest)[j] == rest[j - 1];
      [s[0]] + rest
  }

  /** Text that already holds no tag is left as it is. */
  lemma {:induction false} StripTagsKeepsTagFree(s: string)
    requires TagFree(s)
    ensures StripTags(s) == s
  {
    if s != [] {
      if s[0] == '<' {
        match IndexOf(s[1..], '>')
        case Some(k) =>
          assert false;
        case None =>
      } else {
        assert TagFree(s[1..]) by {
          forall i, j | 0 <= i < j < |s[1..]| && s[1..][i] == '<' ensures s[1..][j] != '>' {
            assert s[i + 1] == '<';
          }
        }
        StripTagsKeepsTagFree(s[1..]);
      }
    }
  }

  /** Stripping twice is stripping once. */
  lemma StripTagsIdempotent(s: string)
    ensures StripTags(StripTags(s)) == StripTags(s)
  {
    StripTagsKeepsTagFree(StripTags(s));
  }

  /** Text in front of a tag is kept, and the tag itself goes. */
  lemma StripTagsDropsLeadingTag(inner: string, rest: string)
    requires forall i :: 0 <= i < |inner| ==> inner[i] != '>'
    ensures StripTags("<" + inner + ">" + rest) == StripTags(rest)
  {
    var s := "<" + inner + ">" + rest;
    assert s[1..] == inner + ">" + rest;
    assert s[1..][|inner|] == '>';
    var k := IndexOf(s[1..], '>');
    assert k == Some(|inner|);
    assert s[|inner| + 2..] == rest;
  }

  /** Cutting whitespace off the ends cannot create a tag. */
  lemma TrimKeepsTagFree(s: string)
    requires TagFree(s)
    ensures TagFree(Trim(s))
  {
    TagFreeSlice(s, TrimOffset(s), TrimOffset(s) + |Trim(s)|);
  }

  /** A slice of text without tags has none either. */
  lemma TagFreeSlice(s: string, lo: nat, hi: nat)
    requires TagFree(s) && lo <= hi <= |s|
    ensures TagFree(s[lo..hi])
  {
    var r := s[lo..hi];
    forall i, j | 0 <= i < j < |r| && r[i] == '<' ensures r[j] != '>' {
      assert r[i] == s[lo + i] && r[j] == s[lo + j];
    }
  }

  /** `stripHtml`: null stays null; otherwise the tags go and the rest is
      trimmed, which leaves no tag and no whitespace at either end. */
  function StripHtml(html: Option<string>): (r: Option<string>)
    ensures r.Some? <==> html.Some?
    ensures r.Some? ==> TagFree(r.value) && r.value == Trim(StripTags(html.value))
  {
    match html
    case None => None
    case Some(h) =>
      TrimKeepsTagFree(StripTags(h));
      Some(Trim(StripTags(h)))
  }

  // ---------------------------------------------------------------------
  // convertToCreateProductPayload

  /** Sizes come in option3 or, failing that, option2. */
  function SizeOf(v: FammeVariant): (r: Option<string>)
    ensures v.option3.Some? ==> r == v.option3
    ensures v.option3.None? ==> r == v.option2
  {
    if v.option3.Some? then v.option3 else v.option2
  }

  /** The option map: "color" from option1 and "size" from the size, each
      only when present. */
  function OptionCombination(v: FammeVariant): (m: map<string, string>)
    ensures m.Keys <= {"color", "size"}
    ensures "color" in m <==> v.option1.Some?
    ensures "color" in m ==> m["color"] == v.option1.value
    ensures "size" in m <==> SizeOf(v).Some?
    ensures "size" in m ==> m["size"] == SizeOf(v).value
  {
    var withColor := if v.option1.Some? then map["color" := v.option1.value] else map[];
    if SizeOf(v).Some? then withColor["size" := SizeOf(v).value] else withColor
  }

  /** One Famme variant: the SKU is copied, only availability is known so
      stock is 1 or 0, and no imported variant is the default. */
  function ConvertVariant(v: FammeVariant, priceCents: string -> int32): (p: VariantPayload)
    ensures p.sku == v.sku && p.priceCents == priceCents(v.price)
    ensures p.stockQty == (if v.available then 1 else 0)
    ensures !p.isDefault
    ensures p.optionCombination == OptionCombination(v)
  {
    VariantPayload(v.sku, priceCents(v.price), if v.available then 1 else 0, false, OptionCombination(v))
  }

  /** convertToCreateProductPayload: one variant payload per Famme variant,
      in order; "has variants" exactly when there are at least two; no
      SKU, price or stock for a default variant. */
  function ConvertProduct(p: FammeProduct, priceCents: string -> int32): (r: CreateProductPayload)
    ensures r.name == p.title && r.description == StripHtml(p.bodyHtml)
    ensures r.hasVariants <==> |p.variants| > 1
    ensures r.productSku.None? && r.productPriceCents.None? && r.productStockQty.None?
    ensures |r.variants| == |p.variants|
    ensures forall i :: 0 <= i < |p.variants| ==> r.variants[i] == ConvertVariant(p.variants[i], priceCents)
  {
    var variants := seq(|p.variants|, i requires 0 <= i < |p.variants| => ConvertVariant(p.variants[i], priceCents));
    CreateProductPayload(p.title, StripHtml(p.bodyHtml), |variants| > 1, None, None, None, variants)
  }

  /** The create requests one sync issues, in feed order. */
  function SyncPayloads(products: seq<FammeProduct>, priceCents: string -> int32): (r: seq<CreateProductPayload>)
    ensures |r| <= SYNC_LIMIT && |r| == |SyncBatch(products)|
    ensures forall i :: 0 <= i < |r| ==> r[i] == ConvertProduct(products[i], priceCents)
  {
    var batch := SyncBatch(products);
    seq(|batch|, i requires 0 <= i < |batch| => ConvertProduct(batch[i], priceCents))
  }

  /** An imported request never takes the default-variant path of
      createVariants, not even for a product with a single Famme variant
      (it carries no product SKU): for a new product every Famme variant
      is upserted, so variants with the same colour and size become one
      catalogue variant with the first SKU and the summed stock. */
  lemma ImportCollapsesVariants(t: VariantTable, productId: int, p: FammeProduct, priceCents: string -> int32,
                                optionMap: map<string, string>)
    requires forall i :: 0 <= i < |t.rows| ==> t.rows[i].productId != productId
    ensures ProductService.CreateVariantsResult(t, productId, ConvertProduct(p, priceCents))
      == UpsertAll(t, productId, ConvertProduct(p, priceCents).variants)
    ensures KeysUnique(UpsertAll(t, productId, ConvertProduct(p, priceCents).variants).rows, productId)
    ensures Collapsed(UpsertAll(t, productId, ConvertProduct(p, priceCents).variants).rows, productId,
                      ConvertProduct(p, priceCents).variants, optionMap)
  {
    ProductService.NewProductVariantsCollapse(t, productId, ConvertProduct(p, priceCents), optionMap);
  }
}
