/** The variant repository as an in-memory table: its rows in identifier
    order and the identifier the next saved row gets. These functions say
    what each of the product service's variant operations does to it. */
module VariantTables {
  import opened Wrappers
  import opened JvmInt
  import opened Products

  datatype VariantTable = VariantTable(rows: seq<Variant>, nextId: int)

  /** Identifiers are generated: positive, increasing in row order and
      below the next one to be handed out. */
  ghost predicate TableValid(t: VariantTable) {
    && IdsIncreasing(t.rows)
    && (forall i :: 0 <= i < |t.rows| ==> 1 <= t.rows[i].id < t.nextId)
  }

  ghost predicate IdsIncreasing(rows: seq<Variant>) {
    forall i, j :: 0 <= i < j < |rows| ==> rows[i].id < rows[j].id
  }

  /** Every row belongs to one of the given products. */
  ghost predicate ProductIdsIn(rows: seq<Variant>, products: set<int>) {
    forall i :: 0 <= i < |rows| ==> rows[i].productId in products
  }

  predicate Matches(v: Variant, productId: int, optionMap: map<string, string>) {
    v.productId == productId && v.optionMap == optionMap
  }

  /** `findByProductIdAndOptionMap`: the position of the first row of that
      product with exactly that option map. */
  function FindVariant(rows: seq<Variant>, productId: int, optionMap: map<string, string>): (r: Option<nat>)
    ensures r.Some? ==> r.value < |rows| && Matches(rows[r.value], productId, optionMap)
    ensures r.Some? ==> forall j :: 0 <= j < r.value ==> !Matches(rows[j], productId, optionMap)
    ensures r.None? ==> forall j :: 0 <= j < |rows| ==> !Matches(rows[j], productId, optionMap)
  {
    if rows == [] then None
    else match FindVariant(rows[..|rows| - 1], productId, optionMap)
      case Some(k) => Some(k)
      case None => if Matches(rows[|rows| - 1], productId, optionMap) then Some(|rows| - 1) else None
  }

  /** No two rows of the product share an option map, so a lookup by
      (product, option map) names at most one row. */
  ghost predicate KeysUnique(rows: seq<Variant>, productId: int) {
    forall i, j :: 0 <= i < j < |rows| && rows[i].productId == productId && rows[j].productId == productId
      ==> rows[i].optionMap != rows[j].optionMap
  }

  /** `save` of a new variant: appended with the next identifier. */
  function Insert(t: VariantTable, productId: int, sku: string, priceCents: int32, stockQty: int32,
                  optionMap: map<string, string>): (r: VariantTable)
    ensures r.nextId == t.nextId + 1
    ensures r.rows == t.rows + [Variant(t.nextId, productId, sku, priceCents, stockQty, optionMap, false)]
  {
    VariantTable(t.rows + [Variant(t.nextId, productId, sku, priceCents, stockQty, optionMap, false)], t.nextId + 1)
  }

  lemma InsertKeepsValid(t: VariantTable, productId: int, sku: string, priceCents: int32, stockQty: int32,
                         optionMap: map<string, string>)
    requires TableValid(t) && t.nextId >= 1
    ensures TableValid(Insert(t, productId, sku, priceCents, stockQty, optionMap))
  {
  }

  // ---------------------------------------------------------------------
  // createVariants: upsert by (product, option map)

  /** One payload of createVariants: a row of the product with the same
      option map gets the payload's stock added (32-bit) and its price;
      otherwise the payload becomes a new row. */
  function Upsert(t: VariantTable, productId: int, p: VariantPayload): VariantTable {
    match FindVariant(t.rows, productId, p.optionCombination)
    case Some(k) =>
      var v := t.rows[k];
      VariantTable(t.rows[k := v.(stockQty := AddInt32(v.stockQty, p.stockQty), priceCents := p.priceCents)], t.nextId)
    case None =>
      Insert(t, productId, p.sku, p.priceCents, p.stockQty, p.optionCombination)
  }

  /** The payloads of createVariants applied in order. */
  function UpsertAll(t: VariantTable, productId: int, ps: seq<VariantPayload>): VariantTable {
    if ps == [] then t else Upsert(UpsertAll(t, productId, ps[..|ps| - 1]), productId, ps[|ps| - 1])
  }

  /** What one upsert does: a match keeps the row count, the identifier,
      the SKU and the option map, adds the stock and overwrites the price;
      no match appends the payload as a new row. Other rows stay. */
  lemma UpsertEffect(t: VariantTable, productId: int, p: VariantPayload)
    ensures FindVariant(t.rows, productId, p.optionCombination).Some? ==>
      var k := FindVariant(t.rows, productId, p.optionCombination).value;
      var r := Upsert(t, productId, p);
      && |r.rows| == |t.rows| && r.nextId == t.nextId
      && r.rows[k].id == t.rows[k].id && r.rows[k].sku == t.rows[k].sku
      && r.rows[k].productId == productId && r.rows[k].optionMap == p.optionCombination
      && r.rows[k].stockQty == AddInt32(t.rows[k].stockQty, p.stockQty)
      && r.rows[k].priceCents == p.priceCents
      && (forall i :: 0 <= i < |t.rows| && i != k ==> r.rows[i] == t.rows[i])
    ensures FindVariant(t.rows, productId, p.optionCombination).None? ==>
      Upsert(t, productId, p).rows
        == t.rows + [Variant(t.nextId, productId, p.sku, p.priceCents, p.stockQty, p.optionCombination, false)]
  {
  }

  lemma UpsertKeepsValid(t: VariantTable, productId: int, p: VariantPayload)
    requires TableValid(t) && t.nextId >= 1
    ensures TableValid(Upsert(t, productId, p)) && Upsert(t, productId, p).nextId >= 1
  {
  }

  lemma {:induction false} UpsertAllKeepsValid(t: VariantTable, productId: int, ps: seq<VariantPayload>)
    requires TableValid(t) && t.nextId >= 1
    ensures TableValid(UpsertAll(t, productId, ps)) && UpsertAll(t, productId, ps).nextId >= 1
  {
    if ps != [] {
      UpsertAllKeepsValid(t, productId, ps[..|ps| - 1]);
      UpsertKeepsValid(UpsertAll(t, productId, ps[..|ps| - 1]), productId, ps[|ps| - 1]);
    }
  }

  /** An upsert inserts only when no row of the product has the key, so the
      keys of a product stay unique. */
  lemma UpsertKeepsKeysUnique(t: VariantTable, productId: int, p: VariantPayload)
    requires KeysUnique(t.rows, productId)
    ensures KeysUnique(Upsert(t, productId, p).rows, productId)
  {
    var r := Upsert(t, productId, p);
    match FindVariant(t.rows, productId, p.optionCombination)
    case Some(k) =>
      assert forall i :: 0 <= i < |r.rows| ==>
        r.rows[i].productId == t.rows[i].productId && r.rows[i].optionMap == t.rows[i].optionMap;
    case None =>
      assert r.rows[..|t.rows|] == t.rows;
  }

  lemma {:induction false} UpsertAllKeepsKeysUnique(t: VariantTable, productId: int, ps: seq<VariantPayload>)
    requires KeysUnique(t.rows, productId)
    ensures KeysUnique(UpsertAll(t, productId, ps).rows, productId)
  {
    if ps != [] {
      UpsertAllKeepsKeysUnique(t, productId, ps[..|ps| - 1]);
      UpsertKeepsKeysUnique(UpsertAll(t, productId, ps[..|ps| - 1]), productId, ps[|ps| - 1]);
    }
  }

  /** Upserts for one product never touch another product's rows: those
      keep their place and their contents, and new rows are the product's. */
  lemma {:induction false} UpsertAllKeepsOtherProducts(t: VariantTable, productId: int, ps: seq<VariantPayload>)
    ensures |UpsertAll(t, productId, ps).rows| >= |t.rows|
    ensures forall i :: 0 <= i < |t.rows| && t.rows[i].productId != productId ==>
      UpsertAll(t, productId, ps).rows[i] == t.rows[i]
    ensures forall i :: 0 <= i < |UpsertAll(t, productId, ps).rows| ==>
      (UpsertAll(t, productId, ps).rows[i].productId == productId ||
       (i < |t.rows| && UpsertAll(t, productId, ps).rows[i] == t.rows[i]))
  {
    if ps != [] {
      var mid := UpsertAll(t, productId, ps[..|ps| - 1]);
      UpsertAllKeepsOtherProducts(t, productId, ps[..|ps| - 1]);
      UpsertEffect(mid, productId, ps[|ps| - 1]);
    }
  }

  lemma UpsertAllKeepsProductIds(t: VariantTable, productId: int, ps: seq<VariantPayload>, products: set<int>)
    requires ProductIdsIn(t.rows, products) && productId in products
    ensures ProductIdsIn(UpsertAll(t, productId, ps).rows, products)
  {
    UpsertAllKeepsOtherProducts(t, productId, ps);
  }

  // What the payloads say about one option map

  /** The sum of the stock of the payloads with that option map. */
  function StockSum(ps: seq<VariantPayload>, optionMap: map<string, string>): int {
    if ps == [] then 0
    else StockSum(ps[..|ps| - 1], optionMap)
         + (if ps[|ps| - 1].optionCombination == optionMap then ps[|ps| - 1].stockQty as int else 0)
  }

  /** The price of the last payload with that option map. */
  function LastPrice(ps: seq<VariantPayload>, optionMap: map<string, string>): Option<int32> {
    if ps == [] then None
    else if ps[|ps| - 1].optionCombination == optionMap then Some(ps[|ps| - 1].priceCents)
    else LastPrice(ps[..|ps| - 1], optionMap)
  }

  /** The SKU of the first payload with that option map. */
  function FirstSku(ps: seq<VariantPayload>, optionMap: map<string, string>): Option<string> {
    if ps == [] then None
    else match FirstSku(ps[..|ps| - 1], optionMap)
      case Some(s) => Some(s)
      case None => if ps[|ps| - 1].optionCombination == optionMap then Some(ps[|ps| - 1].sku) else None
  }

  /** An option map no payload carries contributes nothing. */
  lemma {:induction false} AbsentKey(ps: seq<VariantPayload>, optionMap: map<string, string>)
    requires LastPrice(ps, optionMap).None?
    ensures StockSum(ps, optionMap) == 0 && FirstSku(ps, optionMap).None?
    ensures forall i :: 0 <= i < |ps| ==> ps[i].optionCombination != optionMap
  {
    if ps != [] {
      AbsentKey(ps[..|ps| - 1], optionMap);
    }
  }

  /** Changing the stock and price of a row leaves every lookup as it was. */
  lemma FindAfterRowUpdate(rows: seq<Variant>, k: nat, v: Variant, productId: int, optionMap: map<string, string>)
    requires k < |rows| && v.productId == rows[k].productId && v.optionMap == rows[k].optionMap
    ensures FindVariant(rows[k := v], productId, optionMap) == FindVariant(rows, productId, optionMap)
  {
    var a := FindVariant(rows, productId, optionMap);
    var b := FindVariant(rows[k := v], productId, optionMap);
    assert forall i :: 0 <= i < |rows| ==> (Matches(rows[k := v][i], productId, optionMap) <==> Matches(rows[i], productId, optionMap));
    if a.Some? && b.Some? {
      assert !(a.value < b.value) && !(b.value < a.value);
    }
  }

  /** Appending a row with another key leaves a lookup as it was; appending
      one with the key when there was none finds the new row. */
  lemma FindAfterAppend(rows: seq<Variant>, v: Variant, productId: int, optionMap: map<string, string>)
    ensures !Matches(v, productId, optionMap) ==>
      FindVariant(rows + [v], productId, optionMap) == FindVariant(rows, productId, optionMap)
    ensures Matches(v, productId, optionMap) && FindVariant(rows, productId, optionMap).None? ==>
      FindVariant(rows + [v], productId, optionMap) == Some(|rows|)
  {
    assert (rows + [v])[..|rows|] == rows;
  }

  /** What the payloads say about the table's row of the product with
      that option map: there is one exactly when some payload carries the
      map, and it has the first such payload's SKU, the last one's price and
      the 32-bit sum of their stock. */
  ghost predicate Collapsed(rows: seq<Variant>, productId: int, ps: seq<VariantPayload>, optionMap: map<string, string>) {
    match FindVariant(rows, productId, optionMap)
    case None => LastPrice(ps, optionMap).None?
    case Some(k) =>
      && LastPrice(ps, optionMap) == Some(rows[k].priceCents)
      && FirstSku(ps, optionMap) == Some(rows[k].sku)
      && rows[k].stockQty == Wrap32(StockSum(ps, optionMap))
  }

  /** The three summaries of a payload list extended by one payload. */
  lemma SummariesSnoc(init: seq<VariantPayload>, p: VariantPayload, optionMap: map<string, string>)
    ensures StockSum(init + [p], optionMap)
      == StockSum(init, optionMap) + (if p.optionCombination == optionMap then p.stockQty as int else 0)
    ensures LastPrice(init + [p], optionMap)
      == if p.optionCombination == optionMap then Some(p.priceCents) else LastPrice(init, optionMap)
    ensures FirstSku(init + [p], optionMap)
      == if FirstSku(init, optionMap).Some? then FirstSku(init, optionMap)
         else if p.optionCombination == optionMap then Some(p.sku) else None
  {
    var ps := init + [p];
    assert ps[..|ps| - 1] == init && ps[|ps| - 1] == p;
  }

  /** The step of CollapsedRow when the payload updates an existing row. */
  lemma CollapsedUpdateStep(mid: VariantTable, productId: int, init: seq<VariantPayload>, p: VariantPayload,
                            optionMap: map<string, string>)
    requires Collapsed(mid.rows, productId, init, optionMap)
    requires FindVariant(mid.rows, productId, p.optionCombination).Some?
    ensures Collapsed(Upsert(mid, productId, p).rows, productId, init + [p], optionMap)
  {
    SummariesSnoc(init, p, optionMap);
    var k := FindVariant(mid.rows, productId, p.optionCombination).value;
    var v := mid.rows[k];
    var v' := v.(stockQty := AddInt32(v.stockQty, p.stockQty), priceCents := p.priceCents);
    assert Upsert(mid, productId, p).rows == mid.rows[k := v'];
    FindAfterRowUpdate(mid.rows, k, v', productId, optionMap);
    if p.optionCombination == optionMap {
      WrapAddAssociates(StockSum(init, optionMap), p.stockQty as int);
    }
  }

  /** The step of CollapsedRow when the payload becomes a new row. */
  lemma CollapsedInsertStep(mid: VariantTable, productId: int, init: seq<VariantPayload>, p: VariantPayload,
                            optionMap: map<string, string>)
    requires Collapsed(mid.rows, productId, init, optionMap)
    requires FindVariant(mid.rows, productId, p.optionCombination).None?
    ensures Collapsed(Upsert(mid, productId, p).rows, productId, init + [p], optionMap)
  {
    SummariesSnoc(init, p, optionMap);
    var v := Variant(mid.nextId, productId, p.sku, p.priceCents, p.stockQty, p.optionCombination, false);
    var rows := Upsert(mid, productId, p).rows;
    assert rows == mid.rows + [v];
    FindAfterAppend(mid.rows, v, productId, optionMap);
    if p.optionCombination == optionMap {
      AbsentKey(init, optionMap);
      assert rows[|mid.rows|] == v;
    } else {
      assert rows[..|mid.rows|] == mid.rows;
    }
  }

  /** Duplicate option maps collapse: starting from a table without a row
      of the product with that option map, the upserts leave exactly the
      row the payloads with that map describe (Collapsed). */
  lemma {:induction false} CollapsedRow(t: VariantTable, productId: int, ps: seq<VariantPayload>,
                                        optionMap: map<string, string>)
    requires FindVariant(t.rows, productId, optionMap).None?
    ensures Collapsed(UpsertAll(t, productId, ps).rows, productId, ps, optionMap)
  {
    if ps != [] {
      var init := ps[..|ps| - 1];
      var p := ps[|ps| - 1];
      assert ps == init + [p];
      var mid := UpsertAll(t, productId, init);
      CollapsedRow(t, productId, init, optionMap);
      if FindVariant(mid.rows, productId, p.optionCombination).Some? {
        CollapsedUpdateStep(mid, productId, init, p, optionMap);
      } else {
        CollapsedInsertStep(mid, productId, init, p, optionMap);
      }
    }
  }

  /** A product's rows, in table order. */
  function RowsOf(rows: seq<Variant>, productId: int): (r: seq<Variant>)
    ensures |r| <= |rows|
    ensures forall i :: 0 <= i < |r| ==> r[i].productId == productId
  {
    if rows == [] then []
    else RowsOf(rows[..|rows| - 1], productId) + (if rows[|rows| - 1].productId == productId then [rows[|rows| - 1]] else [])
  }

  /** The rows that are not the product's, in table order. */
  function OtherRows(rows: seq<Variant>, productId: int): (r: seq<Variant>)
    ensures |r| <= |rows|
    ensures forall i :: 0 <= i < |r| ==> r[i].productId != productId && r[i] in rows
  {
    if rows == [] then []
    else OtherRows(rows[..|rows| - 1], productId) + (if rows[|rows| - 1].productId != productId then [rows[|rows| - 1]] else [])
  }

  lemma {:induction false} RowsOfAppend(a: seq<Variant>, b: seq<Variant>, productId: int)
    ensures RowsOf(a + b, productId) == RowsOf(a, productId) + RowsOf(b, productId)
  {
    if b != [] {
      assert (a + b)[..|a + b| - 1] == a + b[..|b| - 1];
      RowsOfAppend(a, b[..|b| - 1], productId);
    } else {
      assert a + b == a;
    }
  }

  lemma {:induction false} RowsOfNone(rows: seq<Variant>, productId: int)
    requires forall i :: 0 <= i < |rows| ==> rows[i].productId != productId
    ensures RowsOf(rows, productId) == []
  {
    if rows != [] {
      RowsOfNone(rows[..|rows| - 1], productId);
    }
  }

  lemma {:induction false} RowsOfOtherRows(rows: seq<Variant>, productId: int)
    ensures RowsOf(OtherRows(rows, productId), productId) == []
  {
    if rows != [] {
      var init := rows[..|rows| - 1];
      RowsOfOtherRows(init, productId);
      RowsOfAppend(OtherRows(init, productId),
                   if rows[|rows| - 1].productId != productId then [rows[|rows| - 1]] else [], productId);
    }
  }

  /** A subsequence of a table with increasing identifiers has increasing identifiers. */
  lemma OtherRowsKeepsValid(t: VariantTable, productId: int)
    requires TableValid(t)
    ensures TableValid(VariantTable(OtherRows(t.rows, productId), t.nextId))
  {
    OtherRowsIncreasing(t.rows, productId);
    var r := OtherRows(t.rows, productId);
    forall i | 0 <= i < |r| ensures 1 <= r[i].id < t.nextId {
      var j :| 0 <= j < |t.rows| && t.rows[j] == r[i];
    }
  }

  /** Appending a row with a larger identifier than all keeps the order. */
  lemma SnocIncreasing(rows: seq<Variant>, last: Variant)
    requires IdsIncreasing(rows) && forall i :: 0 <= i < |rows| ==> rows[i].id < last.id
    ensures IdsIncreasing(rows + [last])
  {
  }

  lemma {:induction false} OtherRowsIncreasing(rows: seq<Variant>, productId: int)
    requires IdsIncreasing(rows)
    ensures IdsIncreasing(OtherRows(rows, productId))
    decreases |rows|
  {
    if rows != [] {
      var init := rows[..|rows| - 1];
      var last := rows[|rows| - 1];
      InitIncreasing(rows);
      OtherRowsIncreasing(init, productId);
      var r := OtherRows(init, productId);
      forall i | 0 <= i < |r| ensures r[i].id < last.id {
        var j :| 0 <= j < |init| && init[j] == r[i];
      }
      if last.productId != productId {
        SnocIncreasing(r, last);
      }
    }
  }

  /** Dropping a product's rows leaves rows of the remaining products only. */
  lemma OtherRowsProductIds(rows: seq<Variant>, productId: int, products: set<int>)
    requires ProductIdsIn(rows, products)
    ensures ProductIdsIn(OtherRows(rows, productId), products - {productId})
  {
    var r := OtherRows(rows, productId);
    forall i | 0 <= i < |r| ensures r[i].productId in products - {productId} {
      assert r[i] in rows;
    }
  }

  /** The single-variant path of an update: the product's rows are dropped
      and one row without options takes their place. */
  function ReplaceRows(t: VariantTable, productId: int, sku: string, priceCents: int32, stockQty: int32): VariantTable {
    Insert(VariantTable(OtherRows(t.rows, productId), t.nextId), productId, sku, priceCents, stockQty, map[])
  }

  lemma ReplaceRowsKeepsValid(t: VariantTable, productId: int, sku: string, priceCents: int32, stockQty: int32,
                              products: set<int>)
    requires TableValid(t) && t.nextId >= 1
    requires ProductIdsIn(t.rows, products) && productId in products
    ensures TableValid(ReplaceRows(t, productId, sku, priceCents, stockQty))
    ensures ProductIdsIn(ReplaceRows(t, productId, sku, priceCents, stockQty).rows, products)
  {
    OtherRowsKeepsValid(t, productId);
    OtherRowsProductIds(t.rows, productId, products);
    InsertKeepsValid(VariantTable(OtherRows(t.rows, productId), t.nextId), productId, sku, priceCents, stockQty, map[]);
  }

  // ---------------------------------------------------------------------
  // processVariantUpdates

  /** The position of the row with that identifier. */
  function IndexOfId(rows: seq<Variant>, id: int): (r: Option<nat>)
    ensures r.Some? ==> r.value < |rows| && rows[r.value].id == id
    ensures r.Some? ==> forall j :: 0 <= j < r.value ==> rows[j].id != id
    ensures r.None? ==> forall j :: 0 <= j < |rows| ==> rows[j].id != id
  {
    if rows == [] then None
    else match IndexOfId(rows[..|rows| - 1], id)
      case Some(k) => Some(k)
      case None => if rows[|rows| - 1].id == id then Some(|rows| - 1) else None
  }

  /** `deleteById`: the row with that identifier goes (none: no change). */
  function RemoveId(rows: seq<Variant>, id: int): (r: seq<Variant>)
    ensures |r| <= |rows|
    ensures forall i :: 0 <= i < |r| ==> r[i] in rows && r[i].id != id
  {
    if rows == [] then []
    else RemoveId(rows[..|rows| - 1], id) + (if rows[|rows| - 1].id != id then [rows[|rows| - 1]] else [])
  }

  lemma RemoveIdSnoc(init: seq<Variant>, last: Variant, id: int)
    ensures RemoveId(init + [last], id) == RemoveId(init, id) + (if last.id != id then [last] else [])
  {
    assert (init + [last])[..|init|] == init;
  }

  lemma IndexOfIdSnoc(init: seq<Variant>, last: Variant, id: int)
    ensures IndexOfId(init + [last], id)
      == if IndexOfId(init, id).Some? then IndexOfId(init, id) else if last.id == id then Some(|init|) else None
  {
    assert (init + [last])[..|init|] == init;
  }

  /** A cut before the last row. */
  lemma SpliceSnoc(init: seq<Variant>, last: Variant, k: nat)
    requires k < |init|
    ensures (init + [last])[..k] + (init + [last])[k + 1..] == init[..k] + init[k + 1..] + [last]
  {
    assert (init + [last])[..k] == init[..k];
    assert (init + [last])[k + 1..] == init[k + 1..] + [last];
  }

  /** The inductive step of RemoveIdAt when the row is among the earlier ones. */
  lemma RemoveIdAtEarlier(init: seq<Variant>, last: Variant, id: int, k: nat)
    requires k < |init| && init[k].id == id && last.id != id
    requires RemoveId(init, id) == init[..k] + init[k + 1..]
    ensures RemoveId(init + [last], id) == (init + [last])[..k] + (init + [last])[k + 1..]
  {
    RemoveIdSnoc(init, last, id);
    SpliceSnoc(init, last, k);
  }

  /** Deleting by identifier from rows whose last row has the largest
      identifier, given what it does on the rows before that one. */
  lemma RemoveIdAtSnoc(rows: seq<Variant>, id: int)
    requires rows != []
    requires forall i :: 0 <= i < |rows| - 1 ==> rows[i].id < rows[|rows| - 1].id
    requires var init := rows[..|rows| - 1];
      && (IndexOfId(init, id).None? ==> RemoveId(init, id) == init)
      && (IndexOfId(init, id).Some? ==>
            RemoveId(init, id) == init[..IndexOfId(init, id).value] + init[IndexOfId(init, id).value + 1..])
    ensures IndexOfId(rows, id).None? ==> RemoveId(rows, id) == rows
    ensures IndexOfId(rows, id).Some? ==>
      RemoveId(rows, id) == rows[..IndexOfId(rows, id).value] + rows[IndexOfId(rows, id).value + 1..]
  {
    var init := rows[..|rows| - 1];
    var last := rows[|rows| - 1];
    assert rows == init + [last];
    IndexOfIdSnoc(init, last, id);
    var k' := IndexOfId(init, id);
    if k'.Some? {
      assert init[k'.value].id < last.id;
      RemoveIdAtEarlier(init, last, id, k'.value);
    } else if last.id == id {
      RemoveIdSnoc(init, last, id);
      assert rows[..|init|] == init && rows[|init| + 1..] == [];
    } else {
      RemoveIdSnoc(init, last, id);
    }
  }

  /** Rows in identifier order without their last row are in order, and
      that row has the largest identifier. */
  lemma InitIncreasing(rows: seq<Variant>)
    requires IdsIncreasing(rows) && rows != []
    ensures IdsIncreasing(rows[..|rows| - 1])
    ensures forall i :: 0 <= i < |rows| - 1 ==> rows[i].id < rows[|rows| - 1].id
  {
  }

  /** With unique identifiers, deleting by identifier cuts out exactly the
      one row that has it and keeps the others in order. */
  lemma {:induction false} RemoveIdAt(rows: seq<Variant>, id: int)
    requires IdsIncreasing(rows)
    ensures IndexOfId(rows, id).None? ==> RemoveId(rows, id) == rows
    ensures IndexOfId(rows, id).Some? ==>
      RemoveId(rows, id) == rows[..IndexOfId(rows, id).value] + rows[IndexOfId(rows, id).value + 1..]
    decreases |rows|
  {
    if rows != [] {
      InitIncreasing(rows);
      RemoveIdAt(rows[..|rows| - 1], id);
      RemoveIdAtSnoc(rows, id);
    }
  }

  /** Cutting one row out of a valid table leaves it valid. */
  lemma SpliceKeepsValid(t: VariantTable, k: nat)
    requires TableValid(t) && k < |t.rows|
    ensures TableValid(VariantTable(t.rows[..k] + t.rows[k + 1..], t.nextId))
  {
    var r := t.rows[..k] + t.rows[k + 1..];
    assert forall i :: 0 <= i < |r| ==> r[i] == t.rows[if i < k then i else i + 1];
  }

  lemma RemoveIdKeepsValid(t: VariantTable, id: int)
    requires TableValid(t)
    ensures TableValid(VariantTable(RemoveId(t.rows, id), t.nextId))
  {
    RemoveIdAt(t.rows, id);
    var k := IndexOfId(t.rows, id);
    if k.Some? {
      SpliceKeepsValid(t, k.value);
    }
  }

  /** One entry of processVariantUpdates: deleted with an identifier
      removes that row; an identifier without deleted sets that row's stock
      (an unknown identifier is skipped); no identifier and not deleted
      inserts; deleted without an identifier does nothing. */
  function ApplyUpdate(t: VariantTable, productId: int, u: UpdateVariantPayload): VariantTable {
    if u.deleted && u.id.Some? then
      VariantTable(RemoveId(t.rows, u.id.value), t.nextId)
    else if u.id.Some? && !u.deleted then
      match IndexOfId(t.rows, u.id.value)
      case Some(k) => VariantTable(t.rows[k := t.rows[k].(stockQty := u.stockQty)], t.nextId)
      case None => t
    else if u.id.None? && !u.deleted then
      Insert(t, productId, u.sku, u.priceCents, u.stockQty, u.optionCombination)
    else
      t
  }

  function ApplyUpdates(t: VariantTable, productId: int, us: seq<UpdateVariantPayload>): VariantTable {
    if us == [] then t else ApplyUpdate(ApplyUpdates(t, productId, us[..|us| - 1]), productId, us[|us| - 1])
  }

  /** A stock update changes the stock of the row with that identifier and nothing else. */
  lemma StockUpdateEffect(t: VariantTable, productId: int, u: UpdateVariantPayload)
    requires TableValid(t)
    requires u.id.Some? && !u.deleted
    ensures |ApplyUpdate(t, productId, u).rows| == |t.rows| && ApplyUpdate(t, productId, u).nextId == t.nextId
    ensures forall i :: 0 <= i < |t.rows| ==>
      ApplyUpdate(t, productId, u).rows[i]
        == if t.rows[i].id == u.id.value then t.rows[i].(stockQty := u.stockQty) else t.rows[i]
  {
    var k := IndexOfId(t.rows, u.id.value);
    if k.Some? {
      assert forall i :: 0 <= i < |t.rows| && i != k.value ==> t.rows[i].id != t.rows[k.value].id;
    }
  }

  /** A delete leaves no row with that identifier and keeps the rest in order. */
  lemma DeleteUpdateEffect(t: VariantTable, productId: int, u: UpdateVariantPayload)
    requires TableValid(t)
    requires u.deleted && u.id.Some?
    ensures ApplyUpdate(t, productId, u).nextId == t.nextId
    ensures forall j :: 0 <= j < |ApplyUpdate(t, productId, u).rows| ==> ApplyUpdate(t, productId, u).rows[j].id != u.id.value
    ensures IndexOfId(t.rows, u.id.value).None? ==> ApplyUpdate(t, productId, u).rows == t.rows
    ensures IndexOfId(t.rows, u.id.value).Some? ==>
      ApplyUpdate(t, productId, u).rows
        == t.rows[..IndexOfId(t.rows, u.id.value).value] + t.rows[IndexOfId(t.rows, u.id.value).value + 1..]
  {
    RemoveIdAt(t.rows, u.id.value);
  }

  /** An entry without identifier that is not deleted adds one row of the product. */
  lemma InsertUpdateEffect(t: VariantTable, productId: int, u: UpdateVariantPayload)
    requires u.id.None? && !u.deleted
    ensures ApplyUpdate(t, productId, u).rows
      == t.rows + [Variant(t.nextId, productId, u.sku, u.priceCents, u.stockQty, u.optionCombination, false)]
  {
  }

  /** A deleted entry without identifier changes nothing. */
  lemma DeletedWithoutIdIsIgnored(t: VariantTable, productId: int, u: UpdateVariantPayload)
    requires u.id.None? && u.deleted
    ensures ApplyUpdate(t, productId, u) == t
  {
  }

  lemma ApplyUpdateKeepsValid(t: VariantTable, productId: int, u: UpdateVariantPayload)
    requires TableValid(t) && t.nextId >= 1
    ensures TableValid(ApplyUpdate(t, productId, u)) && ApplyUpdate(t, productId, u).nextId >= 1
  {
    if u.deleted && u.id.Some? {
      RemoveIdKeepsValid(t, u.id.value);
    }
  }

  lemma ApplyUpdateKeepsProductIds(t: VariantTable, productId: int, u: UpdateVariantPayload, products: set<int>)
    requires ProductIdsIn(t.rows, products) && productId in products
    ensures ProductIdsIn(ApplyUpdate(t, productId, u).rows, products)
  {
    if u.deleted && u.id.Some? {
      var r := RemoveId(t.rows, u.id.value);
      forall i | 0 <= i < |r| ensures r[i].productId in products {
        assert r[i] in t.rows;
      }
    }
  }

  lemma {:induction false} ApplyUpdatesKeepsProductIds(t: VariantTable, productId: int, us: seq<UpdateVariantPayload>,
                                                       products: set<int>)
    requires ProductIdsIn(t.rows, products) && productId in products
    ensures ProductIdsIn(ApplyUpdates(t, productId, us).rows, products)
  {
    if us != [] {
      ApplyUpdatesKeepsProductIds(t, productId, us[..|us| - 1], products);
      ApplyUpdateKeepsProductIds(ApplyUpdates(t, productId, us[..|us| - 1]), productId, us[|us| - 1], products);
    }
  }

  lemma {:induction false} ApplyUpdatesKeepsValid(t: VariantTable, productId: int, us: seq<UpdateVariantPayload>)
    requires TableValid(t) && t.nextId >= 1
    ensures TableValid(ApplyUpdates(t, productId, us)) && ApplyUpdates(t, productId, us).nextId >= 1
  {
    if us != [] {
      ApplyUpdatesKeepsValid(t, productId, us[..|us| - 1]);
      ApplyUpdateKeepsValid(ApplyUpdates(t, productId, us[..|us| - 1]), productId, us[|us| - 1]);
    }
  }
}
