/** The inventory ledger: materials, the stock movements recorded against them,
    the `add_stock`/`remove_stock` endpoints and the stock-status label.

    Every decimal of the ledger (`quantity`, `current_stock`, `min_stock_level`,
    `unit_price`) is a `DecimalField(max_digits=10, decimal_places=2)`; here it is
    an integer counting hundredths, so 12.50 is 1250. */
module Inventory {
  import opened Common
  import Text

  /** A `DecimalField(max_digits=10, decimal_places=2)` holds at most ten digits,
      i.e. strictly less than 10^10 hundredths in absolute value. */
  const DecimalBound: int := 10_000_000_000

  predicate FitsDecimal(x: int) {
    -DecimalBound < x < DecimalBound
  }

  /** `StockMovement.MOVEMENT_TYPE_CHOICES`. `save` compares the raw code, so
      the model keeps it as a string. */
  predicate IsMovementChoice(code: string) {
    code in {"in", "out", "adjustment", "return"}
  }

  /** One `StockMovement` row; it belongs to the material whose `movements` hold it. */
  datatype StockMovement = StockMovement(
    movementType: string,
    quantity: int,
    unitPrice: Option<int>,
    reference: string,
    notes: string,
    createdBy: Option<UserId>)

  /** The signed effect of one saved movement on its material's stock. */
  function Delta(m: StockMovement): int {
    if m.movementType in {"in", "return"} then m.quantity
    else if m.movementType in {"out", "adjustment"} then -m.quantity
    else 0
  }

  /** Signed sum of a movement history, oldest first. */
  function Balance(ms: seq<StockMovement>): int {
    if ms == [] then 0 else Balance(ms[..|ms| - 1]) + Delta(ms[|ms| - 1])
  }

  /** Sum of the quantities of the movements whose type code is `code`. */
  function TotalOf(ms: seq<StockMovement>, code: string): int {
    if ms == [] then 0
    else TotalOf(ms[..|ms| - 1], code) + (if ms[|ms| - 1].movementType == code then ms[|ms| - 1].quantity else 0)
  }

  lemma BalanceAppend(ms: seq<StockMovement>, m: StockMovement)
    ensures Balance(ms + [m]) == Balance(ms) + Delta(m)
  {
    assert (ms + [m])[..|ms|] == ms;
  }

  /** The balance of two consecutive stretches of history is the sum of theirs. */
  lemma {:induction false} BalanceConcat(a: seq<StockMovement>, b: seq<StockMovement>)
    ensures Balance(a + b) == Balance(a) + Balance(b)
  {
    if b == [] {
      assert a + b == a;
    } else {
      var b' := b[..|b| - 1];
      assert (a + b)[..|a + b| - 1] == a + b';
      BalanceConcat(a, b');
    }
  }

  /** The balance around one movement: what came before, its effect, what came after. */
  lemma BalanceAround(before: seq<StockMovement>, m: StockMovement, after: seq<StockMovement>)
    ensures Balance(before + [m] + after) == Balance(before) + Delta(m) + Balance(after)
  {
    BalanceConcat(before + [m], after);
    BalanceAppend(before, m);
  }

  /** Replacing movement `i` changes the balance by the difference of the two effects. */
  lemma BalanceUpdate(ms: seq<StockMovement>, i: nat, m: StockMovement)
    requires i < |ms|
    ensures Balance(ms[i := m]) == Balance(ms) - Delta(ms[i]) + Delta(m)
  {
    var before, after := ms[..i], ms[i + 1..];
    assert ms == before + [ms[i]] + after;
    assert ms[i := m] == before + [m] + after;
    BalanceAround(before, ms[i], after);
    BalanceAround(before, m, after);
  }

  /** Dropping movement `i` takes its effect out of the balance. */
  lemma BalanceRemove(ms: seq<StockMovement>, i: nat)
    requires i < |ms|
    ensures Balance(ms[..i] + ms[i + 1..]) == Balance(ms) - Delta(ms[i])
  {
    var before, after := ms[..i], ms[i + 1..];
    assert ms[..i + 1] == before + [ms[i]];
    assert ms == ms[..i + 1] + after;
    BalanceAround(before, ms[i], after);
    BalanceConcat(before, after);
  }

  /** The ledger identity: the balance is everything that came in or was returned,
      minus everything that went out or was adjusted away. */
  lemma {:induction false} BalanceIsSignedSum(ms: seq<StockMovement>)
    ensures Balance(ms) == TotalOf(ms, "in") + TotalOf(ms, "return")
                         - TotalOf(ms, "out") - TotalOf(ms, "adjustment")
  {
    if ms != [] {
      BalanceIsSignedSum(ms[..|ms| - 1]);
    }
  }

  /** A material whose `current_stock` the ledger updates in place. */
  class Material {
    var name: string
    var sku: string
    var categoryId: nat
    var supplierId: nat
    var unit: string
    var unitPrice: int
    var minStockLevel: int
    var currentStock: int
    var isActive: bool
    /** The movements saved against this material (`related_name='movements'`), oldest first. */
    var movements: seq<StockMovement>

    /** The ledger invariant: the stock is the signed sum of the movements. */
    ghost predicate Valid()
      reads this
    {
      currentStock == Balance(movements)
    }

    /** A new material starts with `current_stock` at its default 0 and no movements. */
    constructor (name: string, sku: string, categoryId: nat, supplierId: nat, unit: string,
                 unitPrice: int, minStockLevel: int)
      ensures Valid()
      ensures this.name == name && this.sku == sku && this.unit == unit
      ensures this.categoryId == categoryId && this.supplierId == supplierId
      ensures this.unitPrice == unitPrice && this.minStockLevel == minStockLevel
      ensures currentStock == 0 && movements == [] && isActive
    {
      this.name, this.sku, this.unit := name, sku, unit;
      this.categoryId, this.supplierId := categoryId, supplierId;
      this.unitPrice, this.minStockLevel := unitPrice, minStockLevel;
      currentStock := 0;
      isActive := true;
      movements := [];
    }

    /** `StockMovement.save`: adjust the owning material's stock by the movement's
        type, then store the movement. No sufficiency check is made, and a type
        outside the four choices leaves the stock as it was. */
    method SaveMovement(m: StockMovement)
      modifies this`currentStock, this`movements
      ensures m.movementType in {"in", "return"} ==> currentStock == old(currentStock) + m.quantity
      ensures m.movementType in {"out", "adjustment"} ==> currentStock == old(currentStock) - m.quantity
      ensures !IsMovementChoice(m.movementType) ==> currentStock == old(currentStock)
      ensures movements == old(movements) + [m]
      ensures old(Valid()) ==> Valid()
    {
      if m.movementType in {"in", "return"} {
        currentStock := currentStock + m.quantity;
      } else if m.movementType in {"out", "adjustment"} {
        currentStock := currentStock - m.quantity;
      }
      BalanceAppend(movements, m);
      movements := movements + [m];
    }

    /** `StockMovement.save` on movement `i`, already stored, as an update through
        the movement endpoint runs it: the effect of the new values is applied to
        the stock once more, and the effect the old values had is not taken back. */
    method ResaveMovement(i: nat, m: StockMovement)
      requires i < |movements|
      modifies this`currentStock, this`movements
      ensures currentStock == old(currentStock) + Delta(m)
      ensures movements == old(movements)[i := m]
    {
      currentStock := currentStock + Delta(m);
      movements := movements[i := m];
    }

    /** A delete through the movement endpoint: the row goes, the stock stays. */
    method DeleteMovement(i: nat)
      requires i < |movements|
      modifies this`movements
      ensures movements == old(movements)[..i] + old(movements)[i + 1..]
    {
      movements := movements[..i] + movements[i + 1..];
    }

    /** The update the ledger evidently intends: take back the stored movement's
        effect, then apply the new one. */
    method ResaveMovementCorrected(i: nat, m: StockMovement)
      requires i < |movements|
      modifies this`currentStock, this`movements
      ensures currentStock == old(currentStock) - Delta(old(movements)[i]) + Delta(m)
      ensures movements == old(movements)[i := m]
      ensures old(Valid()) ==> Valid()
    {
      BalanceUpdate(movements, i, m);
      currentStock := currentStock - Delta(movements[i]) + Delta(m);
      movements := movements[i := m];
    }

    /** The delete the ledger evidently intends: take back the movement's effect. */
    method DeleteMovementCorrected(i: nat)
      requires i < |movements|
      modifies this`currentStock, this`movements
      ensures currentStock == old(currentStock) - Delta(old(movements)[i])
      ensures movements == old(movements)[..i] + old(movements)[i + 1..]
      ensures old(Valid()) ==> Valid()
    {
      BalanceRemove(movements, i);
      currentStock := currentStock - Delta(movements[i]);
      movements := movements[..i] + movements[i + 1..];
    }
  }

  /** As written, an update of a stored movement leaves the stock off the ledger
      by exactly the stored movement's effect, so the ledger stays balanced only
      when that movement had no effect. */
  lemma ResaveDriftsLedger(stock: int, ms: seq<StockMovement>, i: nat, m: StockMovement)
    requires stock == Balance(ms) && i < |ms|
    ensures (stock + Delta(m)) - Balance(ms[i := m]) == Delta(ms[i])
    ensures stock + Delta(m) == Balance(ms[i := m]) <==> Delta(ms[i]) == 0
  {
    BalanceUpdate(ms, i, m);
  }

  /** As written, a delete leaves the stock off the ledger by exactly the deleted
      movement's effect. */
  lemma DeleteDriftsLedger(stock: int, ms: seq<StockMovement>, i: nat)
    requires stock == Balance(ms) && i < |ms|
    ensures stock - Balance(ms[..i] + ms[i + 1..]) == Delta(ms[i])
    ensures stock == Balance(ms[..i] + ms[i + 1..]) <==> Delta(ms[i]) == 0
  {
    BalanceRemove(ms, i);
  }

  /** A 5.00 delivery whose notes are then edited: as written the material ends
      at 10.00 with a ledger summing to 5.00; the corrected update keeps 5.00. */
  method EditedNotesScenario(staff: Account)
  {
    var material := new Material("Lin", "LIN-01", 1, 1, "m", 1200, 500);
    var delivery := StockMovement("in", 500, None, "", "", Some(staff.id));
    material.SaveMovement(delivery);
    material.ResaveMovement(0, delivery.(notes := "livraison"));
    assert material.currentStock == 1000 && !material.Valid() by {
      assert [delivery.(notes := "livraison")][..0] == [];
    }
    var other := new Material("Lin", "LIN-01", 1, 1, "m", 1200, 500);
    other.SaveMovement(delivery);
    other.ResaveMovementCorrected(0, delivery.(notes := "livraison"));
    assert other.currentStock == 500 && other.Valid();
  }

  /** The payload of `add_stock`/`remove_stock` as submitted; `reference` and
      `notes` are the raw text, before `StockMovementSerializer` trims them. */
  datatype StockRequest = StockRequest(
    movementType: string,
    quantity: int,
    unitPrice: Option<int>,
    reference: string,
    notes: string)

  /** `StockMovementSerializer.is_valid()` on the fields that carry a constraint:
      `movement_type` must be one of the choices even though the view overrides it,
      the decimals must fit their columns and `reference`, once trimmed of outer
      whitespace, is at most 100 characters; neither text field may hold U+0000.
      No lower bound is placed on `quantity`. */
  predicate RequestValid(r: StockRequest) {
    && IsMovementChoice(r.movementType)
    && FitsDecimal(r.quantity)
    && (r.unitPrice.Some? ==> FitsDecimal(r.unitPrice.value))
    && |Text.Strip(r.reference)| <= 100
    && Text.NoNullCharacter(r.reference)
    && Text.NoNullCharacter(r.notes)
  }

  /** The movement a view saves for a valid request, with the type it forces and
      the text fields as the serializer trimmed them. */
  function MovementFor(r: StockRequest, movementType: string, requester: Account): StockMovement {
    StockMovement(movementType, r.quantity, r.unitPrice, Text.Strip(r.reference), Text.Strip(r.notes),
                  Some(requester.id))
  }

  const InsufficientStock: string := "Stock insuffisant"
  const InvalidPayload: string := "invalid payload"

  /** The answer of `add_stock`. */
  function AddStockOutcome(r: StockRequest): (resp: Response)
    ensures resp == Created201 <==> RequestValid(r)
    ensures resp != Created201 ==> resp == BadRequest400(InvalidPayload)
  {
    if RequestValid(r) then Created201 else BadRequest400(InvalidPayload)
  }

  /** The length limit applies after trimming: a 100-character reference with a
      trailing space is accepted and stored without the space, and padded notes
      are stored trimmed. */
  lemma PaddedTextIsTrimmed(requester: Account)
    ensures var reference := seq(100, _ => 'a');
            var r := StockRequest("in", 500, None, reference + " ", " x ");
            AddStockOutcome(r) == Created201
            && MovementFor(r, "in", requester).reference == reference
            && MovementFor(r, "in", requester).notes == "x"
  {
    var reference := seq(100, _ => 'a');
    var padded := reference + " ";
    assert padded[..|padded| - 1] == reference;
    assert Text.Strip(padded) == reference;
    assert " x "[1..] == "x " && "x "[..1] == "x";
  }

  /** A reference holding U+0000 is refused by both endpoints, whatever the stock. */
  lemma NullCharacterRefused(stock: int)
    ensures AddStockOutcome(StockRequest("in", 500, None, "a\0", "")) == BadRequest400(InvalidPayload)
    ensures RemoveStockOutcome(stock, StockRequest("out", 500, None, "a\0", "")) == BadRequest400(InvalidPayload)
  {
    assert "a\0"[1] == '\0';
  }

  /** The answer of `remove_stock` when the material holds `stock`: the payload is
      validated first, then the stock must cover the quantity (equality is enough). */
  function RemoveStockOutcome(stock: int, r: StockRequest): (resp: Response)
    ensures resp == Created201 <==> RequestValid(r) && r.quantity <= stock
    ensures resp == BadRequest400(InsufficientStock) <==> RequestValid(r) && stock < r.quantity
    ensures !RequestValid(r) ==> resp == BadRequest400(InvalidPayload)
  {
    if !RequestValid(r) then BadRequest400(InvalidPayload)
    else if stock < r.quantity then BadRequest400(InsufficientStock)
    else Created201
  }

  /** `MaterialViewSet.add_stock`: record an `in` movement for a valid payload. */
  method AddStock(material: Material, requester: Account, r: StockRequest) returns (resp: Response)
    modifies material`currentStock, material`movements
    ensures resp == AddStockOutcome(r)
    ensures resp == Created201 ==> material.currentStock == old(material.currentStock) + r.quantity
    ensures resp == Created201 ==> material.movements == old(material.movements) + [MovementFor(r, "in", requester)]
    ensures resp != Created201 ==> material.currentStock == old(material.currentStock)
    ensures resp != Created201 ==> material.movements == old(material.movements)
    ensures old(material.Valid()) ==> material.Valid()
  {
    if !RequestValid(r) {
      return BadRequest400(InvalidPayload);
    }
    material.SaveMovement(MovementFor(r, "in", requester));
    resp := Created201;
  }

  /** `MaterialViewSet.remove_stock`: refuse when the stock does not cover the
      quantity, otherwise record an `out` movement. */
  method RemoveStock(material: Material, requester: Account, r: StockRequest) returns (resp: Response)
    modifies material`currentStock, material`movements
    ensures resp == RemoveStockOutcome(old(material.currentStock), r)
    ensures resp == Created201 ==> material.currentStock == old(material.currentStock) - r.quantity
    ensures resp == Created201 ==> material.movements == old(material.movements) + [MovementFor(r, "out", requester)]
    ensures resp != Created201 ==> material.currentStock == old(material.currentStock)
    ensures resp != Created201 ==> material.movements == old(material.movements)
    ensures RequestValid(r) && r.quantity == old(material.currentStock) ==> resp == Created201 && material.currentStock == 0
    ensures old(material.Valid()) ==> material.Valid()
  {
    if !RequestValid(r) {
      return BadRequest400(InvalidPayload);
    }
    if material.currentStock < r.quantity {
      return BadRequest400(InsufficientStock);
    }
    material.SaveMovement(MovementFor(r, "out", requester));
    resp := Created201;
  }

  /** What a caller can conclude from the endpoint contracts alone: a material
      stocked to 10.00 with a minimum of 5.00 receives 5.00, is refused a removal
      of 20.00, then gives up 12.00 and is left low on stock. */
  method StockScenario(staff: Account)
  {
    var m := new Material("Lin", "LIN-01", 1, 1, "m", 1200, 500);
    var resp := AddStock(m, staff, StockRequest("in", 1000, None, "", ""));
    resp := AddStock(m, staff, StockRequest("in", 500, None, "", ""));
    assert m.currentStock == 1500 && StockStatusOf(m.currentStock, m.minStockLevel) == InStock;
    resp := RemoveStock(m, staff, StockRequest("out", 2000, None, "", ""));
    assert resp == BadRequest400(InsufficientStock) && m.currentStock == 1500;
    resp := RemoveStock(m, staff, StockRequest("out", 1200, None, "", ""));
    assert m.currentStock == 300 && StockStatusOf(m.currentStock, m.minStockLevel) == LowStock;
    assert m.Valid() && |m.movements| == 3;
  }

  /** A call of one of the two stock endpoints on the same material. */
  datatype StockCall = AddCall(request: StockRequest) | RemoveCall(request: StockRequest)

  /** The stock a fresh material holds after `calls` have been made in order;
      rejected calls change nothing. */
  function StockAfter(calls: seq<StockCall>): int {
    if calls == [] then 0
    else
      var s := StockAfter(calls[..|calls| - 1]);
      match calls[|calls| - 1]
      case AddCall(r) => if AddStockOutcome(r) == Created201 then s + r.quantity else s
      case RemoveCall(r) => if RemoveStockOutcome(s, r) == Created201 then s - r.quantity else s
  }

  /** Running `calls` through the two endpoints on a material that starts empty
      leaves exactly `StockAfter(calls)` in stock. */
  method ReplayStockCalls(material: Material, requester: Account, calls: seq<StockCall>)
    requires material.currentStock == 0
    modifies material`currentStock, material`movements
    ensures material.currentStock == StockAfter(calls)
  {
    var i := 0;
    while i < |calls|
      invariant 0 <= i <= |calls|
      invariant material.currentStock == StockAfter(calls[..i])
    {
      assert calls[..i + 1][..i] == calls[..i];
      var resp;
      match calls[i] {
        case AddCall(r) => resp := AddStock(material, requester, r);
        case RemoveCall(r) => resp := RemoveStock(material, requester, r);
      }
      i := i + 1;
    }
    assert calls[..i] == calls;
  }

  /** As written, a negative quantity passes validation: `add_stock` with -5.00
      on a fresh material leaves it at -5.00 through the endpoints alone. */
  lemma NegativeAddDrivesStockNegative()
    ensures StockAfter([AddCall(StockRequest("in", -500, None, "", ""))]) == -500
  {
    var calls := [AddCall(StockRequest("in", -500, None, "", ""))];
    assert calls[..0] == [];
  }

  /** The validation the ledger evidently intends: a movement quantity is positive. */
  predicate RequestValidCorrected(r: StockRequest) {
    RequestValid(r) && r.quantity > 0
  }

  /** The stock after `calls` when both endpoints validate with the corrected
      rule: a call whose payload fails it, or a removal the stock does not cover,
      changes nothing. */
  function StockAfterCorrected(calls: seq<StockCall>): int {
    if calls == [] then 0
    else
      var s := StockAfterCorrected(calls[..|calls| - 1]);
      var r := calls[|calls| - 1].request;
      if !RequestValidCorrected(r) then s
      else if calls[|calls| - 1].AddCall? then s + r.quantity
      else if r.quantity <= s then s - r.quantity
      else s
  }

  /** With the corrected validation no sequence of calls, whatever its payloads,
      makes the stock negative. */
  lemma {:induction false} CorrectedEndpointsKeepStockNonNegative(calls: seq<StockCall>)
    ensures StockAfterCorrected(calls) >= 0
  {
    if calls != [] {
      CorrectedEndpointsKeepStockNonNegative(calls[..|calls| - 1]);
    }
  }

  /** On calls that all pass the corrected validation, the corrected endpoints
      behave exactly as the endpoints as written. */
  lemma {:induction false} CorrectedEndpointsAgreeOnPositiveQuantities(calls: seq<StockCall>)
    requires forall i :: 0 <= i < |calls| ==> RequestValidCorrected(calls[i].request)
    ensures StockAfterCorrected(calls) == StockAfter(calls)
  {
    if calls != [] {
      var prefix := calls[..|calls| - 1];
      assert forall i :: 0 <= i < |prefix| ==> prefix[i] == calls[i];
      CorrectedEndpointsAgreeOnPositiveQuantities(prefix);
    }
  }

  /** With positive quantities the endpoints can never make the stock negative. */
  lemma {:induction false} CorrectedValidationKeepsStockNonNegative(calls: seq<StockCall>)
    requires forall i :: 0 <= i < |calls| ==> RequestValidCorrected(calls[i].request)
    ensures StockAfter(calls) >= 0
  {
    if calls != [] {
      var prefix := calls[..|calls| - 1];
      assert forall i :: 0 <= i < |prefix| ==> prefix[i] == calls[i];
      CorrectedValidationKeepsStockNonNegative(prefix);
    }
  }

  /** `MaterialSerializer.get_stock_status`. */
  datatype StockStatus = OutOfStock | LowStock | InStock

  function StockStatusOf(currentStock: int, minStockLevel: int): (s: StockStatus)
    ensures s == OutOfStock <==> currentStock <= 0
    ensures s == LowStock <==> 0 < currentStock <= minStockLevel
    ensures s == InStock <==> currentStock > 0 && currentStock > minStockLevel
  {
    if currentStock <= 0 then OutOfStock
    else if currentStock <= minStockLevel then LowStock
    else InStock
  }

  function StockStatusCode(s: StockStatus): string {
    match s
    case OutOfStock => "out_of_stock"
    case LowStock => "low_stock"
    case InStock => "in_stock"
  }

  /** A `Material` row as the list endpoint filters it. */
  datatype MaterialRow = MaterialRow(
    id: nat,
    categoryId: nat,
    supplierId: nat,
    currentStock: int,
    minStockLevel: int,
    isActive: bool)

  /** The list endpoint's query parameters. An absent or empty `category` or
      `supplier` is `None` and an absent or empty `stock_status` is `""`, since
      the view tests their truthiness; `is_active` is tested against `None`, so
      an empty `is_active` is `Some("")` and keeps only inactive materials. */
  datatype MaterialQuery = MaterialQuery(
    category: Option<nat>,
    supplier: Option<nat>,
    stockStatus: string,
    isActive: Option<string>)

  function AsciiLower(c: char): char {
    if 'A' <= c <= 'Z' then (c as int + 32) as char else c
  }

  /** `p.lower() == 'true'`. */
  predicate IsTrueText(p: string) {
    |p| == 4 && AsciiLower(p[0]) == 't' && AsciiLower(p[1]) == 'r'
      && AsciiLower(p[2]) == 'u' && AsciiLower(p[3]) == 'e'
  }

  /** The `stock_status` branch of `MaterialViewSet.get_queryset`, as written:
      `out_of_stock` keeps only rows at exactly zero, `low_stock` keeps every row
      at or below its minimum, any other value filters nothing. */
  predicate StockFilterAdmits(param: string, row: MaterialRow) {
    if param == "out_of_stock" then row.currentStock == 0
    else if param == "low_stock" then row.currentStock <= row.minStockLevel
    else true
  }

  /** The stock filter that agrees with the label the serializer prints. */
  predicate StockFilterAdmitsCorrected(param: string, row: MaterialRow) {
    if param == "out_of_stock" then StockStatusOf(row.currentStock, row.minStockLevel) == OutOfStock
    else if param == "low_stock" then StockStatusOf(row.currentStock, row.minStockLevel) == LowStock
    else true
  }

  /** Both filter branches disagree with the label: a material at -1.00 is
      labelled out of stock but not listed under `out_of_stock`, and one at 0
      with a minimum of 5.00 is listed under `low_stock` though labelled out of stock. */
  lemma StockFilterDisagreesWithLabel()
    ensures var negative := MaterialRow(1, 1, 1, -100, 0, true);
            StockStatusOf(negative.currentStock, negative.minStockLevel) == OutOfStock
            && !StockFilterAdmits("out_of_stock", negative)
    ensures var empty := MaterialRow(2, 1, 1, 0, 500, true);
            StockStatusOf(empty.currentStock, empty.minStockLevel) != LowStock
            && StockFilterAdmits("low_stock", empty)
  {
  }

  /** The corrected filter lists a row under a label exactly when the serializer
      gives that row that label. */
  lemma CorrectedStockFilterMatchesLabel(s: StockStatus, row: MaterialRow)
    requires s != InStock
    ensures StockFilterAdmitsCorrected(StockStatusCode(s), row)
            <==> StockStatusOf(row.currentStock, row.minStockLevel) == s
  {
  }

  predicate MaterialListed(q: MaterialQuery, row: MaterialRow) {
    && (q.category.Some? ==> row.categoryId == q.category.value)
    && (q.supplier.Some? ==> row.supplierId == q.supplier.value)
    && (q.stockStatus != "" ==> StockFilterAdmitsCorrected(q.stockStatus, row))
    && (q.isActive.Some? ==> row.isActive == IsTrueText(q.isActive.value))
  }

  /** `MaterialViewSet.get_queryset` without the free-text search, using the
      corrected stock filter. */
  function MaterialQueryset(q: MaterialQuery, rows: seq<MaterialRow>): (r: seq<MaterialRow>)
    ensures forall row :: row in r <==> row in rows && MaterialListed(q, row)
    ensures q.stockStatus in {"out_of_stock", "low_stock"} ==>
              forall row :: row in r ==> StockStatusCode(StockStatusOf(row.currentStock, row.minStockLevel)) == q.stockStatus
  {
    FilterKeepsExactly(rows, row => MaterialListed(q, row));
    Filter(rows, row => MaterialListed(q, row))
  }
}
