/** Who sees which rows: the `get_queryset` and `perform_create` rules of the
    user, order, measurements, stock-movement and status-update endpoints. */
module Access {
  import opened Common

  /** The three visibility decisions a queryset rule can take. */
  datatype Scope = All | OwnOnly(owner: UserId) | NoneVisible

  predicate Admits(scope: Scope, owner: UserId) {
    match scope
    case All => true
    case OwnOnly(u) => owner == u
    case NoneVisible => false
  }

  /** The rows a scope lets through, in the order the table lists them (its
      `Meta.ordering`: newest first for orders, measurements, stock movements
      and status updates). */
  function Visible<T(!new)>(scope: Scope, rows: seq<T>, ownerOf: T -> UserId): (r: seq<T>)
    ensures forall x :: x in r <==> x in rows && Admits(scope, ownerOf(x))
    ensures scope == All ==> r == rows
    ensures scope == NoneVisible ==> r == []
  {
    var keep := x => Admits(scope, ownerOf(x));
    FilterKeepsExactly(rows, keep);
    if scope == All then
      FilterKeepsAll(rows, keep);
      Filter(rows, keep)
    else if scope == NoneVisible then
      []
    else
      Filter(rows, keep)
  }

  /** The listing of two consecutive stretches of a table is the listing of the
      first followed by that of the second; in particular a row that sorts first
      (a newer one, under newest-first ordering) shows up, if at all, at the head
      of the listing, and the rows already listed keep their order. */
  lemma VisibleAppend<T(!new)>(scope: Scope, rows: seq<T>, more: seq<T>, ownerOf: T -> UserId)
    ensures Visible(scope, rows + more, ownerOf) == Visible(scope, rows, ownerOf) + Visible(scope, more, ownerOf)
  {
    FilterAppend(rows, more, x => Admits(scope, ownerOf(x)));
  }

  // ----- Orders -----

  datatype OrderRow = OrderRow(id: nat, user: UserId)

  /** `OrderViewSet.get_queryset`: admins see every order, anyone else their own. */
  function OrderScope(requester: Account): Scope {
    if IsAdmin(requester) then All else OwnOnly(requester.id)
  }

  function OrderQueryset(requester: Account, rows: seq<OrderRow>): (r: seq<OrderRow>)
    ensures IsAdmin(requester) ==> r == rows
    ensures !IsAdmin(requester) ==> forall o :: o in r <==> o in rows && o.user == requester.id
  {
    Visible(OrderScope(requester), rows, (o: OrderRow) => o.user)
  }

  /** `OrderViewSet.perform_create`: the new order belongs to the requester. */
  function NewOrderRow(requester: Account, id: nat): OrderRow {
    OrderRow(id, requester.id)
  }

  /** Orders are listed newest first (`ordering = ['-created_at']`), so the
      table after a create is the new row followed by the old ones. Whoever
      creates an order finds it at the head of their own listing, before the
      orders they already saw; the listing of any other non-admin is unchanged. */
  lemma CreatedOrderIsListed(requester: Account, viewer: Account, rows: seq<OrderRow>, id: nat)
    ensures NewOrderRow(requester, id) in OrderQueryset(requester, [NewOrderRow(requester, id)] + rows)
    ensures OrderQueryset(requester, [NewOrderRow(requester, id)] + rows)
            == [NewOrderRow(requester, id)] + OrderQueryset(requester, rows)
    ensures !IsAdmin(viewer) && viewer.id != requester.id ==>
              OrderQueryset(viewer, [NewOrderRow(requester, id)] + rows) == OrderQueryset(viewer, rows)
  {
    var row := NewOrderRow(requester, id);
    var ownerOf := (o: OrderRow) => o.user;
    VisibleAppend(OrderScope(requester), [row], rows, ownerOf);
    VisibleAppend(OrderScope(viewer), [row], rows, ownerOf);
    assert Visible(OrderScope(requester), [row], ownerOf) == [row] by {
      assert Filter([row], x => Admits(OrderScope(requester), ownerOf(x))) == [row];
    }
    if !IsAdmin(viewer) && viewer.id != requester.id {
      assert Visible(OrderScope(viewer), [row], ownerOf) == [] by {
        assert Filter([row], x => Admits(OrderScope(viewer), ownerOf(x))) == [];
      }
    }
  }

  // ----- Measurements -----

  datatype MeasurementsRow = MeasurementsRow(id: nat, user: UserId)

  /** `MeasurementsViewSet.get_queryset`: always the requester's own, admins included. */
  function MeasurementsScope(requester: Account): Scope {
    OwnOnly(requester.id)
  }

  function MeasurementsQueryset(requester: Account, rows: seq<MeasurementsRow>): (r: seq<MeasurementsRow>)
    ensures forall m :: m in r <==> m in rows && m.user == requester.id
  {
    Visible(MeasurementsScope(requester), rows, (m: MeasurementsRow) => m.user)
  }

  /** `MeasurementsViewSet.perform_create`. */
  function NewMeasurementsRow(requester: Account, id: nat): MeasurementsRow {
    MeasurementsRow(id, requester.id)
  }

  /** Whoever records measurements finds them in their listing (newest first,
      so the new row heads the table), and nobody else does. */
  lemma CreatedMeasurementsAreListedOnlyForOwner(requester: Account, other: Account, rows: seq<MeasurementsRow>, id: nat)
    requires other.id != requester.id
    ensures NewMeasurementsRow(requester, id) in MeasurementsQueryset(requester, [NewMeasurementsRow(requester, id)] + rows)
    ensures NewMeasurementsRow(requester, id) !in MeasurementsQueryset(other, [NewMeasurementsRow(requester, id)] + rows)
  {
  }

  // ----- Users -----

  /** The viewset actions a request can be routed to. */
  datatype UserAction = ListUsers | Retrieve | CreateUser | Update | PartialUpdate | Destroy | Me

  datatype UserRow = UserRow(id: UserId, username: string)

  function DigitChar(d: nat): char
    requires d < 10
  {
    ('0' as int + d) as char
  }

  /** The number a string of decimal digits denotes, most significant first. */
  function DigitsValue(s: string): nat
    requires forall i :: 0 <= i < |s| ==> '0' <= s[i] <= '9'
  {
    if s == [] then 0
    else DigitsValue(s[..|s| - 1]) * 10 + (s[|s| - 1] as int - '0' as int)
  }

  /** `str(n)` for a non-negative integer: the digits of `n` with no leading zero. */
  function DecimalText(n: nat): (s: string)
    ensures |s| >= 1
    ensures forall i :: 0 <= i < |s| ==> '0' <= s[i] <= '9'
    ensures n >= 10 ==> s[0] != '0'
    ensures DigitsValue(s) == n
  {
    if n < 10 then [DigitChar(n)]
    else
      var s := DecimalText(n / 10) + [DigitChar(n % 10)];
      assert s[..|s| - 1] == DecimalText(n / 10);
      s
  }

  /** Distinct ids have distinct texts, so the retrieve comparison of the user
      endpoint matches at most one id. */
  lemma DecimalTextInjective(a: nat, b: nat)
    requires DecimalText(a) == DecimalText(b)
    ensures a == b
  {
    assert DigitsValue(DecimalText(a)) == a;
  }

  /** `UserViewSet.get_queryset`. `requester` is `None` for an anonymous request
      and `pk` is the URL's primary-key text, if any. An authenticated non-admin
      outside `me` sees their own record on a retrieve of exactly their id, and
      nothing otherwise. */
  function UserScope(requester: Option<Account>, action: UserAction, pk: Option<string>): Scope {
    if requester.Some? && !IsAdmin(requester.value) && action != Me then
      if action == Retrieve && pk == Some(DecimalText(requester.value.id)) then OwnOnly(requester.value.id)
      else NoneVisible
    else All
  }

  function UserQueryset(requester: Option<Account>, action: UserAction, pk: Option<string>, rows: seq<UserRow>): (r: seq<UserRow>)
    ensures requester.None? || IsAdmin(requester.value) || action == Me ==> r == rows
    ensures requester.Some? && !IsAdmin(requester.value) && action != Me ==>
              forall u :: u in r ==> u in rows && u.id == requester.value.id
    ensures requester.Some? && !IsAdmin(requester.value) && action != Me && r != [] ==>
              action == Retrieve && pk == Some(DecimalText(requester.value.id))
    ensures requester.Some? && action == Retrieve && pk == Some(DecimalText(requester.value.id)) ==>
              forall u :: u in rows && u.id == requester.value.id ==> u in r
  {
    Visible(UserScope(requester, action, pk), rows, (u: UserRow) => u.id)
  }

  // ----- Stock movements -----

  datatype MovementRow = MovementRow(id: nat, materialId: nat, movementType: string)

  /** `StockMovementViewSet.get_queryset`: the `material` and `movement_type`
      query filters (absent or empty: `None`, `""`), then only admins see anything. */
  function StockMovementQueryset(requester: Account, material: Option<nat>, movementType: string,
                                 rows: seq<MovementRow>): (r: seq<MovementRow>)
    ensures !IsAdmin(requester) ==> r == []
    ensures IsAdmin(requester) ==>
              forall m :: m in r <==> (m in rows
                                       && (material.Some? ==> m.materialId == material.value)
                                       && (movementType != "" ==> m.movementType == movementType))
  {
    var sameMaterial := (m: MovementRow) => material.Some? ==> m.materialId == material.value;
    var sameType := (m: MovementRow) => movementType != "" ==> m.movementType == movementType;
    var byMaterial := Filter(rows, sameMaterial);
    var byType := Filter(byMaterial, sameType);
    FilterKeepsExactly(rows, sameMaterial);
    FilterKeepsExactly(byMaterial, sameType);
    if IsAdmin(requester) then byType else []
  }

  // ----- Status updates -----

  datatype UpdateRow = UpdateRow(id: nat, orderId: nat)

  /** `OrderStatusUpdateViewSet.get_queryset`. `orderPk` is the URL's order id,
      `owners` maps each existing order to its owner. Naming a missing order is a
      404; a named order's trail is shown to an admin or its owner and to nobody
      else; without an order only an admin sees anything. */
  function StatusUpdateQueryset(requester: Account, orderPk: Option<nat>, owners: map<nat, UserId>,
                                rows: seq<UpdateRow>): (r: Result<seq<UpdateRow>, Response>)
    ensures orderPk.Some? && orderPk.value !in owners ==> r == Err(NotFound404)
    ensures orderPk.Some? && orderPk.value in owners && (IsAdmin(requester) || owners[orderPk.value] == requester.id) ==>
              r.Ok? && forall u :: u in r.value <==> u in rows && u.orderId == orderPk.value
    ensures orderPk.Some? && orderPk.value in owners && !IsAdmin(requester) && owners[orderPk.value] != requester.id ==>
              r == Ok([])
    ensures orderPk.None? ==> r == Ok(if IsAdmin(requester) then rows else [])
  {
    if orderPk.Some? then
      if orderPk.value !in owners then Err(NotFound404)
      else if IsAdmin(requester) || owners[orderPk.value] == requester.id then
        FilterKeepsExactly(rows, (u: UpdateRow) => u.orderId == orderPk.value);
        Ok(Filter(rows, (u: UpdateRow) => u.orderId == orderPk.value))
      else Ok([])
    else if IsAdmin(requester) then Ok(rows)
    else Ok([])
  }
}
