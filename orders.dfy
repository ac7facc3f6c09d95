/** The order lifecycle: the six order statuses, the `cancel` and
    `update_status` actions of the order endpoint, and the append-only trail of
    `OrderStatusUpdate` records. */
module Orders {
  import opened Common
  import Access
  import Text

  /** `Order.STATUS_CHOICES`; `OrderStatusUpdate.status` uses the same choices. */
  datatype OrderStatus = Pending | Confirmed | InProgress | Ready | Delivered | Cancelled

  function StatusCode(s: OrderStatus): string {
    match s
    case Pending => "pending"
    case Confirmed => "confirmed"
    case InProgress => "in_progress"
    case Ready => "ready"
    case Delivered => "delivered"
    case Cancelled => "cancelled"
  }

  /** The choice validation a serializer applies to a submitted status code. */
  function ParseStatus(code: string): (r: Option<OrderStatus>)
    ensures r.Some? ==> StatusCode(r.value) == code
  {
    if code == "pending" then Some(Pending)
    else if code == "confirmed" then Some(Confirmed)
    else if code == "in_progress" then Some(InProgress)
    else if code == "ready" then Some(Ready)
    else if code == "delivered" then Some(Delivered)
    else if code == "cancelled" then Some(Cancelled)
    else None
  }

  /** Every status code is accepted back as the status it names. */
  lemma ParseStatusCode(s: OrderStatus)
    ensures ParseStatus(StatusCode(s)) == Some(s)
  {
  }

  /** `Order.PAYMENT_STATUS_CHOICES`. */
  datatype PaymentStatus = PaymentPending | Paid | Refunded

  /** One `OrderStatusUpdate` row of an order's trail. */
  datatype StatusUpdate = StatusUpdate(status: OrderStatus, notes: string, createdBy: Option<UserId>)

  /** What the modelled operations do to an order: a successful `cancel`, an
      `update_status` (which also writes the status), a status update created
      through the nested status-update endpoint (which does not), and the update
      or delete of trail record `index` through that same endpoint. */
  datatype OrderEvent =
    | CancelledWith(reason: string)
    | StatusSet(update: StatusUpdate)
    | UpdateLogged(update: StatusUpdate)
    | UpdateEdited(index: nat, update: StatusUpdate)
    | UpdateDeleted(index: nat)

  /** What one event does to the status: a cancellation or an `update_status`
      writes it, nothing else touches it. */
  function StatusStep(status: OrderStatus, e: OrderEvent): OrderStatus {
    match e
    case CancelledWith(_) => Cancelled
    case StatusSet(u) => u.status
    case _ => status
  }

  /** What one event does to the trail: `update_status` and the nested create
      append a record, the nested update rewrites record `index` and the nested
      delete drops it (an index past the end names no record). */
  function LogStep(log: seq<StatusUpdate>, e: OrderEvent): seq<StatusUpdate> {
    match e
    case CancelledWith(_) => log
    case StatusSet(u) => log + [u]
    case UpdateLogged(u) => log + [u]
    case UpdateEdited(i, u) => if i < |log| then log[i := u] else log
    case UpdateDeleted(i) => if i < |log| then log[..i] + log[i + 1..] else log
  }

  /** What one event does to `cancellation_reason`: only a cancellation writes it. */
  function ReasonStep(reason: string, e: OrderEvent): string {
    match e
    case CancelledWith(r) => r
    case _ => reason
  }

  /** The status of an order created `pending` after `events`. */
  function StatusAfter(events: seq<OrderEvent>): OrderStatus {
    if events == [] then Pending
    else StatusStep(StatusAfter(events[..|events| - 1]), events[|events| - 1])
  }

  /** The status-update trail after `events`. */
  function LogOf(events: seq<OrderEvent>): seq<StatusUpdate> {
    if events == [] then []
    else LogStep(LogOf(events[..|events| - 1]), events[|events| - 1])
  }

  /** The `cancellation_reason` after `events`: that of the last cancellation, or blank. */
  function ReasonAfter(events: seq<OrderEvent>): string {
    if events == [] then ""
    else ReasonStep(ReasonAfter(events[..|events| - 1]), events[|events| - 1])
  }

  /** One more event changes the replayed state by exactly that event's step. */
  lemma AppendEvent(events: seq<OrderEvent>, e: OrderEvent)
    ensures StatusAfter(events + [e]) == StatusStep(StatusAfter(events), e)
    ensures LogOf(events + [e]) == LogStep(LogOf(events), e)
    ensures ReasonAfter(events + [e]) == ReasonStep(ReasonAfter(events), e)
  {
    assert (events + [e])[..|events|] == events;
  }

  /** The order lifecycle: forward one step at a time through pending,
      confirmed, in progress, ready and delivered (the order of the status
      choices), and cancellation only from pending or confirmed, the two
      statuses `cancel` accepts. */
  predicate LifecycleStep(from: OrderStatus, to: OrderStatus) {
    || (from == Pending && to == Confirmed)
    || (from == Confirmed && to == InProgress)
    || (from == InProgress && to == Ready)
    || (from == Ready && to == Delivered)
    || (from in {Pending, Confirmed} && to == Cancelled)
  }

  /** Any status other than `pending` and `cancelled` was written by an
      `update_status` call that is part of the history. */
  lemma {:induction false} StatusComesFromHistory(events: seq<OrderEvent>)
    ensures StatusAfter(events) in {Pending, Cancelled}
            || exists i :: 0 <= i < |events| && events[i].StatusSet? && events[i].update.status == StatusAfter(events)
  {
    if events != [] {
      var prefix := events[..|events| - 1];
      var last := events[|events| - 1];
      if !last.StatusSet? && !last.CancelledWith? {
        StatusComesFromHistory(prefix);
        if StatusAfter(prefix) !in {Pending, Cancelled} {
          var i :| 0 <= i < |prefix| && prefix[i].StatusSet? && prefix[i].update.status == StatusAfter(prefix);
          assert events[i] == prefix[i];
        }
      } else if last.StatusSet? {
        assert events[|events| - 1].update.status == StatusAfter(events);
      }
    }
  }

  /** No trail record is rewritten or deleted: the histories a status-update
      endpoint offering only list, retrieve and create can produce. */
  predicate TrailUntouched(events: seq<OrderEvent>) {
    forall i :: 0 <= i < |events| ==> !events[i].UpdateEdited? && !events[i].UpdateDeleted?
  }

  /** Where no record is rewritten or deleted the trail only grows: the trail of
      a history is a prefix of the trail of any such extension. */
  lemma {:induction false} LogOfIsAppendOnly(events: seq<OrderEvent>, more: seq<OrderEvent>)
    requires TrailUntouched(more)
    ensures LogOf(events) <= LogOf(events + more)
  {
    if more != [] {
      var longer := events + more;
      assert longer[..|longer| - 1] == events + more[..|more| - 1];
      assert longer[|longer| - 1] == more[|more| - 1];
      LogOfIsAppendOnly(events, more[..|more| - 1]);
    } else {
      assert events + more == events;
    }
  }

  /** As written, the nested endpoint's update and destroy rewrite or delete a
      stored record, so the earlier trail is no longer a prefix of the later one. */
  lemma TrailChangesBreakAppendOnly(events: seq<OrderEvent>, i: nat, u: StatusUpdate)
    requires i < |LogOf(events)|
    ensures u != LogOf(events)[i] ==> !(LogOf(events) <= LogOf(events + [UpdateEdited(i, u)]))
    ensures !(LogOf(events) <= LogOf(events + [UpdateDeleted(i)]))
  {
    var longer := events + [UpdateEdited(i, u)];
    assert longer[..|longer| - 1] == events;
    var shorter := events + [UpdateDeleted(i)];
    assert shorter[..|shorter| - 1] == events;
    assert |LogOf(shorter)| < |LogOf(events)|;
  }

  /** An order, whose status, reason and trail the actions update in place. */
  class Order {
    const id: nat
    const user: UserId
    const workshopId: nat
    const totalPrice: int
    var status: OrderStatus
    var paymentStatus: PaymentStatus
    var cancellationReason: string
    /** `related_name='status_updates'`, oldest first. */
    var statusUpdates: seq<StatusUpdate>
    /** The modelled operations applied so far. */
    ghost var history: seq<OrderEvent>

    ghost predicate Valid()
      reads this
    {
      && status == StatusAfter(history)
      && statusUpdates == LogOf(history)
      && cancellationReason == ReasonAfter(history)
    }

    /** A new order is `pending`, unpaid, uncancelled and has no trail. */
    constructor (id: nat, user: UserId, workshopId: nat, totalPrice: int)
      ensures Valid() && history == []
      ensures this.id == id && this.user == user && this.workshopId == workshopId && this.totalPrice == totalPrice
      ensures status == Pending && paymentStatus == PaymentPending
      ensures cancellationReason == "" && statusUpdates == []
    {
      this.id, this.user, this.workshopId, this.totalPrice := id, user, workshopId, totalPrice;
      status := Pending;
      paymentStatus := PaymentPending;
      cancellationReason := "";
      statusUpdates := [];
      history := [];
    }
  }

  /** The order endpoint looks orders up through its own queryset, so an order
      the requester cannot list is answered 404. */
  predicate OrderReachable(requester: Account, owner: UserId) {
    Access.Admits(Access.OrderScope(requester), owner)
  }

  const NotCancellable: string := "Seules les commandes en attente ou confirmées peuvent être annulées"
  const InvalidPayload: string := "invalid payload"

  /** The answer of `cancel`. */
  function CancelOutcome(requester: Account, owner: UserId, status: OrderStatus): (resp: Response)
    ensures resp == Ok200 <==> OrderReachable(requester, owner) && status in {Pending, Confirmed}
    ensures resp == BadRequest400(NotCancellable) <==> OrderReachable(requester, owner) && status !in {Pending, Confirmed}
    ensures resp == NotFound404 <==> !OrderReachable(requester, owner)
  {
    if !OrderReachable(requester, owner) then NotFound404
    else if status !in {Pending, Confirmed} then BadRequest400(NotCancellable)
    else Ok200
  }

  /** Every accepted cancellation is a step of the lifecycle. */
  lemma CancelFollowsLifecycle(requester: Account, owner: UserId, status: OrderStatus)
    requires CancelOutcome(requester, owner, status) == Ok200
    ensures LifecycleStep(status, Cancelled)
  {
  }

  /** `OrderViewSet.cancel`. */
  method Cancel(requester: Account, order: Order, reason: Option<string>) returns (resp: Response)
    requires order.Valid()
    modifies order`status, order`cancellationReason, order`history
    ensures order.Valid()
    ensures resp == CancelOutcome(requester, order.user, old(order.status))
    ensures resp == Ok200 ==> order.status == Cancelled
    ensures resp == Ok200 ==> order.cancellationReason == (if reason.Some? then reason.value else "")
    ensures resp != Ok200 ==> order.status == old(order.status) && order.cancellationReason == old(order.cancellationReason)
    ensures resp == Ok200 ==> order.history == old(order.history) + [CancelledWith(if reason.Some? then reason.value else "")]
    ensures resp != Ok200 ==> order.history == old(order.history)
  {
    if !OrderReachable(requester, order.user) {
      return NotFound404;
    }
    if order.status !in {Pending, Confirmed} {
      return BadRequest400(NotCancellable);
    }
    var text := if reason.Some? then reason.value else "";
    order.status := Cancelled;
    order.cancellationReason := text;
    AppendEvent(order.history, CancelledWith(text));
    order.history := order.history + [CancelledWith(text)];
    resp := Ok200;
  }

  /** `OrderStatusUpdateSerializer.is_valid()`: the status is one of the
      choices and the notes hold no U+0000. */
  predicate StatusPayloadValid(code: string, notes: string) {
    ParseStatus(code).Some? && Text.NoNullCharacter(notes)
  }

  /** The answer of `update_status`: the order is looked up first, then the
      payload validated; the previous status plays no part. */
  function UpdateStatusOutcome(requester: Account, owner: UserId, code: string, notes: string): (resp: Response)
    ensures resp == Created201 <==> OrderReachable(requester, owner) && StatusPayloadValid(code, notes)
    ensures resp == NotFound404 <==> !OrderReachable(requester, owner)
    ensures resp == BadRequest400(InvalidPayload) <==> OrderReachable(requester, owner) && !StatusPayloadValid(code, notes)
  {
    if !OrderReachable(requester, owner) then NotFound404
    else if !StatusPayloadValid(code, notes) then BadRequest400(InvalidPayload)
    else Created201
  }

  /** `update_status` accepts moves the lifecycle does not contain, such as
      reopening a delivered or cancelled order. */
  lemma UpdateStatusIgnoresLifecycle(admin: Account)
    requires IsAdmin(admin)
    ensures UpdateStatusOutcome(admin, 7, "pending", "") == Created201
    ensures !LifecycleStep(Delivered, Pending) && !LifecycleStep(Cancelled, Pending)
  {
  }

  /** `OrderViewSet.update_status`: append one status update carrying the new
      status and its author, then overwrite the order's status with it. */
  method UpdateStatus(requester: Account, order: Order, code: string, notes: string) returns (resp: Response)
    requires order.Valid()
    modifies order`status, order`statusUpdates, order`history
    ensures order.Valid()
    ensures resp == UpdateStatusOutcome(requester, order.user, code, notes)
    ensures resp == Created201 ==>
              && Some(order.status) == ParseStatus(code)
              && order.statusUpdates == old(order.statusUpdates) + [StatusUpdate(order.status, Text.Strip(notes), Some(requester.id))]
              && order.history == old(order.history) + [StatusSet(StatusUpdate(order.status, Text.Strip(notes), Some(requester.id)))]
    ensures resp != Created201 ==>
              order.status == old(order.status) && order.statusUpdates == old(order.statusUpdates)
              && order.history == old(order.history)
  {
    if !OrderReachable(requester, order.user) {
      return NotFound404;
    }
    if !StatusPayloadValid(code, notes) {
      return BadRequest400(InvalidPayload);
    }
    var parsed := ParseStatus(code);
    var update := StatusUpdate(parsed.value, Text.Strip(notes), Some(requester.id));
    order.statusUpdates := order.statusUpdates + [update];
    order.status := parsed.value;
    AppendEvent(order.history, StatusSet(update));
    order.history := order.history + [StatusSet(update)];
    resp := Created201;
  }

  /** The answer of a create on the nested status-update endpoint: the payload is
      validated before the order is looked up, and only an admin or the order's
      owner may add to its trail. `owner` is `None` when no such order exists. */
  function CreateStatusUpdateOutcome(requester: Account, owner: Option<UserId>, code: string, notes: string): (resp: Response)
    ensures resp == BadRequest400(InvalidPayload) <==> !StatusPayloadValid(code, notes)
    ensures resp == NotFound404 <==> StatusPayloadValid(code, notes) && owner.None?
    ensures resp == Created201 <==>
              StatusPayloadValid(code, notes) && owner.Some? && (IsAdmin(requester) || owner.value == requester.id)
    ensures resp == Forbidden403 <==>
              StatusPayloadValid(code, notes) && owner.Some? && !IsAdmin(requester) && owner.value != requester.id
  {
    if !StatusPayloadValid(code, notes) then BadRequest400(InvalidPayload)
    else if owner.None? then NotFound404
    else if IsAdmin(requester) || owner.value == requester.id then Created201
    else Forbidden403
  }

  /** The same answer as the view is written: the refusal raises
      `permissions.PermissionDenied`, a name the permissions module does not
      define, so the lookup itself fails and the request ends in a server error
      instead of a 403. No record is written in either case. */
  function CreateStatusUpdateOutcomeAsWritten(requester: Account, owner: Option<UserId>, code: string, notes: string): (resp: Response)
    ensures resp == ServerError500 <==> CreateStatusUpdateOutcome(requester, owner, code, notes) == Forbidden403
    ensures resp != ServerError500 ==> resp == CreateStatusUpdateOutcome(requester, owner, code, notes)
  {
    if !StatusPayloadValid(code, notes) then BadRequest400(InvalidPayload)
    else if owner.None? then NotFound404
    else if IsAdmin(requester) || owner.value == requester.id then Created201
    else ServerError500
  }

  /** A client adding to another client's order: the view as written answers
      500, and the refusal it evidently intends is a 403. */
  lemma OutsiderGetsServerError(outsider: Account, owner: UserId)
    requires !IsAdmin(outsider) && outsider.id != owner
    ensures CreateStatusUpdateOutcomeAsWritten(outsider, Some(owner), "ready", "") == ServerError500
    ensures CreateStatusUpdateOutcome(outsider, Some(owner), "ready", "") == Forbidden403
  {
  }

  /** `OrderStatusUpdateViewSet.create`/`perform_create`: append a record to the
      order's trail, leaving the order's own status as it was. */
  method CreateStatusUpdate(requester: Account, order: Order?, code: string, notes: string) returns (resp: Response)
    requires order != null ==> order.Valid()
    modifies if order != null then {order} else {}
    ensures order != null ==> order.Valid()
    ensures resp == CreateStatusUpdateOutcome(requester, if order != null then Some(order.user) else None, code, notes)
    ensures order != null ==> order.status == old(order.status) && order.cancellationReason == old(order.cancellationReason)
    ensures order != null ==> order.paymentStatus == old(order.paymentStatus)
    ensures order != null && resp == Created201 ==>
              order.statusUpdates == old(order.statusUpdates) + [StatusUpdate(ParseStatus(code).value, Text.Strip(notes), Some(requester.id))]
    ensures order != null && resp == Created201 ==>
              order.history == old(order.history) + [UpdateLogged(StatusUpdate(ParseStatus(code).value, Text.Strip(notes), Some(requester.id)))]
    ensures order != null && resp != Created201 ==>
              order.statusUpdates == old(order.statusUpdates) && order.history == old(order.history)
  {
    if !StatusPayloadValid(code, notes) {
      return BadRequest400(InvalidPayload);
    }
    var parsed := ParseStatus(code);
    if order == null {
      return NotFound404;
    }
    if !(IsAdmin(requester) || order.user == requester.id) {
      return Forbidden403;
    }
    var update := StatusUpdate(parsed.value, Text.Strip(notes), Some(requester.id));
    order.statusUpdates := order.statusUpdates + [update];
    AppendEvent(order.history, UpdateLogged(update));
    order.history := order.history + [UpdateLogged(update)];
    resp := Created201;
  }

  // ----- Update and delete of a trail record (the nested endpoint's other actions) -----

  /** The nested endpoint finds a record through its queryset: the order's owner
      or an admin, and a record of that order's trail (`index` into it). */
  predicate TrailRecordReachable(requester: Account, owner: UserId, trailLength: nat, index: nat) {
    (IsAdmin(requester) || owner == requester.id) && index < trailLength
  }

  /** The serializer's check of an update payload; a field that is `None` was
      not sent, which only a partial update (PATCH) allows for `status`. */
  predicate EditPayloadValid(partial: bool, code: Option<string>, notes: Option<string>) {
    && (code.Some? ==> ParseStatus(code.value).Some?)
    && (!partial ==> code.Some?)
    && (notes.Some? ==> Text.NoNullCharacter(notes.value))
  }

  /** The answer of an update of a trail record: lookup first, then validation. */
  function EditTrailOutcome(requester: Account, owner: UserId, trailLength: nat, index: nat,
                            partial: bool, code: Option<string>, notes: Option<string>): (resp: Response)
    ensures resp == NotFound404 <==> !TrailRecordReachable(requester, owner, trailLength, index)
    ensures resp == BadRequest400(InvalidPayload) <==>
              TrailRecordReachable(requester, owner, trailLength, index) && !EditPayloadValid(partial, code, notes)
    ensures resp == Ok200 <==>
              TrailRecordReachable(requester, owner, trailLength, index) && EditPayloadValid(partial, code, notes)
  {
    if !TrailRecordReachable(requester, owner, trailLength, index) then NotFound404
    else if !EditPayloadValid(partial, code, notes) then BadRequest400(InvalidPayload)
    else Ok200
  }

  /** A record with the sent fields replaced (notes trimmed) and its author kept. */
  function EditedRecord(record: StatusUpdate, code: Option<string>, notes: Option<string>): StatusUpdate
    requires code.Some? ==> ParseStatus(code.value).Some?
  {
    StatusUpdate(if code.Some? then ParseStatus(code.value).value else record.status,
                 if notes.Some? then Text.Strip(notes.value) else record.notes,
                 record.createdBy)
  }

  /** `OrderStatusUpdateViewSet.update`/`partial_update`, as written: the stored
      record is rewritten in place; the order's own status is not touched. */
  method EditStatusUpdate(requester: Account, order: Order, index: nat, partial: bool,
                          code: Option<string>, notes: Option<string>) returns (resp: Response)
    requires order.Valid()
    modifies order`statusUpdates, order`history
    ensures order.Valid()
    ensures resp == EditTrailOutcome(requester, order.user, |old(order.statusUpdates)|, index, partial, code, notes)
    ensures resp == Ok200 ==>
              order.statusUpdates == old(order.statusUpdates)[index := EditedRecord(old(order.statusUpdates)[index], code, notes)]
    ensures resp == Ok200 ==>
              order.history == old(order.history) + [UpdateEdited(index, EditedRecord(old(order.statusUpdates)[index], code, notes))]
    ensures resp != Ok200 ==> order.statusUpdates == old(order.statusUpdates) && order.history == old(order.history)
  {
    if !TrailRecordReachable(requester, order.user, |order.statusUpdates|, index) {
      return NotFound404;
    }
    if !EditPayloadValid(partial, code, notes) {
      return BadRequest400(InvalidPayload);
    }
    var record := EditedRecord(order.statusUpdates[index], code, notes);
    AppendEvent(order.history, UpdateEdited(index, record));
    order.statusUpdates := order.statusUpdates[index := record];
    order.history := order.history + [UpdateEdited(index, record)];
    resp := Ok200;
  }

  /** The answer of a delete of a trail record. */
  function DeleteTrailOutcome(requester: Account, owner: UserId, trailLength: nat, index: nat): (resp: Response)
    ensures resp == NotFound404 <==> !TrailRecordReachable(requester, owner, trailLength, index)
    ensures resp == NoContent204 <==> TrailRecordReachable(requester, owner, trailLength, index)
  {
    if TrailRecordReachable(requester, owner, trailLength, index) then NoContent204 else NotFound404
  }

  /** `OrderStatusUpdateViewSet.destroy`, as written: the record leaves the trail. */
  method DeleteStatusUpdate(requester: Account, order: Order, index: nat) returns (resp: Response)
    requires order.Valid()
    modifies order`statusUpdates, order`history
    ensures order.Valid()
    ensures resp == DeleteTrailOutcome(requester, order.user, |old(order.statusUpdates)|, index)
    ensures resp == NoContent204 ==>
              order.statusUpdates == old(order.statusUpdates)[..index] + old(order.statusUpdates)[index + 1..]
    ensures resp == NoContent204 ==> order.history == old(order.history) + [UpdateDeleted(index)]
    ensures resp != NoContent204 ==> order.statusUpdates == old(order.statusUpdates) && order.history == old(order.history)
  {
    if !TrailRecordReachable(requester, order.user, |order.statusUpdates|, index) {
      return NotFound404;
    }
    AppendEvent(order.history, UpdateDeleted(index));
    order.statusUpdates := order.statusUpdates[..index] + order.statusUpdates[index + 1..];
    order.history := order.history + [UpdateDeleted(index)];
    resp := NoContent204;
  }

  /** A client rewrites the first record of their own order's trail: as written
      the request succeeds, and the trail before it is no longer a prefix of the
      trail after it. */
  method RewrittenTrailScenario(client: Account)
    requires !IsAdmin(client)
  {
    var order := new Order(1, client.id, 1, 10000);
    assert OrderReachable(client, order.user) && StatusPayloadValid("confirmed", "");
    var resp := UpdateStatus(client, order, "confirmed", "");
    var before := order.statusUpdates;
    assert |before| == 1 && before[0].status == Confirmed;
    assert TrailRecordReachable(client, order.user, |before|, 0) && EditPayloadValid(true, Some("delivered"), None);
    resp := EditStatusUpdate(client, order, 0, true, Some("delivered"), None);
    assert resp == Ok200;
    assert order.statusUpdates[0].status == Delivered;
    assert !(before <= order.statusUpdates);
  }
}
