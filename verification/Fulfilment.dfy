/**
 Shipments and the order status that follows them: shipment creation, tracking events and
 administrative patches, each of which writes the order only through the guarded update.
 */
module Fulfilment {
  import opened Common
  import opened Orders

  datatype ShipStatus = ParcelPending | ParcelPicked | ParcelInTransit | ParcelShipped | ParcelOutForDelivery | ParcelDelivered | ParcelReturned

  /** A shipment row with the log of its accepted events. */
  datatype Shipment = Shipment(status: ShipStatus, lastStatus: Option<ShipStatus>, log: seq<ShipStatus>)

  datatype State = State(order: OrderStatus, shipment: Option<Shipment>)

  predicate AllowedShipment(current: ShipStatus, next: ShipStatus) {
    || current == next
    || (current.ParcelPending? && next.ParcelShipped?)
    || (current.ParcelShipped? && (next.ParcelOutForDelivery? || next.ParcelDelivered?))
    || (current.ParcelOutForDelivery? && next.ParcelDelivered?)
  }

  /** The order status that a tracking status stands for. */
  function Target(s: ShipStatus): Option<OrderStatus> {
    match s
    case ParcelShipped => Some(Shipped)
    case ParcelOutForDelivery => Some(OutForDelivery)
    case ParcelDelivered => Some(Delivered)
    case _ => None
  }

  function Sync(order: OrderStatus, s: ShipStatus): OrderStatus {
    match Target(s)
    case None => order
    case Some(target) => if Rank(order) >= Rank(target) then order else UpdateIfAllowed(order, target)
  }

  predicate AdminTarget(s: OrderStatus) {
    s.Packed? || s.Shipped? || s.OutForDelivery? || s.Delivered? || s.Canceled?
  }

  function CreateEffect(s: State): State {
    if (!s.order.Paid? && !s.order.Packed?) || s.shipment.Some? then s
    else State(UpdateIfAllowed(s.order, Packed), Some(Shipment(ParcelPending, Some(ParcelPending), [])))
  }

  function Current(p: Shipment): ShipStatus {
    if p.lastStatus.Some? then p.lastStatus.value else p.status
  }

  function TrackEffect(s: State, next: ShipStatus): State {
    if s.shipment.None? || !AllowedShipment(Current(s.shipment.value), next) then s
    else State(Sync(s.order, next), Some(Shipment(next, Some(next), s.shipment.value.log + [next])))
  }

  function PatchEffect(s: State, target: OrderStatus): State {
    if !AdminTarget(target) || Rank(s.order) >= Rank(target) then s
    else s.(order := UpdateIfAllowed(s.order, target))
  }

  // ---------- every interleaving ----------

  /** Who issues a guarded update, with the order status it read before, possibly long ago. */
  datatype Write =
    | ByCreation
    | ByTracking(event: ShipStatus, seen: OrderStatus)
    | ByAdmin(target: OrderStatus, seen: OrderStatus)

  predicate Issued(w: Write) {
    match w
    case ByCreation => true
    case ByTracking(event, seen) => Target(event).Some? && Rank(seen) < Rank(Target(event).value)
    case ByAdmin(target, seen) => AdminTarget(target) && Rank(seen) < Rank(target)
  }

  function Aim(w: Write): OrderStatus
    requires Issued(w)
  {
    match w
    case ByCreation => Packed
    case ByTracking(event, _) => Target(event).value
    case ByAdmin(target, _) => target
  }

  function WriteAll(order: OrderStatus, ws: seq<Write>): OrderStatus
    requires forall w :: w in ws ==> Issued(w)
    decreases |ws|
  {
    if ws == [] then order else
    assert ws[0] in ws;
    WriteAll(UpdateIfAllowed(order, Aim(ws[0])), ws[1..])
  }

  /**
   However the writes of creation, tracking and administration interleave, and however stale the
   status each of them read, the order's rank never falls and a canceled order stays canceled.
   */
  lemma {:induction false} RankNeverFalls(order: OrderStatus, ws: seq<Write>)
    requires forall w :: w in ws ==> Issued(w)
    ensures Rank(order) <= Rank(WriteAll(order, ws))
    ensures order.Canceled? <==> WriteAll(order, ws).Canceled?
    decreases |ws|
  {
    if ws != [] {
      assert ws[0] in ws;
      RankNeverFalls(UpdateIfAllowed(order, Aim(ws[0])), ws[1..]);
    }
  }

  /** Cancelation is listed among the administrator's targets, but no patch can ever perform it. */
  lemma AdminNeverCancels(s: State)
    ensures AdminTarget(Canceled) && PatchEffect(s, Canceled) == s
  {
  }

  /** Exactly the patches that move the order one place along Paid, Packed, ..., Delivered take effect, and leave it there. */
  lemma PatchTakesEffectIff(s: State, target: OrderStatus)
    ensures PatchEffect(s, target) != s <==> Rank(s.order) >= 1 && Rank(target) == Rank(s.order) + 1
    ensures PatchEffect(s, target) != s ==> PatchEffect(s, target) == s.(order := target)
  {
  }

  // ---------- tracking alone ----------

  function ShipRank(s: ShipStatus): int {
    match s
    case ParcelPending => 0
    case ParcelShipped => 1
    case ParcelOutForDelivery => 2
    case ParcelDelivered => 3
    case _ => -1
  }

  /** The order status written in a log of accepted events. */
  function OrderFromLog(log: seq<ShipStatus>): OrderStatus {
    if ParcelOutForDelivery in log && ParcelDelivered in log then Delivered
    else if ParcelOutForDelivery in log then OutForDelivery
    else if ParcelShipped in log then Shipped
    else Packed
  }

  predicate Nondecreasing(log: seq<ShipStatus>) {
    forall i, j :: 0 <= i <= j < |log| ==> 0 <= ShipRank(log[i]) <= ShipRank(log[j])
  }

  function LastOr(log: seq<ShipStatus>, start: ShipStatus): ShipStatus {
    if log == [] then start else log[|log| - 1]
  }

  ghost predicate InStep(s: State) {
    && s.shipment.Some?
    && var p := s.shipment.value;
       && p.status == LastOr(p.log, ParcelPending) && p.lastStatus == Some(p.status)
       && Nondecreasing(p.log)
       && (p.log != [] && !p.status.ParcelPending? ==> ParcelShipped in p.log)
       && s.order == OrderFromLog(p.log)
  }

  lemma SyncFollowsLog(log: seq<ShipStatus>, status: ShipStatus, next: ShipStatus)
    requires forall x :: x in log ==> 0 <= ShipRank(x) <= ShipRank(status)
    requires if log == [] then status.ParcelPending? else status in log
    requires !status.ParcelPending? ==> ParcelShipped in log
    requires AllowedShipment(status, next)
    ensures Sync(OrderFromLog(log), next) == OrderFromLog(log + [next])
    ensures !next.ParcelPending? ==> ParcelShipped in log + [next]
  {
    assert forall x :: x in log + [next] <==> x in log || x == next;
  }

  lemma ExtendsNondecreasing(log: seq<ShipStatus>, status: ShipStatus, next: ShipStatus)
    requires Nondecreasing(log) && status == LastOr(log, ParcelPending) && AllowedShipment(status, next)
    ensures Nondecreasing(log + [next])
  {
    RankBound(log, status);
    var log' := log + [next];
    forall i, j | 0 <= i <= j < |log'| ensures 0 <= ShipRank(log'[i]) <= ShipRank(log'[j]) {
      if i < |log| { assert log[i] in log; }
    }
  }

  lemma TrackKeepsInStep(s: State, next: ShipStatus)
    requires InStep(s)
    ensures InStep(TrackEffect(s, next))
  {
    var p := s.shipment.value;
    if AllowedShipment(p.status, next) {
      RankBound(p.log, p.status);
      ExtendsNondecreasing(p.log, p.status, next);
      SyncFollowsLog(p.log, p.status, next);
    }
  }

  /** No event in a nondecreasing log is past its last one. */
  lemma RankBound(log: seq<ShipStatus>, last: ShipStatus)
    requires Nondecreasing(log) && last == LastOr(log, ParcelPending)
    ensures ShipRank(last) >= 0 && forall x :: x in log ==> 0 <= ShipRank(x) <= ShipRank(last)
  {
    forall x | x in log ensures 0 <= ShipRank(x) <= ShipRank(last) {
      var i :| 0 <= i < |log| && log[i] == x;
      assert log[|log| - 1] == last;
    }
  }

  function TrackAll(s: State, events: seq<ShipStatus>): State
    decreases |events|
  {
    if events == [] then s else TrackAll(TrackEffect(s, events[0]), events[1..])
  }

  lemma {:induction false} TrackingKeepsInStep(s: State, events: seq<ShipStatus>)
    requires InStep(s)
    ensures InStep(TrackAll(s, events))
    decreases |events|
  {
    if events != [] {
      TrackKeepsInStep(s, events[0]);
      TrackingKeepsInStep(TrackEffect(s, events[0]), events[1..]);
    }
  }

  /**
   From shipment creation on, with tracking alone: the log is nondecreasing, the shipment's status is its
   last event's, and the order is DELIVERED exactly when the log has both OUT_FOR_DELIVERY and DELIVERED.
   */
  lemma OrderFollowsLog(order: OrderStatus, events: seq<ShipStatus>)
    requires order.Paid? || order.Packed?
    ensures var s := TrackAll(CreateEffect(State(order, None)), events);
            && s.shipment.Some? && Nondecreasing(s.shipment.value.log)
            && s.shipment.value.status == LastOr(s.shipment.value.log, ParcelPending)
            && s.order == OrderFromLog(s.shipment.value.log)
            && (s.order.Delivered? <==> ParcelOutForDelivery in s.shipment.value.log && ParcelDelivered in s.shipment.value.log)
  {
    TrackingKeepsInStep(CreateEffect(State(order, None)), events);
  }

  /** A parcel reported as delivered without an out-for-delivery event leaves its order SHIPPED for good. */
  lemma {:induction false} SkippedStopIsStuck(s: State, events: seq<ShipStatus>)
    requires s.order.Shipped? && s.shipment.Some? && Current(s.shipment.value).ParcelDelivered?
    ensures TrackAll(s, events).order.Shipped?
    decreases |events|
  {
    if events != [] {
      SkippedStopIsStuck(TrackEffect(s, events[0]), events[1..]);
    }
  }

  // ---------- which events are accepted ----------

  /** Staying put, one stop on from a stop of the route, or straight from SHIPPED to DELIVERED. */
  predicate Moves(from: ShipStatus, to: ShipStatus) {
    || from == to
    || (ShipRank(from) >= 0 && ShipRank(to) == ShipRank(from) + 1)
    || (from.ParcelShipped? && to.ParcelDelivered?)
  }

  /** The events of a sequence that such moves let through, one after the other. */
  function Accepted(from: ShipStatus, events: seq<ShipStatus>): seq<ShipStatus>
    decreases |events|
  {
    if events == [] then []
    else if Moves(from, events[0]) then [events[0]] + Accepted(events[0], events[1..])
    else Accepted(from, events[1..])
  }

  lemma TrackOne(s: State, next: ShipStatus)
    requires s.shipment.Some?
    ensures var s', p := TrackEffect(s, next), s.shipment.value;
            && s'.shipment.Some?
            && (if Moves(Current(p), next) then s'.shipment.value == Shipment(next, Some(next), p.log + [next]) else s' == s)
  {
  }

  lemma {:induction false} LogGrowsByAccepted(s: State, events: seq<ShipStatus>)
    requires s.shipment.Some?
    ensures TrackAll(s, events).shipment.Some?
    ensures TrackAll(s, events).shipment.value.log == s.shipment.value.log + Accepted(Current(s.shipment.value), events)
    decreases |events|
  {
    if events != [] {
      TrackOne(s, events[0]);
      LogGrowsByAccepted(TrackEffect(s, events[0]), events[1..]);
    }
  }

  /** From shipment creation on, the log is exactly the accepted events, so with OrderFollowsLog the order is decided by the events alone. */
  lemma LogIsAccepted(order: OrderStatus, events: seq<ShipStatus>)
    requires order.Paid? || order.Packed?
    ensures var s := TrackAll(CreateEffect(State(order, None)), events);
            && s.shipment.Some? && s.shipment.value.log == Accepted(ParcelPending, events)
            && s.order == OrderFromLog(Accepted(ParcelPending, events))
  {
    LogGrowsByAccepted(CreateEffect(State(order, None)), events);
    OrderFollowsLog(order, events);
  }

  // ---------- the operations ----------

  class Desk {
    var order: OrderStatus
    var shipment: Option<Shipment>

    ghost function View(): State
      reads this
    {
      State(order, shipment)
    }

    constructor (order: OrderStatus)
      ensures View() == State(order, None)
    {
      this.order, shipment := order, None;
    }

    method Create() returns (ok: bool)
      modifies this
      ensures View() == CreateEffect(old(View()))
      ensures ok <==> old(shipment).None? && (old(order).Paid? || old(order).Packed?)
    {
      if order != Paid && order != Packed {
        return false;
      }
      if shipment.Some? {
        return false;
      }
      shipment := Some(Shipment(ParcelPending, Some(ParcelPending), []));
      order := UpdateIfAllowed(order, Packed);
      return true;
    }

    method AppendEvent(status: ShipStatus) returns (ok: bool)
      modifies this
      ensures View() == TrackEffect(old(View()), status)
      ensures ok <==> old(shipment).Some? && AllowedShipment(Current(old(shipment).value), status)
    {
      if shipment.None? {
        return false;
      }
      var current := shipment.value.status;
      if shipment.value.lastStatus.Some? {
        current := shipment.value.lastStatus.value;
      }
      if !AllowedShipment(current, status) {
        return false;
      }
      shipment := Some(Shipment(status, Some(status), shipment.value.log + [status]));
      var target := Target(status);
      if target.Some? && Rank(order) < Rank(target.value) {
        order := UpdateIfAllowed(order, target.value);
      }
      return true;
    }

    method PatchStatus(target: OrderStatus) returns (ok: bool)
      modifies this
      ensures View() == PatchEffect(old(View()), target)
      ensures ok <==> View() != old(View())
    {
      if !AdminTarget(target) {
        return false;
      }
      if Rank(order) >= Rank(target) {
        return false;
      }
      var next := UpdateIfAllowed(order, target);
      ok := next != order;
      order := next;
    }
  }
}
