/** The shipment status log: every status change writes one row naming where it came from and where it goes. */
module ShipmentLog {
  import opened Lists

  datatype Status =
    | RECEIVED_AT_HUB | QUALITY_CHECK_PASSED | PACKAGED_FOR_SHIPPING | AWAITING_CARRIER_PICKUP | PICKED_UP_BY_CARRIER
    | IN_TRANSIT_TO_DESTINATION | ARRIVED_AT_LOCAL_FACILITY | CUSTOMS_CLEARANCE | AT_LOCAL_WAREHOUSE | OUT_FOR_DELIVERY
    | DELIVERY_ATTEMPTED | DELIVERED_TO_CUSTOMER
    | RETURN_LABEL_ISSUED | RETURN_STARTED | RECEIVED_FROM_CUSTOMER | DELIVERED_TO_VENDOR | EXCHANGE_COMPLETED
    | IN_TRANSIT_TO_CUSTOMER | RETURN_COMPLETED_TO_CUSTOMER
    | RETURN_TO_SENDER_INITIATED | RETURNED_TO_SENDER | RETURN_WAYBILL_ISSUED | RETURN_RECEIVED | EXCHANGE_SHIPPED
    | RETURN_TO_CUSTOMER | CUSTOMS_DELAY

  datatype Waybill = Waybill(id: nat, part: Option<nat>)
  datatype Shipment = Shipment(order: nat, waybill: Option<Waybill>, status: Status)
  datatype Entry = Entry(shipment: nat, from: Option<Status>, to: Status)
  datatype Desk = Desk(shipments: seq<Shipment>, log: seq<Entry>)

  // ---- Lookups ------------------------------------------------------------------------------------------------

  function IdOf(s: Shipment): Option<nat> {
    if s.waybill.Some? then Some(s.waybill.value.id) else None
  }

  /** Newest row first: the last of the first n shipments with the property. */
  function Newest(d: Desk, wanted: Shipment -> bool, n: nat): (r: Option<nat>)
    requires n <= |d.shipments|
    ensures r.Some? ==> r.value < n && wanted(d.shipments[r.value])
    ensures r.Some? ==> forall i :: r.value < i < n ==> !wanted(d.shipments[i])
    ensures r.None? ==> forall i :: 0 <= i < n ==> !wanted(d.shipments[i])
  {
    if n == 0 then None
    else if wanted(d.shipments[n - 1]) then Some(n - 1)
    else Newest(d, wanted, n - 1)
  }

  function Find(d: Desk, wanted: Shipment -> bool): Option<nat> {
    Newest(d, wanted, |d.shipments|)
  }

  function OfOrder(order: nat): Shipment -> bool { (s: Shipment) => s.order == order }
  function Booked(order: nat, waybill: Option<nat>): Shipment -> bool {
    (s: Shipment) => s.order == order && IdOf(s) == waybill
  }

  function OfPart(order: nat, part: Option<nat>): Shipment -> bool {
    (s: Shipment) => s.order == order && s.waybill.Some? && s.waybill.value.part == part
  }

  // ---- Actions ------------------------------------------------------------------------------------------------

  datatype Action =
    | Create(order: nat, waybill: Option<Waybill>)
    | UpdateStatus(id: nat, status: Status)
    | IssueLabel(order: nat, part: Option<nat>, issued: Waybill)
    | StartReturn(order: nat)

  function Moved(d: Desk, id: nat, s: Shipment): Desk
    requires id < |d.shipments|
  {
    Desk(d.shipments[id := s], d.log + [Entry(id, Some(d.shipments[id].status), s.status)])
  }

  /**
   * A label goes on the newest shipment of the returned part, else on the newest of the order, else on a new,
   * unlogged one.
   */
  function Target(d: Desk, order: nat, part: Option<nat>): Option<nat> {
    if Find(d, OfPart(order, part)).Some? then Find(d, OfPart(order, part)) else Find(d, OfOrder(order))
  }

  function Apply(d: Desk, a: Action): Desk {
    match a
    case Create(order, waybill) =>
      var key := if waybill.Some? then Some(waybill.value.id) else None;
      if Find(d, Booked(order, key)).Some? then d
      else Desk(d.shipments + [Shipment(order, waybill, RECEIVED_AT_HUB)],
                d.log + [Entry(|d.shipments|, None, RECEIVED_AT_HUB)])
    case UpdateStatus(id, status) =>
      if id < |d.shipments| then Moved(d, id, d.shipments[id].(status := status)) else d
    case IssueLabel(order, part, issued) =>
      var target := Target(d, order, part);
      if target.Some? then Moved(d, target.value, Shipment(order, Some(issued), RETURN_LABEL_ISSUED))
      else Desk(d.shipments + [Shipment(order, Some(issued), RETURN_LABEL_ISSUED)], d.log)
    case StartReturn(order) =>
      var target := Find(d, OfOrder(order));
      if target.Some? then Moved(d, target.value, d.shipments[target.value].(status := RETURN_STARTED)) else d
  }

  function Run(d: Desk, actions: seq<Action>): Desk {
    if actions == [] then d else Apply(Run(d, actions[..|actions| - 1]), actions[|actions| - 1])
  }

  /** No shipment leaves the desk or changes its order. */
  ghost predicate KeepsOrders(before: Desk, after: Desk) {
    && |before.shipments| <= |after.shipments|
    && forall i :: 0 <= i < |before.shipments| ==> after.shipments[i].order == before.shipments[i].order
  }

  lemma ApplyKeepsOrders(d: Desk, a: Action)
    ensures KeepsOrders(d, Apply(d, a))
  {
    if a.IssueLabel? { NoTargetIff(d, a.order, a.part); }
  }

  // ---- Replaying the log ----------------------------------------------------------------------------------------

  function About(id: nat): Entry -> bool { (e: Entry) => e.shipment == id }

  function History(d: Desk, id: nat): seq<Entry> {
    Filter(d.log, About(id))
  }

  /** The rows lead from one status to the other, each starting where the one before it ended. */
  predicate Leads(rows: seq<Entry>, from: Option<Status>, to: Option<Status>) {
    if rows == [] then from == to
    else
      var last := rows[|rows| - 1];
      Some(last.to) == to && Leads(rows[..|rows| - 1], from, last.from)
  }

  /** The log of the shipment starts from nothing and ends in its status. */
  predicate Replays(d: Desk, id: nat)
    requires id < |d.shipments|
  {
    Leads(History(d, id), None, Some(d.shipments[id].status))
  }

  /** Where the history of each shipment begins: at nothing if it was created, at the label if the label made it. */
  function Births(d: Desk, actions: seq<Action>): seq<Option<Status>> {
    if actions == [] then seq(|d.shipments|, i => None)
    else
      var n := |actions| - 1;
      var before, born := Run(d, actions[..n]), Births(d, actions[..n]);
      if |Apply(before, actions[n]).shipments| == |before.shipments| then born
      else born + [if actions[n].Create? then None else Some(RETURN_LABEL_ISSUED)]
  }

  ghost predicate Sound(d: Desk, born: seq<Option<Status>>) {
    && |born| == |d.shipments|
    && (forall e :: e in d.log ==> e.shipment < |d.shipments|)
    && (forall i :: 0 <= i < |born| ==> Leads(History(d, i), born[i], Some(d.shipments[i].status)))
  }

  lemma MovedSound(d: Desk, born: seq<Option<Status>>, id: nat, s: Shipment)
    requires Sound(d, born) && id < |d.shipments|
    ensures Sound(Moved(d, id, s), born)
  {
    var e := Entry(id, Some(d.shipments[id].status), s.status);
    forall i | 0 <= i < |born|
           ensures Leads(History(Moved(d, id, s), i), born[i], Some(Moved(d, id, s).shipments[i].status)) {
      FilterAppend(d.log, e, About(i));
      assert i == id ==> (History(d, i) + [e])[..|History(d, i)|] == History(d, i);
    }
  }

  /** A new shipment is sound if its one row starts at nothing, or if it has no row and is born in its status. */
  lemma AddedSound(d: Desk, born: seq<Option<Status>>, s: Shipment, logged: bool)
    requires Sound(d, born)
    ensures Sound(Desk(d.shipments + [s], if logged then d.log + [Entry(|d.shipments|, None, s.status)] else d.log),
                  born + [if logged then None else Some(s.status)])
  {
    var e, n := Entry(|d.shipments|, None, s.status), |d.shipments|;
    FilterNone(d.log, About(n));
    forall i ensures Filter(d.log + [e], About(i)) == Filter(d.log, About(i)) + if i == n then [e] else [] {
      FilterAppend(d.log, e, About(i));
    }
    assert Leads([e], None, Some(s.status));
  }

  lemma {:induction false} RunSound(d: Desk, actions: seq<Action>)
    requires Sound(d, seq(|d.shipments|, i => None))
    ensures Sound(Run(d, actions), Births(d, actions))
  {
    if actions != [] {
      var n := |actions| - 1;
      RunSound(d, actions[..n]);
      var before, born, a := Run(d, actions[..n]), Births(d, actions[..n]), actions[n];
      match a
      case Create(order, waybill) =>
        AddedSound(before, born, Shipment(order, waybill, RECEIVED_AT_HUB), true);
      case UpdateStatus(id, status) =>
        if id < |before.shipments| { MovedSound(before, born, id, before.shipments[id].(status := status)); }
      case IssueLabel(order, part, issued) =>
        var target, s := Target(before, order, part), Shipment(order, Some(issued), RETURN_LABEL_ISSUED);
        if target.Some? { MovedSound(before, born, target.value, s); } else { AddedSound(before, born, s, false); }
      case StartReturn(order) =>
        var target := Find(before, OfOrder(order));
        if target.Some? {
          MovedSound(before, born, target.value, before.shipments[target.value].(status := RETURN_STARTED));
        }
    }
  }

  lemma {:induction false} OneOrigin(rows: seq<Entry>, a: Option<Status>, b: Option<Status>, to: Option<Status>)
    requires Leads(rows, a, to) && Leads(rows, b, to)
    ensures a == b
  {
    if rows != [] { OneOrigin(rows[..|rows| - 1], a, b, rows[|rows| - 1].from); }
  }

  lemma ReplaysIffBornClean(d: Desk, born: seq<Option<Status>>, id: nat)
    requires Sound(d, born) && id < |d.shipments|
    ensures Replays(d, id) <==> born[id].None?
  {
    if Replays(d, id) { OneOrigin(History(d, id), born[id], None, Some(d.shipments[id].status)); }
  }

  /**
   * Over any run from an empty desk, the log of a shipment replays to its status exactly when no label had to create
   * the shipment.
   */
  lemma ReplaysIff(actions: seq<Action>, id: nat)
    requires id < |Run(Desk([], []), actions).shipments|
    ensures |Births(Desk([], []), actions)| == |Run(Desk([], []), actions).shipments|
    ensures Replays(Run(Desk([], []), actions), id) <==> Births(Desk([], []), actions)[id].None?
  {
    RunSound(Desk([], []), actions);
    ReplaysIffBornClean(Run(Desk([], []), actions), Births(Desk([], []), actions), id);
  }

  ghost predicate AllReplay(d: Desk) {
    forall id :: 0 <= id < |d.shipments| ==> Replays(d, id)
  }

  ghost predicate AllClean(born: seq<Option<Status>>) {
    forall i :: 0 <= i < |born| ==> born[i].None?
  }

  lemma AllReplayIffClean(d: Desk, born: seq<Option<Status>>)
    requires Sound(d, born)
    ensures AllReplay(d) <==> AllClean(born)
  {
    forall id | 0 <= id < |d.shipments| ensures Replays(d, id) <==> born[id].None? {
      ReplaysIffBornClean(d, born, id);
    }
  }

  predicate HasShipment(d: Desk, order: nat) {
    exists i :: 0 <= i < |d.shipments| && d.shipments[i].order == order
  }

  /** A label finds no shipment to go on exactly when its order has none. */
  lemma NoTargetIff(d: Desk, order: nat, part: Option<nat>)
    ensures Target(d, order, part).None? <==> !HasShipment(d, order)
    ensures Target(d, order, part).Some? ==> d.shipments[Target(d, order, part).value].order == order
  {
    var r := Find(d, OfOrder(order));
    if HasShipment(d, order) {
      var i :| 0 <= i < |d.shipments| && d.shipments[i].order == order;
      assert OfOrder(order)(d.shipments[i]);
    }
  }

  /** Shipment t is the newest of the order. */
  ghost predicate NewestOfOrder(d: Desk, t: nat, order: nat) {
    && t < |d.shipments| && d.shipments[t].order == order
    && forall i :: t < i < |d.shipments| ==> d.shipments[i].order != order
  }

  ghost predicate ForPart(s: Shipment, order: nat, part: Option<nat>) {
    s.order == order && s.waybill.Some? && s.waybill.value.part == part
  }

  /** Where a label goes: on the newest shipment of the part, or the newest of the order if the part has none. */
  ghost predicate LabelGoesOn(d: Desk, t: nat, order: nat, part: Option<nat>) {
    && t < |d.shipments|
    && (if exists i :: 0 <= i < |d.shipments| && ForPart(d.shipments[i], order, part)
        then ForPart(d.shipments[t], order, part)
             && forall i :: t < i < |d.shipments| ==> !ForPart(d.shipments[i], order, part)
        else NewestOfOrder(d, t, order))
  }

  lemma TargetIs(d: Desk, order: nat, part: Option<nat>)
    ensures Target(d, order, part).Some? ==> LabelGoesOn(d, Target(d, order, part).value, order, part)
  {
    var found := Find(d, OfPart(order, part));
    assert forall i :: 0 <= i < |d.shipments| ==>
                   (OfPart(order, part)(d.shipments[i]) <==> ForPart(d.shipments[i], order, part));
    assert forall i :: 0 <= i < |d.shipments| ==> (OfOrder(order)(d.shipments[i]) <==> d.shipments[i].order == order);
  }

  /** At each label the order it is for already has a shipment. */
  ghost predicate LabelsFindShipments(d: Desk, actions: seq<Action>) {
    forall k :: 0 <= k < |actions| && actions[k].IssueLabel? ==> HasShipment(Run(d, actions[..k]), actions[k].order)
  }

  lemma {:induction false} BornCleanIff(d: Desk, actions: seq<Action>)
    ensures AllClean(Births(d, actions)) <==> LabelsFindShipments(d, actions)
  {
    if actions != [] {
      var n := |actions| - 1;
      var a, born, before := actions[n], Births(d, actions[..n]), Run(d, actions[..n]);
      BornCleanIff(d, actions[..n]);
      PrefixLabels(d, actions);
      if a.IssueLabel? { NoTargetIff(before, a.order, a.part); }
      var all := Births(d, actions);
      if |all| > |born| {
        assert all[..|born|] == born && (all[|born|].None? <==> a.Create?);
        assert forall i :: 0 <= i < |born| ==> all[i] == born[i];
      }
    }
  }

  lemma PrefixLabels(d: Desk, actions: seq<Action>)
    requires actions != []
    ensures var n := |actions| - 1;
            LabelsFindShipments(d, actions)
            <==> && LabelsFindShipments(d, actions[..n])
                 && (actions[n].IssueLabel? ==> HasShipment(Run(d, actions[..n]), actions[n].order))
  {
    var n := |actions| - 1;
    assert forall k :: 0 <= k < n ==> actions[..n][..k] == actions[..k];
  }

  /** Every shipment's log replays exactly when every label was issued for an order that already had a shipment. */
  lemma AllReplayIff(actions: seq<Action>)
    ensures AllReplay(Run(Desk([], []), actions)) <==> LabelsFindShipments(Desk([], []), actions)
  {
    RunSound(Desk([], []), actions);
    AllReplayIffClean(Run(Desk([], []), actions), Births(Desk([], []), actions));
    BornCleanIff(Desk([], []), actions);
  }

  /** Asking again for the same order and waybill gives the same shipment and writes nothing. */
  lemma CreateOnce(d: Desk, order: nat, waybill: Option<Waybill>)
    ensures Apply(Apply(d, Create(order, waybill)), Create(order, waybill)) == Apply(d, Create(order, waybill))
  {
    var after := Apply(d, Create(order, waybill));
    var key := if waybill.Some? then Some(waybill.value.id) else None;
    if Find(d, Booked(order, key)).None? {
      assert Booked(order, key)(after.shipments[|d.shipments|]);
    }
  }

  /** After a create the desk holds a shipment of that order and waybill, and what was there is as it was. */
  lemma CreateMakes(d: Desk, order: nat, waybill: Option<Waybill>)
    ensures var after, key := Apply(d, Create(order, waybill)), if waybill.Some? then Some(waybill.value.id) else None;
            && |d.shipments| <= |after.shipments| && after.shipments[..|d.shipments|] == d.shipments
            && Find(after, Booked(order, key)).Some?
            && after.shipments[Find(after, Booked(order, key)).value].order == order
  {
    var after := Apply(d, Create(order, waybill));
    var key := if waybill.Some? then Some(waybill.value.id) else None;
    if Find(d, Booked(order, key)).None? {
      assert Booked(order, key)(after.shipments[|d.shipments|]);
    }
  }

  // ---- The services -----------------------------------------------------------------------------------------

  class Database {
    var desk: Desk

    constructor ()
      ensures desk == Desk([], [])
    {
      desk := Desk([], []);
    }
  }

  class ShipmentsService {
    const db: Database

    constructor (db: Database)
      ensures this.db == db
    {
      this.db := db;
    }

    method CreateShipment(order: nat, waybill: Option<Waybill>) returns (id: nat)
      modifies db
      ensures db.desk == Apply(old(db.desk), Create(order, waybill))
      ensures db.desk == old(db.desk)
              || (db.desk.shipments == old(db.desk).shipments + [Shipment(order, waybill, RECEIVED_AT_HUB)]
                  && db.desk.log == old(db.desk).log + [Entry(|old(db.desk).shipments|, None, RECEIVED_AT_HUB)]
                  && forall s :: s in old(db.desk).shipments ==>
                       s.order != order || IdOf(s) != if waybill.Some? then Some(waybill.value.id) else None)
      ensures id < |db.desk.shipments| && db.desk.shipments[id].order == order
              && IdOf(db.desk.shipments[id]) == (if waybill.Some? then Some(waybill.value.id) else None)
    {
      var key := if waybill.Some? then Some(waybill.value.id) else None;
      var existing := Find(db.desk, Booked(order, key));
      if existing.Some? { return existing.value; }
      assert forall i :: 0 <= i < |db.desk.shipments| ==> !Booked(order, key)(db.desk.shipments[i]);
      id := |db.desk.shipments|;
      db.desk := db.desk.(shipments := db.desk.shipments + [Shipment(order, waybill, RECEIVED_AT_HUB)]);
      db.desk := db.desk.(log := db.desk.log + [Entry(id, None, RECEIVED_AT_HUB)]);
    }

    method UpdateShipmentStatus(id: nat, status: Status) returns (found: bool)
      modifies db
      ensures db.desk == Apply(old(db.desk), UpdateStatus(id, status))
      ensures found == (id < |old(db.desk).shipments|)
      ensures !found ==> db.desk == old(db.desk)
      ensures found ==>
                var s := old(db.desk).shipments[id];
                && db.desk.shipments == old(db.desk).shipments[id := Shipment(s.order, s.waybill, status)]
                && db.desk.log == old(db.desk).log + [Entry(id, Some(s.status), status)]
    {
      if id >= |db.desk.shipments| { return false; }
      var oldStatus := db.desk.shipments[id].status;
      db.desk := db.desk.(shipments := db.desk.shipments[id := db.desk.shipments[id].(status := status)]);
      db.desk := db.desk.(log := db.desk.log + [Entry(id, Some(oldStatus), status)]);
      found := true;
    }
  }

  class ReturnsService {
    const db: Database

    constructor (db: Database)
      ensures this.db == db
    {
      this.db := db;
    }

    /** A shipment that takes the label takes its log row too; a shipment made for the label starts without one. */
    method GenerateReturnWaybill(order: nat, part: Option<nat>, issued: Waybill) returns (ghost target: Option<nat>)
      modifies db
      ensures db.desk == Apply(old(db.desk), IssueLabel(order, part, issued))
      ensures target.None? <==> !HasShipment(old(db.desk), order)
      ensures target.None? ==>
                && db.desk.shipments == old(db.desk).shipments + [Shipment(order, Some(issued), RETURN_LABEL_ISSUED)]
                && db.desk.log == old(db.desk).log
      ensures target.Some? ==>
                && LabelGoesOn(old(db.desk), target.value, order, part)
                && db.desk.shipments
                   == old(db.desk).shipments[target.value := Shipment(order, Some(issued), RETURN_LABEL_ISSUED)]
                && db.desk.log == old(db.desk).log + [Entry(target.value,
                                                            Some(old(db.desk).shipments[target.value].status),
                                                            RETURN_LABEL_ISSUED)]
    {
      NoTargetIff(db.desk, order, part);
      TargetIs(db.desk, order, part);
      var data := Shipment(order, Some(issued), RETURN_LABEL_ISSUED);
      var existing := Find(db.desk, OfPart(order, part));
      if existing.None? { existing := Find(db.desk, OfOrder(order)); }
      target := existing;
      if existing.Some? {
        var from := db.desk.shipments[existing.value].status;
        db.desk := db.desk.(shipments := db.desk.shipments[existing.value := data]);
        db.desk := db.desk.(log := db.desk.log + [Entry(existing.value, Some(from), RETURN_LABEL_ISSUED)]);
      } else {
        db.desk := db.desk.(shipments := db.desk.shipments + [data]);
      }
    }

    /** The shipment part of a paid return, from the wallet here and from a Stripe success in the payments service. */
    method BeginReturn(order: nat) returns (ghost target: Option<nat>)
      modifies db
      ensures db.desk == Apply(old(db.desk), StartReturn(order))
      ensures target.None? ==> db.desk == old(db.desk) && !HasShipment(old(db.desk), order)
      ensures target.Some? ==>
                && NewestOfOrder(old(db.desk), target.value, order)
                && var s := old(db.desk).shipments[target.value];
                   && db.desk.shipments
                      == old(db.desk).shipments[target.value := Shipment(order, s.waybill, RETURN_STARTED)]
                   && db.desk.log == old(db.desk).log + [Entry(target.value, Some(s.status), RETURN_STARTED)]
    {
      var shipment := Find(db.desk, OfOrder(order));
      target := shipment;
      assert forall i :: 0 <= i < |db.desk.shipments| ==>
                     (OfOrder(order)(db.desk.shipments[i]) <==> db.desk.shipments[i].order == order);
      if shipment.Some? {
        var from := db.desk.shipments[shipment.value].status;
        var updated := db.desk.shipments[shipment.value].(status := RETURN_STARTED);
        db.desk := db.desk.(shipments := db.desk.shipments[shipment.value := updated]);
        db.desk := db.desk.(log := db.desk.log + [Entry(shipment.value, Some(from), RETURN_STARTED)]);
      }
    }
  }
}
