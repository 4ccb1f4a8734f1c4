/**
 * The delivery service: the Delivery entity and the two listeners on
 * delivery.commands. A ScheduleDelivery opens a delivery that a driver
 * takes and (in this system) immediately picks up and delivers, or that
 * fails for want of a driver; a CancelDelivery fails the order's delivery
 * if there is one.
 */
module Deliveries {
  import opened Wrappers
  import opened DomainPrimitives
  import opened Events
  import opened Enums
  import opened Repositories
  import Digits
  import DeliveryAvro

  /** A delivery row's fields. */
  datatype DeliveryView = DeliveryView(
    id: Uuid,
    orderId: Uuid,
    deliveryAddress: string,
    status: DeliveryStatus,
    driverId: Option<string>,
    driverName: Option<string>,
    failureReason: Option<string>,
    createdAt: Instant,
    estimatedPickupTime: Option<Instant>,
    estimatedDeliveryTime: Option<Instant>,
    pickedUpAt: Option<Instant>,
    deliveredAt: Option<Instant>)

  /** The Delivery constructor with its defaults. */
  function NewDelivery(id: Uuid, orderId: Uuid, deliveryAddress: string, now: Instant): DeliveryView
  {
    DeliveryView(id, orderId, deliveryAddress, DeliveryPending, None, None, None, now, None, None, None, None)
  }

  /** `(1..100).random()`: the number in a driver's name. */
  type DriverNumber = n: int | 1 <= n <= 100 witness 1

  /** "DRV-" and the first four characters of a random UUID's text, upper-cased. */
  function DriverIdFor(token: Uuid): string
  {
    "DRV-" + UpperCase(UuidToString(token)[..4])
  }

  /** "Driver " and the picked number in decimal. */
  function DriverNameFor(n: DriverNumber): string
  {
    "Driver " + Digits.NatToString(n as nat)
  }

  /** A driver id is "DRV-" and four characters; a driver name is "Driver " and the number's decimal digits. */
  lemma DriverShapes(token: Uuid, n: DriverNumber)
    ensures var id := DriverIdFor(token); |id| == 8 && id[..4] == "DRV-"
    ensures var name := DriverNameFor(n);
      && |name| > 7 && name[..7] == "Driver "
      && Digits.AllDigits(name[7..], 10) && Digits.ValueOf(name[7..], 10) == n as nat
  {
    SplitAfterPrefix("DRV-", UpperCase(UuidToString(token)[..4]));
    SplitAfterPrefix("Driver ", Digits.NatToString(n as nat));
  }

  lemma SplitAfterPrefix(prefix: string, rest: string)
    ensures (prefix + rest)[..|prefix|] == prefix && (prefix + rest)[|prefix|..] == rest
  {
  }

  function AfterSchedule(d: DeliveryView, estimatedDelivery: Instant, driverToken: Uuid, driverNumber: DriverNumber): DeliveryView
  {
    d.(status := Assigned, driverId := Some(DriverIdFor(driverToken)), driverName := Some(DriverNameFor(driverNumber)),
       estimatedDeliveryTime := Some(estimatedDelivery))
  }

  function AfterPickup(d: DeliveryView, now: Instant): DeliveryView
  {
    d.(status := PickedUp, pickedUpAt := Some(now))
  }

  function AfterStartTransit(d: DeliveryView): DeliveryView
  {
    d.(status := InTransit)
  }

  function AfterComplete(d: DeliveryView, now: Instant): DeliveryView
  {
    d.(status := Delivered, deliveredAt := Some(now))
  }

  function AfterFail(d: DeliveryView, reason: string): DeliveryView
  {
    d.(status := DeliveryStatus.DeliveryFailed, failureReason := Some(reason))
  }

  lemma NewDeliveryIsPending(id: Uuid, orderId: Uuid, deliveryAddress: string, now: Instant)
    ensures var d := NewDelivery(id, orderId, deliveryAddress, now);
      d.status == DeliveryPending && d.driverId.None? && d.driverName.None? && d.failureReason.None?
      && d.estimatedPickupTime.None? && d.estimatedDeliveryTime.None? && d.pickedUpAt.None? && d.deliveredAt.None?
  {
  }

  /**
   * Each setter sets its status and its own fields and leaves every other
   * field as it was (estimatedPickupTime included: nothing ever assigns it);
   * none looks at the current status, so each applies from any status.
   */
  lemma DeliverySetters(d: DeliveryView, from: DeliveryStatus, estimatedDelivery: Instant, driverToken: Uuid,
                        driverNumber: DriverNumber, reason: string, now: Instant)
    ensures var s := AfterSchedule(d, estimatedDelivery, driverToken, driverNumber);
      s.status == Assigned && s.estimatedDeliveryTime == Some(estimatedDelivery)
      && s.driverId.Some? && s.driverId.value[..4] == "DRV-"
      && s.driverName.Some? && s.driverName.value[..7] == "Driver "
      && s.(status := d.status, driverId := d.driverId, driverName := d.driverName,
            estimatedDeliveryTime := d.estimatedDeliveryTime) == d
    ensures var p := AfterPickup(d, now);
      p.status == PickedUp && p.pickedUpAt == Some(now) && p.(status := d.status, pickedUpAt := d.pickedUpAt) == d
    ensures AfterStartTransit(d).status == InTransit && AfterStartTransit(d).(status := d.status) == d
    ensures var c := AfterComplete(d, now);
      c.status == Delivered && c.deliveredAt == Some(now) && c.(status := d.status, deliveredAt := d.deliveredAt) == d
    ensures var f := AfterFail(d, reason);
      f.status == DeliveryStatus.DeliveryFailed && f.failureReason == Some(reason)
      && f.(status := d.status, failureReason := d.failureReason) == d
    ensures AfterSchedule(d.(status := from), estimatedDelivery, driverToken, driverNumber)
      == AfterSchedule(d, estimatedDelivery, driverToken, driverNumber)
    ensures AfterPickup(d.(status := from), now) == AfterPickup(d, now)
    ensures AfterStartTransit(d.(status := from)) == AfterStartTransit(d)
    ensures AfterComplete(d.(status := from), now) == AfterComplete(d, now)
    ensures AfterFail(d.(status := from), reason) == AfterFail(d, reason)
  {
    DriverShapes(driverToken, driverNumber);
  }

  class Delivery {
    const id: Uuid
    const orderId: Uuid
    const deliveryAddress: string
    var status: DeliveryStatus
    var driverId: Option<string>
    var driverName: Option<string>
    var failureReason: Option<string>
    const createdAt: Instant
    const estimatedPickupTime: Option<Instant>
    var estimatedDeliveryTime: Option<Instant>
    var pickedUpAt: Option<Instant>
    var deliveredAt: Option<Instant>

    function View(): DeliveryView
      reads this
    {
      DeliveryView(id, orderId, deliveryAddress, status, driverId, driverName, failureReason, createdAt,
                   estimatedPickupTime, estimatedDeliveryTime, pickedUpAt, deliveredAt)
    }

    constructor(id: Uuid, orderId: Uuid, deliveryAddress: string, now: Instant)
      ensures View() == NewDelivery(id, orderId, deliveryAddress, now)
    {
      this.id := id;
      this.orderId := orderId;
      this.deliveryAddress := deliveryAddress;
      status := DeliveryPending;
      driverId := None;
      driverName := None;
      failureReason := None;
      createdAt := now;
      estimatedPickupTime := None;
      estimatedDeliveryTime := None;
      pickedUpAt := None;
      deliveredAt := None;
    }

    method Schedule(estimatedDelivery: Instant, driverToken: Uuid, driverNumber: DriverNumber)
      modifies this
      ensures View() == AfterSchedule(old(View()), estimatedDelivery, driverToken, driverNumber)
    {
      status := Assigned;
      driverId := Some(DriverIdFor(driverToken));
      driverName := Some(DriverNameFor(driverNumber));
      estimatedDeliveryTime := Some(estimatedDelivery);
    }

    method Pickup(now: Instant)
      modifies this
      ensures View() == AfterPickup(old(View()), now)
    {
      status := PickedUp;
      pickedUpAt := Some(now);
    }

    method StartTransit()
      modifies this
      ensures View() == AfterStartTransit(old(View()))
    {
      status := InTransit;
    }

    method Complete(now: Instant)
      modifies this
      ensures View() == AfterComplete(old(View()), now)
    {
      status := Delivered;
      deliveredAt := Some(now);
    }

    method Fail(reason: string)
      modifies this
      ensures View() == AfterFail(old(View()), reason)
    {
      status := DeliveryStatus.DeliveryFailed;
      failureReason := Some(reason);
    }
  }

  function DeliveryViewsOf(ds: seq<Delivery>): (vs: seq<DeliveryView>)
    reads ds
    ensures |vs| == |ds| && forall i :: 0 <= i < |ds| ==> vs[i] == ds[i].View()
  {
    seq(|ds|, i requires 0 <= i < |ds| reads ds => ds[i].View())
  }

  lemma ViewsOfAppend(ds: seq<Delivery>, d: Delivery)
    ensures DeliveryViewsOf(ds + [d]) == DeliveryViewsOf(ds) + [d.View()]
  {
  }

  // ---------------------------------------------------------------- the command handlers

  const NoDrivers := "No drivers available in the area"

  function CancelledReason(reason: string): string
  {
    "Cancelled: " + reason
  }

  /** `(30..45).random()`: the minutes from pickup to delivery. */
  type DeliveryMinutes = m: int | 30 <= m <= 45 witness 30

  /** `estimatedPickupTime.plusSeconds(deliveryMinutes * 60L)` */
  function EstimatedDelivery(pickup: Instant, minutes: DeliveryMinutes): (r: Instant)
    ensures 30 * 60_000 <= r - pickup <= 45 * 60_000
  {
    PlusSeconds(pickup, minutes * 60)
  }

  /**
   * What the random parts of a handler pick: the new delivery's id, whether a
   * driver is available, the minutes to delivery, the UUID behind the driver
   * id, the driver's number, the ids of up to three events, and the clock.
   */
  datatype Choices = Choices(
    deliveryId: Uuid,
    driverAvailable: bool,
    minutes: DeliveryMinutes,
    driverToken: Uuid,
    driverNumber: DriverNumber,
    firstEventId: string,
    secondEventId: string,
    thirdEventId: string,
    now: Instant)

  /** The delivery handleScheduleDelivery saves, in its final state. */
  function ScheduledDelivery(orderId: OrderId, address: Address, pickup: Instant, c: Choices): DeliveryView
  {
    var d := NewDelivery(c.deliveryId, orderId.value, address, c.now);
    if c.driverAvailable then
      var scheduled := AfterSchedule(d, EstimatedDelivery(pickup, c.minutes), c.driverToken, c.driverNumber);
      AfterComplete(AfterStartTransit(AfterPickup(scheduled, c.now)), c.now)
    else AfterFail(d, NoDrivers)
  }

  /** The events simulateDeliveryFlow sends: picked up, then delivered. */
  function FlowEvents(orderId: OrderId, deliveryId: DeliveryId, c: Choices): seq<DeliveryEvent>
  {
    [ DeliveryPickedUp(c.secondEventId, c.now, orderId, deliveryId),
      DeliveryCompleted(c.thirdEventId, c.now, orderId, deliveryId, c.now) ]
  }

  /** The events handleScheduleDelivery sends, in order. */
  function ScheduledEvents(orderId: OrderId, pickup: Instant, c: Choices): seq<DeliveryEvent>
  {
    var deliveryId := DeliveryId(c.deliveryId);
    if c.driverAvailable then
      [DeliveryScheduled(c.firstEventId, c.now, orderId, deliveryId, EstimatedDelivery(pickup, c.minutes))]
        + FlowEvents(orderId, deliveryId, c)
    else
      [DeliveryEvent.DeliveryFailed(c.firstEventId, c.now, orderId, deliveryId, NoDrivers)]
  }

  /** The repository and the events sent, after a handler. */
  datatype Outcome = Outcome(deliveries: seq<DeliveryView>, events: seq<DeliveryEvent>)

  function FindDelivery(deliveries: seq<DeliveryView>, orderId: Uuid): Result<Option<nat>, Error>
  {
    SingleResult(Matching(deliveries, (d: DeliveryView) => d.orderId == orderId))
  }

  function ScheduleStep(deliveries: seq<DeliveryView>, orderId: OrderId, address: Address, pickup: Instant, c: Choices): Outcome
  {
    Outcome(deliveries + [ScheduledDelivery(orderId, address, pickup, c)], ScheduledEvents(orderId, pickup, c))
  }

  function CancelStep(deliveries: seq<DeliveryView>, orderId: OrderId, reason: string): Result<Outcome, Error>
  {
    var found :- FindDelivery(deliveries, orderId.value);
    if found.None? then Success(Outcome(deliveries, []))
    else Success(Outcome(deliveries[found.value := AfterFail(deliveries[found.value], CancelledReason(reason))], []))
  }

  /** onDeliveryCommand: an exception (a second delivery for the order) escapes and rolls the transaction back. */
  function CommandStep(deliveries: seq<DeliveryView>, command: DeliveryCommand, c: Choices): Result<Outcome, Error>
  {
    match command
    case ScheduleDelivery(orderId, address, pickup, _) => Success(ScheduleStep(deliveries, orderId, address, pickup, c))
    case CancelDelivery(orderId, reason, _) => CancelStep(deliveries, orderId, reason)
  }

  /** A caught exception leaves the deliveries as they were and sends nothing. */
  function SwallowFailure(deliveries: seq<DeliveryView>, r: Result<Outcome, Error>): Outcome
  {
    if r.Success? then r.value else Outcome(deliveries, [])
  }

  /** The Avro listener's onDeliveryCommand: decode, handle, and swallow any exception. */
  function AvroCommandStep(deliveries: seq<DeliveryView>, record: DeliveryAvro.DeliveryCommandRecord, c: Choices): Outcome
  {
    match DeliveryAvro.DecodeCommand(record)
    case Failure(_) => Outcome(deliveries, [])
    case Success(command) => SwallowFailure(deliveries, CommandStep(deliveries, command, c))
  }

  /**
   * With a driver, ScheduleDelivery saves one new DELIVERED delivery with a
   * driver and an estimate 30 to 45 minutes after pickup, and sends
   * DeliveryScheduled, DeliveryPickedUp and DeliveryCompleted, in that order,
   * for the same delivery and order.
   */
  lemma ScheduleWithDriver(deliveries: seq<DeliveryView>, orderId: OrderId, address: Address, pickup: Instant, c: Choices)
    requires c.driverAvailable
    ensures var o := ScheduleStep(deliveries, orderId, address, pickup, c);
      && |o.deliveries| == |deliveries| + 1 && o.deliveries[..|deliveries|] == deliveries
      && var d := o.deliveries[|deliveries|];
      && d.id == c.deliveryId && d.orderId == orderId.value && d.deliveryAddress == address
      && d.status == Delivered && d.driverId.Some? && d.driverName.Some? && d.failureReason.None?
      && d.estimatedDeliveryTime.Some? && d.estimatedDeliveryTime.value - pickup == c.minutes * 60_000
      && 30 * 60_000 <= d.estimatedDeliveryTime.value - pickup <= 45 * 60_000
      && d.pickedUpAt == Some(c.now) && d.deliveredAt == Some(c.now) && d.estimatedPickupTime.None?
      && |o.events| == 3
      && o.events[0].DeliveryScheduled? && o.events[1].DeliveryPickedUp? && o.events[2].DeliveryCompleted?
      && o.events[0].estimatedDeliveryTime == d.estimatedDeliveryTime.value
      && (forall e :: e in o.events ==> e.orderId == orderId && e.deliveryId == DeliveryId(d.id))
  {
  }

  /** Without a driver, ScheduleDelivery saves one FAILED delivery and sends a single DeliveryFailed with the same reason. */
  lemma ScheduleWithoutDriver(deliveries: seq<DeliveryView>, orderId: OrderId, address: Address, pickup: Instant, c: Choices)
    requires !c.driverAvailable
    ensures var o := ScheduleStep(deliveries, orderId, address, pickup, c);
      && |o.deliveries| == |deliveries| + 1 && o.deliveries[..|deliveries|] == deliveries
      && var d := o.deliveries[|deliveries|];
      && d.status == DeliveryStatus.DeliveryFailed && d.failureReason == Some(NoDrivers)
      && d.driverId.None? && d.estimatedDeliveryTime.None? && d.pickedUpAt.None? && d.deliveredAt.None?
      && |o.events| == 1 && o.events[0].DeliveryFailed?
      && o.events[0].orderId == orderId && o.events[0].deliveryId == DeliveryId(d.id) && o.events[0].reason == NoDrivers
  {
  }

  /** CancelDelivery on the order's one delivery fails it with "Cancelled: <reason>"; nothing else changes and nothing is sent. */
  lemma CancelExistingDelivery(deliveries: seq<DeliveryView>, orderId: OrderId, reason: string, i: nat)
    requires i < |deliveries| && deliveries[i].orderId == orderId.value
    requires forall j :: 0 <= j < |deliveries| && j != i ==> deliveries[j].orderId != orderId.value
    ensures var r := CancelStep(deliveries, orderId, reason);
      && r.Success? && r.value.events == []
      && |r.value.deliveries| == |deliveries|
      && r.value.deliveries[i].status == DeliveryStatus.DeliveryFailed
      && r.value.deliveries[i].failureReason == Some("Cancelled: " + reason)
      && (forall j :: 0 <= j < |deliveries| && j != i ==> r.value.deliveries[j] == deliveries[j])
  {
    OnlyMatch(deliveries, (d: DeliveryView) => d.orderId == orderId.value, i);
  }

  /** CancelDelivery for an order without a delivery changes nothing and sends nothing. */
  lemma CancelAbsentDelivery(deliveries: seq<DeliveryView>, orderId: OrderId, reason: string)
    requires forall j :: 0 <= j < |deliveries| ==> deliveries[j].orderId != orderId.value
    ensures CancelStep(deliveries, orderId, reason) == Success(Outcome(deliveries, []))
  {
    NoMatch(deliveries, (d: DeliveryView) => d.orderId == orderId.value);
  }

  /** A record that does not decode is ignored: no delivery saved, no event sent. */
  lemma AvroUndecodableCommandIgnored(deliveries: seq<DeliveryView>, record: DeliveryAvro.DeliveryCommandRecord, c: Choices)
    requires DeliveryAvro.DecodeCommand(record).Failure?
    ensures AvroCommandStep(deliveries, record, c) == Outcome(deliveries, [])
  {
  }

  /** On an encoded command the Avro listener does what the plain one does, except that a failure changes nothing. */
  lemma AvroListenerHandlesLikePlain(deliveries: seq<DeliveryView>, command: DeliveryCommand, c: Choices)
    ensures var plain := CommandStep(deliveries, command, c);
      AvroCommandStep(deliveries, DeliveryAvro.EncodeCommand(command), c)
        == if plain.Success? then plain.value else Outcome(deliveries, [])
  {
    DeliveryAvro.CommandRoundTrip(command);
  }

  // ---------------------------------------------------------------- what is sent

  datatype DeliverySent = DeliverySent(topic: Topic, key: OrderId, event: DeliveryEvent)
  datatype DeliveryPublished = DeliveryPublished(topic: Topic, key: OrderId, record: DeliveryAvro.DeliveryEventRecord)

  /** kafkaTemplate.send(DELIVERY_EVENTS, orderId.toString(), event) */
  function SendOf(event: DeliveryEvent): DeliverySent
  {
    DeliverySent(DeliveryEvents, event.orderId, event)
  }

  /** The same send with the event encoded by the Avro mapper. */
  function PublishOf(event: DeliveryEvent): DeliveryPublished
  {
    DeliveryPublished(DeliveryEvents, event.orderId, DeliveryAvro.EncodeEvent(event))
  }

  /** The sends of a handler's events, in order. */
  function SendsOf(events: seq<DeliveryEvent>): (ss: seq<DeliverySent>)
    ensures |ss| == |events|
    ensures forall i :: 0 <= i < |events| ==>
      ss[i].event == events[i] && TopicName(ss[i].topic) == "delivery.events" && ss[i].key == events[i].orderId
  {
    MapSeq(SendOf, events)
  }

  /** Sending `a` and then `b` is sending `a + b`. */
  lemma SentInTwoSteps(before: seq<DeliverySent>, a: seq<DeliveryEvent>, b: seq<DeliveryEvent>, all: seq<DeliveryEvent>)
    requires all == a + b
    ensures before + SendsOf(a) + SendsOf(b) == before + SendsOf(all)
  {
    MapSeqAppend(SendOf, a, b);
  }

  /** The Avro sends of a handler's events, in order. */
  function PublishedOf(events: seq<DeliveryEvent>): (ps: seq<DeliveryPublished>)
    ensures |ps| == |events|
    ensures forall i :: 0 <= i < |events| ==> TopicName(ps[i].topic) == "delivery.events" && ps[i].key == events[i].orderId
  {
    MapSeq(PublishOf, events)
  }

  /** Publishing `a` and then `b` is publishing `a + b`. */
  lemma PublishedInTwoSteps(before: seq<DeliveryPublished>, a: seq<DeliveryEvent>, b: seq<DeliveryEvent>, all: seq<DeliveryEvent>)
    requires all == a + b
    ensures before + PublishedOf(a) + PublishedOf(b) == before + PublishedOf(all)
  {
    MapSeqAppend(PublishOf, a, b);
  }

  /** Every published record decodes to the event it was made from. */
  lemma PublishedEventsDecode(events: seq<DeliveryEvent>)
    ensures forall i :: 0 <= i < |events| ==> DeliveryAvro.DecodeEvent(PublishedOf(events)[i].record) == Success(events[i])
  {
    forall i | 0 <= i < |events|
      ensures DeliveryAvro.DecodeEvent(PublishedOf(events)[i].record) == Success(events[i])
    {
      DeliveryAvro.EventRoundTrip(events[i]);
    }
  }

  // ---------------------------------------------------------------- the listeners

  class DeliveryCommandListener {
    var deliveries: seq<Delivery>
    var sent: seq<DeliverySent>

    ghost predicate Valid()
      reads this
    {
      forall i, j :: 0 <= i < j < |deliveries| ==> deliveries[i] != deliveries[j]
    }

    function Deliveries(): seq<DeliveryView>
      reads this, deliveries
    {
      DeliveryViewsOf(deliveries)
    }

    constructor()
      ensures Valid() && deliveries == [] && sent == []
    {
      deliveries := [];
      sent := [];
    }

    method OnDeliveryCommand(command: DeliveryCommand, c: Choices) returns (r: Result<(), Error>)
      requires Valid()
      modifies this, deliveries
      ensures Valid()
      ensures var e := CommandStep(old(Deliveries()), command, c);
        && (r.Success? <==> e.Success?)
        && (e.Success? ==> Deliveries() == e.value.deliveries && sent == old(sent) + SendsOf(e.value.events))
        && (e.Failure? ==> r.error == e.error && Deliveries() == old(Deliveries()) && sent == old(sent))
    {
      match command
      case ScheduleDelivery(orderId, address, pickup, _) =>
        HandleScheduleDelivery(orderId, address, pickup, c);
        r := Success(());
      case CancelDelivery(orderId, reason, _) =>
        r := HandleCancelDelivery(orderId, reason);
    }

    /**
     * handleScheduleDelivery. The source saves the delivery once it is
     * assigned (or failed) and the flow then changes that same entity, so
     * the repository ends holding it in its final state: here it is added
     * once, at the end.
     */
    method HandleScheduleDelivery(orderId: OrderId, address: Address, pickup: Instant, c: Choices)
      requires Valid()
      modifies this
      ensures Valid()
      ensures var o := ScheduleStep(old(Deliveries()), orderId, address, pickup, c);
        Deliveries() == o.deliveries && sent == old(sent) + SendsOf(o.events)
    {
      var delivery := new Delivery(c.deliveryId, orderId.value, address, c.now);
      if c.driverAvailable {
        AssignAndDeliver(delivery, orderId, address, pickup, c);
      } else {
        FailUnassigned(delivery, orderId, address, pickup, c);
      }
      Save(delivery);
    }

    /** The branch of handleScheduleDelivery where no driver is available. */
    method FailUnassigned(delivery: Delivery, orderId: OrderId, address: Address, pickup: Instant, c: Choices)
      requires !c.driverAvailable && delivery.View() == NewDelivery(c.deliveryId, orderId.value, address, c.now)
      requires delivery !in deliveries
      modifies this, delivery
      ensures deliveries == old(deliveries) && Deliveries() == old(Deliveries())
      ensures delivery.View() == ScheduledDelivery(orderId, address, pickup, c)
      ensures sent == old(sent) + SendsOf(ScheduledEvents(orderId, pickup, c))
    {
      delivery.Fail(NoDrivers);
      sent := sent + SendsOf([DeliveryEvent.DeliveryFailed(c.firstEventId, c.now, orderId, DeliveryId(delivery.id), NoDrivers)]);
    }

    /** The branch of handleScheduleDelivery where a driver is available, through simulateDeliveryFlow. */
    method AssignAndDeliver(delivery: Delivery, orderId: OrderId, address: Address, pickup: Instant, c: Choices)
      requires c.driverAvailable && delivery.View() == NewDelivery(c.deliveryId, orderId.value, address, c.now)
      requires delivery !in deliveries
      modifies this, delivery
      ensures deliveries == old(deliveries) && Deliveries() == old(Deliveries())
      ensures delivery.View() == ScheduledDelivery(orderId, address, pickup, c)
      ensures sent == old(sent) + SendsOf(ScheduledEvents(orderId, pickup, c))
    {
      ghost var start := sent;
      var deliveryId := DeliveryId(delivery.id);
      assert deliveryId == DeliveryId(c.deliveryId);
      var estimatedDelivery := EstimatedDelivery(pickup, c.minutes);
      delivery.Schedule(estimatedDelivery, c.driverToken, c.driverNumber);
      var scheduled := DeliveryScheduled(c.firstEventId, c.now, orderId, deliveryId, estimatedDelivery);
      sent := sent + SendsOf([scheduled]);
      SimulateDeliveryFlow(delivery, orderId, c);
      SentInTwoSteps(start, [scheduled], FlowEvents(orderId, deliveryId, c), ScheduledEvents(orderId, pickup, c));
    }

    /** deliveryRepository.save of a new delivery. */
    method Save(delivery: Delivery)
      requires Valid() && delivery !in deliveries
      modifies this
      ensures Valid() && sent == old(sent)
      ensures Deliveries() == old(Deliveries()) + [delivery.View()]
    {
      deliveries := deliveries + [delivery];
      ViewsOfAppend(old(deliveries), delivery);
    }

    /** simulateDeliveryFlow: pick up, announce it, go in transit, deliver, announce that. */
    method SimulateDeliveryFlow(delivery: Delivery, orderId: OrderId, c: Choices)
      modifies this, delivery
      ensures deliveries == old(deliveries)
      ensures delivery.View() == AfterComplete(AfterStartTransit(AfterPickup(old(delivery.View()), c.now)), c.now)
      ensures sent == old(sent) + SendsOf(FlowEvents(orderId, DeliveryId(delivery.id), c))
    {
      ghost var start := sent;
      var deliveryId := DeliveryId(delivery.id);
      delivery.Pickup(c.now);
      var pickedUp := DeliveryPickedUp(c.secondEventId, c.now, orderId, deliveryId);
      sent := sent + SendsOf([pickedUp]);
      delivery.StartTransit();
      delivery.Complete(c.now);
      var completed := DeliveryCompleted(c.thirdEventId, c.now, orderId, deliveryId, c.now);
      sent := sent + SendsOf([completed]);
      SentInTwoSteps(start, [pickedUp], [completed], FlowEvents(orderId, deliveryId, c));
    }

    /** handleCancelDelivery inside the transaction: a non-unique lookup throws. */
    method HandleCancelDelivery(orderId: OrderId, reason: string) returns (r: Result<(), Error>)
      requires Valid()
      modifies deliveries
      ensures Valid() && deliveries == old(deliveries) && sent == old(sent)
      ensures var e := CancelStep(old(Deliveries()), orderId, reason);
        && (r.Success? <==> e.Success?)
        && (e.Success? ==> Deliveries() == e.value.deliveries && e.value.events == [])
        && (e.Failure? ==> r.error == e.error && Deliveries() == old(Deliveries()))
    {
      var found :- FindDelivery(Deliveries(), orderId.value);
      r := Success(());
      if found.Some? {
        var delivery := deliveries[found.value];
        delivery.Fail(CancelledReason(reason));
        assert Deliveries() == old(Deliveries())[found.value := delivery.View()];
      }
    }
  }

  class AvroDeliveryCommandListener {
    var deliveries: seq<Delivery>
    var sent: seq<DeliveryPublished>

    ghost predicate Valid()
      reads this
    {
      forall i, j :: 0 <= i < j < |deliveries| ==> deliveries[i] != deliveries[j]
    }

    function Deliveries(): seq<DeliveryView>
      reads this, deliveries
    {
      DeliveryViewsOf(deliveries)
    }

    constructor()
      ensures Valid() && deliveries == [] && sent == []
    {
      deliveries := [];
      sent := [];
    }

    /** onDeliveryCommand: decode the record and handle the command; any exception is logged and swallowed. */
    method OnDeliveryCommand(record: DeliveryAvro.DeliveryCommandRecord, c: Choices)
      requires Valid()
      modifies this, deliveries
      ensures Valid()
      ensures var o := AvroCommandStep(old(Deliveries()), record, c);
        Deliveries() == o.deliveries && sent == old(sent) + PublishedOf(o.events)
    {
      var decoded := DeliveryAvro.DecodeCommand(record);
      if decoded.Failure? {
        return;
      }
      HandleCommand(decoded.value, c);
    }

    /** The `when (command)` inside the try: a failure is caught and leaves everything as it was. */
    method HandleCommand(command: DeliveryCommand, c: Choices)
      requires Valid()
      modifies this, deliveries
      ensures Valid()
      ensures var o := SwallowFailure(old(Deliveries()), CommandStep(old(Deliveries()), command, c));
        Deliveries() == o.deliveries && sent == old(sent) + PublishedOf(o.events)
    {
      match command
      case ScheduleDelivery(orderId, address, pickup, _) =>
        HandleScheduleDelivery(orderId, address, pickup, c);
      case CancelDelivery(orderId, reason, _) =>
        HandleCancelDelivery(orderId, reason);
    }

    /**
     * handleScheduleDelivery. The source saves the delivery once it is
     * assigned (or failed) and the flow then changes that same entity, so
     * the repository ends holding it in its final state: here it is added
     * once, at the end.
     */
    method HandleScheduleDelivery(orderId: OrderId, address: Address, pickup: Instant, c: Choices)
      requires Valid()
      modifies this
      ensures Valid()
      ensures var o := ScheduleStep(old(Deliveries()), orderId, address, pickup, c);
        Deliveries() == o.deliveries && sent == old(sent) + PublishedOf(o.events)
    {
      var delivery := new Delivery(c.deliveryId, orderId.value, address, c.now);
      if c.driverAvailable {
        AssignAndDeliver(delivery, orderId, address, pickup, c);
      } else {
        FailUnassigned(delivery, orderId, address, pickup, c);
      }
      Save(delivery);
    }

    /** The branch of handleScheduleDelivery where no driver is available. */
    method FailUnassigned(delivery: Delivery, orderId: OrderId, address: Address, pickup: Instant, c: Choices)
      requires !c.driverAvailable && delivery.View() == NewDelivery(c.deliveryId, orderId.value, address, c.now)
      requires delivery !in deliveries
      modifies this, delivery
      ensures deliveries == old(deliveries) && Deliveries() == old(Deliveries())
      ensures delivery.View() == ScheduledDelivery(orderId, address, pickup, c)
      ensures sent == old(sent) + PublishedOf(ScheduledEvents(orderId, pickup, c))
    {
      delivery.Fail(NoDrivers);
      sent := sent + PublishedOf([DeliveryEvent.DeliveryFailed(c.firstEventId, c.now, orderId, DeliveryId(delivery.id), NoDrivers)]);
    }

    /** The branch of handleScheduleDelivery where a driver is available, through simulateDeliveryFlow. */
    method AssignAndDeliver(delivery: Delivery, orderId: OrderId, address: Address, pickup: Instant, c: Choices)
      requires c.driverAvailable && delivery.View() == NewDelivery(c.deliveryId, orderId.value, address, c.now)
      requires delivery !in deliveries
      modifies this, delivery
      ensures deliveries == old(deliveries) && Deliveries() == old(Deliveries())
      ensures delivery.View() == ScheduledDelivery(orderId, address, pickup, c)
      ensures sent == old(sent) + PublishedOf(ScheduledEvents(orderId, pickup, c))
    {
      ghost var start := sent;
      var deliveryId := DeliveryId(delivery.id);
      assert deliveryId == DeliveryId(c.deliveryId);
      var estimatedDelivery := EstimatedDelivery(pickup, c.minutes);
      delivery.Schedule(estimatedDelivery, c.driverToken, c.driverNumber);
      var scheduled := DeliveryScheduled(c.firstEventId, c.now, orderId, deliveryId, estimatedDelivery);
      sent := sent + PublishedOf([scheduled]);
      SimulateDeliveryFlow(delivery, orderId, c);
      PublishedInTwoSteps(start, [scheduled], FlowEvents(orderId, deliveryId, c), ScheduledEvents(orderId, pickup, c));
    }

    /** deliveryRepository.save of a new delivery. */
    method Save(delivery: Delivery)
      requires Valid() && delivery !in deliveries
      modifies this
      ensures Valid() && sent == old(sent)
      ensures Deliveries() == old(Deliveries()) + [delivery.View()]
    {
      deliveries := deliveries + [delivery];
      ViewsOfAppend(old(deliveries), delivery);
    }

    /** simulateDeliveryFlow: pick up, announce it, go in transit, deliver, announce that. */
    method SimulateDeliveryFlow(delivery: Delivery, orderId: OrderId, c: Choices)
      modifies this, delivery
      ensures deliveries == old(deliveries)
      ensures delivery.View() == AfterComplete(AfterStartTransit(AfterPickup(old(delivery.View()), c.now)), c.now)
      ensures sent == old(sent) + PublishedOf(FlowEvents(orderId, DeliveryId(delivery.id), c))
    {
      ghost var start := sent;
      var deliveryId := DeliveryId(delivery.id);
      delivery.Pickup(c.now);
      var pickedUp := DeliveryPickedUp(c.secondEventId, c.now, orderId, deliveryId);
      sent := sent + PublishedOf([pickedUp]);
      delivery.StartTransit();
      delivery.Complete(c.now);
      var completed := DeliveryCompleted(c.thirdEventId, c.now, orderId, deliveryId, c.now);
      sent := sent + PublishedOf([completed]);
      PublishedInTwoSteps(start, [pickedUp], [completed], FlowEvents(orderId, deliveryId, c));
    }

    /** handleCancelDelivery inside the try: a failed lookup is caught and changes nothing. */
    method HandleCancelDelivery(orderId: OrderId, reason: string)
      requires Valid()
      modifies deliveries
      ensures Valid() && deliveries == old(deliveries) && sent == old(sent)
      ensures var e := CancelStep(old(Deliveries()), orderId, reason);
        Deliveries() == if e.Success? then e.value.deliveries else old(Deliveries())
    {
      var found := FindDelivery(Deliveries(), orderId.value);
      if found.Success? && found.value.Some? {
        var delivery := deliveries[found.value.value];
        delivery.Fail(CancelledReason(reason));
        assert Deliveries() == old(Deliveries())[found.value.value := delivery.View()];
      }
    }
  }
}
