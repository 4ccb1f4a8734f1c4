/**
 * The kitchen service: the Ticket entity and the two listeners on
 * kitchen.commands. A PrepareOrder opens a ticket that the kitchen accepts
 * (and, in this system, immediately marks ready) or rejects; a CancelTicket
 * rejects the order's ticket if there is one.
 */
module Kitchen {
  import opened Wrappers
  import opened DomainPrimitives
  import opened CommonDtos
  import opened Events
  import opened Enums
  import opened Repositories
  import KitchenAvro

  datatype TicketItem = TicketItem(productId: string, productName: string, quantity: Int32)

  /** A ticket row's fields (the random ids of its item rows are not kept). */
  datatype TicketView = TicketView(
    id: Uuid,
    orderId: Uuid,
    status: TicketStatus,
    estimatedPrepTimeMinutes: Int32,
    rejectionReason: Option<string>,
    createdAt: Instant,
    acceptedAt: Option<Instant>,
    readyAt: Option<Instant>,
    items: seq<TicketItem>)

  /** The Ticket constructor with its defaults. */
  function NewTicket(id: Uuid, orderId: Uuid, now: Instant): TicketView
  {
    TicketView(id, orderId, TicketPending, 0, None, now, None, None, [])
  }

  function AfterAccept(t: TicketView, minutes: Int32, now: Instant): TicketView
  {
    t.(status := Accepted, estimatedPrepTimeMinutes := minutes, acceptedAt := Some(now))
  }

  function AfterReject(t: TicketView, reason: string): TicketView
  {
    t.(status := TicketStatus.TicketRejected, rejectionReason := Some(reason))
  }

  function AfterStartPreparing(t: TicketView): TicketView
  {
    t.(status := Preparing)
  }

  function AfterMarkReady(t: TicketView, now: Instant): TicketView
  {
    t.(status := Ready, readyAt := Some(now))
  }

  lemma NewTicketIsPending(id: Uuid, orderId: Uuid, now: Instant)
    ensures var t := NewTicket(id, orderId, now);
      t.status == TicketPending && t.estimatedPrepTimeMinutes == 0 && t.rejectionReason.None?
      && t.acceptedAt.None? && t.readyAt.None? && t.items == []
  {
  }

  /**
   * Each setter sets its status and its own fields and leaves every other
   * field as it was; none looks at the current status, so each applies from
   * any status.
   */
  lemma TicketSetters(t: TicketView, from: TicketStatus, minutes: Int32, reason: string, now: Instant)
    ensures var a := AfterAccept(t, minutes, now);
      a.status == Accepted && a.estimatedPrepTimeMinutes == minutes && a.acceptedAt == Some(now)
      && a.(status := t.status, estimatedPrepTimeMinutes := t.estimatedPrepTimeMinutes, acceptedAt := t.acceptedAt) == t
    ensures var r := AfterReject(t, reason);
      r.status == TicketStatus.TicketRejected && r.rejectionReason == Some(reason)
      && r.(status := t.status, rejectionReason := t.rejectionReason) == t
    ensures AfterStartPreparing(t).status == Preparing && AfterStartPreparing(t).(status := t.status) == t
    ensures var m := AfterMarkReady(t, now);
      m.status == Ready && m.readyAt == Some(now) && m.(status := t.status, readyAt := t.readyAt) == t
    ensures AfterAccept(t.(status := from), minutes, now) == AfterAccept(t, minutes, now)
    ensures AfterReject(t.(status := from), reason) == AfterReject(t, reason)
    ensures AfterStartPreparing(t.(status := from)) == AfterStartPreparing(t)
    ensures AfterMarkReady(t.(status := from), now) == AfterMarkReady(t, now)
  {
  }

  class Ticket {
    const id: Uuid
    const orderId: Uuid
    var status: TicketStatus
    var estimatedPrepTimeMinutes: Int32
    var rejectionReason: Option<string>
    const createdAt: Instant
    var acceptedAt: Option<Instant>
    var readyAt: Option<Instant>
    var items: seq<TicketItem>

    function View(): TicketView
      reads this
    {
      TicketView(id, orderId, status, estimatedPrepTimeMinutes, rejectionReason, createdAt, acceptedAt, readyAt, items)
    }

    constructor(id: Uuid, orderId: Uuid, now: Instant)
      ensures View() == NewTicket(id, orderId, now)
    {
      this.id := id;
      this.orderId := orderId;
      status := TicketPending;
      estimatedPrepTimeMinutes := 0;
      rejectionReason := None;
      createdAt := now;
      acceptedAt := None;
      readyAt := None;
      items := [];
    }

    /** items.add */
    method AddItem(item: TicketItem)
      modifies this
      ensures View() == old(View()).(items := old(items) + [item])
    {
      items := items + [item];
    }

    method Accept(minutes: Int32, now: Instant)
      modifies this
      ensures View() == AfterAccept(old(View()), minutes, now)
    {
      status := Accepted;
      estimatedPrepTimeMinutes := minutes;
      acceptedAt := Some(now);
    }

    method Reject(reason: string)
      modifies this
      ensures View() == AfterReject(old(View()), reason)
    {
      status := TicketStatus.TicketRejected;
      rejectionReason := Some(reason);
    }

    method StartPreparing()
      modifies this
      ensures View() == AfterStartPreparing(old(View()))
    {
      status := Preparing;
    }

    method MarkReady(now: Instant)
      modifies this
      ensures View() == AfterMarkReady(old(View()), now)
    {
      status := Ready;
      readyAt := Some(now);
    }
  }

  function TicketViewsOf(ts: seq<Ticket>): (vs: seq<TicketView>)
    reads ts
    ensures |vs| == |ts| && forall i :: 0 <= i < |ts| ==> vs[i] == ts[i].View()
  {
    seq(|ts|, i requires 0 <= i < |ts| reads ts => ts[i].View())
  }

  // ---------------------------------------------------------------- the command handlers

  /** Kotlin Int arithmetic: the value modulo 2^32, read back as a signed 32-bit number. */
  function WrapInt32(x: int): (r: Int32)
    ensures -0x8000_0000 <= x < 0x8000_0000 ==> r as int == x
    ensures (r as int - x) % 0x1_0000_0000 == 0
  {
    var m := x % 0x1_0000_0000;
    (if m < 0x8000_0000 then m else m - 0x1_0000_0000) as Int32
  }

  /** calculatePrepTime: 10 minutes plus 5 per item, in Int arithmetic. */
  function PrepTime(itemCount: nat): Int32
  {
    WrapInt32(10 + itemCount * 5)
  }

  /** Up to 429496727 items the prep time is exactly 10 + 5·n minutes, and at least 10. */
  lemma PrepTimeFormula(itemCount: nat)
    requires itemCount <= 429496727
    ensures PrepTime(itemCount) as int == 10 + 5 * itemCount
    ensures PrepTime(itemCount) >= 10
    ensures PrepTime(itemCount + 1) as int == PrepTime(itemCount) as int + 5 || itemCount == 429496727
  {
  }

  /** One item more and the Int sum wraps to a negative time. */
  lemma PrepTimeWraps()
    ensures PrepTime(429496728) < 0
  {
  }

  const FullCapacity := "Kitchen at full capacity"

  function CancelledReason(reason: string): string
  {
    "Cancelled: " + reason
  }

  function TicketItemsOf(items: seq<OrderItem>): (ts: seq<TicketItem>)
    ensures |ts| == |items|
  {
    seq(|items|, i requires 0 <= i < |items| => TicketItem(items[i].productId, items[i].productName, items[i].quantity))
  }

  /** What the random parts of a handler pick: the new ticket's id, the kitchen's verdict, event ids, the clock. */
  datatype Choices = Choices(ticketId: Uuid, canAccept: bool, firstEventId: string, secondEventId: string, now: Instant)

  /** The ticket handlePrepareOrder saves, in its final state. */
  function PreparedTicket(orderId: OrderId, items: seq<OrderItem>, c: Choices): TicketView
  {
    var t := NewTicket(c.ticketId, orderId.value, c.now).(items := TicketItemsOf(items));
    if c.canAccept then AfterMarkReady(AfterAccept(t, PrepTime(|items|), c.now), c.now)
    else AfterReject(t, FullCapacity)
  }

  /** The events handlePrepareOrder sends, in order. */
  function PreparedEvents(orderId: OrderId, items: seq<OrderItem>, c: Choices): seq<KitchenEvent>
  {
    if c.canAccept then
      [ TicketAccepted(c.firstEventId, c.now, orderId, TicketId(c.ticketId), PrepTime(|items|)),
        TicketReady(c.secondEventId, c.now, orderId, TicketId(c.ticketId)) ]
    else
      [ KitchenEvent.TicketRejected(c.firstEventId, c.now, orderId, FullCapacity) ]
  }

  /** The repository and the events sent, after a handler. */
  datatype Outcome = Outcome(tickets: seq<TicketView>, events: seq<KitchenEvent>)

  function FindTicket(tickets: seq<TicketView>, orderId: Uuid): Result<Option<nat>, Error>
  {
    SingleResult(Matching(tickets, (t: TicketView) => t.orderId == orderId))
  }

  function PrepareStep(tickets: seq<TicketView>, orderId: OrderId, items: seq<OrderItem>, c: Choices): Outcome
  {
    Outcome(tickets + [PreparedTicket(orderId, items, c)], PreparedEvents(orderId, items, c))
  }

  function CancelStep(tickets: seq<TicketView>, orderId: OrderId, reason: string): Result<Outcome, Error>
  {
    var found :- FindTicket(tickets, orderId.value);
    if found.None? then Success(Outcome(tickets, []))
    else Success(Outcome(tickets[found.value := AfterReject(tickets[found.value], CancelledReason(reason))], []))
  }

  /** onKitchenCommand: an exception (a second ticket for the order) escapes and rolls the transaction back. */
  function CommandStep(tickets: seq<TicketView>, command: KitchenCommand, c: Choices): Result<Outcome, Error>
  {
    match command
    case PrepareOrder(orderId, items, _, _) => Success(PrepareStep(tickets, orderId, items, c))
    case CancelTicket(orderId, reason, _) => CancelStep(tickets, orderId, reason)
  }

  /** A caught exception leaves the tickets as they were and sends nothing. */
  function SwallowFailure(tickets: seq<TicketView>, r: Result<Outcome, Error>): Outcome
  {
    if r.Success? then r.value else Outcome(tickets, [])
  }

  /** The Avro listener's onKitchenCommand: decode, handle, and swallow any exception. */
  function AvroCommandStep(tickets: seq<TicketView>, record: KitchenAvro.KitchenCommandRecord, c: Choices): Outcome
  {
    match KitchenAvro.DecodeCommand(record)
    case Failure(_) => Outcome(tickets, [])
    case Success(command) => SwallowFailure(tickets, CommandStep(tickets, command, c))
  }

  /**
   * An accepted PrepareOrder saves one new READY ticket with the computed
   * prep time and the order's items copied in order, and sends TicketAccepted
   * then TicketReady for the same ticket and order.
   */
  lemma PrepareAccepted(tickets: seq<TicketView>, orderId: OrderId, items: seq<OrderItem>, c: Choices)
    requires c.canAccept
    ensures var o := PrepareStep(tickets, orderId, items, c);
      && |o.tickets| == |tickets| + 1 && o.tickets[..|tickets|] == tickets
      && var t := o.tickets[|tickets|];
      && t.id == c.ticketId && t.orderId == orderId.value
      && t.status == Ready && t.estimatedPrepTimeMinutes == PrepTime(|items|)
      && t.acceptedAt == Some(c.now) && t.readyAt == Some(c.now) && t.rejectionReason.None?
      && |t.items| == |items|
      && (forall i :: 0 <= i < |items| ==>
            t.items[i].productId == items[i].productId && t.items[i].productName == items[i].productName
            && t.items[i].quantity == items[i].quantity)
      && |o.events| == 2 && o.events[0].TicketAccepted? && o.events[1].TicketReady?
      && o.events[0].estimatedPrepTimeMinutes == t.estimatedPrepTimeMinutes
      && (forall e :: e in o.events ==> e.orderId == orderId && e.ticketId == TicketId(t.id))
  {
  }

  /** A refused PrepareOrder saves one REJECTED ticket and sends a single TicketRejected, and no TicketReady. */
  lemma PrepareRejected(tickets: seq<TicketView>, orderId: OrderId, items: seq<OrderItem>, c: Choices)
    requires !c.canAccept
    ensures var o := PrepareStep(tickets, orderId, items, c);
      && |o.tickets| == |tickets| + 1 && o.tickets[..|tickets|] == tickets
      && var t := o.tickets[|tickets|];
      && t.status == TicketStatus.TicketRejected && t.rejectionReason == Some(FullCapacity)
      && t.estimatedPrepTimeMinutes == 0 && t.acceptedAt.None? && t.readyAt.None?
      && |o.events| == 1 && o.events[0].TicketRejected?
      && o.events[0].orderId == orderId && o.events[0].reason == FullCapacity
      && (forall e :: e in o.events ==> !e.TicketReady? && !e.TicketAccepted?)
  {
  }

  /** CancelTicket on the order's one ticket rejects it with "Cancelled: <reason>"; nothing else changes and nothing is sent. */
  lemma CancelExistingTicket(tickets: seq<TicketView>, orderId: OrderId, reason: string, i: nat)
    requires i < |tickets| && tickets[i].orderId == orderId.value
    requires forall j :: 0 <= j < |tickets| && j != i ==> tickets[j].orderId != orderId.value
    ensures var r := CancelStep(tickets, orderId, reason);
      && r.Success? && r.value.events == []
      && |r.value.tickets| == |tickets|
      && r.value.tickets[i].status == TicketStatus.TicketRejected
      && r.value.tickets[i].rejectionReason == Some("Cancelled: " + reason)
      && (forall j :: 0 <= j < |tickets| && j != i ==> r.value.tickets[j] == tickets[j])
  {
    OnlyMatch(tickets, (t: TicketView) => t.orderId == orderId.value, i);
  }

  /** CancelTicket for an order without a ticket changes nothing. */
  lemma CancelAbsentTicket(tickets: seq<TicketView>, orderId: OrderId, reason: string)
    requires forall j :: 0 <= j < |tickets| ==> tickets[j].orderId != orderId.value
    ensures CancelStep(tickets, orderId, reason) == Success(Outcome(tickets, []))
  {
    NoMatch(tickets, (t: TicketView) => t.orderId == orderId.value);
  }

  /** A record that does not decode is ignored: no ticket saved, no event sent. */
  lemma AvroUndecodableCommandIgnored(tickets: seq<TicketView>, record: KitchenAvro.KitchenCommandRecord, c: Choices)
    requires KitchenAvro.DecodeCommand(record).Failure?
    ensures AvroCommandStep(tickets, record, c) == Outcome(tickets, [])
  {
  }

  /** On an encoded command the Avro listener does what the plain one does, except that a failure changes nothing. */
  lemma AvroListenerHandlesLikePlain(tickets: seq<TicketView>, command: KitchenCommand, c: Choices)
    ensures var plain := CommandStep(tickets, command, c);
      AvroCommandStep(tickets, KitchenAvro.EncodeCommand(command), c)
        == if plain.Success? then plain.value else Outcome(tickets, [])
  {
    KitchenAvro.CommandRoundTrip(command);
  }

  // ---------------------------------------------------------------- what is sent

  datatype KitchenSent = KitchenSent(topic: Topic, key: OrderId, event: KitchenEvent)
  datatype KitchenPublished = KitchenPublished(topic: Topic, key: OrderId, record: KitchenAvro.KitchenEventRecord)

  /** kafkaTemplate.send(KITCHEN_EVENTS, orderId.toString(), event) for each event. */
  function SendsOf(events: seq<KitchenEvent>): (ss: seq<KitchenSent>)
    ensures |ss| == |events|
    ensures forall i :: 0 <= i < |events| ==>
      ss[i].event == events[i] && TopicName(ss[i].topic) == "kitchen.events" && ss[i].key == events[i].orderId
  {
    seq(|events|, i requires 0 <= i < |events| => KitchenSent(KitchenEvents, events[i].orderId, events[i]))
  }

  /** The same sends with each event encoded by the Avro mapper. */
  function PublishedOf(events: seq<KitchenEvent>): (ps: seq<KitchenPublished>)
    ensures |ps| == |events|
    ensures forall i :: 0 <= i < |events| ==> TopicName(ps[i].topic) == "kitchen.events" && ps[i].key == events[i].orderId
  {
    seq(|events|, i requires 0 <= i < |events| => KitchenPublished(KitchenEvents, events[i].orderId, KitchenAvro.EncodeEvent(events[i])))
  }

  /** Every published record decodes to the event it was made from. */
  lemma PublishedEventsDecode(events: seq<KitchenEvent>)
    ensures forall i :: 0 <= i < |events| ==> KitchenAvro.DecodeEvent(PublishedOf(events)[i].record) == Success(events[i])
  {
    forall i | 0 <= i < |events|
      ensures KitchenAvro.DecodeEvent(PublishedOf(events)[i].record) == Success(events[i])
    {
      KitchenAvro.EventRoundTrip(events[i]);
    }
  }

  // ---------------------------------------------------------------- the listeners

  /** handlePrepareOrder's ticket: create it, copy the items, then accept and mark ready, or reject. */
  method PrepareTicket(orderId: OrderId, items: seq<OrderItem>, c: Choices) returns (ticket: Ticket)
    ensures fresh(ticket) && ticket.View() == PreparedTicket(orderId, items, c)
  {
    ticket := new Ticket(c.ticketId, orderId.value, c.now);
    var i := 0;
    while i < |items|
      invariant 0 <= i <= |items|
      invariant ticket.View() == NewTicket(c.ticketId, orderId.value, c.now).(items := TicketItemsOf(items)[..i])
    {
      ticket.AddItem(TicketItem(items[i].productId, items[i].productName, items[i].quantity));
      i := i + 1;
    }
    assert TicketItemsOf(items)[..i] == TicketItemsOf(items);
    if c.canAccept {
      ticket.Accept(PrepTime(|items|), c.now);
      ticket.MarkReady(c.now);
    } else {
      ticket.Reject(FullCapacity);
    }
  }

  class KitchenCommandListener {
    var tickets: seq<Ticket>
    var sent: seq<KitchenSent>

    ghost predicate Valid()
      reads this
    {
      forall i, j :: 0 <= i < j < |tickets| ==> tickets[i] != tickets[j]
    }

    function Tickets(): seq<TicketView>
      reads this, tickets
    {
      TicketViewsOf(tickets)
    }

    constructor()
      ensures Valid() && tickets == [] && sent == []
    {
      tickets := [];
      sent := [];
    }

    method OnKitchenCommand(command: KitchenCommand, c: Choices) returns (r: Result<(), Error>)
      requires Valid()
      modifies this, tickets
      ensures Valid()
      ensures var e := CommandStep(old(Tickets()), command, c);
        && (r.Success? <==> e.Success?)
        && (e.Success? ==> Tickets() == e.value.tickets && sent == old(sent) + SendsOf(e.value.events))
        && (e.Failure? ==> r.error == e.error && Tickets() == old(Tickets()) && sent == old(sent))
    {
      match command
      case PrepareOrder(orderId, items, _, _) =>
        HandlePrepareOrder(orderId, items, c);
        r := Success(());
      case CancelTicket(orderId, reason, _) =>
        r := HandleCancelTicket(orderId, reason);
    }

    method HandlePrepareOrder(orderId: OrderId, items: seq<OrderItem>, c: Choices)
      requires Valid()
      modifies this
      ensures Valid()
      ensures var o := PrepareStep(old(Tickets()), orderId, items, c);
        Tickets() == o.tickets && sent == old(sent) + SendsOf(o.events)
    {
      var ticket := PrepareTicket(orderId, items, c);
      tickets := tickets + [ticket];
      sent := sent + SendsOf(PreparedEvents(orderId, items, c));
      assert Tickets() == old(Tickets()) + [ticket.View()];
    }

    method HandleCancelTicket(orderId: OrderId, reason: string) returns (r: Result<(), Error>)
      requires Valid()
      modifies tickets
      ensures Valid() && tickets == old(tickets) && sent == old(sent)
      ensures var e := CancelStep(old(Tickets()), orderId, reason);
        && (r.Success? <==> e.Success?)
        && (e.Success? ==> Tickets() == e.value.tickets && e.value.events == [])
        && (e.Failure? ==> r.error == e.error && Tickets() == old(Tickets()))
    {
      var found :- FindTicket(Tickets(), orderId.value);
      r := Success(());
      if found.Some? {
        var ticket := tickets[found.value];
        ticket.Reject(CancelledReason(reason));
        assert Tickets() == old(Tickets())[found.value := ticket.View()];
      }
    }
  }

  class AvroKitchenCommandListener {
    var tickets: seq<Ticket>
    var sent: seq<KitchenPublished>

    ghost predicate Valid()
      reads this
    {
      forall i, j :: 0 <= i < j < |tickets| ==> tickets[i] != tickets[j]
    }

    function Tickets(): seq<TicketView>
      reads this, tickets
    {
      TicketViewsOf(tickets)
    }

    constructor()
      ensures Valid() && tickets == [] && sent == []
    {
      tickets := [];
      sent := [];
    }

    method OnKitchenCommand(record: KitchenAvro.KitchenCommandRecord, c: Choices)
      requires Valid()
      modifies this, tickets
      ensures Valid()
      ensures var o := AvroCommandStep(old(Tickets()), record, c);
        Tickets() == o.tickets && sent == old(sent) + PublishedOf(o.events)
    {
      var decoded := KitchenAvro.DecodeCommand(record);
      if decoded.Failure? {
        return;
      }
      HandleCommand(decoded.value, c);
    }

    /** The `when (command)` inside the try: a failure is caught and leaves everything as it was. */
    method HandleCommand(command: KitchenCommand, c: Choices)
      requires Valid()
      modifies this, tickets
      ensures Valid()
      ensures var o := SwallowFailure(old(Tickets()), CommandStep(old(Tickets()), command, c));
        Tickets() == o.tickets && sent == old(sent) + PublishedOf(o.events)
    {
      match command
      case PrepareOrder(orderId, items, _, _) =>
        HandlePrepareOrder(orderId, items, c);
      case CancelTicket(orderId, reason, _) =>
        HandleCancelTicket(orderId, reason);
    }

    method HandlePrepareOrder(orderId: OrderId, items: seq<OrderItem>, c: Choices)
      requires Valid()
      modifies this
      ensures Valid()
      ensures var o := PrepareStep(old(Tickets()), orderId, items, c);
        Tickets() == o.tickets && sent == old(sent) + PublishedOf(o.events)
    {
      var ticket := PrepareTicket(orderId, items, c);
      tickets := tickets + [ticket];
      sent := sent + PublishedOf(PreparedEvents(orderId, items, c));
      assert Tickets() == old(Tickets()) + [ticket.View()];
    }

    /** handleCancelTicket inside the try: a failed lookup is caught and changes nothing. */
    method HandleCancelTicket(orderId: OrderId, reason: string)
      requires Valid()
      modifies tickets
      ensures Valid() && tickets == old(tickets) && sent == old(sent)
      ensures var e := CancelStep(old(Tickets()), orderId, reason);
        Tickets() == if e.Success? then e.value.tickets else old(Tickets())
    {
      var found := FindTicket(Tickets(), orderId.value);
      if found.Success? && found.value.Some? {
        var ticket := tickets[found.value.value];
        ticket.Reject(CancelledReason(reason));
        assert Tickets() == old(Tickets())[found.value.value := ticket.View()];
      }
    }
  }
}
