/**
 * The payment service: the Payment entity with its authorize/refund guard,
 * and the controller that makes authorization idempotent per order and looks
 * refunds up by transaction id. The repository is the sequence of saved
 * payments, in the order they were first saved.
 */
module Payments {
  import opened Wrappers
  import opened Decimals
  import opened DomainPrimitives
  import opened Enums
  import opened Repositories

  const DeclinedMessage := "Payment declined by issuer"

  /** "TXN-" followed by the first eight characters of a random UUID, upper-cased. */
  function TransactionIdFor(token: Uuid): string
  {
    "TXN-" + UpperCase(UuidToString(token)[..8])
  }

  /** A transaction id is twelve characters, starts with "TXN-", and so is not blank. */
  lemma TransactionIdShape(token: Uuid)
    ensures var t := TransactionIdFor(token); |t| == 12 && t[..4] == "TXN-" && !IsBlank(t)
  {
    var t := TransactionIdFor(token);
    assert t[..4] == "TXN-";
    assert !IsWhitespace(t[0]);
  }

  /** A Payment row's fields. */
  datatype PaymentView = PaymentView(
    id: Uuid,
    orderId: Uuid,
    amount: Decimal,
    paymentMethod: PaymentMethod,
    status: PaymentStatus,
    transactionId: Option<string>,
    errorMessage: Option<string>,
    createdAt: Instant,
    processedAt: Option<Instant>)

  /** The Payment constructor with its defaults. */
  function NewPayment(id: Uuid, orderId: Uuid, amount: Decimal, paymentMethod: PaymentMethod, now: Instant): PaymentView
  {
    PaymentView(id, orderId, amount, paymentMethod, Pending, None, None, now, None)
  }

  /**
   * Payment.authorize: the gateway's verdict `approved` and the UUID that
   * names the transaction are the random inputs. Returns the new row and
   * `transactionId ?: ""`.
   */
  function AfterAuthorize(p: PaymentView, approved: bool, token: Uuid, now: Instant): (PaymentView, string)
  {
    var q :=
      if approved then p.(transactionId := Some(TransactionIdFor(token)), status := Authorized)
      else p.(status := Rejected, errorMessage := Some(DeclinedMessage));
    (q.(processedAt := Some(now)), q.transactionId.GetOr(""))
  }

  /** Payment.refund: only an AUTHORIZED payment can be refunded. */
  function AfterRefund(p: PaymentView, reason: string, now: Instant): (PaymentView, bool)
  {
    if p.status != Authorized then (p, false)
    else (p.(status := Refunded, errorMessage := Some(reason), processedAt := Some(now)), true)
  }

  /** The identity, order, amount, method and creation time of a payment never change. */
  predicate SamePayment(p: PaymentView, q: PaymentView)
  {
    p.id == q.id && p.orderId == q.orderId && p.amount == q.amount
    && p.paymentMethod == q.paymentMethod && p.createdAt == q.createdAt
  }

  lemma NewPaymentIsPending(id: Uuid, orderId: Uuid, amount: Decimal, paymentMethod: PaymentMethod, now: Instant)
    ensures var p := NewPayment(id, orderId, amount, paymentMethod, now);
      && p.status == Pending && p.transactionId.None? && p.errorMessage.None? && p.processedAt.None?
      && p.id == id && p.orderId == orderId && p.amount == amount && p.createdAt == now
  {
  }

  /**
   * An approved authorization is AUTHORIZED with a "TXN-" id that it returns;
   * a declined one is REJECTED with the issuer's message, keeps its (null)
   * transaction id and returns "" for a payment that had none.
   */
  lemma AuthorizeOutcome(p: PaymentView, approved: bool, token: Uuid, now: Instant)
    ensures var (q, returned) := AfterAuthorize(p, approved, token, now);
      && SamePayment(p, q) && q.processedAt == Some(now)
      && (approved ==> q.status == Authorized && q.transactionId == Some(returned)
                       && |returned| == 12 && returned[..4] == "TXN-" && q.errorMessage == p.errorMessage)
      && (!approved ==> q.status == Rejected && q.errorMessage == Some(DeclinedMessage)
                        && q.transactionId == p.transactionId
                        && (p.transactionId.None? ==> returned == ""))
  {
    TransactionIdShape(token);
  }

  /** refund succeeds exactly from AUTHORIZED; a refused refund changes nothing. */
  lemma RefundGuard(p: PaymentView, reason: string, now: Instant)
    ensures var (q, ok) := AfterRefund(p, reason, now);
      && (ok <==> p.status == Authorized)
      && (ok ==> q.status == Refunded && q.errorMessage == Some(reason) && q.processedAt == Some(now)
                 && SamePayment(p, q) && q.transactionId == p.transactionId)
      && (!ok ==> q == p)
  {
  }

  /** A payment is refunded at most once. */
  lemma SecondRefundFails(p: PaymentView, first: string, second: string, now1: Instant, now2: Instant)
    ensures !AfterRefund(AfterRefund(p, first, now1).0, second, now2).1
  {
  }

  /** A new payment that the gateway approves can then be refunded; one it declines cannot. */
  lemma RefundAfterAuthorize(p: PaymentView, approved: bool, token: Uuid, reason: string, now1: Instant, now2: Instant)
    requires p.status == Pending
    ensures AfterRefund(AfterAuthorize(p, approved, token, now1).0, reason, now2).1 == approved
  {
  }

  class Payment {
    const id: Uuid
    const orderId: Uuid
    const amount: Decimal
    const paymentMethod: PaymentMethod
    var status: PaymentStatus
    var transactionId: Option<string>
    var errorMessage: Option<string>
    const createdAt: Instant
    var processedAt: Option<Instant>

    function View(): PaymentView
      reads this
    {
      PaymentView(id, orderId, amount, paymentMethod, status, transactionId, errorMessage, createdAt, processedAt)
    }

    constructor(id: Uuid, orderId: Uuid, amount: Decimal, paymentMethod: PaymentMethod, now: Instant)
      ensures View() == NewPayment(id, orderId, amount, paymentMethod, now)
    {
      this.id := id;
      this.orderId := orderId;
      this.amount := amount;
      this.paymentMethod := paymentMethod;
      status := Pending;
      transactionId := None;
      errorMessage := None;
      createdAt := now;
      processedAt := None;
    }

    method Authorize(approved: bool, token: Uuid, now: Instant) returns (r: string)
      modifies this
      ensures (View(), r) == AfterAuthorize(old(View()), approved, token, now)
    {
      if approved {
        transactionId := Some(TransactionIdFor(token));
        status := Authorized;
      } else {
        status := Rejected;
        errorMessage := Some(DeclinedMessage);
      }
      processedAt := Some(now);
      r := transactionId.GetOr("");
    }

    method Refund(reason: string, now: Instant) returns (ok: bool)
      modifies this
      ensures (View(), ok) == AfterRefund(old(View()), reason, now)
    {
      if status != Authorized {
        return false;
      }
      status := Refunded;
      errorMessage := Some(reason);
      processedAt := Some(now);
      ok := true;
    }
  }

  // ---------------------------------------------------------------- the controller

  datatype AuthorizationRequest = AuthorizationRequest(orderId: Uuid, amount: Decimal, paymentMethod: PaymentMethod)
  datatype AuthorizationResponse = AuthorizationResponse(transactionId: Option<string>, status: PaymentStatus, message: Option<string>)
  datatype RefundRequest = RefundRequest(orderId: Uuid, transactionId: string, reason: string)
  datatype RefundResponse = RefundResponse(success: bool, message: Option<string>)

  /** An HTTP reply: 200 or 400 with its body. */
  datatype Reply<T> = Reply(httpStatus: int, body: T)

  const AlreadyAuthorized := "Payment already authorized"
  const TransactionNotFound := "Transaction not found"
  const RefundProcessed := "Refund processed"
  const RefundRefused := "Refund failed: invalid payment status"

  function FindByOrderId(ps: seq<PaymentView>, orderId: Uuid): Result<Option<nat>, Error>
  {
    SingleResult(Matching(ps, (p: PaymentView) => p.orderId == orderId))
  }

  function FindByTransactionId(ps: seq<PaymentView>, transactionId: string): Result<Option<nat>, Error>
  {
    SingleResult(Matching(ps, (p: PaymentView) => p.transactionId == Some(transactionId)))
  }

  /** PaymentController.authorize on the repository `ps`; `id`, `approved`, `token` and `now` are its random inputs. */
  function AuthorizeStep(ps: seq<PaymentView>, request: AuthorizationRequest, id: Uuid, approved: bool, token: Uuid, now: Instant)
    : Result<(seq<PaymentView>, Reply<AuthorizationResponse>), Error>
  {
    var existing :- FindByOrderId(ps, request.orderId);
    if existing.Some? && ps[existing.value].status == Authorized then
      Success((ps, Reply(200, AuthorizationResponse(ps[existing.value].transactionId, Authorized, Some(AlreadyAuthorized)))))
    else
      var (p, transactionId) := AfterAuthorize(NewPayment(id, request.orderId, request.amount, request.paymentMethod, now), approved, token, now);
      var response := AuthorizationResponse(if p.status == Authorized then Some(transactionId) else None, p.status, p.errorMessage);
      Success((ps + [p], Reply(200, response)))
  }

  /** PaymentController.refund on the repository `ps`. */
  function RefundStep(ps: seq<PaymentView>, request: RefundRequest, now: Instant): Result<(seq<PaymentView>, Reply<RefundResponse>), Error>
  {
    var found :- FindByTransactionId(ps, request.transactionId);
    if found.None? then
      Success((ps, Reply(400, RefundResponse(false, Some(TransactionNotFound)))))
    else
      var (p, ok) := AfterRefund(ps[found.value], request.reason, now);
      Success((ps[found.value := p], Reply(200, RefundResponse(ok, Some(if ok then RefundProcessed else RefundRefused)))))
  }

  /** Re-authorizing an order whose one payment is AUTHORIZED returns that payment's id and saves nothing. */
  lemma AuthorizeIsIdempotent(ps: seq<PaymentView>, request: AuthorizationRequest, id: Uuid, approved: bool, token: Uuid, now: Instant, i: nat)
    requires i < |ps| && ps[i].orderId == request.orderId && ps[i].status == Authorized
    requires forall j :: 0 <= j < |ps| && j != i ==> ps[j].orderId != request.orderId
    ensures AuthorizeStep(ps, request, id, approved, token, now)
         == Success((ps, Reply(200, AuthorizationResponse(ps[i].transactionId, Authorized, Some(AlreadyAuthorized)))))
  {
    OnlyMatch(ps, (p: PaymentView) => p.orderId == request.orderId, i);
  }

  /**
   * Otherwise one new payment is saved, carrying the request's order, amount
   * and method; the reply has a transaction id exactly when it is AUTHORIZED,
   * and then it is the saved payment's id.
   */
  lemma AuthorizeCreatesPayment(ps: seq<PaymentView>, request: AuthorizationRequest, id: Uuid, approved: bool, token: Uuid, now: Instant)
    requires forall j :: 0 <= j < |ps| && ps[j].orderId == request.orderId ==> ps[j].status != Authorized
    ensures var r := AuthorizeStep(ps, request, id, approved, token, now);
      r.Success? ==>
        var (after, reply) := r.value;
        && |after| == |ps| + 1 && after[..|ps|] == ps
        && var p := after[|ps|];
        && p.id == id && p.orderId == request.orderId && p.amount == request.amount && p.paymentMethod == request.paymentMethod
        && (p.status == Authorized <==> approved) && (p.status == Rejected <==> !approved)
        && reply.body.status == p.status
        && (reply.body.transactionId.Some? <==> reply.body.status == Authorized)
        && (approved ==> reply.body.transactionId == p.transactionId)
        && (!approved ==> reply.body.message == Some(DeclinedMessage))
  {
  }

  /** The lookup by order fails only when the order already has several payments. */
  lemma AuthorizeFailsOnlyOnDuplicates(ps: seq<PaymentView>, request: AuthorizationRequest, id: Uuid, approved: bool, token: Uuid, now: Instant)
    ensures AuthorizeStep(ps, request, id, approved, token, now).Failure? <==> |Matching(ps, (p: PaymentView) => p.orderId == request.orderId)| > 1
  {
  }

  /**
   * After a declined first attempt, a second authorization saves a second
   * payment for the order, and from then on every lookup by that order fails.
   */
  lemma RetryAfterDeclineBreaksLookup(request: AuthorizationRequest, id1: Uuid, id2: Uuid, token1: Uuid, token2: Uuid, approved: bool,
                                      now1: Instant, now2: Instant)
    ensures var first := AuthorizeStep([], request, id1, false, token1, now1);
      && first.Success? && first.value.1.body.status == Rejected
      && var second := AuthorizeStep(first.value.0, request, id2, approved, token2, now2);
      && second.Success? && |second.value.0| == 2
      && FindByOrderId(second.value.0, request.orderId).Failure?
  {
    var first := AuthorizeStep([], request, id1, false, token1, now1);
    var second := AuthorizeStep(first.value.0, request, id2, approved, token2, now2);
    var ps := second.value.0;
    var m: seq<nat> := Matching(ps, (p: PaymentView) => p.orderId == request.orderId);
    assert 0 in m && 1 in m;
  }

  /** A refund for an unknown transaction id is a 400 with "Transaction not found" and saves nothing. */
  lemma RefundOfUnknownTransaction(ps: seq<PaymentView>, request: RefundRequest, now: Instant)
    requires forall j :: 0 <= j < |ps| ==> ps[j].transactionId != Some(request.transactionId)
    ensures RefundStep(ps, request, now) == Success((ps, Reply(400, RefundResponse(false, Some(TransactionNotFound)))))
  {
    NoMatch(ps, (p: PaymentView) => p.transactionId == Some(request.transactionId));
  }

  /**
   * A refund of a known transaction reports what Payment.refund returned and
   * changes that payment alone; a second refund of the same transaction fails.
   */
  lemma RefundOfKnownTransaction(ps: seq<PaymentView>, request: RefundRequest, now: Instant, later: Instant, i: nat)
    requires i < |ps| && ps[i].transactionId == Some(request.transactionId)
    requires forall j :: 0 <= j < |ps| && j != i ==> ps[j].transactionId != Some(request.transactionId)
    ensures var r := RefundStep(ps, request, now);
      && r.Success?
      && r.value.1.httpStatus == 200
      && r.value.1.body.success == (ps[i].status == Authorized)
      && r.value.0 == ps[i := AfterRefund(ps[i], request.reason, now).0]
      && var again := RefundStep(r.value.0, request, later);
      && again.Success? && !again.value.1.body.success && again.value.1.body.message == Some(RefundRefused)
  {
    var key := (p: PaymentView) => p.transactionId == Some(request.transactionId);
    OnlyMatch(ps, key, i);
    var after := ps[i := AfterRefund(ps[i], request.reason, now).0];
    OnlyMatch(after, key, i);
  }

  function ViewsOf(ps: seq<Payment>): (vs: seq<PaymentView>)
    reads ps
    ensures |vs| == |ps| && forall i :: 0 <= i < |ps| ==> vs[i] == ps[i].View()
  {
    seq(|ps|, i requires 0 <= i < |ps| reads ps => ps[i].View())
  }

  class PaymentController {
    var payments: seq<Payment>

    /** Each saved entity appears once. */
    ghost predicate Valid()
      reads this
    {
      forall i, j :: 0 <= i < j < |payments| ==> payments[i] != payments[j]
    }

    function Payments(): seq<PaymentView>
      reads this, payments
    {
      ViewsOf(payments)
    }

    constructor()
      ensures Valid() && payments == []
    {
      payments := [];
    }

    method Authorize(request: AuthorizationRequest, id: Uuid, approved: bool, token: Uuid, now: Instant)
      returns (r: Result<Reply<AuthorizationResponse>, Error>)
      requires Valid()
      modifies this
      ensures Valid()
      ensures var e := AuthorizeStep(old(Payments()), request, id, approved, token, now);
        && (r.Success? <==> e.Success?)
        && (e.Success? ==> r.value == e.value.1 && Payments() == e.value.0)
        && (e.Failure? ==> r.error == e.error && payments == old(payments))
    {
      var existing :- FindByOrderId(Payments(), request.orderId);
      if existing.Some? && payments[existing.value].status == Authorized {
        var p := payments[existing.value];
        return Success(Reply(200, AuthorizationResponse(p.transactionId, Authorized, Some(AlreadyAuthorized))));
      }
      var reply := CreatePayment(request, id, approved, token, now);
      r := Success(reply);
    }

    /** The part of authorize after the idempotence check: create, authorize and save a payment. */
    method CreatePayment(request: AuthorizationRequest, id: Uuid, approved: bool, token: Uuid, now: Instant)
      returns (reply: Reply<AuthorizationResponse>)
      requires Valid()
      modifies this
      ensures Valid()
      ensures var (p, transactionId) := AfterAuthorize(NewPayment(id, request.orderId, request.amount, request.paymentMethod, now), approved, token, now);
        && Payments() == old(Payments()) + [p]
        && reply == Reply(200, AuthorizationResponse(if p.status == Authorized then Some(transactionId) else None, p.status, p.errorMessage))
    {
      var payment := new Payment(id, request.orderId, request.amount, request.paymentMethod, now);
      var transactionId := payment.Authorize(approved, token, now);
      payments := payments + [payment];
      var response := AuthorizationResponse(if payment.status == Authorized then Some(transactionId) else None, payment.status, payment.errorMessage);
      reply := Reply(200, response);
      assert Payments() == old(Payments()) + [payment.View()];
    }

    method Refund(request: RefundRequest, now: Instant) returns (r: Result<Reply<RefundResponse>, Error>)
      requires Valid()
      modifies payments
      ensures Valid() && payments == old(payments)
      ensures var e := RefundStep(old(Payments()), request, now);
        && (r.Success? <==> e.Success?)
        && (e.Success? ==> r.value == e.value.1 && Payments() == e.value.0)
        && (e.Failure? ==> r.error == e.error && Payments() == old(Payments()))
    {
      var found :- FindByTransactionId(Payments(), request.transactionId);
      if found.None? {
        return Success(Reply(400, RefundResponse(false, Some(TransactionNotFound))));
      }
      var payment := payments[found.value];
      var success := payment.Refund(request.reason, now);
      r := Success(Reply(200, RefundResponse(success, Some(if success then RefundProcessed else RefundRefused))));
      assert Payments() == old(Payments())[found.value := payment.View()];
    }
  }
}
