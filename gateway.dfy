/**
 * The request handlers of app/gateway/main.py. Each handler takes the results its service calls
 * give (a guarded call's `CallResult`, an unguarded call's `Completion`, the flight that
 * `get_flight_by_number_or_default` returns) and yields the answer it sends together with the
 * service calls it made, in order.
 */
module Gateway {
  import opened Options
  import opened CircuitBreakers
  import opened Services

  /** What a handler answers. */
  datatype Answer<T> =
    | Body(value: T)               // the handler's return value
    | Status(code: int)            // `error_response` with this status code
    | ServiceDown(service: string) // a `CircuitOpenException` escaping: 503 "<service> unavailable"
    | Crash                        // any other exception escaping: 500

  /** A service call made by a handler. */
  datatype Call =
    | LookupFlight(flightNumber: string)
    | LookupPrivilege(username: string)
    | LookupHistory(username: string)
    | LookupTransaction(username: string, ticketUid: string)
    | LookupTickets(username: string)
    | LookupTicket(ticketUid: string)
    | AddTransaction(username: string, request: TransactionRequest)
    | CreateTicket(ticketUid: string, username: string, flightNumber: string, price: int)
    | DeleteTicket(ticketUid: string)
    | RollbackTransaction(username: string, ticketUid: string)
    | Sleep(seconds: int)

  datatype Operation = DebitTheAccount | FillInBalance

  /** The body of `add_transaction`. */
  datatype TransactionRequest = TransactionRequest(
    privilegeId: int, ticketUid: string, datetime: int, balanceDiff: int, operationType: Operation)

  /** The privilege part of a response: a short summary, or `""` when it could not be read. */
  datatype PrivilegeInfo = NoPrivilege | ShortInfo(balance: int, status: string)

  datatype TicketResponse = TicketResponse(
    ticketUid: string, flightNumber: string, fromAirport: string, toAirport: string,
    date: int, price: int, status: string)

  // ---------------------------------------------------------------------------------------------
  // Ticket views

  /**
   * `map_ticket_to_ticket_response`: a listed ticket takes its uid, number and status from the
   * ticket and its airports, date and price from the flight lookup (the flight's price, not the
   * price paid; the sentinel's when the flights service is unavailable).
   */
  function ListedTicket(t: Ticket, f: Flight): (v: TicketResponse)
    ensures v.ticketUid == t.ticketUid && v.flightNumber == t.flightNumber && v.status == t.status
    ensures v.fromAirport == f.fromAirport && v.toAirport == f.toAirport && v.date == f.date
    ensures v.price == f.price
  {
    TicketResponse(t.ticketUid, t.flightNumber, f.fromAirport, f.toAirport, f.date, f.price, t.status)
  }

  /**
   * The loop of `get_tickets` and `get_user`: one flight lookup per ticket, in order, and one
   * listed ticket per ticket. `flightAt(i)` is the flight the i-th lookup returns.
   */
  method MapTickets(tickets: seq<Ticket>, flightAt: nat -> Flight) returns (views: seq<TicketResponse>, calls: seq<Call>)
    ensures |views| == |tickets| && |calls| == |tickets|
    ensures forall i :: 0 <= i < |tickets| ==>
      views[i] == ListedTicket(tickets[i], flightAt(i)) && calls[i] == LookupFlight(tickets[i].flightNumber)
  {
    views, calls := [], [];
    for i := 0 to |tickets|
      invariant |views| == i && |calls| == i
      invariant forall j :: 0 <= j < i ==>
        views[j] == ListedTicket(tickets[j], flightAt(j)) && calls[j] == LookupFlight(tickets[j].flightNumber)
    {
      calls := calls + [LookupFlight(tickets[i].flightNumber)];
      views := views + [ListedTicket(tickets[i], flightAt(i))];
    }
  }

  /**
   * `get_tickets`: the user must exist; neither lookup degrades, so an unavailable service
   * fails the request.
   */
  method GetTickets(user: string, privilege: CallResult<Option<Privilege>>, tickets: CallResult<seq<Ticket>>,
                    flightAt: nat -> Flight)
    returns (a: Answer<seq<TicketResponse>>, calls: seq<Call>)
    ensures |calls| >= 1 && calls[0] == LookupPrivilege(user)
    ensures privilege.IsCircuitOpen() ==> a == ServiceDown(privilege.service) && calls == [LookupPrivilege(user)]
    ensures privilege == Success(None) ==> a == Status(404) && calls == [LookupPrivilege(user)]
    ensures privilege.Success? && privilege.value.Some? ==>
      |calls| >= 2 && calls[1] == LookupTickets(user) &&
      (tickets.IsCircuitOpen() ==> a == ServiceDown(tickets.service) && |calls| == 2) &&
      (tickets.Success? ==>
        a.Body? && |a.value| == |tickets.value| && |calls| == 2 + |tickets.value| &&
        forall i :: 0 <= i < |tickets.value| ==>
          a.value[i] == ListedTicket(tickets.value[i], flightAt(i)) &&
          calls[2 + i] == LookupFlight(tickets.value[i].flightNumber))
  {
    calls := [LookupPrivilege(user)];
    if privilege.IsCircuitOpen() {
      return ServiceDown(privilege.service), calls;
    }
    if privilege.value.None? {
      return Status(404), calls;
    }
    calls := calls + [LookupTickets(user)];
    if tickets.IsCircuitOpen() {
      return ServiceDown(tickets.service), calls;
    }
    var views, lookups := MapTickets(tickets.value, flightAt);
    calls := calls + lookups;
    a := Body(views);
  }

  datatype UserInfo = UserInfo(tickets: seq<TicketResponse>, privilege: PrivilegeInfo)

  /**
   * `get_user` (the profile view): a user the bonus service does not know is a 404 and nothing
   * else is looked up; otherwise each lookup degrades on its own, an unavailable bonus service
   * to an empty privilege and an unavailable tickets service to no tickets, and the request
   * always succeeds.
   */
  method GetUser(user: string, privilege: CallResult<Option<Privilege>>, tickets: CallResult<seq<Ticket>>,
                 flightAt: nat -> Flight)
    returns (a: Answer<UserInfo>, calls: seq<Call>)
    ensures privilege == Success(None) ==> a == Status(404) && calls == [LookupPrivilege(user)]
    ensures privilege != Success(None) ==>
      a.Body? && |calls| >= 2 && calls[..2] == [LookupPrivilege(user), LookupTickets(user)]
    ensures privilege != Success(None) && privilege.IsCircuitOpen() ==> a.value.privilege == NoPrivilege
    ensures privilege.Success? && privilege.value.Some? ==>
      a.value.privilege == ShortInfo(privilege.value.value.balance, privilege.value.value.status)
    ensures privilege != Success(None) && tickets.IsCircuitOpen() ==> a.value.tickets == [] && |calls| == 2
    ensures privilege != Success(None) && tickets.Success? ==>
      |a.value.tickets| == |tickets.value| && |calls| == 2 + |tickets.value| &&
      forall i :: 0 <= i < |tickets.value| ==>
        a.value.tickets[i] == ListedTicket(tickets.value[i], flightAt(i)) &&
        calls[2 + i] == LookupFlight(tickets.value[i].flightNumber)
  {
    calls := [LookupPrivilege(user)];
    var found: Option<Privilege>;
    if privilege.Success? {
      if privilege.value.None? {
        return Status(404), calls;
      }
      found := privilege.value;
    } else {
      found := None;
    }
    calls := calls + [LookupTickets(user)];
    var views: seq<TicketResponse>;
    if tickets.Success? {
      var lookups;
      views, lookups := MapTickets(tickets.value, flightAt);
      calls := calls + lookups;
    } else {
      views := [];
    }
    if found.None? {
      return Body(UserInfo(views, NoPrivilege)), calls;
    }
    a := Body(UserInfo(views, ShortInfo(found.value.balance, found.value.status)));
  }

  /**
   * `get_ticket`: 404 for an unknown ticket, 403 for another user's ticket; otherwise the
   * listed view of the ticket but with the price paid instead of the flight's price.
   * `flight` is what `get_flight_by_number_or_default` returns; it is never `None`, so the
   * handler's 404 for a missing flight cannot happen.
   */
  method GetTicket(user: string, ticketUid: string, lookup: CallResult<Option<Ticket>>, flight: Flight)
    returns (a: Answer<TicketResponse>, calls: seq<Call>)
    ensures |calls| >= 1 && calls[0] == LookupTicket(ticketUid)
    ensures lookup.IsCircuitOpen() ==> a == ServiceDown(lookup.service) && |calls| == 1
    ensures lookup == Success(None) ==> a == Status(404) && |calls| == 1
    ensures lookup.Success? && lookup.value.Some? && lookup.value.value.username != user ==>
      a == Status(403) && |calls| == 1
    ensures lookup.Success? && lookup.value.Some? && lookup.value.value.username == user ==>
      var t := lookup.value.value;
      a == Body(ListedTicket(t, flight).(price := t.price)) &&
      calls == [LookupTicket(ticketUid), LookupFlight(t.flightNumber)]
  {
    calls := [LookupTicket(ticketUid)];
    if lookup.IsCircuitOpen() {
      return ServiceDown(lookup.service), calls;
    }
    if lookup.value.None? {
      return Status(404), calls;
    }
    var ticket := lookup.value.value;
    if ticket.username != user {
      return Status(403), calls;
    }
    calls := calls + [LookupFlight(ticket.flightNumber)];
    a := Body(TicketResponse(ticket.ticketUid, ticket.flightNumber, flight.fromAirport, flight.toAirport,
                             flight.date, ticket.price, ticket.status));
  }

  // ---------------------------------------------------------------------------------------------
  // Bonus account

  datatype BalanceHistory = BalanceHistory(date: int, ticketUid: string, balanceDiff: int, operationType: string)
  datatype PrivilegeInfoResponse = PrivilegeInfoResponse(balance: int, status: string, history: seq<BalanceHistory>)

  /** The loop of `get_privilege`: every history entry, in order, as a `BalanceHistory`. */
  method MapHistory(items: seq<PrivilegeHistory>) returns (history: seq<BalanceHistory>)
    ensures |history| == |items|
    ensures forall i :: 0 <= i < |items| ==>
      history[i] == BalanceHistory(items[i].datetime, items[i].ticketUid, items[i].balanceDiff, items[i].operationType)
  {
    history := [];
    for i := 0 to |items|
      invariant |history| == i
      invariant forall j :: 0 <= j < i ==>
        history[j] == BalanceHistory(items[j].datetime, items[j].ticketUid, items[j].balanceDiff, items[j].operationType)
    {
      var it := items[i];
      history := history + [BalanceHistory(it.datetime, it.ticketUid, it.balanceDiff, it.operationType)];
    }
  }

  /** `get_privilege`: 404 for an unknown user; neither lookup degrades. */
  method GetPrivilege(user: string, privilege: CallResult<Option<Privilege>>, items: CallResult<seq<PrivilegeHistory>>)
    returns (a: Answer<PrivilegeInfoResponse>, calls: seq<Call>)
    ensures |calls| >= 1 && calls[0] == LookupPrivilege(user)
    ensures privilege.IsCircuitOpen() ==> a == ServiceDown(privilege.service) && |calls| == 1
    ensures privilege == Success(None) ==> a == Status(404) && |calls| == 1
    ensures privilege.Success? && privilege.value.Some? ==>
      calls == [LookupPrivilege(user), LookupHistory(user)] &&
      (items.IsCircuitOpen() ==> a == ServiceDown(items.service)) &&
      (items.Success? ==>
        a.Body? &&
        a.value.balance == privilege.value.value.balance && a.value.status == privilege.value.value.status &&
        |a.value.history| == |items.value| &&
        forall i :: 0 <= i < |items.value| ==>
          var it := items.value[i];
          a.value.history[i] == BalanceHistory(it.datetime, it.ticketUid, it.balanceDiff, it.operationType))
  {
    calls := [LookupPrivilege(user)];
    if privilege.IsCircuitOpen() {
      return ServiceDown(privilege.service), calls;
    }
    if privilege.value.None? {
      return Status(404), calls;
    }
    var p := privilege.value.value;
    calls := calls + [LookupHistory(user)];
    if items.IsCircuitOpen() {
      return ServiceDown(items.service), calls;
    }
    var history := MapHistory(items.value);
    a := Body(PrivilegeInfoResponse(p.balance, p.status, history));
  }

  // ---------------------------------------------------------------------------------------------
  // Purchase

  /** The purchase request; its `price` is carried but the handler never reads it. */
  datatype PurchaseRequest = PurchaseRequest(flightNumber: string, price: int, paidFromBalance: bool)

  /** How a ticket's price is paid: from the bonus balance and with money. */
  datatype Split = Split(byBonus: int, byMoney: int)

  /**
   * The payment split: drawing from the balance pays `min(balance, price)` by bonus, otherwise
   * nothing; money pays the rest.
   */
  function PaymentSplit(balance: int, price: int, fromBalance: bool): (s: Split)
    ensures s.byBonus + s.byMoney == price
    ensures fromBalance ==> s.byBonus <= balance && s.byBonus <= price && (s.byBonus == balance || s.byBonus == price)
    ensures !fromBalance ==> s.byBonus == 0
    ensures balance >= 0 && price >= 0 ==> 0 <= s.byBonus <= balance && 0 <= s.byMoney <= price
  {
    if fromBalance then
      var bonus := if balance < price then balance else price;
      Split(bonus, price - bonus)
    else
      Split(0, price)
  }

  /**
   * The ledger transaction a purchase issues, if any: a debit of the bonus part when it is not
   * zero (the source tests its truth value), none when drawing from the balance pays nothing,
   * and otherwise a credit of a tenth of the price, rounded down.
   */
  function LedgerEntry(p: Privilege, price: int, fromBalance: bool, ticketUid: string, now: int): (t: Option<TransactionRequest>)
    ensures t.Some? ==> t.value.privilegeId == p.id && t.value.ticketUid == ticketUid && t.value.datetime == now
    ensures fromBalance ==> (t.Some? <==> PaymentSplit(p.balance, price, true).byBonus != 0)
    ensures fromBalance && t.Some? ==>
      t.value.operationType == DebitTheAccount && t.value.balanceDiff == PaymentSplit(p.balance, price, true).byBonus
    ensures !fromBalance ==>
      t.Some? && t.value.operationType == FillInBalance && t.value.balanceDiff * 10 <= price < (t.value.balanceDiff + 1) * 10
    ensures fromBalance && p.balance >= 0 && price >= 0 ==>
      (t.Some? <==> p.balance > 0 && price > 0) && (t.Some? ==> t.value.balanceDiff > 0)
  {
    var split := PaymentSplit(p.balance, price, fromBalance);
    if fromBalance then
      if split.byBonus != 0 then Some(TransactionRequest(p.id, ticketUid, now, split.byBonus, DebitTheAccount))
      else None
    else
      // Python's `//` rounds down; so does Dafny's `/` for a positive divisor.
      Some(TransactionRequest(p.id, ticketUid, now, split.byMoney / 10, FillInBalance))
  }

  datatype PurchaseResponse = PurchaseResponse(
    ticketUid: string, flightNumber: string, fromAirport: string, toAirport: string, date: int,
    price: int, paidByMoney: int, paidByBonuses: int, status: string, privilege: PrivilegeInfo)

  /** A purchase answers the ticket, or a validation error (returned as a body) for an unknown user. */
  datatype PurchaseBody = Purchased(response: PurchaseResponse) | UnknownUser

  /** The results of the service calls a purchase may make, in the order it makes them. */
  datatype PurchaseReplies = PurchaseReplies(
    flight: CallResult<Flight>,                 // get_flight_by_number
    privilege: CallResult<Option<Privilege>>,   // get_user_privelge
    ledger: Completion,                         // add_transaction, when one is issued
    reread: CallResult<Option<Privilege>>,      // get_user_privelge again
    creation: Completion)                       // create_ticket

  /** Both lookups found what the purchase needs. */
  predicate Priced(r: PurchaseReplies)
  {
    r.flight.Success? && r.privilege.Success? && r.privilege.value.Some?
  }

  function PurchaseSplit(body: PurchaseRequest, r: PurchaseReplies): Split
    requires Priced(r)
  {
    PaymentSplit(r.privilege.value.value.balance, r.flight.value.price, body.paidFromBalance)
  }

  function PurchaseLedger(body: PurchaseRequest, ticketUid: string, now: int, r: PurchaseReplies): Option<TransactionRequest>
    requires Priced(r)
  {
    LedgerEntry(r.privilege.value.value, r.flight.value.price, body.paidFromBalance, ticketUid, now)
  }

  /** The ledger step, if any, went through. */
  predicate LedgerDone(body: PurchaseRequest, ticketUid: string, now: int, r: PurchaseReplies)
    requires Priced(r)
  {
    PurchaseLedger(body, ticketUid, now, r).None? || r.ledger.Completed?
  }

  /**
   * The calls of a priced purchase, in order: flight, privilege, the ledger transaction (if
   * one is due), the re-read once the ledger step went through, and the ticket creation once
   * the re-read answered.
   */
  function PricedCalls(user: string, body: PurchaseRequest, ticketUid: string, now: int, r: PurchaseReplies): seq<Call>
    requires Priced(r)
  {
    var entry := PurchaseLedger(body, ticketUid, now, r);
    var creation := CreateTicket(ticketUid, user, r.flight.value.flightNumber, PurchaseSplit(body, r).byMoney);
    [LookupFlight(body.flightNumber), LookupPrivilege(user)] +
    (if entry.Some? then [AddTransaction(user, entry.value)] else []) +
    (if !LedgerDone(body, ticketUid, now, r) then []
     else [LookupPrivilege(user)] + if r.reread.Success? then [creation] else [])
  }

  /** In a priced purchase the ledger transaction, if any, comes once and before the single ticket creation. */
  lemma PricedCallsOrder(user: string, body: PurchaseRequest, ticketUid: string, now: int, r: PurchaseReplies)
    requires Priced(r)
    ensures var calls := PricedCalls(user, body, ticketUid, now, r);
      (forall i :: 0 <= i < |calls| && calls[i].AddTransaction? ==>
        calls[i].username == user && PurchaseLedger(body, ticketUid, now, r) == Some(calls[i].request)) &&
      (forall i :: 0 <= i < |calls| && calls[i].CreateTicket? ==>
        LedgerDone(body, ticketUid, now, r) && r.reread.Success? &&
        calls[i] == CreateTicket(ticketUid, user, r.flight.value.flightNumber, PurchaseSplit(body, r).byMoney)) &&
      (forall i, j :: 0 <= i < |calls| && 0 <= j < |calls| && calls[i].CreateTicket? && calls[j].AddTransaction? ==> j < i) &&
      (forall i, j :: 0 <= i < j < |calls| ==>
        !(calls[i].AddTransaction? && calls[j].AddTransaction?) && !(calls[i].CreateTicket? && calls[j].CreateTicket?))
  {
  }

  /**
   * The part of `buy_ticket` after both lookups found what it needs: the ledger transaction
   * (if one is due), the re-read of the privilege, the ticket creation and the answer.
   */
  method Settle(user: string, body: PurchaseRequest, ticketUid: string, now: int, replies: PurchaseReplies)
    returns (a: Answer<PurchaseBody>, calls: seq<Call>)
    requires Priced(replies)
    ensures calls == PricedCalls(user, body, ticketUid, now, replies)
    ensures a != Body(UnknownUser)
    ensures !LedgerDone(body, ticketUid, now, replies) ==> a == Crash
    ensures LedgerDone(body, ticketUid, now, replies) && replies.reread.IsCircuitOpen() ==>
      a == ServiceDown(replies.reread.service)
    ensures LedgerDone(body, ticketUid, now, replies) && replies.reread.Success? && !(a.Body? && a.value.Purchased?) ==>
      a == Crash
    ensures a.Body? && a.value.Purchased? <==>
      LedgerDone(body, ticketUid, now, replies) &&
      replies.reread.Success? && replies.reread.value.Some? && replies.creation.Completed?
    ensures a.Body? && a.value.Purchased? ==>
      var r := a.value.response;
      var f := replies.flight.value;
      var s := PurchaseSplit(body, replies);
      r.ticketUid == ticketUid && r.flightNumber == body.flightNumber &&
      r.fromAirport == f.fromAirport && r.toAirport == f.toAirport && r.date == now &&
      r.price == f.price && r.paidByMoney == s.byMoney && r.paidByBonuses == s.byBonus &&
      r.status == "PAID" &&
      r.privilege == ShortInfo(replies.reread.value.value.balance, replies.reread.value.value.status)
  {
    var flight := replies.flight.value;
    var priv := replies.privilege.value.value;
    calls := [LookupFlight(body.flightNumber), LookupPrivilege(user)];
    var split := PaymentSplit(priv.balance, flight.price, body.paidFromBalance);
    var entry := LedgerEntry(priv, flight.price, body.paidFromBalance, ticketUid, now);
    if entry.Some? {
      calls := calls + [AddTransaction(user, entry.value)];
      if replies.ledger.Raised? {
        return Crash, calls;
      }
    }

    calls := calls + [LookupPrivilege(user)];
    if replies.reread.IsCircuitOpen() {
      return ServiceDown(replies.reread.service), calls;
    }
    calls := calls + [CreateTicket(ticketUid, user, flight.flightNumber, split.byMoney)];
    if replies.creation.Raised? {
      return Crash, calls;
    }
    if replies.reread.value.None? {
      // `priv.balance` on `None`, after the ticket was created
      return Crash, calls;
    }
    var refreshed := replies.reread.value.value;
    a := Body(Purchased(PurchaseResponse(
      ticketUid, body.flightNumber, flight.fromAirport, flight.toAirport, now,
      flight.price, split.byMoney, split.byBonus, "PAID", ShortInfo(refreshed.balance, refreshed.status))));
  }

  /**
   * `buy_ticket`, with `ticketUid` and `now` standing for the fresh uuid and `datetime.now()`.
   * An unknown flight is a flights-service failure, never a validation error: the flight lookup
   * calls `raise_for_status` and so never returns `None`.
   */
  method BuyTicket(user: string, body: PurchaseRequest, ticketUid: string, now: int, replies: PurchaseReplies)
    returns (a: Answer<PurchaseBody>, calls: seq<Call>)
    ensures |calls| >= 1 && calls[0] == LookupFlight(body.flightNumber)
    ensures replies.flight.IsCircuitOpen() ==> a == ServiceDown(replies.flight.service) && |calls| == 1
    ensures replies.flight.Success? && replies.privilege.IsCircuitOpen() ==>
      a == ServiceDown(replies.privilege.service) && calls == [LookupFlight(body.flightNumber), LookupPrivilege(user)]
    // An unknown user is a validation error, before anything is written.
    ensures a == Body(UnknownUser) <==> replies.flight.Success? && replies.privilege == Success(None)
    ensures a == Body(UnknownUser) ==> calls == [LookupFlight(body.flightNumber), LookupPrivilege(user)]
    // The ledger transaction is issued exactly for a priced purchase that calls for one.
    ensures forall i :: 0 <= i < |calls| && calls[i].AddTransaction? ==>
      Priced(replies) && calls[i].username == user &&
      PurchaseLedger(body, ticketUid, now, replies) == Some(calls[i].request)
    ensures Priced(replies) && PurchaseLedger(body, ticketUid, now, replies).Some? ==>
      AddTransaction(user, PurchaseLedger(body, ticketUid, now, replies).value) in calls
    // The ticket is created with the money part and the transaction's uid, once the ledger step went through.
    ensures forall i :: 0 <= i < |calls| && calls[i].CreateTicket? ==>
      Priced(replies) && LedgerDone(body, ticketUid, now, replies) && replies.reread.Success? &&
      calls[i] == CreateTicket(ticketUid, user, replies.flight.value.flightNumber, PurchaseSplit(body, replies).byMoney)
    ensures Priced(replies) && LedgerDone(body, ticketUid, now, replies) && replies.reread.Success? ==>
      CreateTicket(ticketUid, user, replies.flight.value.flightNumber, PurchaseSplit(body, replies).byMoney) in calls
    // Ledger before ticket, each at most once.
    ensures forall i, j :: 0 <= i < |calls| && 0 <= j < |calls| && calls[i].CreateTicket? && calls[j].AddTransaction? ==> j < i
    ensures forall i, j :: 0 <= i < j < |calls| ==>
      !(calls[i].AddTransaction? && calls[j].AddTransaction?) && !(calls[i].CreateTicket? && calls[j].CreateTicket?)
    // The purchase succeeds exactly when every step did.
    ensures a.Body? && a.value.Purchased? <==>
      Priced(replies) && LedgerDone(body, ticketUid, now, replies) &&
      replies.reread.Success? && replies.reread.value.Some? && replies.creation.Completed?
    ensures a.Body? && a.value.Purchased? ==>
      var r := a.value.response;
      var f := replies.flight.value;
      var s := PurchaseSplit(body, replies);
      r.ticketUid == ticketUid && r.flightNumber == body.flightNumber &&
      r.fromAirport == f.fromAirport && r.toAirport == f.toAirport && r.date == now &&
      r.price == f.price && r.paidByMoney == s.byMoney && r.paidByBonuses == s.byBonus &&
      r.paidByMoney + r.paidByBonuses == r.price && r.status == "PAID" &&
      r.privilege == ShortInfo(replies.reread.value.value.balance, replies.reread.value.value.status)
    // A ticket that was created but not answered: the request fails with nothing rolled back.
    ensures (exists i :: 0 <= i < |calls| && calls[i].CreateTicket?) && !(a.Body? && a.value.Purchased?) ==> a == Crash
    // A priced purchase calls, in order: flight, privilege, the ledger (if any), the re-read
    // once the ledger step went through, and the ticket creation once the re-read answered.
    ensures Priced(replies) ==> calls == PricedCalls(user, body, ticketUid, now, replies)
    // A raised ledger call escapes as a 500; an unavailable re-read as a 503.
    ensures Priced(replies) && !LedgerDone(body, ticketUid, now, replies) ==> a == Crash
    ensures Priced(replies) && LedgerDone(body, ticketUid, now, replies) && replies.reread.IsCircuitOpen() ==>
      a == ServiceDown(replies.reread.service)
  {
    calls := [LookupFlight(body.flightNumber)];
    if replies.flight.IsCircuitOpen() {
      return ServiceDown(replies.flight.service), calls;
    }
    var flight := replies.flight.value;

    calls := calls + [LookupPrivilege(user)];
    if replies.privilege.IsCircuitOpen() {
      return ServiceDown(replies.privilege.service), calls;
    }
    if replies.privilege.value.None? {
      return Body(UnknownUser), calls;
    }
    PricedCallsOrder(user, body, ticketUid, now, replies);
    a, calls := Settle(user, body, ticketUid, now, replies);
  }

  // ---------------------------------------------------------------------------------------------
  // Refund

  /** The defaults `delete_with_retry` runs with: a 10-second deadline, a 1-second pause. */
  const RetrySeconds := 10
  const RetryInterval := 1

  /** A scheduled run of `delete_with_retry`. */
  datatype RetryTask = RetryTask(username: string, ticketUid: string, maxSeconds: int, interval: int)

  /** `return_ticket` answers 204 with no body. */
  datatype Refund = Refunded

  /** The ticket was found, belongs to the user and is paid. */
  predicate Refundable(user: string, lookup: CallResult<Option<Ticket>>)
  {
    lookup.Success? && lookup.value.Some? && lookup.value.value.username == user && lookup.value.value.status == "PAID"
  }

  /**
   * `return_ticket`: checks, in this order, that the ticket exists (404), is the user's (403)
   * and is paid (400); only then deletes it, and only after the deletion schedules the ledger
   * rollback.
   */
  method ReturnTicket(user: string, ticketUid: string, lookup: CallResult<Option<Ticket>>, deletion: Completion)
    returns (a: Answer<Refund>, calls: seq<Call>, task: Option<RetryTask>)
    ensures lookup.IsCircuitOpen() ==> a == ServiceDown(lookup.service)
    ensures lookup == Success(None) ==> a == Status(404)
    ensures lookup.Success? && lookup.value.Some? && lookup.value.value.username != user ==> a == Status(403)
    ensures (lookup.Success? && lookup.value.Some? && lookup.value.value.username == user &&
             lookup.value.value.status != "PAID") ==> a == Status(400)
    ensures !Refundable(user, lookup) ==> calls == [LookupTicket(ticketUid)] && task.None?
    ensures Refundable(user, lookup) ==>
      calls == [LookupTicket(ticketUid), DeleteTicket(ticketUid)] &&
      (deletion.Completed? ==> a == Body(Refunded) && task == Some(RetryTask(user, ticketUid, RetrySeconds, RetryInterval))) &&
      (deletion.Raised? ==> a == Crash && task.None?)
  {
    calls := [LookupTicket(ticketUid)];
    task := None;
    if lookup.IsCircuitOpen() {
      return ServiceDown(lookup.service), calls, task;
    }
    if lookup.value.None? {
      return Status(404), calls, task;
    }
    var ticket := lookup.value.value;
    if ticket.username != user {
      return Status(403), calls, task;
    }
    if ticket.status != "PAID" {
      return Status(400), calls, task;
    }
    calls := calls + [DeleteTicket(ticketUid)];
    if deletion.Raised? {
      return Crash, calls, task;
    }
    task := Some(RetryTask(user, ticketUid, RetrySeconds, RetryInterval));
    a := Body(Refunded);
  }

  /** The transaction lookup found a record (the source tests its truth value). */
  predicate IsHit(r: CallResult<Option<PrivilegeHistory>>)
  {
    r.Success? && r.value.Some?
  }

  /** The calls of one retry attempt: the lookup, then a pause if it was unavailable or the rollback if it found the record. */
  function AttemptCalls(user: string, ticketUid: string, interval: int, r: CallResult<Option<PrivilegeHistory>>): seq<Call>
  {
    [LookupTransaction(user, ticketUid)] +
    if r.IsCircuitOpen() then [Sleep(interval)]
    else if r.value.Some? then [RollbackTransaction(user, ticketUid)]
    else []
  }

  /** The calls of the first `n` attempts, where `lookupAt(j)` is the result of attempt `j`. */
  function RetryCalls(user: string, ticketUid: string, interval: int,
                      lookupAt: nat -> CallResult<Option<PrivilegeHistory>>, n: nat): seq<Call>
    decreases n
  {
    if n == 0 then [] else RetryCalls(user, ticketUid, interval, lookupAt, n - 1) + AttemptCalls(user, ticketUid, interval, lookupAt(n - 1))
  }

  /** Attempts that found nothing make no rollback call. */
  lemma {:induction false} NoRollbackBeforeHit(user: string, ticketUid: string, interval: int,
                                              lookupAt: nat -> CallResult<Option<PrivilegeHistory>>, n: nat)
    requires forall j :: 0 <= j < n ==> !IsHit(lookupAt(j))
    ensures forall i :: 0 <= i < |RetryCalls(user, ticketUid, interval, lookupAt, n)| ==>
      !RetryCalls(user, ticketUid, interval, lookupAt, n)[i].RollbackTransaction?
  {
    if n > 0 {
      NoRollbackBeforeHit(user, ticketUid, interval, lookupAt, n - 1);
      var before: seq<Call> := RetryCalls(user, ticketUid, interval, lookupAt, n - 1);
      var last: seq<Call> := AttemptCalls(user, ticketUid, interval, lookupAt(n - 1));
      assert !IsHit(lookupAt(n - 1));
      forall i | 0 <= i < |before + last| ensures !(before + last)[i].RollbackTransaction? {
        if i >= |before| {
          assert (before + last)[i] == last[i - |before|];
        }
      }
    }
  }

  /** How a run of `delete_with_retry` ends. */
  datatype RetryEnd = RolledBack | RollbackRaised | DeadlinePassed

  /**
   * `delete_with_retry`. `clock` holds the successive clock readings: the first fixes the
   * deadline, and each test of the loop condition takes the next one; the clock eventually
   * reaches the deadline. `lookupAt(j)` is the result of the j-th transaction lookup, and
   * `rollback` that of the rollback. No attempt starts at or after the deadline; an
   * unavailable lookup pauses and retries, a lookup that finds nothing retries at once, and
   * the first lookup that finds the record is followed by the one rollback and the end.
   */
  method DeleteWithRetry(user: string, ticketUid: string, maxSeconds: int, interval: int, clock: seq<int>,
                         lookupAt: nat -> CallResult<Option<PrivilegeHistory>>, rollback: Completion)
    returns (end: RetryEnd, calls: seq<Call>, attempts: nat)
    requires |clock| >= 2 && clock[|clock| - 1] >= clock[0] + maxSeconds
    ensures attempts + 1 < |clock|
    ensures forall j :: 1 <= j <= attempts ==> clock[j] < clock[0] + maxSeconds
    ensures forall j :: 0 <= j < attempts - 1 ==> !IsHit(lookupAt(j))
    ensures calls == RetryCalls(user, ticketUid, interval, lookupAt, attempts)
    ensures end == DeadlinePassed ==>
      clock[attempts + 1] >= clock[0] + maxSeconds && forall j :: 0 <= j < attempts ==> !IsHit(lookupAt(j))
    ensures end != DeadlinePassed ==>
      attempts >= 1 && IsHit(lookupAt(attempts - 1)) && (end == RolledBack <==> rollback.Completed?)
    ensures forall i :: 0 <= i < |calls| && calls[i].RollbackTransaction? ==>
      i == |calls| - 1 && end != DeadlinePassed
  {
    var deadline := clock[0] + maxSeconds;
    var k := 1;
    end, calls, attempts := DeadlinePassed, [], 0;
    while clock[k] < deadline
      invariant 1 <= k < |clock| && attempts == k - 1
      invariant forall j :: 1 <= j <= attempts ==> clock[j] < deadline
      invariant forall j :: 0 <= j < attempts ==> !IsHit(lookupAt(j))
      invariant calls == RetryCalls(user, ticketUid, interval, lookupAt, attempts)
      decreases |clock| - k
    {
      var found := lookupAt(attempts);
      ghost var before := calls;
      calls := calls + [LookupTransaction(user, ticketUid)];
      if found.IsCircuitOpen() {
        calls := calls + [Sleep(interval)];
      } else if found.value.Some? {
        calls := calls + [RollbackTransaction(user, ticketUid)];
        NoRollbackBeforeHit(user, ticketUid, interval, lookupAt, attempts);
        attempts := attempts + 1;
        assert calls == before + AttemptCalls(user, ticketUid, interval, found);
        end := if rollback.Completed? then RolledBack else RollbackRaised;
        return;
      }
      assert calls == before + AttemptCalls(user, ticketUid, interval, found);
      attempts := attempts + 1;
      k := k + 1;
    }
    NoRollbackBeforeHit(user, ticketUid, interval, lookupAt, attempts);
  }
}
