/**
 * The three backend clients of app/services.py. Every `@wrap_cb` method owns its own breaker,
 * created once when the method is decorated, with threshold 3 and timeout 20; the HTTP reply of
 * the backend is an input, and each method maps it to an outcome for its breaker. The mutating
 * calls are not guarded: their errors reach the caller as they are.
 */
module Services {
  import opened Options
  import opened CircuitBreakers

  /** The `NAME` constant of each service class, carried by its breakers' exceptions. */
  const FlightsName := "Flights Service"
  const TicketsName := "Ticket Service"
  const PrivilegesName := "Bonus Service"

  /** The configuration `wrap_cb` gives every breaker it creates. */
  const GuardThreshold := 3
  const GuardTimeout := 20

  /** The records the backends return, with the fields the gateway reads. Dates are day numbers. */
  datatype Flight = Flight(flightNumber: string, fromAirport: string, toAirport: string, date: int, price: int)
  datatype FlightPage = FlightPage(page: int, pageSize: int, totalElements: int, items: seq<Flight>)
  datatype Ticket = Ticket(ticketUid: string, username: string, flightNumber: string, price: int, status: string)
  datatype Privilege = Privilege(id: int, balance: int, status: string)
  datatype PrivilegeHistory = PrivilegeHistory(datetime: int, ticketUid: string, balanceDiff: int, operationType: string)

  /**
   * The backend's reply to one HTTP request: the request failed in transport, or a status code
   * and a body that either decodes to the expected record or does not.
   */
  datatype Reply<T> = ConnectionFailed | Response(status: int, body: Option<T>)

  /** `raise_for_status` raises for client and server errors, statuses 400 through 599. */
  predicate RaisesForStatus(status: int) { 400 <= status < 600 }

  /**
   * A GET that calls `raise_for_status` and then decodes the body: it returns the record only
   * when the request went through, the status is not an error and the body decodes. A 404 is a
   * failure like any other error status.
   */
  function Checked<T>(reply: Reply<T>): (o: Outcome<T>)
    ensures o.Ok? <==> reply.Response? && !RaisesForStatus(reply.status) && reply.body.Some?
    ensures o.Ok? ==> o.value == reply.body.value
  {
    match reply
    case ConnectionFailed => Fail
    case Response(status, body) =>
      if RaisesForStatus(status) then Fail
      else if body.None? then Fail
      else Ok(body.value)
  }

  /**
   * A GET that answers `None` on 404 before calling `raise_for_status`: a 404 is a successful
   * outcome, and every other reply is treated as `Checked` treats it.
   */
  function NotFoundAsNone<T>(reply: Reply<T>): (o: Outcome<Option<T>>)
    ensures reply.Response? && reply.status == 404 ==> o == Ok(None)
    ensures !(reply.Response? && reply.status == 404) ==>
      (o.Ok? <==> Checked(reply).Ok?) && (o.Ok? ==> o.value == Some(Checked(reply).value))
  {
    if reply.Response? && reply.status == 404 then Ok(None)
    else
      match Checked(reply)
      case Ok(v) => Ok(Some(v))
      case Fail => Fail
  }

  /** Why an unguarded call raised: the transport failed, or `raise_for_status` saw this status. */
  datatype Cause = ConnectionError | HttpError(status: int)

  /** The result of an unguarded call: it completed, or it raised its original error. */
  datatype Completion = Completed | Raised(cause: Cause)

  /**
   * A mutating call (`delete_ticket`, `create_ticket`, `add_transaction`,
   * `rollback_transaction`): no breaker and no decoding; being a function of the reply alone,
   * it changes no breaker. It completes exactly when the request went through and the status is
   * not an error, as a guarded GET with a decodable body would succeed, and otherwise raises
   * the original error rather than `CircuitOpenException`.
   */
  function Unguarded<T>(reply: Reply<T>): (c: Completion)
    ensures c.Completed? <==> reply.Response? && !RaisesForStatus(reply.status)
    ensures reply.Response? && reply.body.Some? ==> (c.Completed? <==> Checked(reply).Ok?)
    ensures reply.ConnectionFailed? ==> c == Raised(ConnectionError)
    ensures reply.Response? && RaisesForStatus(reply.status) ==> c == Raised(HttpError(reply.status))
  {
    match reply
    case ConnectionFailed => Raised(ConnectionError)
    case Response(status, _) => if RaisesForStatus(status) then Raised(HttpError(status)) else Completed
  }

  /** The flight `get_flight_by_number_or_default` substitutes when the lookup is unavailable. */
  const SentinelFlight := Flight("XXX", "XXX", "XXX", 1, 0)

  /** The fallback of `get_flight_by_number_or_default`: the flight found, or the sentinel. */
  function OrSentinel(r: CallResult<Flight>): (f: Flight)
    ensures r.Success? ==> f == r.value
    ensures r.IsCircuitOpen() ==> f == SentinelFlight
  {
    if r.Success? then r.value else SentinelFlight
  }

  /** `wrap_cb(service)` applied to one method: the breaker that method will own. */
  method WrapCb(service: string) returns (cb: CircuitBreaker)
    ensures fresh(cb) && cb.Valid()
    ensures cb.Value() == Initial(service, GuardThreshold, GuardTimeout)
  {
    cb := new CircuitBreaker(service, GuardThreshold, GuardTimeout);
  }

  /** `cb` is a breaker created by `wrap_cb` for service `name`, in a consistent state. */
  predicate GuardOf(cb: CircuitBreaker, name: string)
    reads cb
  {
    cb.Valid() && cb.service == name &&
    cb.failureThreshold == GuardThreshold && cb.recoveryTimeout == GuardTimeout
  }

  /** A 404 through a `NotFoundAsNone` method that is let through closes its breaker and clears the count. */
  lemma NotFoundResetsBreaker<T>(b: Breaker, now: int, body: Option<T>, after: int)
    requires b.Valid() && !b.Blocks(now)
    ensures StepCall(b, now, NotFoundAsNone(Response(404, body)), after) ==
      Step(b.(failCount := 0, state := Closed), Success(None), true)
  {
  }

  /** A 404 through a `Checked` method that is let through counts as one more failure. */
  lemma NotFoundCountsAsFailure<T>(b: Breaker, now: int, body: Option<T>, after: int)
    requires b.Valid() && !b.Blocks(now)
    ensures var s := StepCall(b, now, Checked(Response(404, body)), after);
      s.result == Unavailable(b.service) && s.next.failCount == b.failCount + 1
  {
  }

  class FlightsService {
    const url: string
    const getAllGuard: CircuitBreaker
    const flightGuard: CircuitBreaker

    ghost predicate Valid()
      reads getAllGuard, flightGuard
    {
      getAllGuard != flightGuard &&
      GuardOf(getAllGuard, FlightsName) && GuardOf(flightGuard, FlightsName)
    }

    constructor (url: string)
      ensures Valid() && fresh(getAllGuard) && fresh(flightGuard)
      ensures getAllGuard.Value() == Initial(FlightsName, GuardThreshold, GuardTimeout)
      ensures flightGuard.Value() == Initial(FlightsName, GuardThreshold, GuardTimeout)
    {
      this.url := url;
      var cbGetAll := WrapCb(FlightsName);
      getAllGuard := cbGetAll;
      var cbFlight := WrapCb(FlightsName);
      flightGuard := cbFlight;
    }

    /** `get_all`: one page of flights, `raise_for_status`. */
    method GetAll(now: int, reply: Reply<FlightPage>, after: int) returns (r: CallResult<FlightPage>)
      requires Valid()
      modifies getAllGuard
      ensures Valid()
      ensures var s := StepCall(old(getAllGuard.Value()), now, Checked(reply), after);
        getAllGuard.Value() == s.next && r == s.result
      ensures r.IsCircuitOpen() ==> r.service == FlightsName
      ensures flightGuard.Value() == old(flightGuard.Value())
    {
      var invoked;
      r, invoked := getAllGuard.Call(now, Checked(reply), after);
    }

    /** `get_flight_by_number`, `raise_for_status`: an unknown flight number is a breaker failure. */
    method GetFlightByNumber(now: int, reply: Reply<Flight>, after: int) returns (r: CallResult<Flight>)
      requires Valid()
      modifies flightGuard
      ensures Valid()
      ensures var s := StepCall(old(flightGuard.Value()), now, Checked(reply), after);
        flightGuard.Value() == s.next && r == s.result
      ensures r.IsCircuitOpen() ==> r.service == FlightsName
      ensures getAllGuard.Value() == old(getAllGuard.Value())
    {
      var invoked;
      r, invoked := flightGuard.Call(now, Checked(reply), after);
    }

    /** `get_flight_by_number_or_default`: never raises; the sentinel flight when the lookup is unavailable. */
    method GetFlightByNumberOrDefault(now: int, reply: Reply<Flight>, after: int) returns (f: Flight)
      requires Valid()
      modifies flightGuard
      ensures Valid()
      ensures var s := StepCall(old(flightGuard.Value()), now, Checked(reply), after);
        flightGuard.Value() == s.next && f == OrSentinel(s.result)
      ensures getAllGuard.Value() == old(getAllGuard.Value())
    {
      var r := GetFlightByNumber(now, reply, after);
      f := if r.Success? then r.value else SentinelFlight;
    }
  }

  class TicketsService {
    const url: string
    const userTicketsGuard: CircuitBreaker
    const ticketGuard: CircuitBreaker

    ghost predicate Valid()
      reads userTicketsGuard, ticketGuard
    {
      userTicketsGuard != ticketGuard &&
      GuardOf(userTicketsGuard, TicketsName) && GuardOf(ticketGuard, TicketsName)
    }

    constructor (url: string)
      ensures Valid() && fresh(userTicketsGuard) && fresh(ticketGuard)
      ensures userTicketsGuard.Value() == Initial(TicketsName, GuardThreshold, GuardTimeout)
      ensures ticketGuard.Value() == Initial(TicketsName, GuardThreshold, GuardTimeout)
    {
      this.url := url;
      var cbUserTickets := WrapCb(TicketsName);
      userTicketsGuard := cbUserTickets;
      var cbTicket := WrapCb(TicketsName);
      ticketGuard := cbTicket;
    }

    /** `get_user_tickets`, `raise_for_status`. */
    method GetUserTickets(now: int, reply: Reply<seq<Ticket>>, after: int) returns (r: CallResult<seq<Ticket>>)
      requires Valid()
      modifies userTicketsGuard
      ensures Valid()
      ensures var s := StepCall(old(userTicketsGuard.Value()), now, Checked(reply), after);
        userTicketsGuard.Value() == s.next && r == s.result
      ensures r.IsCircuitOpen() ==> r.service == TicketsName
      ensures ticketGuard.Value() == old(ticketGuard.Value())
    {
      var invoked;
      r, invoked := userTicketsGuard.Call(now, Checked(reply), after);
    }

    /** `get_ticket`: `None` on 404, which the breaker counts as a success. */
    method GetTicket(now: int, reply: Reply<Ticket>, after: int) returns (r: CallResult<Option<Ticket>>)
      requires Valid()
      modifies ticketGuard
      ensures Valid()
      ensures var s := StepCall(old(ticketGuard.Value()), now, NotFoundAsNone(reply), after);
        ticketGuard.Value() == s.next && r == s.result
      ensures r.IsCircuitOpen() ==> r.service == TicketsName
      ensures userTicketsGuard.Value() == old(userTicketsGuard.Value())
    {
      var invoked;
      r, invoked := ticketGuard.Call(now, NotFoundAsNone(reply), after);
    }
  }

  class PrivilegesService {
    const url: string
    const privilegeGuard: CircuitBreaker
    const historyGuard: CircuitBreaker
    const transactionGuard: CircuitBreaker

    ghost predicate Valid()
      reads privilegeGuard, historyGuard, transactionGuard
    {
      privilegeGuard != historyGuard && privilegeGuard != transactionGuard && historyGuard != transactionGuard &&
      GuardOf(privilegeGuard, PrivilegesName) && GuardOf(historyGuard, PrivilegesName) &&
      GuardOf(transactionGuard, PrivilegesName)
    }

    constructor (url: string)
      ensures Valid() && fresh(privilegeGuard) && fresh(historyGuard) && fresh(transactionGuard)
      ensures privilegeGuard.Value() == Initial(PrivilegesName, GuardThreshold, GuardTimeout)
      ensures historyGuard.Value() == Initial(PrivilegesName, GuardThreshold, GuardTimeout)
      ensures transactionGuard.Value() == Initial(PrivilegesName, GuardThreshold, GuardTimeout)
    {
      this.url := url;
      var cbPrivilege := WrapCb(PrivilegesName);
      privilegeGuard := cbPrivilege;
      var cbHistory := WrapCb(PrivilegesName);
      historyGuard := cbHistory;
      var cbTransaction := WrapCb(PrivilegesName);
      transactionGuard := cbTransaction;
    }

    /** `get_user_privelge`: `None` on 404, which the breaker counts as a success. */
    method GetUserPrivilege(now: int, reply: Reply<Privilege>, after: int) returns (r: CallResult<Option<Privilege>>)
      requires Valid()
      modifies privilegeGuard
      ensures Valid()
      ensures var s := StepCall(old(privilegeGuard.Value()), now, NotFoundAsNone(reply), after);
        privilegeGuard.Value() == s.next && r == s.result
      ensures r.IsCircuitOpen() ==> r.service == PrivilegesName
      ensures historyGuard.Value() == old(historyGuard.Value())
      ensures transactionGuard.Value() == old(transactionGuard.Value())
    {
      var invoked;
      r, invoked := privilegeGuard.Call(now, NotFoundAsNone(reply), after);
    }

    /** `get_user_privelge_history`, `raise_for_status`. */
    method GetUserPrivilegeHistory(now: int, reply: Reply<seq<PrivilegeHistory>>, after: int)
      returns (r: CallResult<seq<PrivilegeHistory>>)
      requires Valid()
      modifies historyGuard
      ensures Valid()
      ensures var s := StepCall(old(historyGuard.Value()), now, Checked(reply), after);
        historyGuard.Value() == s.next && r == s.result
      ensures r.IsCircuitOpen() ==> r.service == PrivilegesName
      ensures privilegeGuard.Value() == old(privilegeGuard.Value())
      ensures transactionGuard.Value() == old(transactionGuard.Value())
    {
      var invoked;
      r, invoked := historyGuard.Call(now, Checked(reply), after);
    }

    /** `get_user_privelge_transaction`: `None` on 404, which the breaker counts as a success. */
    method GetUserPrivilegeTransaction(now: int, reply: Reply<PrivilegeHistory>, after: int)
      returns (r: CallResult<Option<PrivilegeHistory>>)
      requires Valid()
      modifies transactionGuard
      ensures Valid()
      ensures var s := StepCall(old(transactionGuard.Value()), now, NotFoundAsNone(reply), after);
        transactionGuard.Value() == s.next && r == s.result
      ensures r.IsCircuitOpen() ==> r.service == PrivilegesName
      ensures privilegeGuard.Value() == old(privilegeGuard.Value())
      ensures historyGuard.Value() == old(historyGuard.Value())
    {
      var invoked;
      r, invoked := transactionGuard.Call(now, NotFoundAsNone(reply), after);
    }
  }
}
