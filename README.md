# Airline gateway: circuit breakers, service clients and request handlers

This project models, in Dafny, the core of an API gateway. The gateway sits in front of three
backends: flights, tickets and bonus privileges. It has three parts:

- **The circuit breaker** (`circuit_breaker.dfy`, module `CircuitBreakers`). It is a class with a
  failure counter, a state (closed, open, half-open) and an `open_since` timestamp. `Call` runs a
  guarded operation. The pure function `StepCall` specifies `Call`, and `StepCall`'s contract
  states the breaker's promises. `Run` folds `StepCall` over a sequence of calls, which the
  threshold lemmas use.
- **The service clients** (`services.dfy`, module `Services`). There is one class per backend.
  Every `@wrap_cb` method owns its own breaker, created with threshold 3 and timeout 20. A backend
  reply is an input: a transport failure, or a status with a body that may or may not decode.
  `Checked` maps a reply to an outcome for methods that call `raise_for_status`. `NotFoundAsNone`
  does the same for methods that answer `None` on 404. `Unguarded` covers the mutating calls,
  which bypass the breakers. `OrSentinel` is the flight fallback.
- **The request handlers** (`gateway.dfy`, module `Gateway`). Each handler takes the results of
  its service calls and returns two things: the answer it sends, and the list of service calls
  it made, in order. The answer is a body, an `error_response` status, a 503 for an escaping
  `CircuitOpenException`, or a 500 for any other escaping exception.

Clocks, uuids and `datetime.now()` are parameters. `time.time()` readings are integers. Each
guarded call takes two readings: the one taken on entry, and the one taken after a failure,
which becomes `open_since`. `delete_with_retry` takes its readings as a sequence.

The model follows the code; in particular:

- The breaker keeps no window of outcomes. Failures are one counter, and any success resets it to 0.
- Breakers are per decorated method, not per backend. Two methods of one service never share
  failure counts.
- Mutating calls (create, delete, add transaction, roll back transaction) are not guarded. Their
  errors reach the caller as they are.
- A 404 counts as a breaker failure for the GETs that call `raise_for_status`. These are
  `get_all`, `get_flight_by_number`, `get_user_tickets` and `get_user_privelge_history`. Only
  `get_ticket`, `get_user_privelge` and `get_user_privelge_transaction` treat 404 as "not found".
- `raise_for_status` raises for statuses 400 to 599, as the `requests` library does.
- `buy_ticket` never answers a validation error for an unknown flight. Its flight lookup calls
  `raise_for_status`, so a 404 becomes `CircuitOpenException` (a 503) and the `flight is None`
  test cannot fire. The unknown-user validation error is returned as a body, not as an error
  status.
- The debit transaction is issued when the bonus part is non-zero, because the source tests its
  truth value. When balance and price are non-negative, this means "greater than zero".
- The `FILL_IN_BALANCE` credit is `price // 10`. For a positive divisor, Dafny's `/` rounds down
  just as Python's `//` does.

## Model

| member | source | states |
|---|---|---|
| `CircuitBreakers.CircuitBreaker.constructor` | app/circuit_breaker.py:13-25 | a new breaker is closed, has counted no failure and has no `open_since`; threshold and timeout default to 5 and 30 |
| `CircuitBreakers.CircuitBreaker.Call` | app/circuit_breaker.py:27-58 | the new fields, the caller's result and whether the operation ran are exactly those of `StepCall` on the old fields |
| `CircuitBreakers.StepCall` | app/circuit_breaker.py:27-58 | open within the timeout: rejected, not invoked, breaker unchanged; otherwise invoked; success returns the value unchanged, count 0, closed; failure always surfaces as `CircuitOpenException(service)` and adds exactly 1; a failure after open or half-open reopens at the post-call reading; a failure while closed opens exactly when the new count reaches the threshold, else stays closed with `open_since` untouched |
| `CircuitBreakers.Run` | app/circuit_breaker.py:27-58 | any sequence of calls keeps the breaker consistent (`open_since` set whenever not closed) and keeps its service and configuration |
| `CircuitBreakers.FailuresBelowThresholdCount` | app/circuit_breaker.py:40-53 | failures below the threshold while closed only raise the count by one each, and the breaker stays closed |
| `CircuitBreakers.ThresholdFailuresOpen` | app/circuit_breaker.py:31-50 | from a fresh breaker, `threshold` consecutive failures open it at the last failure's post-call reading, and the next call before the timeout is rejected without running the operation or changing the breaker |
| `Services.WrapCb` | app/services.py:7-18 | decorating a method creates one fresh breaker for it, for the given service, with threshold 3 and timeout 20 |
| `Services.Checked` | app/services.py:39-43 | a `raise_for_status` GET succeeds exactly when the request went through, the status is not 400-599 and the body decodes, and then yields the body (so a 404 is a failure) |
| `Services.NotFoundAsNone` | app/services.py:74-80 | a 404 is a success yielding `None`; any other reply succeeds exactly when `Checked` does, yielding its value |
| `Services.Unguarded` | app/services.py:82-96 | `delete_ticket` and `create_ticket` (and likewise `add_transaction` and `rollback_transaction`, lines 132-143) complete exactly when the request went through and the status is not 400-599 (for a decodable body, exactly when `Checked` succeeds), and otherwise raise the original transport or HTTP error; a function of the reply alone, it changes no breaker |
| `Services.OrSentinel` | app/services.py:45-55 | the looked-up flight on success, the `XXX`/`XXX`/`XXX`, day-1, price-0 sentinel on `CircuitOpenException` |
| `Services.NotFoundResetsBreaker` | app/services.py:109-116 | a 404 through a 404-tolerant method that is let through closes its breaker, clears the count and yields `None` |
| `Services.NotFoundCountsAsFailure` | app/services.py:68-72 | a 404 through a `raise_for_status` method that is let through counts one more failure and surfaces as `CircuitOpenException` |
| `Services.FlightsService.constructor` | app/services.py:31-43 | the two decorated flight methods own two distinct fresh breakers for "Flights Service", both closed with threshold 3 and timeout 20 |
| `Services.FlightsService.GetAll` | app/services.py:31-37 | `get_all` is `StepCall` of its own breaker on `Checked(reply)`; its exception names "Flights Service"; the other flight breaker is unchanged |
| `Services.FlightsService.GetFlightByNumber` | app/services.py:39-43 | `get_flight_by_number` is `StepCall` of its own breaker on `Checked(reply)`; the `get_all` breaker is unchanged |
| `Services.FlightsService.GetFlightByNumberOrDefault` | app/services.py:45-55 | steps the lookup's breaker as the lookup does and never raises: the flight found, or the sentinel |
| `Services.TicketsService.constructor` | app/services.py:68-80 | `get_user_tickets` and `get_ticket` own two distinct fresh breakers for "Ticket Service" |
| `Services.TicketsService.GetUserTickets` | app/services.py:68-72 | `StepCall` of its own breaker on `Checked(reply)`; the `get_ticket` breaker is unchanged |
| `Services.TicketsService.GetTicket` | app/services.py:74-80 | `StepCall` of its own breaker on `NotFoundAsNone(reply)`; the `get_user_tickets` breaker is unchanged |
| `Services.PrivilegesService.constructor` | app/services.py:109-130 | the three decorated bonus methods own three distinct fresh breakers for "Bonus Service" |
| `Services.PrivilegesService.GetUserPrivilege` | app/services.py:109-116 | `StepCall` of its own breaker on `NotFoundAsNone(reply)`; the other two bonus breakers are unchanged |
| `Services.PrivilegesService.GetUserPrivilegeHistory` | app/services.py:118-122 | `StepCall` of its own breaker on `Checked(reply)`; the other two bonus breakers are unchanged |
| `Services.PrivilegesService.GetUserPrivilegeTransaction` | app/services.py:124-130 | `StepCall` of its own breaker on `NotFoundAsNone(reply)`; the other two bonus breakers are unchanged |
| `Gateway.ListedTicket` | app/gateway/main.py:59-69 | a listed ticket has the ticket's uid, number and status and the flight lookup's airports, date and price |
| `Gateway.MapTickets` | app/gateway/main.py:78-81 | one flight lookup per ticket, in order, and one listed ticket per ticket, the i-th built from the i-th lookup |
| `Gateway.GetTickets` | app/gateway/main.py:72-81 | an unavailable bonus lookup is a 503, an unknown user a 404 with nothing else looked up, an unavailable tickets lookup a 503; otherwise every ticket, listed, after one flight lookup per ticket in order |
| `Gateway.GetUser` | app/gateway/main.py:84-106 | an unknown user is a 404 with nothing else looked up; otherwise the request succeeds, the privilege is the short summary or `""` when the bonus service is unavailable, and the tickets are all listed, after one flight lookup per ticket in order, or `[]` when the tickets service is unavailable, each independently |
| `Gateway.GetTicket` | app/gateway/main.py:109-131 | 503, 404 and 403 in that order, looking nothing else up; otherwise the listed view with the price paid instead of the flight's price |
| `Gateway.MapHistory` | app/gateway/main.py:236-245 | every history entry, in order, as a balance-history entry with the same date, uid, diff and operation |
| `Gateway.GetPrivilege` | app/gateway/main.py:230-246 | 503 or 404 from the privilege lookup, 503 from the history lookup; otherwise balance, status and the whole history |
| `Gateway.PaymentSplit` | app/gateway/main.py:149-154 | bonus plus money is the price; from the balance the bonus part is the minimum of balance and price, otherwise 0; with non-negative balance and price both parts are non-negative and bounded |
| `Gateway.LedgerEntry` | app/gateway/main.py:155-176 | from the balance: one debit of the bonus part exactly when it is non-zero (positive, when balance and price are non-negative), none otherwise; not from the balance: one credit of the price divided by 10, rounded down; always for the privilege, ticket uid and time of the purchase |
| `Gateway.BuyTicket` | app/gateway/main.py:134-193 | flight then privilege lookup; an unknown user is a validation error with no write; the ledger transaction (if any) is the `LedgerEntry` one and precedes the single `create_ticket`, made with the money part and the same uid; the whole trace of a priced purchase is `PricedCalls`; the purchase succeeds exactly when every step did, answering the flight's price, the split, "PAID" and the re-read privilege; a raised ledger call and a created ticket whose answer fails end in a 500, an unavailable re-read in a 503 |
| `Gateway.Settle` | app/gateway/main.py:146-193 | once both lookups succeeded: the trace is `PricedCalls`; a raised ledger call is a 500, an unavailable re-read a 503, and a re-read that answered either ends in the purchase response or a 500; it succeeds exactly when the ledger step, the re-read and the creation all did |
| `Gateway.PricedCallsOrder` | app/gateway/main.py:156-181 | in a priced purchase the ledger transaction is the `LedgerEntry` one, comes at most once and before the single ticket creation, which carries the money part and the same uid |
| `Gateway.ReturnTicket` | app/gateway/main.py:212-227 | 503, 404, 403 and 400 in that order with no deletion and no retry scheduled; otherwise the ticket is deleted and only then is the 10 s / 1 s retry scheduled |
| `Gateway.NoRollbackBeforeHit` | app/gateway/main.py:200-209 | attempts whose lookups found no record make no rollback call |
| `Gateway.DeleteWithRetry` | app/gateway/main.py:196-209 | every attempt starts before the deadline; the calls are exactly the attempts' lookups, pauses after unavailable lookups and at most one rollback, which is the last call and follows the first lookup that found the record; without such a lookup the loop ends at a reading at or past the deadline |

## Left out

- HTTP routing, request headers, `BackgroundTasks` and the 503 handler's JSON building are left
  out. A handler's answer is its status or body, and a scheduled retry is returned as a
  `RetryTask` value.
- The error messages (Russian text) are left out. Only their status codes are modelled. The
  503's service name is kept.
- The `get_flights` handler and the `/manage/health` route are pure passthroughs with no logic.
  The three `healthcheck` methods are left out too.
- Environment variables and the startup `RuntimeError`s are configuration.
- `requests`, JSON and pydantic are foreign libraries. A backend reply is abstracted to a
  transport failure or a status plus a body that decodes or does not.
- `time.time()` floats and `time.sleep` are not modelled. Readings are integers given as inputs;
  a sleep is recorded as a `Sleep` call. The reading that `print` takes in `delete_with_retry`
  is left out, together with the log line.
- `uuid.uuid4()` and `datetime.now()` are parameters.
- Concurrency is left out: the background task's scheduling, and the races on the shared
  breakers. The source has no synchronization to model.
- Exceptions outside Python's `Exception` hierarchy are left out. Such an exception could leave
  a breaker half-open.
- The `@wrap_cb` breakers belong to the class in Python, so they are shared by every instance.
  The gateway builds one instance per class, so the model keeps them as fields of that instance.
- Gateway handlers: they take the results of their service calls as inputs rather than invoking
  the service objects. How each result arises from a backend reply and a breaker is stated
  separately, by the `Services` methods.
- DeleteWithRetry: the clock readings are not required to be non-decreasing. A reading after a
  pause is not required to be at least `interval` later. The contract relies only on the clock
  eventually reaching the deadline.
- The DTOs of the `common` module are not part of this model. The records keep only the fields
  the logic reads or copies.
