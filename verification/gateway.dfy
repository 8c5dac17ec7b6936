/** The payment gateway seen from this side: what a response means, and what the other side may do. */
module Gateway {
  import opened Collections

  // ----- reading one response ---------------------------------------------------------------------

  datatype Body = Unreadable | Wire(status: string)

  /** What came back over the network: nothing, or a status code and a body. */
  datatype Response = NoResponse | Reply(code: nat, body: Body)

  datatype PaymentStatus = Succeeded | Failed

  datatype GatewayError = NoError | PaymentDeclined | PaymentNotFound | InvalidRequest | Unavailable

  datatype Verdict = Confirmed | Refuted | Unknown

  /** The client's mapping of a response onto a payment and an error. */
  function Read(resp: Response): (Option<PaymentStatus>, GatewayError)
  {
    match resp
    case NoResponse => (None, Unavailable)
    case Reply(code, body) =>
      if code == 200 || code == 201 then Decode(body)
      else if code == 404 then (None, PaymentNotFound)
      else if code == 400 || code == 422 then (None, InvalidRequest)
      else (None, Unavailable)
  }

  function Decode(body: Body): (Option<PaymentStatus>, GatewayError)
  {
    match body
    case Unreadable => (None, Unavailable)
    case Wire(status) =>
      if status == "SUCCEEDED" then (Some(Succeeded), NoError)
      else if status == "FAILED" then (Some(Failed), PaymentDeclined)
      else (None, Unavailable)
  }

  predicate Conclusive(err: GatewayError)
  {
    err == NoError || err == PaymentDeclined || err == PaymentNotFound || err == InvalidRequest
  }

  /** The orchestrator's three-way reading of what the client returned. */
  function Judge(payment: Option<PaymentStatus>, err: GatewayError): Verdict
  {
    if err == NoError && payment == Some(Succeeded) then Confirmed
    else if Conclusive(err) then Refuted
    else Unknown
  }

  function Opinion(resp: Response): Verdict
  {
    var (payment, err) := Read(resp);
    Judge(payment, err)
  }

  predicate Says(resp: Response, status: string)
  {
    resp.Reply? && (resp.code == 200 || resp.code == 201) && resp.body == Wire(status)
  }

  /** Success and failure are each read from exactly the responses that state them; all else is unknown. */
  lemma OpinionExact(resp: Response)
    ensures Opinion(resp) == Confirmed <==> Says(resp, "SUCCEEDED")
    ensures Opinion(resp) == Refuted <==>
            Says(resp, "FAILED") || (resp.Reply? && (resp.code == 404 || resp.code == 400 || resp.code == 422))
    ensures Read(resp).1 == NoError ==> Read(resp).0 == Some(Succeeded)
  {
    assert "SUCCEEDED"[0] != "FAILED"[0];
  }

  // ----- the other side -----------------------------------------------------------------------------

  datatype Outcome = Paid | Declined

  /**
   The gateway's durable record by key, the submissions still travelling, every submission ever made,
   and the keys a caller was told have no payment.
   */
  datatype Remote = Remote(payments: map<nat, Outcome>, inFlight: set<nat>, sent: seq<nat>, denied: set<nat>)

  const FRESH: Remote := Remote(map[], {}, [], {})

  predicate WasPaid(g: Remote, key: nat)
  {
    key in g.payments && g.payments[key] == Paid
  }

  function Sent(g: Remote, key: nat): Remote
  {
    g.(sent := g.sent + [key], inFlight := g.inFlight + {key})
  }

  function Lost(g: Remote, key: nat): Remote
  {
    g.(inFlight := g.inFlight - {key})
  }

  /** A submission arrives: the first one under a key decides it for good. */
  function Recorded(g: Remote, key: nat, outcome: Outcome): Remote
  {
    if key !in g.inFlight then g
    else if key in g.payments then Lost(g, key)
    else Lost(g, key).(payments := g.payments[key := outcome])
  }

  /** A response the gateway could honestly give about a key right now. */
  predicate Truthful(g: Remote, key: nat, resp: Response)
  {
    match Opinion(resp)
    case Confirmed => WasPaid(g, key)
    case Refuted => if Says(resp, "FAILED") then key in g.payments && g.payments[key] == Declined else key !in g.payments
    case Unknown => true
  }

  /** Telling a caller there is no payment is remembered. */
  function Told(g: Remote, key: nat, resp: Response): Remote
  {
    if Opinion(resp) == Refuted && key !in g.payments then g.(denied := g.denied + {key}) else g
  }

  /** Payments only come from submissions. */
  predicate Honest(g: Remote)
  {
    && (forall k | k in g.payments :: k in g.sent)
    && (forall k | k in g.inFlight :: k in g.sent)
  }

  lemma HonestKept(g: Remote, key: nat, outcome: Outcome, resp: Response)
    requires Honest(g)
    ensures Honest(Sent(g, key)) && Honest(Lost(g, key)) && Honest(Recorded(g, key, outcome)) && Honest(Told(g, key, resp))
    ensures key in g.payments ==> Recorded(g, key, outcome).payments == g.payments
    ensures key in g.inFlight && key !in g.payments ==> Recorded(g, key, outcome).payments == g.payments[key := outcome]
    ensures key !in g.inFlight ==> Recorded(g, key, outcome) == g
    ensures Recorded(g, key, outcome).inFlight == g.inFlight - {key} && Lost(g, key).inFlight == g.inFlight - {key}
    ensures Lost(g, key).payments == g.payments && Sent(g, key).payments == g.payments
    ensures Sent(g, key).inFlight == g.inFlight + {key}
  {
  }
}
