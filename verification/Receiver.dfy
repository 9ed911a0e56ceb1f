// The demo receiver: verifies a request, then processes each delivery id once.
module Receiver {
  import opened Common
  import opened Pipeline

  type Secret = string

  // What reading `eventId` off the parsed body gives; None when the parser throws or
  // gives null. The event is None when the value has no such field, being a number or
  // a text for instance, or one that cannot be bound to a column.
  datatype Body = Body(event: Option<EventId>)

  // A header that is absent or empty is None.
  datatype Request = Request(
    delivery: Option<DeliveryId>, timestamp: Option<string>, signature: Option<string>, body: string)

  datatype Verified = Verified(delivery: DeliveryId) | MissingHeaders | OutOfTolerance | InvalidSignature

  datatype Response = Received | Duplicate | Rejected(status: int) | ServerError

  const TOLERANCE_SEC := 300.0

  // The receiver as the pipeline's state has it.
  ghost predicate Mirrors(s: State, processed: map<DeliveryId, EventId>, effects: multiset<DeliveryId>) {
    s.processed == processed.Keys && s.effects == effects
  }

  class DemoReceiver {
    const mac: (Secret, string) -> string            // HMAC-SHA256, in hexadecimal
    const toNumber: string -> Option<real>           // None is NaN
    const parse: string -> Option<Body>
    var secrets: set<Secret>
    var processed: map<DeliveryId, EventId>
    ghost var effects: multiset<DeliveryId>

    // Every processed id had one effect, and no other id had any.
    ghost predicate Valid()
      reads this
    {
      forall d :: effects[d] == if d in processed then 1 else 0
    }

    constructor (mac: (Secret, string) -> string, toNumber: string -> Option<real>, parse: string -> Option<Body>,
        secret: Secret)
      ensures Valid() && secrets == {secret} && processed == map[]
      ensures this.mac == mac && this.toNumber == toNumber && this.parse == parse
    {
      this.mac, this.toNumber, this.parse := mac, toNumber, parse;
      secrets, processed, effects := {secret}, map[], multiset{};
    }

    // What a signature by this secret must be.
    function Signed(secret: Secret, timestamp: string, body: string): string {
      "v1=" + mac(secret, timestamp + "." + body)
    }

    predicate HasHeaders(req: Request) {
      req.delivery.Some? && req.timestamp.Some? && req.signature.Some?
    }

    // More than five minutes from `now`, in seconds, to either side. A timestamp that is
    // no number is in no way too far.
    predicate TooFar(req: Request, now: real)
      requires HasHeaders(req)
    {
      var t := toNumber(req.timestamp.value);
      t.Some? && (now - t.value > 300.0 || t.value - now > 300.0)
    }

    ghost predicate IsSigned(req: Request)
      requires HasHeaders(req)
      reads this
    {
      exists s :: s in secrets && req.signature.value == Signed(s, req.timestamp.value, req.body)
    }

    ghost predicate Accepted(req: Request, now: real)
      reads this
    {
      HasHeaders(req) && !TooFar(req, now) && IsSigned(req)
    }

    // Any of the secrets will do.
    method Verify(req: Request, now: real) returns (v: Verified)
      ensures v == MissingHeaders <==> req.delivery == None || req.timestamp == None || req.signature == None
      ensures HasHeaders(req) ==> var t := toNumber(req.timestamp.value);
        v == OutOfTolerance <==> t.Some? && (now < t.value - 300.0 || t.value + 300.0 < now)
      ensures HasHeaders(req) && !TooFar(req, now) ==> var text := req.timestamp.value + "." + req.body;
        v == InvalidSignature <==> forall s :: s in secrets ==> req.signature.value != "v1=" + mac(s, text)
      ensures v == OutOfTolerance || v == InvalidSignature ==> HasHeaders(req)
      ensures v.Verified? <==> Accepted(req, now)
      ensures v.Verified? ==> Some(v.delivery) == req.delivery
    {
      if req.delivery == None || req.timestamp == None || req.signature == None {
        return MissingHeaders;
      }
      var timestamp, signature := req.timestamp.value, req.signature.value;
      var t := toNumber(timestamp);
      if t.Some? && (if now >= t.value then now - t.value else t.value - now) > TOLERANCE_SEC {
        return OutOfTolerance;
      }
      var rest := secrets;
      while rest != {}
        invariant rest <= secrets
        invariant forall s :: s in secrets && s !in rest ==> signature != Signed(s, timestamp, req.body)
      {
        var s :| s in rest;
        var expected := "v1=" + mac(s, timestamp + "." + req.body);
        if signature == expected {
          assert signature == Signed(s, timestamp, req.body);
          return Verified(req.delivery.value);
        }
        rest := rest - {s};
      }
      assert forall s :: s in secrets ==> Signed(s, timestamp, req.body) == "v1=" + mac(s, timestamp + "." + req.body);
      return InvalidSignature;
    }

    // The INSERT fails on a known id, and also on a missing event id; both read as a
    // duplicate.
    method Consume(d: DeliveryId, event: Option<EventId>) returns (duplicate: bool)
      requires Valid()
      modifies this`processed, this`effects
      ensures Valid()
      ensures duplicate <==> d in old(processed) || event == None
      ensures processed == if duplicate then old(processed) else old(processed)[d := event.value]
      ensures effects == if duplicate then old(effects) else old(effects) + multiset{d}
    {
      if d in processed || event == None {
        return true;
      }
      processed, effects := processed[d := event.value], effects + multiset{d};
      return false;
    }

    // POST /hooks. A request that names its event is one receive step of the pipeline.
    method Hooks(req: Request, now: real) returns (response: Response)
      requires Valid()
      modifies this`processed, this`effects
      ensures Valid()
      ensures response == Rejected(400) <==> !HasHeaders(req) || TooFar(req, now)
      ensures response == Rejected(401) <==> HasHeaders(req) && !TooFar(req, now) && !IsSigned(req)
      ensures response.Rejected? <==> !Accepted(req, now)
      ensures Accepted(req, now) ==> (response == ServerError <==> parse(req.body) == None)
      ensures response == Received <==> Accepted(req, now) && Fresh(req, old(processed))
      ensures response == Received ==>
        && processed == old(processed)[req.delivery.value := parse(req.body).value.event.value]
        && effects == old(effects) + multiset{req.delivery.value}
      ensures response != Received ==> processed == old(processed) && effects == old(effects)
      ensures forall s: State, no: nat ::
        Accepted(req, now) && NamesEvent(req) && Mirrors(s, old(processed), old(effects)) ==>
          Mirrors(AfterReceive(s, Attempt(req.delivery.value, no)), processed, effects)
    {
      var v := Verify(req, now);
      match v
      case MissingHeaders => return Rejected(400);
      case OutOfTolerance => return Rejected(400);
      case InvalidSignature => return Rejected(401);
      case Verified(d) =>
        var body := parse(req.body);
        if body == None {
          return ServerError;
        }
        var duplicate := Consume(d, body.value.event);
        return if duplicate then Duplicate else Received;
    }

    // As the worker's requests do.
    predicate NamesEvent(req: Request) {
      parse(req.body).Some? && parse(req.body).value.event.Some?
    }

    // The request names an event, and a delivery not processed so far.
    predicate Fresh(req: Request, processed: map<DeliveryId, EventId>) {
      req.delivery.Some? && req.delivery.value !in processed && NamesEvent(req)
    }

    // POST /config
    method AddSecret(secret: Secret) returns (count: nat)
      modifies this`secrets
      ensures secrets == (if secret == "" then old(secrets) else old(secrets) + {secret}) && count == |secrets|
    {
      if secret != "" {
        secrets := secrets + {secret};
      }
      count := |secrets|;
    }

    // What one request did, by the table before and after it.
    ghost predicate DidOne(req: Request, accepted: bool, response: Response, before: map<DeliveryId, EventId>,
        after: map<DeliveryId, EventId>) {
      && (!accepted ==> response.Rejected?)
      && (accepted && NamesEvent(req) ==>
           req.delivery.Some? && req.delivery.value in after && (response == Received || response == Duplicate))
      && (response == Received ==>
           && req.delivery.Some? && req.delivery.value !in before && req.delivery.value in after
           && after - {req.delivery.value} == before)
      && (response != Received ==> after == before)
    }

    // Some request for d was answered as received.
    ghost predicate ReceivedIn(requests: seq<Request>, responses: seq<Response>, d: DeliveryId)
      requires |responses| <= |requests|
    {
      exists i :: 0 <= i < |responses| && responses[i] == Received && requests[i].delivery == Some(d)
    }

    // The table keeps its rows, and what is new in it was received.
    ghost predicate GrewBy(requests: seq<Request>, responses: seq<Response>, before: map<DeliveryId, EventId>,
        after: map<DeliveryId, EventId>)
      requires |responses| <= |requests|
    {
      && (forall d :: d in before ==> d in after && after[d] == before[d])
      && (forall d :: d in after && d !in before ==> ReceivedIn(requests, responses, d))
    }

    // What is not accepted is rejected, and every accepted request that names its event
    // has its delivery in the table.
    ghost predicate Answered(requests: seq<Request>, accepted: seq<bool>, responses: seq<Response>,
        after: map<DeliveryId, EventId>)
      requires |responses| <= |requests| == |accepted|
    {
      forall i :: 0 <= i < |responses| ==>
        && (!accepted[i] ==> responses[i].Rejected?)
        && (accepted[i] && NamesEvent(requests[i]) ==>
             && requests[i].delivery.Some? && requests[i].delivery.value in after
             && (responses[i] == Received || responses[i] == Duplicate))
    }

    // Each delivery is received once, if it was not there before.
    ghost predicate OnceEach(requests: seq<Request>, responses: seq<Response>, before: map<DeliveryId, EventId>,
        after: map<DeliveryId, EventId>)
      requires |responses| <= |requests|
    {
      && (forall i :: 0 <= i < |responses| && responses[i] == Received ==>
           requests[i].delivery.Some? && requests[i].delivery.value in after && requests[i].delivery.value !in before)
      && (forall i, k :: 0 <= i < k < |responses| && responses[i] == Received == responses[k] ==>
           requests[i].delivery != requests[k].delivery)
    }

    // What the first requests did, by the table before and after them.
    ghost predicate Did(requests: seq<Request>, accepted: seq<bool>, responses: seq<Response>,
        before: map<DeliveryId, EventId>, after: map<DeliveryId, EventId>) {
      && |responses| <= |requests| == |accepted|
      && GrewBy(requests, responses, before, after) && Answered(requests, accepted, responses, after)
      && OnceEach(requests, responses, before, after)
    }

    lemma DidOneMore(requests: seq<Request>, accepted: seq<bool>, responses: seq<Response>, response: Response,
        before: map<DeliveryId, EventId>, mid: map<DeliveryId, EventId>, after: map<DeliveryId, EventId>)
      requires Did(requests, accepted, responses, before, mid) && |responses| < |requests|
      requires DidOne(requests[|responses|], accepted[|responses|], response, mid, after)
      ensures Did(requests, accepted, responses + [response], before, after)
    {
      var n := |responses|;
      KeepsRows(requests[n], accepted[n], response, mid, after);
      ReceivedStay(requests, responses, response, before, mid, after);
      StaysOnceEach(requests, responses, response, before, mid, after);
    }

    lemma StaysOnceEach(requests: seq<Request>, responses: seq<Response>, response: Response,
        before: map<DeliveryId, EventId>, mid: map<DeliveryId, EventId>, after: map<DeliveryId, EventId>)
      requires |responses| < |requests| && OnceEach(requests, responses, before, mid)
      requires (forall d :: d in mid ==> d in after) && forall d :: d in before ==> d in mid
      requires var delivery := requests[|responses|].delivery;
        response == Received ==> delivery.Some? && delivery.value !in mid && delivery.value in after
      ensures OnceEach(requests, responses + [response], before, after)
    {
    }

    lemma KeepsRows(req: Request, accepted: bool, response: Response, mid: map<DeliveryId, EventId>,
        after: map<DeliveryId, EventId>)
      requires DidOne(req, accepted, response, mid, after)
      ensures forall d :: d in mid ==> d in after && after[d] == mid[d]
      ensures forall d :: d in after && d !in mid ==> response == Received && req.delivery == Some(d)
    {
      if response == Received {
        assert forall d :: d in mid ==> d in after - {req.delivery.value};
        assert forall d :: d in after && d != req.delivery.value ==> d in after - {req.delivery.value};
      }
    }

    lemma ReceivedStay(requests: seq<Request>, responses: seq<Response>, response: Response,
        before: map<DeliveryId, EventId>, mid: map<DeliveryId, EventId>, after: map<DeliveryId, EventId>)
      requires |responses| < |requests|
      requires forall d :: d in mid && d !in before ==> ReceivedIn(requests, responses, d)
      requires forall d :: d in after && d !in mid ==> response == Received && requests[|responses|].delivery == Some(d)
      ensures forall d :: d in after && d !in before ==> ReceivedIn(requests, responses + [response], d)
    {
      var n, longer := |responses|, responses + [response];
      forall d | d in after && d !in before
        ensures ReceivedIn(requests, longer, d)
      {
        if d in mid {
          var i :| 0 <= i < n && responses[i] == Received && requests[i].delivery == Some(d);
          assert longer[i] == Received;
        } else {
          assert longer[n] == Received && requests[n].delivery == Some(d);
        }
      }
    }

    // A run of requests, each at its own time.
    method Serve(requests: seq<Request>, times: seq<real>) returns (responses: seq<Response>, ghost accepted: seq<bool>)
      requires Valid() && |requests| == |times|
      modifies this`processed, this`effects
      ensures Valid() && |responses| == |requests| == |accepted|
      ensures forall i :: 0 <= i < |requests| ==> accepted[i] == Accepted(requests[i], times[i])
      ensures Did(requests, accepted, responses, old(processed), processed)
      ensures forall d :: old(effects)[d] <= effects[d] <= 1
    {
      responses := [];
      accepted := seq(|requests|, i requires 0 <= i < |requests| reads this => Accepted(requests[i], times[i]));
      for i := 0 to |requests|
        invariant Valid() && |responses| == i
        invariant Did(requests, accepted, responses, old(processed), processed)
      {
        ghost var mid := processed;
        var response := HandleOne(requests[i], times[i]);
        DidOneMore(requests, accepted, responses, response, old(processed), mid, processed);
        responses := responses + [response];
      }
    }

    method HandleOne(req: Request, now: real) returns (response: Response)
      requires Valid()
      modifies this`processed, this`effects
      ensures Valid() && DidOne(req, Accepted(req, now), response, old(processed), processed)
    {
      response := Hooks(req, now);
    }
  }
}
