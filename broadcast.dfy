/**
 * The broadcast handler: one connection's loop that receives envelopes,
 * checks their header, preprocesses CONFIG_UPDATE envelopes, routes each one
 * to its chain, filters and enqueues it, and answers with one status.
 *
 * `Resolve` specifies what happens to one received envelope, `Run` what
 * happens to a whole connection; `Handler.Handle` is the loop itself,
 * proved to behave as `Run` says.
 */
module Broadcast {
  import opened Wrappers
  import opened Messages
  import opened Collaborators
  import opened Transport

  /** What one received envelope led to: the status sent and the collaborator calls made. */
  datatype Round = Round(status: Status, calls: seq<Call>)

  /** Position of each collaborator in the fixed pipeline order. */
  function Stage(c: Call): nat {
    match c
    case Process(_, _) => 0
    case GetChain(_, _) => 1
    case Apply(_, _, _) => 2
    case Enqueue(_, _, _) => 3
  }

  /**
   * The calls are a prefix of Process, GetChain, Apply, Enqueue, where
   * Process may be skipped: each collaborator is consulted at most once
   * and never out of order.
   */
  predicate FollowsPipeline(calls: seq<Call>) {
    forall i | 0 <= i < |calls| :: Stage(calls[i]) == i + (if calls[0].Process? then 0 else 1)
  }

  /** Whether a call's answer lets the envelope proceed to the next stage. */
  predicate Passed(unmarshal: seq<byte> -> Payload, c: Call) {
    match c
    case Process(_, output) => output.Ok? && WellFormed(unmarshal(output.value.payload))
    case GetChain(_, found) => found.Some?
    case Apply(_, _, rejection) => rejection.None?
    case Enqueue(_, _, accepted) => accepted
  }

  /**
   * Every call but the last let the envelope through, and the last one
   * either did not or was the final stage: the pipeline stops at the first
   * failure and at no other point.
   */
  predicate StopsAtFirstFailure(unmarshal: seq<byte> -> Payload, calls: seq<Call>) {
    && (forall i | 0 <= i < |calls| - 1 :: Passed(unmarshal, calls[i]))
    && (calls != [] ==> calls[|calls| - 1].Enqueue? || !Passed(unmarshal, calls[|calls| - 1]))
  }

  /** Some filter call rejected the envelope. */
  predicate FilterRejected(calls: seq<Call>) {
    exists i | 0 <= i < |calls| :: calls[i].Apply? && calls[i].rejection.Some?
  }

  /**
   * The failure taxonomy: the status owed to a round, read off the last
   * collaborator call (no call at all means the header check failed).
   */
  function Classify(calls: seq<Call>): Status {
    if calls == [] then BadRequest
    else match calls[|calls| - 1]
      case Process(_, output) => if output.Err? then BadRequest else InternalServerError
      case GetChain(_, _) => NotFound
      case Apply(_, _, _) => BadRequest
      case Enqueue(_, _, accepted) => if accepted then Success else ServiceUnavailable
  }

  /**
   * Every lookup is for channel `channelId`, and every filter and enqueue
   * call sees envelope `env` and the support that the lookup returned.
   */
  predicate Routes(calls: seq<Call>, env: Envelope, channelId: string) {
    && (forall i | 0 <= i < |calls| && calls[i].GetChain? :: calls[i].channelId == channelId)
    && (forall i | 0 <= i < |calls| && (calls[i].Apply? || calls[i].Enqueue?) :: calls[i].env == env)
    && (forall i, j | 0 <= i < |calls| && 0 <= j < |calls| && calls[i].GetChain? && (calls[j].Apply? || calls[j].Enqueue?) ::
          calls[i].found == Some(calls[j].support))
  }

  /**
   * Lookup, filtering and enqueueing of a validated envelope `env` for
   * channel `channelId`; `t` is the number of collaborator calls so far.
   */
  function Admit(b: Backend, env: Envelope, channelId: string, t: nat): (r: Round)
    ensures |r.calls| > 0 && r.calls[0] == Call.GetChain(channelId, b.getChain(t, channelId))
    // every answer recorded is the backend's for that call
    ensures Answered(b, r.calls, t)
    ensures FollowsPipeline(r.calls) && Routes(r.calls, env, channelId)
    ensures r.status == NotFound <==> b.getChain(t, channelId).None?
    ensures b.getChain(t, channelId).None? ==> |r.calls| == 1
    ensures r.status == Success <==> r.calls[|r.calls| - 1].Enqueue? && r.calls[|r.calls| - 1].accepted
    ensures r.status == ServiceUnavailable <==> r.calls[|r.calls| - 1].Enqueue? && !r.calls[|r.calls| - 1].accepted
    ensures FilterRejected(r.calls) ==> r.status == BadRequest && !r.calls[|r.calls| - 1].Enqueue?
    // a chain that was found is filtered, and an envelope the filters pass is enqueued
    ensures b.getChain(t, channelId).Some? ==> |r.calls| >= 2 && (r.calls[1].rejection.None? <==> |r.calls| == 3)
    // the status is the one the failure taxonomy assigns
    ensures r.status == Classify(r.calls)
  {
    var found := b.getChain(t, channelId);
    var lookup := Call.GetChain(channelId, found);
    if found.None? then Round(NotFound, [lookup])
    else
      var rejection := b.filter(t + 1, found.value, env);
      var filtering := Call.Apply(found.value, env, rejection);
      if rejection.Some? then Round(BadRequest, [lookup, filtering])
      else
        var accepted := b.enqueue(t + 2, found.value, env);
        Round(if accepted then Success else ServiceUnavailable,
              [lookup, filtering, Call.Enqueue(found.value, env, accepted)])
  }

  /**
   * One received envelope `env`, from the header check to the status owed;
   * `t` is the number of collaborator calls so far.
   */
  function Resolve(unmarshal: seq<byte> -> Payload, b: Backend, env: Envelope, t: nat): (r: Round)
    // a malformed header is answered BAD_REQUEST before any collaborator is consulted
    ensures r.calls == [] <==> !WellFormed(unmarshal(env.payload))
    // every answer recorded is the backend's for that call
    ensures Answered(b, r.calls, t)
    // collaborators are consulted at most once each, in pipeline order, and the
    // pipeline stops at the first call whose answer does not let the envelope through
    ensures FollowsPipeline(r.calls)
    ensures StopsAtFirstFailure(unmarshal, r.calls)
    // the status is the one the failure taxonomy assigns
    ensures r.status == Classify(r.calls)
    // Process runs exactly for well-formed CONFIG_UPDATE envelopes, once, on the received envelope
    ensures (r.calls != [] && r.calls[0].Process?) <==>
              WellFormed(unmarshal(env.payload)) && IsConfigUpdate(unmarshal(env.payload))
    ensures r.calls != [] && r.calls[0].Process? ==> r.calls[0].input == env
    // the later stages see the received envelope, or the transformed one when there was one
    ensures WellFormed(unmarshal(env.payload)) && !IsConfigUpdate(unmarshal(env.payload)) ==>
              Routes(r.calls, env, ChannelId(unmarshal(env.payload)))
    ensures r.calls != [] && r.calls[0].Process? && Passed(unmarshal, r.calls[0]) ==>
              Routes(r.calls[1..], r.calls[0].output.value, ChannelId(unmarshal(r.calls[0].output.value.payload)))
  {
    var payload := unmarshal(env.payload);
    if !WellFormed(payload) then Round(BadRequest, [])
    else if IsConfigUpdate(payload) then
      var output := b.process(t, env);
      var processing := Call.Process(env, output);
      if output.Err? then Round(BadRequest, [processing])
      else
        var transformed := unmarshal(output.value.payload);
        if !WellFormed(transformed) then Round(InternalServerError, [processing])
        else
          var rest := Admit(b, output.value, ChannelId(transformed), t + 1);
          assert forall i | 1 <= i < |rest.calls| + 1 :: ([processing] + rest.calls)[i] == rest.calls[i - 1];
          Round(rest.status, [processing] + rest.calls)
    else Admit(b, env, ChannelId(payload), t)
  }

  /** The observable state of a connection: inbox position, statuses sent, collaborator calls made. */
  datatype Session = Session(pos: nat, sent: seq<Status>, trace: seq<Call>)

  /** A session at the moment the handler returns, with the error it returns (`None` for nil). */
  datatype Final = Final(session: Session, result: Option<Error>)

  /** The per-envelope pipeline of a handler with decoder `unmarshal` over backend `b`. */
  function Pipeline(unmarshal: seq<byte> -> Payload, b: Backend): (Envelope, nat) -> Round {
    (env: Envelope, t: nat) => Resolve(unmarshal, b, env, t)
  }

  /**
   * The handler loop run from session `s` to its return, over the scripted
   * stream `inbox` / `sendOutcome`; `serve` resolves one envelope given the
   * number of collaborator calls so far (for the handler, `Pipeline`).
   */
  function Run(serve: (Envelope, nat) -> Round, inbox: seq<RecvResult>,
               sendOutcome: nat -> Option<Error>, s: Session): Final
    decreases |inbox| - s.pos
  {
    if s.pos >= |inbox| then Final(s, None)
    else match inbox[s.pos]
      case Eof => Final(s.(pos := s.pos + 1), None)
      case Failed(e) => Final(s.(pos := s.pos + 1), Some(e))
      case Msg(env) =>
        var r := serve(env, |s.trace|);
        var sendErr := sendOutcome(|s.sent|);
        var next := Session(s.pos + 1, s.sent + [r.status], s.trace + r.calls);
        if r.status != Success || sendErr.Some? then Final(next, sendErr)
        else Run(serve, inbox, sendOutcome, next)
  }

  /** `handlerImpl`: the broadcast handler over a support manager. */
  class Handler {
    const sm: SupportManager
    /** `proto.Unmarshal` into a fresh `Payload`; its error result is ignored, as the handler ignores it. */
    const unmarshal: seq<byte> -> Payload

    /** `NewHandlerImpl`. */
    constructor (sm: SupportManager, unmarshal: seq<byte> -> Payload)
      ensures this.sm == sm && this.unmarshal == unmarshal
    {
      this.sm := sm;
      this.unmarshal := unmarshal;
    }

    /** Service one broadcast connection until it ends. */
    method Handle(srv: BroadcastStream) returns (err: Option<Error>)
      requires sm.Valid()
      modifies srv, sm
      ensures sm.Valid()
      ensures var f := Run(Pipeline(unmarshal, sm.backend), srv.inbox, srv.sendOutcome,
                           Session(old(srv.pos), old(srv.sent), old(sm.trace)));
              srv.pos == f.session.pos && srv.sent == f.session.sent && sm.trace == f.session.trace &&
              err == f.result
    {
      ghost var start := Session(srv.pos, srv.sent, sm.trace);
      while true
        invariant sm.Valid()
        invariant Run(Pipeline(unmarshal, sm.backend), srv.inbox, srv.sendOutcome, Session(srv.pos, srv.sent, sm.trace)) ==
                  Run(Pipeline(unmarshal, sm.backend), srv.inbox, srv.sendOutcome, start)
        decreases |srv.inbox| - srv.pos
      {
        var received := srv.Recv();
        if received.Eof? {
          return None;
        }
        if received.Failed? {
          return Some(received.error);
        }
        var more;
        err, more := Serve(srv, received.env);
        if !more {
          return;
        }
      }
    }

    /**
     * The body of the loop for one received envelope `msg`: check it,
     * preprocess it, admit it, and send the one status owed; `more` is false
     * when the handler must return `err`.
     */
    method Serve(srv: BroadcastStream, msg: Envelope) returns (err: Option<Error>, more: bool)
      requires sm.Valid()
      modifies srv`sent, sm
      ensures sm.Valid()
      ensures var r := Resolve(unmarshal, sm.backend, msg, |old(sm.trace)|);
              srv.sent == old(srv.sent) + [r.status] && sm.trace == old(sm.trace) + r.calls &&
              err == srv.sendOutcome(|old(srv.sent)|) && more == (r.status == Success && err.None?)
    {
      var payload := unmarshal(msg.payload);
      if !WellFormed(payload) {
        err := srv.Send(BadRequest);
        return err, false;
      }
      var subject := msg;
      if IsConfigUpdate(payload) {
        var processed := sm.Process(msg);
        if processed.Err? {
          err := srv.Send(BadRequest);
          return err, false;
        }
        subject := processed.value;
        payload := unmarshal(subject.payload);
        if !WellFormed(payload) {
          err := srv.Send(InternalServerError);
          return err, false;
        }
      }
      err, more := Deliver(srv, subject, ChannelId(payload));
    }

    /**
     * Look up the chain of `channelId`, filter and enqueue `msg` on it, and
     * send the resulting status.
     */
    method Deliver(srv: BroadcastStream, msg: Envelope, channelId: string) returns (err: Option<Error>, more: bool)
      requires sm.Valid()
      modifies srv`sent, sm
      ensures sm.Valid()
      ensures var r := Admit(sm.backend, msg, channelId, |old(sm.trace)|);
              srv.sent == old(srv.sent) + [r.status] && sm.trace == old(sm.trace) + r.calls &&
              err == srv.sendOutcome(|old(srv.sent)|) && more == (r.status == Success && err.None?)
    {
      var support, ok := sm.GetChain(channelId);
      if !ok {
        err := srv.Send(NotFound);
        return err, false;
      }

      var filterErr := sm.Apply(support, msg);
      if filterErr.Some? {
        err := srv.Send(BadRequest);
        return err, false;
      }

      var accepted := sm.Enqueue(support, msg);
      if !accepted {
        err := srv.Send(ServiceUnavailable);
        return err, false;
      }

      err := srv.Send(Success);
      more := err.None?;
    }
  }
}
