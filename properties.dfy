/**
 * Properties of whole broadcast connections: how the statuses sent relate
 * to the collaborator calls made, and the behaviour of the handler on the
 * typical connections of the broadcast protocol.
 */
module BroadcastProperties {
  import opened Wrappers
  import opened Messages
  import opened Collaborators
  import opened Transport
  import opened Broadcast

  /** The number of elements of `s` that satisfy `p`. */
  function Count<T>(s: seq<T>, p: T -> bool): nat {
    if s == [] then 0 else Count(s[..|s| - 1], p) + (if p(s[|s| - 1]) then 1 else 0)
  }

  lemma {:induction false} CountConcat<T>(a: seq<T>, b: seq<T>, p: T -> bool)
    ensures Count(a + b, p) == Count(a, p) + Count(b, p)
  {
    if b != [] {
      CountConcat(a, b[..|b| - 1], p);
      assert (a + b)[..|a + b| - 1] == a + b[..|b| - 1];
      assert (a + b)[|a + b| - 1] == b[|b| - 1];
    } else {
      assert a + b == a;
    }
  }

  predicate IsSuccess(status: Status) {
    status == Success
  }

  /** An `Enqueue` call that the ordering backend accepted. */
  predicate IsAcceptance(c: Call) {
    c.Enqueue? && c.accepted
  }

  predicate IsProcessing(c: Call) {
    c.Process?
  }

  /** A receive result that carries an envelope (not EOF, not an error). */
  predicate IsEnvelope(r: RecvResult) {
    r.Msg?
  }

  /** Counting over the one to three calls of an admission. */
  lemma AdmitCounts(b: Backend, env: Envelope, channelId: string, t: nat)
    ensures var r := Admit(b, env, channelId, t);
            && Count(r.calls, IsAcceptance) == (if r.status == Success then 1 else 0)
            && Count(r.calls, IsProcessing) == 0
  {
    var r := Admit(b, env, channelId, t);
    var calls := r.calls;
    assert calls[..1][..0] == [];
    assert Count(calls[..1], IsAcceptance) == 0 && Count(calls[..1], IsProcessing) == 0;
    if |calls| >= 2 {
      assert calls[..2][..1] == calls[..1];
      assert Count(calls[..2], IsAcceptance) == 0 && Count(calls[..2], IsProcessing) == 0;
    }
    if |calls| == 3 {
      assert calls[..|calls| - 1] == calls[..2];
    }
    assert calls == calls[..|calls|];
  }

  /**
   * For one envelope: the status is SUCCESS exactly when an enqueue was
   * accepted, and the config-update processor ran at most once.
   */
  lemma RoundCounts(unmarshal: seq<byte> -> Payload, b: Backend, env: Envelope, t: nat)
    ensures var r := Resolve(unmarshal, b, env, t);
            && Count(r.calls, IsAcceptance) == (if r.status == Success then 1 else 0)
            && Count(r.calls, IsProcessing) <= 1
  {
    var payload := unmarshal(env.payload);
    if WellFormed(payload) {
      if IsConfigUpdate(payload) {
        var output := b.process(t, env);
        var processing := Call.Process(env, output);
        if output.Ok? && WellFormed(unmarshal(output.value.payload)) {
          var rest := Admit(b, output.value, ChannelId(unmarshal(output.value.payload)), t + 1);
          AdmitCounts(b, output.value, ChannelId(unmarshal(output.value.payload)), t + 1);
          CountConcat([processing], rest.calls, IsAcceptance);
          CountConcat([processing], rest.calls, IsProcessing);
          assert [processing][..0] == [];
        }
      } else {
        AdmitCounts(b, env, ChannelId(payload), t);
      }
    }
  }

  /**
   * A run only consumes input and only appends to the statuses and the
   * calls; it sends at most one status per received envelope, and every
   * status but the last is SUCCESS. A receive that yields no envelope
   * (EOF or an error) ends the run with nothing sent and nobody consulted.
   */
  lemma {:induction false} RunExtends(serve: (Envelope, nat) -> Round, inbox: seq<RecvResult>,
                                      sendOutcome: nat -> Option<Error>, s: Session)
    decreases |inbox| - s.pos
    ensures var f := Run(serve, inbox, sendOutcome, s);
            && s.pos <= f.session.pos
            && s.sent <= f.session.sent && s.trace <= f.session.trace
            && |f.session.sent| - |s.sent| <= f.session.pos - s.pos
            && (forall i | |s.sent| <= i < |f.session.sent| - 1 :: f.session.sent[i] == Success)
            && (s.pos < f.session.pos ==> f.session.pos <= |inbox|)
            && (s.pos < |inbox| ==> s.pos < f.session.pos)
            && (s.pos < |inbox| && !inbox[s.pos].Msg? ==> f.session == s.(pos := s.pos + 1))
  {
    if s.pos < |inbox| && inbox[s.pos].Msg? {
      var r := serve(inbox[s.pos].env, |s.trace|);
      var next := Session(s.pos + 1, s.sent + [r.status], s.trace + r.calls);
      if r.status == Success && sendOutcome(|s.sent|).None? {
        RunExtends(serve, inbox, sendOutcome, next);
      }
    }
  }

  /**
   * How a run ends. Every Send but the last succeeded. A non-SUCCESS status,
   * or a SUCCESS whose Send failed, is the last thing sent: the run stops on
   * that envelope and returns what that Send returned. A receive error ends
   * the run with that error, EOF with nil. A returned error is either the
   * last Send's error or a receive error for which nothing was sent. A nil
   * return with no status pending means the client closed the stream.
   */
  lemma {:induction false} RunEnding(serve: (Envelope, nat) -> Round, inbox: seq<RecvResult>,
                                     sendOutcome: nat -> Option<Error>, s: Session)
    decreases |inbox| - s.pos
    ensures var f := Run(serve, inbox, sendOutcome, s);
            var n, p := |f.session.sent|, f.session.pos;
            && (forall i | |s.sent| <= i < n - 1 :: sendOutcome(i).None?)
            && (n > |s.sent| && (f.session.sent[n - 1] != Success || sendOutcome(n - 1).Some?) ==>
                  f.result == sendOutcome(n - 1) && p - s.pos == n - |s.sent|)
            && (s.pos < p <= |inbox| && inbox[p - 1].Failed? ==> f.result == Some(inbox[p - 1].error))
            && (s.pos < p <= |inbox| && inbox[p - 1].Eof? ==> f.result.None?)
            && (f.result.Some? ==>
                  (n > |s.sent| && f.result == sendOutcome(n - 1)) ||
                  (s.pos < p <= |inbox| && inbox[p - 1] == Failed(f.result.value) && n - |s.sent| < p - s.pos))
            && (f.result.None? && (n > |s.sent| ==> f.session.sent[n - 1] == Success) ==>
                  (p >= |inbox| && (s.pos < p ==> p == |inbox| && inbox[p - 1].Msg?)) ||
                  (s.pos < p <= |inbox| && inbox[p - 1] == Eof))
  {
    if s.pos < |inbox| && inbox[s.pos].Msg? {
      var r := serve(inbox[s.pos].env, |s.trace|);
      var next := Session(s.pos + 1, s.sent + [r.status], s.trace + r.calls);
      if r.status == Success && sendOutcome(|s.sent|).None? {
        RunEnding(serve, inbox, sendOutcome, next);
        RunExtends(serve, inbox, sendOutcome, next);
      }
    }
  }

  /**
   * A run sends exactly one status per envelope it receives: the closing
   * EOF or receive error gets none.
   */
  lemma {:induction false} RunStatuses(serve: (Envelope, nat) -> Round, inbox: seq<RecvResult>,
                                       sendOutcome: nat -> Option<Error>, s: Session)
    requires s.pos <= |inbox|
    decreases |inbox| - s.pos
    ensures var f := Run(serve, inbox, sendOutcome, s);
            && s.pos <= f.session.pos <= |inbox|
            && |f.session.sent| - |s.sent| == Count(inbox[s.pos..f.session.pos], IsEnvelope)
  {
    var f := Run(serve, inbox, sendOutcome, s);
    RunExtends(serve, inbox, sendOutcome, s);
    if s.pos < |inbox| {
      assert inbox[s.pos..f.session.pos] == [inbox[s.pos]] + inbox[s.pos + 1..f.session.pos];
      CountConcat([inbox[s.pos]], inbox[s.pos + 1..f.session.pos], IsEnvelope);
      assert [inbox[s.pos]][..0] == [];
      if inbox[s.pos].Msg? {
        var r := serve(inbox[s.pos].env, |s.trace|);
        var next := Session(s.pos + 1, s.sent + [r.status], s.trace + r.calls);
        if r.status == Success && sendOutcome(|s.sent|).None? {
          RunStatuses(serve, inbox, sendOutcome, next);
        } else {
          assert inbox[s.pos + 1..f.session.pos] == [];
        }
      } else {
        assert inbox[s.pos + 1..f.session.pos] == [];
      }
    } else {
      assert inbox[s.pos..f.session.pos] == [];
    }
  }

  /**
   * A round sends SUCCESS exactly when one enqueue was accepted, and runs
   * the config-update processor at most once.
   */
  ghost predicate CountsAgree(serve: (Envelope, nat) -> Round) {
    forall env, t ::
      && Count(serve(env, t).calls, IsAcceptance) == (if serve(env, t).status == Success then 1 else 0)
      && Count(serve(env, t).calls, IsProcessing) <= 1
  }

  /**
   * Over a run, the number of SUCCESS statuses equals the number of
   * enqueues the backend accepted, and the config-update processor runs
   * at most once per status sent, that is per envelope received.
   */
  lemma {:induction false} RunCounts(serve: (Envelope, nat) -> Round, inbox: seq<RecvResult>,
                                     sendOutcome: nat -> Option<Error>, s: Session)
    requires CountsAgree(serve)
    decreases |inbox| - s.pos
    ensures var f := Run(serve, inbox, sendOutcome, s);
            && |s.sent| <= |f.session.sent| && |s.trace| <= |f.session.trace|
            && Count(f.session.sent[|s.sent|..], IsSuccess) == Count(f.session.trace[|s.trace|..], IsAcceptance)
            && Count(f.session.trace[|s.trace|..], IsProcessing) <= |f.session.sent| - |s.sent|
  {
    var f := Run(serve, inbox, sendOutcome, s);
    RunExtends(serve, inbox, sendOutcome, s);
    if s.pos < |inbox| && inbox[s.pos].Msg? {
      var r := serve(inbox[s.pos].env, |s.trace|);
      var next := Session(s.pos + 1, s.sent + [r.status], s.trace + r.calls);
      assert [r.status][..0] == [];
      if r.status == Success && sendOutcome(|s.sent|).None? {
        RunCounts(serve, inbox, sendOutcome, next);
        RunExtends(serve, inbox, sendOutcome, next);
        assert f.session.sent[|s.sent|..] == [r.status] + f.session.sent[|next.sent|..];
        assert f.session.trace[|s.trace|..] == r.calls + f.session.trace[|next.trace|..];
        CountConcat([r.status], f.session.sent[|next.sent|..], IsSuccess);
        CountConcat(r.calls, f.session.trace[|next.trace|..], IsAcceptance);
        CountConcat(r.calls, f.session.trace[|next.trace|..], IsProcessing);
      } else {
        assert f.session.sent[|s.sent|..] == [r.status];
        assert f.session.trace[|s.trace|..] == r.calls;
      }
    } else {
      assert f.session.sent[|s.sent|..] == [];
      assert f.session.trace[|s.trace|..] == [];
    }
  }

  /**
   * On a whole connection of the handler: as many SUCCESS statuses as
   * accepted enqueues, exactly one status per envelope received, and at
   * most one config-update processing per envelope received.
   */
  lemma ConnectionCounts(unmarshal: seq<byte> -> Payload, b: Backend, inbox: seq<RecvResult>,
                         sendOutcome: nat -> Option<Error>)
    ensures var f := Run(Pipeline(unmarshal, b), inbox, sendOutcome, Session(0, [], []));
            && Count(f.session.sent, IsSuccess) == Count(f.session.trace, IsAcceptance)
            && f.session.pos <= |inbox|
            && |f.session.sent| == Count(inbox[..f.session.pos], IsEnvelope)
            && Count(f.session.trace, IsProcessing) <= |f.session.sent|
  {
    forall env, t ensures
      && Count(Pipeline(unmarshal, b)(env, t).calls, IsAcceptance) ==
         (if Pipeline(unmarshal, b)(env, t).status == Success then 1 else 0)
      && Count(Pipeline(unmarshal, b)(env, t).calls, IsProcessing) <= 1
    {
      RoundCounts(unmarshal, b, env, t);
    }
    var f := Run(Pipeline(unmarshal, b), inbox, sendOutcome, Session(0, [], []));
    RunCounts(Pipeline(unmarshal, b), inbox, sendOutcome, Session(0, [], []));
    RunStatuses(Pipeline(unmarshal, b), inbox, sendOutcome, Session(0, [], []));
    assert inbox[0..f.session.pos] == inbox[..f.session.pos];
    assert f.session.sent[0..] == f.session.sent && f.session.trace[0..] == f.session.trace;
  }

  // The typical connections of the broadcast protocol, for any decoder and backend.

  /** One envelope with no usable channel id: a single BAD_REQUEST, nobody consulted. */
  lemma MalformedConnection(unmarshal: seq<byte> -> Payload, b: Backend, env: Envelope,
                            sendOutcome: nat -> Option<Error>)
    requires !WellFormed(unmarshal(env.payload))
    ensures Run(Pipeline(unmarshal, b), [Msg(env)], sendOutcome, Session(0, [], [])) ==
            Final(Session(1, [BadRequest], []), sendOutcome(0))
  {
  }

  /**
   * Two valid envelopes for a known channel whose filters and backend
   * accept everything: two SUCCESS responses in order, and the connection
   * stays open until the client closes it.
   */
  lemma TwoAcceptedEnvelopes(unmarshal: seq<byte> -> Payload, b: Backend, e1: Envelope, e2: Envelope,
                             support: Support, sendOutcome: nat -> Option<Error>)
    requires WellFormed(unmarshal(e1.payload)) && !IsConfigUpdate(unmarshal(e1.payload))
    requires WellFormed(unmarshal(e2.payload)) && !IsConfigUpdate(unmarshal(e2.payload))
    requires b.getChain(0, ChannelId(unmarshal(e1.payload))) == Some(support)
    requires b.getChain(3, ChannelId(unmarshal(e2.payload))) == Some(support)
    requires b.filter(1, support, e1).None? && b.filter(4, support, e2).None?
    requires b.enqueue(2, support, e1) && b.enqueue(5, support, e2)
    requires sendOutcome(0).None? && sendOutcome(1).None?
    ensures var f := Run(Pipeline(unmarshal, b), [Msg(e1), Msg(e2)], sendOutcome, Session(0, [], []));
            && f.session.sent == [Success, Success]
            && f.result.None?
            && |f.session.trace| == 6
            && f.session.trace[2] == Call.Enqueue(support, e1, true)
            && f.session.trace[5] == Call.Enqueue(support, e2, true)
  {
    var serve := Pipeline(unmarshal, b);
    var inbox := [Msg(e1), Msg(e2)];
    var r1 := Resolve(unmarshal, b, e1, 0);
    assert r1.status == Success && |r1.calls| == 3 && r1.calls[2] == Call.Enqueue(support, e1, true);
    assert serve(e1, 0) == r1;
    var s1 := Session(1, [Success], r1.calls);
    assert Session(0 + 1, [] + [r1.status], [] + r1.calls) == s1;
    var r2 := Resolve(unmarshal, b, e2, 3);
    assert r2.status == Success && |r2.calls| == 3 && r2.calls[2] == Call.Enqueue(support, e2, true);
    assert serve(e2, 3) == r2;
    var s2 := Session(2, [Success, Success], r1.calls + r2.calls);
    assert Run(serve, inbox, sendOutcome, Session(0, [], [])) == Run(serve, inbox, sendOutcome, s1);
    assert Run(serve, inbox, sendOutcome, s1) == Run(serve, inbox, sendOutcome, s2);
  }

  /** A CONFIG_UPDATE envelope that the processor rejects: a single BAD_REQUEST. */
  lemma RejectedConfigUpdate(unmarshal: seq<byte> -> Payload, b: Backend, env: Envelope, e: Error,
                             sendOutcome: nat -> Option<Error>)
    requires WellFormed(unmarshal(env.payload)) && IsConfigUpdate(unmarshal(env.payload))
    requires b.process(0, env) == Err(e)
    ensures Run(Pipeline(unmarshal, b), [Msg(env)], sendOutcome, Session(0, [], [])) ==
            Final(Session(1, [BadRequest], [Call.Process(env, Err(e))]), sendOutcome(0))
  {
  }

  /** A CONFIG_UPDATE envelope that the processor turns into a malformed one: INTERNAL_SERVER_ERROR. */
  lemma FaultyConfigUpdate(unmarshal: seq<byte> -> Payload, b: Backend, env: Envelope, output: Envelope,
                           sendOutcome: nat -> Option<Error>)
    requires WellFormed(unmarshal(env.payload)) && IsConfigUpdate(unmarshal(env.payload))
    requires b.process(0, env) == Ok(output) && !WellFormed(unmarshal(output.payload))
    ensures Run(Pipeline(unmarshal, b), [Msg(env)], sendOutcome, Session(0, [], [])) ==
            Final(Session(1, [InternalServerError], [Call.Process(env, Ok(output))]), sendOutcome(0))
  {
  }

  /** A valid envelope for a channel the registry does not know: a single NOT_FOUND. */
  lemma UnknownChannel(unmarshal: seq<byte> -> Payload, b: Backend, env: Envelope,
                       sendOutcome: nat -> Option<Error>)
    requires WellFormed(unmarshal(env.payload)) && !IsConfigUpdate(unmarshal(env.payload))
    requires b.getChain(0, ChannelId(unmarshal(env.payload))).None?
    ensures Run(Pipeline(unmarshal, b), [Msg(env)], sendOutcome, Session(0, [], [])) ==
            Final(Session(1, [NotFound], [Call.GetChain(ChannelId(unmarshal(env.payload)), None)]), sendOutcome(0))
  {
  }
}
