/**
 * The handler's collaborators: the config-update processor and chain
 * registry (`SupportManager`) and, per chain, the filter rule set and the
 * ordering sink (`Support`). Their implementations are not part of this
 * model; each answer comes from an oracle that may depend on how many
 * collaborator calls came before, so a collaborator with internal state
 * (a backend that shuts down, a chain that is created later) is covered.
 */
module Collaborators {
  import opened Wrappers
  import opened Messages

  /** The chain support `GetChain` hands out, known to the handler only as a handle. */
  datatype Support = Support(handle: nat)

  /** One collaborator call, with its argument(s) and the answer it gave. */
  datatype Call =
    | Process(input: Envelope, output: Result<Envelope, Error>)
    | GetChain(channelId: string, found: Option<Support>)
    | Apply(support: Support, env: Envelope, rejection: Option<Error>)
    | Enqueue(support: Support, env: Envelope, accepted: bool)

  /** The answers of the collaborators; the `nat` is the number of earlier calls. */
  datatype Backend = Backend(
    process: (nat, Envelope) -> Result<Envelope, Error>,
    getChain: (nat, string) -> Option<Support>,
    filter: (nat, Support, Envelope) -> Option<Error>,
    enqueue: (nat, Support, Envelope) -> bool)

  /** Call `c`, made after `t` earlier calls, got the backend's answer for its arguments. */
  predicate AnsweredBy(b: Backend, c: Call, t: nat) {
    match c
    case Process(input, output) => output == b.process(t, input)
    case GetChain(channelId, found) => found == b.getChain(t, channelId)
    case Apply(support, env, rejection) => rejection == b.filter(t, support, env)
    case Enqueue(support, env, accepted) => accepted == b.enqueue(t, support, env)
  }

  /** Every call of `calls`, the first of which came after `t` earlier calls, got the backend's answer. */
  predicate Answered(b: Backend, calls: seq<Call>, t: nat) {
    forall i | 0 <= i < |calls| :: AnsweredBy(b, calls[i], t + i)
  }

  /**
   * The collaborators as one object: every call is answered by the backend
   * and appended to the ghost `trace`, which therefore holds the backend's
   * answers in call order.
   */
  class SupportManager {
    const backend: Backend
    var calls: nat
    ghost var trace: seq<Call>

    ghost predicate Valid()
      reads this
    {
      calls == |trace| && Answered(backend, trace, 0)
    }

    constructor (backend: Backend)
      ensures Valid() && this.backend == backend && trace == []
    {
      this.backend := backend;
      calls := 0;
      trace := [];
    }

    /** `ConfigUpdateProcessor.Process`: transform a CONFIG_UPDATE envelope, or fail. */
    method Process(env: Envelope) returns (r: Result<Envelope, Error>)
      requires Valid()
      modifies this
      ensures Valid()
      ensures r == backend.process(old(calls), env)
      ensures trace == old(trace) + [Call.Process(env, r)]
    {
      r := backend.process(calls, env);
      calls := calls + 1;
      trace := trace + [Call.Process(env, r)];
    }

    /** `SupportManager.GetChain`: the support of a channel, if the channel exists. */
    method GetChain(channelId: string) returns (support: Support, ok: bool)
      requires Valid()
      modifies this
      ensures Valid()
      ensures var found := backend.getChain(old(calls), channelId);
        ok == found.Some? && (ok ==> support == found.value)
      ensures trace == old(trace) + [Call.GetChain(channelId, if ok then Some(support) else None)]
    {
      var found := backend.getChain(calls, channelId);
      ok := found.Some?;
      support := if ok then found.value else Support(0);
      calls := calls + 1;
      trace := trace + [Call.GetChain(channelId, found)];
    }

    /** `support.Filters().Apply`: `None` when the rule set admits the envelope. */
    method Apply(support: Support, env: Envelope) returns (rejection: Option<Error>)
      requires Valid()
      modifies this
      ensures Valid()
      ensures rejection == backend.filter(old(calls), support, env)
      ensures trace == old(trace) + [Call.Apply(support, env, rejection)]
    {
      rejection := backend.filter(calls, support, env);
      calls := calls + 1;
      trace := trace + [Call.Apply(support, env, rejection)];
    }

    /** `support.Enqueue`: true on acceptance, false when the backend is shutting down. */
    method Enqueue(support: Support, env: Envelope) returns (accepted: bool)
      requires Valid()
      modifies this
      ensures Valid()
      ensures accepted == backend.enqueue(old(calls), support, env)
      ensures trace == old(trace) + [Call.Enqueue(support, env, accepted)]
    {
      accepted := backend.enqueue(calls, support, env);
      calls := calls + 1;
      trace := trace + [Call.Enqueue(support, env, accepted)];
    }
  }
}
