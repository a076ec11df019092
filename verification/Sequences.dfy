/** One in-flight generation (crates/vapi-engine/src/sequence.rs).

    The scheduler's map owns every sequence by value, so a sequence is a value
    here and each mutating method is a function from the old value to the new. */
module Sequences {
  import opened Prelude
  import opened PoolModel

  type SeqId = nat
  type RequestId = nat

  datatype Reason = Stop | Length | Cancelled | Failed

  datatype Status = Waiting | Prefilling | Decoding | Preempted | Finished(reason: Reason)

  /** Sampling parameters; `seed` stands for everything only the sampler reads. */
  datatype Params = Params(maxTokens: nat, stopTokenIds: seq<u32>, seed: nat)

  datatype Sequence = Sequence(
    request: RequestId,
    params: Params,
    status: Status,
    tokens: seq<u32>,
    promptLen: nat,
    computed: nat,
    target: nat,
    blocks: seq<BlockId>,
    cachedTokens: nat,
    cachedBlocks: nat,
    tenant: Text)

  function NewSequence(request: RequestId, prompt: seq<u32>, params: Params, tenant: Text): Sequence {
    Sequence(request, params, Waiting, prompt, |prompt|, 0, |prompt|, [], 0, 0, tenant)
  }

  function AdoptPrefilled(s: Sequence, blocks: seq<BlockId>, computed: nat, cachedBlocks: nat): Sequence {
    s.(blocks := blocks, computed := computed, cachedBlocks := cachedBlocks, status := Decoding)
  }

  function RemainingPrefill(s: Sequence): nat {
    if s.target > s.computed then s.target - s.computed else 0
  }

  predicate NeedsPrefill(s: Sequence) {
    RemainingPrefill(s) > 0
  }

  function Generated(s: Sequence): nat {
    if |s.tokens| >= s.promptLen then |s.tokens| - s.promptLen else 0
  }

  function AdoptCachedPrefix(s: Sequence, blocks: seq<BlockId>, tokens: nat): Sequence {
    s.(cachedBlocks := |blocks|, blocks := blocks, cachedTokens := tokens, computed := tokens)
  }

  function AdvanceComputed(s: Sequence, n: nat): Sequence {
    s.(computed := s.computed + n)
  }

  function PushToken(s: Sequence, t: u32): Sequence {
    s.(tokens := s.tokens + [t])
  }

  function ResetForRecompute(s: Sequence): Sequence {
    s.(blocks := [], computed := 0, cachedBlocks := 0, cachedTokens := 0, target := |s.tokens|, status := Preempted)
  }

  function CheckFinished(s: Sequence, eos: seq<u32>, maxContext: nat): Option<Reason> {
    if s.tokens != [] && Generated(s) > 0 && s.tokens[|s.tokens| - 1] in eos then Some(Stop)
    else if s.tokens == [] then None
    else if s.tokens[|s.tokens| - 1] in s.params.stopTokenIds && Generated(s) > 0 then Some(Stop)
    else if Generated(s) >= s.params.maxTokens then Some(Length)
    else if |s.tokens| >= maxContext then Some(Length)
    else None
  }

  predicate IsFinished(s: Sequence) { s.status.Finished? }
  predicate IsActive(s: Sequence) { s.status.Prefilling? || s.status.Decoding? }
  predicate IsWaiting(s: Sequence) { s.status.Waiting? || s.status.Preempted? }
}
