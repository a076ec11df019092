/** What a request is answered does not depend on how it was scheduled.

    The sampler is a function of the sequence's parameters and of the rows its logits were computed from. Greedy
    sampling is one, and so is seeded sampling, whose state is determined by the tokens drawn so far. The theorems
    follow one sequence of a run in which anything may happen to the others. A choice made by a fork is born with its
    first token, which is its own by design; from there on it is decoded like any other text. */
module Outputs {
  import opened Prelude
  import opened Sequences
  import opened SchedulerModel
  import opened CoreSteps
  import opened Rounds
  import opened Committing
  import opened Kv
  import opened Transparency
  import opened Forking
  import opened ForkSeeding
  import opened Runs
  import opened Stops

  type Model = (Params, seq<Row>) -> u32

  // ----------------------------------------------------------- the reference

  /** `n` tokens of decoding a text alone: no cache, no batch, no preemption. */
  function Alone(model: Model, params: Params, text: seq<u32>, n: nat): (r: seq<u32>)
    ensures |r| == |text| + n && text <= r
    decreases n
  {
    if n == 0 then text
    else
      var before := Alone(model, params, text, n - 1);
      before + [model(params, Ideal(before))]
  }

  /** Every token from `from` on is the one decoding alone gives. */
  ghost predicate Spoken(model: Model, s: Sequence, from: nat) {
    s.promptLen <= from <= |s.tokens| && s.tokens == Alone(model, s.params, s.tokens[..from], |s.tokens| - from)
  }

  /** Sequence `id`, born with its prompt and `seeds` tokens more, in the state `w`. */
  ghost predicate TextAt(model: Model, w: World, id: SeqId, seeds: nat) {
    id in w.st.seqs ==> Spoken(model, w.st.seqs[id], w.st.seqs[id].promptLen + seeds)
  }

  /** The step gives `id` only tokens of the model's, each computed from its context. */
  ghost predicate Faithful(model: Model, w: World, step: Step, id: SeqId, seeds: nat) {
    BornWith(w, step, id, seeds)
    && (step.Land? && w.flight.Some? && id in w.st.seqs ==>
          var f := w.flight.value;
          forall k :: 0 <= k < |step.sampled| && k < |f.contexts| && k < |f.plan.sampledSeqs| && f.plan.sampledSeqs[k] == id ==>
            step.sampled[k] == model(w.st.seqs[id].params, f.contexts[k]))
  }

  // ---------------------------------------------------------- one sequence

  lemma SameSpoken(model: Model, s: Sequence, t: Sequence, from: nat)
    requires SameSpeech(s, t) && Spoken(model, s, from)
    ensures Spoken(model, t, from)
  {}

  lemma NewSpoken(model: Model, s: Sequence)
    requires s.promptLen <= |s.tokens|
    ensures Spoken(model, s, |s.tokens|)
  {
    assert s.tokens[..|s.tokens|] == s.tokens;
  }

  /** One more token from the model. */
  lemma SpokenGrows(model: Model, s: Sequence, token: u32, from: nat)
    requires Spoken(model, s, from) && token == model(s.params, Ideal(s.tokens))
    ensures Spoken(model, PushToken(s, token), from)
  {
    var t, n := PushToken(s, token), |s.tokens| - from;
    assert t.tokens[..from] == s.tokens[..from];
    assert |t.tokens| - from == n + 1;
    assert Alone(model, s.params, s.tokens[..from], n + 1) == s.tokens + [token];
  }

  lemma CommittedText(cfg: Config, model: Model, s: Sequence, q: nat, token: Option<u32>, t: Sequence, from: nat)
    requires cfg.blockSize > 0 && Committed(cfg, s, q, token, t) && Spoken(model, s, from)
    requires token.Some? ==> token.value == model(s.params, Ideal(s.tokens))
    ensures Spoken(model, t, from) && t.promptLen == s.promptLen
  {
    CommittedSpeech(cfg, s, q, token, t);
    hide Committed, Spoken;
    if token.None? {
      SameSpoken(model, s, t, from);
    } else {
      SpokenGrows(model, s, token.value, from);
      SameSpoken(model, PushToken(s, token.value), t, from);
    }
  }

  // --------------------------------------------------------------- the steps

  lemma TextOf(model: Model, w: World, id: SeqId, seeds: nat)
    ensures TextAt(model, w, id, seeds) <==> (id in w.st.seqs ==> Spoken(model, w.st.seqs[id], w.st.seqs[id].promptLen + seeds))
  {
    hide Spoken;
  }

  /** What was sampled for `id` is the model's token for its text. */
  lemma ModelSampled(model: Model, w: World, sampled: seq<u32>, id: SeqId, seeds: nat, k: nat)
    requires w.flight.Some? && id in w.st.seqs && Faithful(model, w, Land(sampled), id, seeds) && ContextsOk(w.st.seqs, w.flight.value)
    requires k < |sampled| == |w.flight.value.plan.sampledSeqs| && w.flight.value.plan.sampledSeqs[k] == id
    ensures sampled[k] == model(w.st.seqs[id].params, Ideal(w.st.seqs[id].tokens))
  {}

  lemma LandText(cfg: Config, model: Model, w: World, sampled: seq<u32>, t: Sched, id: SeqId, seeds: nat)
    requires cfg.blockSize > 0 && w.flight.Some? && TextAt(model, w, id, seeds) && Faithful(model, w, Land(sampled), id, seeds)
    requires SampledAt(w.flight.value.plan) && ContextsOk(w.st.seqs, w.flight.value) && |sampled| == |w.flight.value.plan.sampledSeqs|
    requires CommittedAll(cfg, w.st.seqs, w.flight.value.plan, sampled, t.seqs)
    ensures TextAt(model, World(t, w.kv, None), id, seeds)
  {
    hide *;
    var plan := w.flight.value.plan;
    TextOf(model, w, id, seeds);
    TextOf(model, World(t, w.kv, None), id, seeds);
    if id in t.seqs {
      UntouchedAt(cfg, w.st.seqs, plan, sampled, t.seqs, id);
      if id in plan.batchSeqs {
        var q, token := LandedOne(cfg, w.st.seqs, plan, sampled, t.seqs, id);
        if token.Some? {
          var k :| 0 <= k < |sampled| && plan.sampledSeqs[k] == id && token == Some(sampled[k]);
          ModelSampled(model, w, sampled, id, seeds, k);
        }
        CommittedText(cfg, model, w.st.seqs[id], q, token, t.seqs[id], w.st.seqs[id].promptLen + seeds);
      }
    }
  }

  lemma BesideText(model: Model, w: World, t: Sched, id: SeqId, seeds: nat)
    requires TextAt(model, w, id, seeds) && Beside(w.st, t)
    requires id in w.st.seqs ==> id < w.st.nextId
    requires id in t.seqs && id !in w.st.seqs ==> id >= w.st.nextId && t.seqs[id].promptLen == |t.seqs[id].tokens| && seeds == 0
    ensures TextAt(model, w.(st := t), id, seeds)
  {
    hide Spoken;
    if id in t.seqs {
      if id in w.st.seqs {
        SameSpoken(model, w.st.seqs[id], t.seqs[id], w.st.seqs[id].promptLen + seeds);
      } else {
        NewSpoken(model, t.seqs[id]);
      }
    }
  }

  lemma LaunchText(cfg: Config, model: Model, w: World, t: Sched, f: Flight, kv: Cache, id: SeqId, seeds: nat)
    requires cfg.blockSize > 0 && AllEvolved(cfg, w.st.seqs, t.seqs) && TextAt(model, w, id, seeds)
    ensures TextAt(model, World(t, kv, Some(f)), id, seeds)
  {
    if id in t.seqs {
      var s := w.st.seqs[id];
      assert Evolved(cfg, s, t.seqs[id]);
      hide Evolved, Spoken;
      EvolvedSpeech(cfg, s, t.seqs[id]);
      SameSpoken(model, s, t.seqs[id], s.promptLen + seeds);
    }
  }

  lemma ForkText(cfg: Config, model: Model, w: World, parent: SeqId, tokens: seq<u32>, u: Sched, kv: Cache, id: SeqId, seeds: nat)
    requires parent in w.st.seqs && w.st.seqs[parent].promptLen <= |w.st.seqs[parent].tokens|
    requires Choices(cfg, w.st, w.st.seqs[parent], tokens, u) && TextAt(model, w, id, seeds) && BornWith(w, ForkAt(parent, tokens), id, seeds)
    ensures TextAt(model, World(u, kv, w.flight), id, seeds)
  {
    hide Spoken;
    if id in u.seqs && id !in w.st.seqs {
      assert Choice(w.st.seqs[parent], tokens[id - w.st.nextId], u.seqs[id]);
      NewSpoken(model, u.seqs[id]);
    }
  }

  lemma FaithfulBears(model: Model, w: World, step: Step, id: SeqId, seeds: nat)
    requires Faithful(model, w, step, id, seeds)
    ensures BornWith(w, step, id, seeds)
  {}

  lemma TakeText(cfg: Config, model: Model, w: World, step: Step, id: SeqId, seeds: nat)
    requires WorldOk(cfg, w) && cfg.blockSize > 0 && TextAt(model, w, id, seeds) && Enabled(cfg, w, step) && Faithful(model, w, step, id, seeds)
    ensures TextAt(model, Take(cfg, w, step), id, seeds)
  {
    hide *;
    WorldParts(cfg, w);
    RoundParts(cfg, w.st);
    CoreParts(cfg, w.st);
    IdsBelow(w.st);
    TakeIs(cfg, w, step);
    EnabledIs(cfg, w, step);
    FaithfulBears(model, w, step, id, seeds);
    if w.flight.Some? {
      FlightParts(cfg, w.st, w.kv, w.flight.value);
    }
    match step
    case AdmitRequest(r, prompt, params, tenant) =>
      AdmitNew(cfg, w.st, r, prompt, params, tenant, id);
      AdmitBeside(cfg, w.st, r, prompt, params, tenant);
      if id == w.st.nextId {
        BornByAdmission(w, step, id, seeds);
      }
      BesideText(model, w, Admit(cfg, w.st, r, prompt, params, tenant).0, id, seeds);
    case CancelRequest(r) =>
      FinishAllBeside(w.st, Listed(w.st.byRequest, r), Cancelled);
      FinishAllOnly(w.st, Listed(w.st.byRequest, r), Cancelled);
      OnlyFinishedIds(w.st, FinishAll(w.st, Listed(w.st.byRequest, r), Cancelled));
      BesideText(model, w, FinishAll(w.st, Listed(w.st.byRequest, r), Cancelled), id, seeds);
    case FinishWith(o, reason) =>
      FinishBeside(w.st, o, reason);
      FinishOnly(w.st, o, reason);
      OnlyFinishedIds(w.st, Finish(w.st, o, reason));
      BesideText(model, w, Finish(w.st, o, reason), id, seeds);
    case DrainFinished =>
      DrainBeside(w.st);
      DrainIds(w.st);
      BesideText(model, w, Drain(w.st), id, seeds);
    case Launch =>
      LaunchIs(cfg, w);
      var (t, plan) := Schedule(cfg, w.st);
      SchedulePasses(cfg, w.st);
      PassedParts(cfg, w.st, t);
      var kv := Forward(w.kv, cfg.blockSize, plan.batch, 0);
      LaunchText(cfg, model, w, t, Flight(plan, Contexts(kv, cfg.blockSize, plan.batch)), kv, id, seeds);
    case Land(sampled) =>
      var plan := w.flight.value.plan;
      InFlightParts(cfg, w.st, plan);
      CommitIs(cfg, w.st, plan, sampled);
      LandText(cfg, model, w, sampled, Commit(cfg, w.st, plan, sampled), id, seeds);
    case ForkAt(parent, tokens) =>
      ForkStepOk(cfg, w.st, w.kv, parent, tokens);
      PromptInside(cfg, w.st.seqs[parent]);
      var (u, kv, _) := ForkStep(cfg, w.st, w.kv, parent, tokens);
      ForkText(cfg, model, w, parent, tokens, u, kv, id, seeds);
  }

  // ---------------------------------------------------------------- the runs

  ghost predicate FaithfulRun(cfg: Config, model: Model, w: World, steps: seq<Step>, id: SeqId, seeds: nat)
    requires cfg.blockSize > 0
    decreases |steps|
  {
    steps == []
    || (Enabled(cfg, w, steps[0]) && Faithful(model, w, steps[0], id, seeds) && FaithfulRun(cfg, model, Take(cfg, w, steps[0]), steps[1..], id, seeds))
  }

  lemma FaithfulParts(cfg: Config, model: Model, w: World, steps: seq<Step>, id: SeqId, seeds: nat)
    requires cfg.blockSize > 0 && FaithfulRun(cfg, model, w, steps, id, seeds) && steps != []
    ensures Enabled(cfg, w, steps[0]) && Faithful(model, w, steps[0], id, seeds) && FaithfulRun(cfg, model, Take(cfg, w, steps[0]), steps[1..], id, seeds)
  {}

  lemma {:induction false} RunText(cfg: Config, model: Model, w: World, steps: seq<Step>, id: SeqId, seeds: nat)
    requires WorldOk(cfg, w) && cfg.blockSize > 0 && TextAt(model, w, id, seeds) && FaithfulRun(cfg, model, w, steps, id, seeds)
    ensures TextAt(model, Play(cfg, w, steps), id, seeds) && RunBearing(cfg, w, steps, id, seeds)
    decreases |steps|
  {
    hide *;
    LegalParts(cfg, w, steps);
    if steps == [] {
      BearingNone(cfg, w, id, seeds);
    } else {
      FaithfulParts(cfg, model, w, steps, id, seeds);
      FaithfulBears(model, w, steps[0], id, seeds);
      TakeOk(cfg, w, steps[0]);
      TakeText(cfg, model, w, steps[0], id, seeds);
      RunText(cfg, model, Take(cfg, w, steps[0]), steps[1..], id, seeds);
      BearingMore(cfg, w, steps, id, seeds);
    }
  }

  lemma BearingNone(cfg: Config, w: World, id: SeqId, seeds: nat)
    requires cfg.blockSize > 0
    ensures RunBearing(cfg, w, [], id, seeds)
  {}

  lemma BearingMore(cfg: Config, w: World, steps: seq<Step>, id: SeqId, seeds: nat)
    requires cfg.blockSize > 0 && steps != [] && Enabled(cfg, w, steps[0]) && BornWith(w, steps[0], id, seeds)
    requires RunBearing(cfg, Take(cfg, w, steps[0]), steps[1..], id, seeds)
    ensures RunBearing(cfg, w, steps, id, seeds)
  {
    hide Enabled, Take, BornWith;
  }

  /** Reached by a run, of any kind, in which every token of sequence `id`, but for the `seeds` it was born with, came
      from `model`. */
  ghost predicate ReachedWith(cfg: Config, model: Model, w: World, id: SeqId, seeds: nat) {
    exists w0, steps :: Boot(cfg, w0) && cfg.blockSize > 0 && FaithfulRun(cfg, model, w0, steps, id, seeds) && w == Play(cfg, w0, steps)
  }

  lemma BootText(cfg: Config, model: Model, w: World, id: SeqId, seeds: nat)
    requires Boot(cfg, w)
    ensures TextAt(model, w, id, seeds)
  {}

  lemma ReachedText(cfg: Config, model: Model, w: World, id: SeqId, seeds: nat)
    requires ReachedWith(cfg, model, w, id, seeds)
    ensures TextAt(model, w, id, seeds) && StopsAt(cfg, w, id, seeds)
  {
    hide Boot, WorldOk, FaithfulRun, Play, TextAt, StopsAt, RunBearing;
    var w0, steps :| Boot(cfg, w0) && cfg.blockSize > 0 && FaithfulRun(cfg, model, w0, steps, id, seeds) && w == Play(cfg, w0, steps);
    BootOk(cfg, w0);
    BootText(cfg, model, w0, id, seeds);
    RunText(cfg, model, w0, steps, id, seeds);
    BootStops(cfg, w0, id, seeds);
    RunStops(cfg, w0, steps, id, seeds);
  }

  lemma SpeechOf(cfg: Config, model: Model, w: World, id: SeqId, seeds: nat)
    requires ReachedWith(cfg, model, w, id, seeds) && id in w.st.seqs
    ensures Spoken(model, w.st.seqs[id], w.st.seqs[id].promptLen + seeds)
    ensures Unstopped(cfg, w.st.seqs[id], w.st.seqs[id].promptLen + seeds)
  {
    hide *;
    ReachedText(cfg, model, w, id, seeds);
    TextOf(model, w, id, seeds);
    StopsOf(cfg, w, id, seeds);
  }

  /** Whatever happened around it, forks included, a sequence's text is what decoding alone gives from what it was born
      with: its prompt, and for a choice its first token. Decoding never went past the end of the text: no token before
      the last ends it. */
  lemma TextIsDecodedAlone(cfg: Config, model: Model, w: World, id: SeqId, seeds: nat)
    requires ReachedWith(cfg, model, w, id, seeds) && id in w.st.seqs
    ensures var s := w.st.seqs[id];
      var from := s.promptLen + seeds;
      from <= |s.tokens| && s.tokens == Alone(model, s.params, s.tokens[..from], |s.tokens| - from)
      && forall p :: from <= p < |s.tokens| - 1 ==>
           s.tokens[p] !in cfg.eos && s.tokens[p] !in s.params.stopTokenIds && p + 1 < s.promptLen + s.params.maxTokens && p + 1 < cfg.maxContext
  {
    hide *;
    SpeechOf(cfg, model, w, id, seeds);
    var s := w.st.seqs[id];
    SpokenIs(model, s, s.promptLen + seeds);
    forall p: nat | s.promptLen + seeds <= p < |s.tokens| - 1
      ensures s.tokens[p] !in cfg.eos && s.tokens[p] !in s.params.stopTokenIds && p + 1 < s.promptLen + s.params.maxTokens && p + 1 < cfg.maxContext
    {
      UnstoppedAt(cfg, s, s.promptLen + seeds, p + 1);
      EarlierEnd(cfg, s, p + 1);
      NoStop(cfg, s.params, s.tokens[p]);
    }
  }

  lemma {:induction false} AlonePrefix(model: Model, params: Params, text: seq<u32>, m: nat, n: nat)
    requires m <= n
    ensures Alone(model, params, text, m) <= Alone(model, params, text, n)
    decreases n
  {
    if m < n {
      AlonePrefix(model, params, text, m, n - 1);
    }
  }

  lemma EarlierIs(model: Model, s: Sequence, t: Sequence, from: nat)
    requires Spoken(model, s, from) && Spoken(model, t, from) && s.params == t.params
    requires s.promptLen == t.promptLen && s.tokens[..from] == t.tokens[..from] && |s.tokens| <= |t.tokens|
    ensures s.tokens <= t.tokens && SameSpeech(s, Earlier(t, |s.tokens|))
  {
    hide Alone, Earlier;
    SpokenIs(model, s, from);
    SpokenIs(model, t, from);
    AlonePrefix(model, s.params, s.tokens[..from], |s.tokens| - from, |t.tokens| - from);
    EarlierSpeech(s, t);
  }

  lemma SpokenIs(model: Model, s: Sequence, from: nat)
    requires Spoken(model, s, from)
    ensures s.promptLen <= from <= |s.tokens| && s.tokens == Alone(model, s.params, s.tokens[..from], |s.tokens| - from)
  {
    hide Alone;
  }

  lemma EarlierSpeech(s: Sequence, t: Sequence)
    requires s.tokens <= t.tokens && s.promptLen == t.promptLen && s.params == t.params
    ensures SameSpeech(s, Earlier(t, |s.tokens|))
  {
    assert t.tokens[..|s.tokens|] == s.tokens;
  }

  /** The same request gets the same answer from any two engines that stop decoding alike: one may have the prefix
      cache on and the other off, with other pools, block sizes, budgets, chunk lengths, neighbours, forks and histories.
      While it runs, one text is a prefix of the other; once both are complete, they are the same. So do two choices
      with the same first token. */
  lemma SameAnswer(a: Config, b: Config, model: Model, v: World, w: World, id: SeqId, o: SeqId, seeds: nat)
    requires ReachedWith(a, model, v, id, seeds) && ReachedWith(b, model, w, o, seeds) && a.eos == b.eos && a.maxContext == b.maxContext
    requires id in v.st.seqs && o in w.st.seqs
    requires var s, t := v.st.seqs[id], w.st.seqs[o];
      s.promptLen == t.promptLen && s.params == t.params && Upto(s.tokens, s.promptLen + seeds) == Upto(t.tokens, t.promptLen + seeds)
    ensures var s, t := v.st.seqs[id], w.st.seqs[o];
      (s.tokens <= t.tokens || t.tokens <= s.tokens)
      && (Ended(a, s, s.promptLen + seeds) && Ended(b, t, t.promptLen + seeds) ==> s.tokens == t.tokens)
  {
    hide *;
    var s, t := v.st.seqs[id], w.st.seqs[o];
    SpeechOf(a, model, v, id, seeds);
    SpeechOf(b, model, w, o, seeds);
    var from := s.promptLen + seeds;
    SpokenIs(model, s, from);
    SpokenIs(model, t, from);
    BornAlike(s, t, from);
    SameEnds(a, b, s, from);
    SameEnds(a, b, t, from);
    if |s.tokens| <= |t.tokens| {
      PrefixesMeet(a, model, s, t, from);
    } else {
      PrefixesMeet(a, model, t, s, from);
    }
  }

  lemma BornAlike(s: Sequence, t: Sequence, from: nat)
    requires from <= |s.tokens| && from <= |t.tokens| && Upto(s.tokens, from) == Upto(t.tokens, from)
    ensures s.tokens[..from] == t.tokens[..from]
  {}

  lemma SameEnds(a: Config, b: Config, s: Sequence, from: nat)
    requires a.eos == b.eos && a.maxContext == b.maxContext
    ensures Ended(a, s, from) == Ended(b, s, from) && Unstopped(a, s, from) == Unstopped(b, s, from)
  {}

  lemma PrefixesMeet(cfg: Config, model: Model, s: Sequence, t: Sequence, from: nat)
    requires Spoken(model, s, from) && Spoken(model, t, from) && Unstopped(cfg, t, from) && s.params == t.params
    requires s.promptLen == t.promptLen && s.tokens[..from] == t.tokens[..from] && |s.tokens| <= |t.tokens|
    ensures s.tokens <= t.tokens && (Ended(cfg, s, from) ==> s.tokens == t.tokens)
  {
    EarlierIs(model, s, t, from);
    SameComplete(cfg, s, Earlier(t, |s.tokens|));
  }
}
