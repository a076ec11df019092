/** Where texts end: a commit finishes exactly the sequences whose new token ends them, and over any run nothing is
    written after the end of a text. A choice made by a fork is born with its first token, which no commit looked at. */
module Stops {
  import opened Prelude
  import opened Sequences
  import opened SchedulerModel
  import opened Invariants
  import opened CoreSteps
  import opened Rounds
  import opened Scheduling
  import opened Committing
  import opened Transparency
  import opened Forking
  import opened ForkSeeding
  import opened Kv
  import opened Runs

  // ------------------------------------------------------------ the end of a text

  /** An end-of-text token of the model, or a stop token of the request. */
  predicate StopToken(cfg: Config, params: Params, token: u32) {
    token in cfg.eos || token in params.stopTokenIds
  }

  /** As many tokens as the request or the model allows. */
  predicate FullLength(cfg: Config, s: Sequence) {
    |s.tokens| >= s.promptLen + s.params.maxTokens || |s.tokens| >= cfg.maxContext
  }

  /** Something was generated, and the last of it ends the text. */
  predicate Complete(cfg: Config, s: Sequence) {
    s.promptLen < |s.tokens| && (StopToken(cfg, s.params, s.tokens[|s.tokens| - 1]) || FullLength(cfg, s))
  }

  /** `check_finished`, once something was generated. */
  lemma CheckIs(cfg: Config, s: Sequence)
    requires s.promptLen < |s.tokens|
    ensures CheckFinished(s, cfg.eos, cfg.maxContext) ==
      if StopToken(cfg, s.params, s.tokens[|s.tokens| - 1]) then Some(Stop) else if FullLength(cfg, s) then Some(Length) else None
  {}

  // -------------------------------------------------------------- one commit

  ghost predicate SameSpeech(s: Sequence, t: Sequence) {
    t.tokens == s.tokens && t.promptLen == s.promptLen && t.params == s.params
  }

  lemma SameComplete(cfg: Config, s: Sequence, t: Sequence)
    requires SameSpeech(s, t)
    ensures Complete(cfg, t) == Complete(cfg, s)
  {}

  lemma CommittedSpeech(cfg: Config, s: Sequence, q: nat, token: Option<u32>, t: Sequence)
    requires cfg.blockSize > 0 && Committed(cfg, s, q, token, t)
    ensures token.None? ==> SameSpeech(s, t) && IsFinished(t) == IsFinished(s)
    ensures token.Some? ==> SameSpeech(PushToken(s, token.value), t)
  {}

  /** How a sequence that was still active leaves the commit of its next token. */
  ghost predicate EndsAs(cfg: Config, s: Sequence, token: u32, t: Sequence) {
    t.tokens == s.tokens + [token]
    && (t.status == Finished(Stop) <==> StopToken(cfg, s.params, token))
    && (t.status == Finished(Length) <==> !StopToken(cfg, s.params, token) && FullLength(cfg, t))
    && (IsActive(t) <==> !StopToken(cfg, s.params, token) && !FullLength(cfg, t))
  }

  lemma CommittedEnds(cfg: Config, s: Sequence, q: nat, token: u32, t: Sequence)
    requires cfg.blockSize > 0 && Committed(cfg, s, q, Some(token), t) && IsActive(s) && s.promptLen <= |s.tokens|
    ensures EndsAs(cfg, s, token, t) && t.promptLen == s.promptLen && t.params == s.params
  {
    var a := PushToken(Advanced(s, q), token);
    assert a.tokens[|a.tokens| - 1] == token;
    CheckIs(cfg, a);
  }

  lemma CommittedAt(cfg: Config, seqs: map<SeqId, Sequence>, plan: Plan, sampled: seq<u32>, after: map<SeqId, Sequence>, k: nat) returns (q: nat)
    requires cfg.blockSize > 0 && SampledAt(plan) && CommittedAll(cfg, seqs, plan, sampled, after)
    requires k < |sampled| == |plan.sampledSeqs| && plan.sampledSeqs[k] in seqs
    ensures plan.sampledSeqs[k] in after && Committed(cfg, seqs[plan.sampledSeqs[k]], q, Some(sampled[k]), after[plan.sampledSeqs[k]])
  {
    hide Committed, RowLen;
    var id := plan.sampledSeqs[k];
    assert id in plan.sampledSeqs && id in plan.batchSeqs;
    var i :| 0 <= i < |plan.batchSeqs| && plan.batchSeqs[i] == id;
    q := RowLen(plan.batch, i);
  }

  /** A sampled sequence gains exactly its token, and ends by it, for the one reason or the other, or goes on. */
  lemma CommitEnds(cfg: Config, st: Sched, plan: Plan, sampled: seq<u32>, k: nat)
    requires cfg.blockSize > 0 && Core(cfg, st) && InFlight(cfg, st, plan) && k < |sampled| == |plan.sampledSeqs|
    requires plan.sampledSeqs[k] in st.seqs && IsActive(st.seqs[plan.sampledSeqs[k]])
    ensures var id := plan.sampledSeqs[k];
      var after := Commit(cfg, st, plan, sampled).seqs;
      id in after && EndsAs(cfg, st.seqs[id], sampled[k], after[id])
  {
    hide *;
    CoreParts(cfg, st);
    InFlightParts(cfg, st, plan);
    CommitIs(cfg, st, plan, sampled);
    var after := Commit(cfg, st, plan, sampled).seqs;
    var q := CommittedAt(cfg, st.seqs, plan, sampled, after, k);
    PromptInside(cfg, st.seqs[plan.sampledSeqs[k]]);
    CommittedEnds(cfg, st.seqs[plan.sampledSeqs[k]], q, sampled[k], after[plan.sampledSeqs[k]]);
  }

  lemma CommittedMoves(cfg: Config, s: Sequence, q: nat, token: Option<u32>, t: Sequence)
    requires cfg.blockSize > 0 && Committed(cfg, s, q, token, t) && BasicOk(cfg, s)
    ensures t.computed == s.computed + q && (cfg.prefixCache ==> t.cachedBlocks >= t.computed / cfg.blockSize)
    ensures token.None? ==> t.tokens == s.tokens
    ensures token.None? && IsActive(s) ==> IsActive(t) && (s.status.Prefilling? && NeedsPrefill(t) <==> t.status.Prefilling?)
  {}

  /** The commit advances every member of the batch by its row, publishes all its full blocks if the cache is on, and
      leaves everyone else alone. */
  lemma CommitMoves(cfg: Config, st: Sched, plan: Plan, sampled: seq<u32>, id: SeqId)
    requires cfg.blockSize > 0 && Core(cfg, st) && InFlight(cfg, st, plan) && |sampled| == |plan.sampledSeqs| && id in st.seqs
    ensures var s, after := st.seqs[id], Commit(cfg, st, plan, sampled).seqs;
      id in after && (id !in plan.batchSeqs ==> after[id] == s)
      && (forall i :: 0 <= i < |plan.batchSeqs| && plan.batchSeqs[i] == id ==> after[id].computed == s.computed + RowLen(plan.batch, i))
      && (id in plan.batchSeqs && cfg.prefixCache ==> after[id].cachedBlocks >= after[id].computed / cfg.blockSize)
      && (id !in plan.sampledSeqs ==> after[id].tokens == s.tokens)
  {
    hide *;
    CoreParts(cfg, st);
    InFlightParts(cfg, st, plan);
    CommitIs(cfg, st, plan, sampled);
    var after := Commit(cfg, st, plan, sampled).seqs;
    CommittedKeys(cfg, st.seqs, plan, sampled, after);
    UntouchedAt(cfg, st.seqs, plan, sampled, after, id);
    if id in plan.batchSeqs {
      var i :| 0 <= i < |plan.batchSeqs| && plan.batchSeqs[i] == id;
      forall j | 0 <= j < |plan.batchSeqs| && plan.batchSeqs[j] == id ensures j == i {
        OnlyOnce(plan.batchSeqs, i, j);
      }
      var token := LandedRow(cfg, st.seqs, plan, sampled, after, i);
      CommittedMoves(cfg, st.seqs[id], RowLen(plan.batch, i), token, after[id]);
    } else {
      assert id !in plan.batchSeqs;
    }
  }

  lemma OnlyOnce(ids: seq<SeqId>, i: nat, j: nat)
    requires NoDup(ids) && i < |ids| && j < |ids| && ids[i] == ids[j]
    ensures i == j
  {}

  lemma CommittedKeys(cfg: Config, seqs: map<SeqId, Sequence>, plan: Plan, sampled: seq<u32>, after: map<SeqId, Sequence>)
    requires cfg.blockSize > 0 && CommittedAll(cfg, seqs, plan, sampled, after)
    ensures after.Keys == seqs.Keys
  {
    hide Committed, RowLen;
  }

  lemma LandedRow(cfg: Config, seqs: map<SeqId, Sequence>, plan: Plan, sampled: seq<u32>, after: map<SeqId, Sequence>, i: nat) returns (token: Option<u32>)
    requires cfg.blockSize > 0 && SampledAt(plan) && |sampled| == |plan.sampledSeqs| && CommittedAll(cfg, seqs, plan, sampled, after)
    requires i < |plan.batchSeqs| && plan.batchSeqs[i] in seqs
    ensures var id := plan.batchSeqs[i];
      id in after && Committed(cfg, seqs[id], RowLen(plan.batch, i), token, after[id]) && (token.Some? <==> id in plan.sampledSeqs)
  {
    hide Committed, RowLen;
    var id := plan.batchSeqs[i];
    if id in plan.sampledSeqs {
      var k :| 0 <= k < |plan.sampledSeqs| && plan.sampledSeqs[k] == id;
      token := Some(sampled[k]);
    } else {
      token := None;
    }
  }

  lemma PromptInside(cfg: Config, s: Sequence)
    requires cfg.blockSize > 0 && BasicOk(cfg, s)
    ensures s.promptLen <= |s.tokens|
  {}

  // ------------------------------------------------------------ over whole runs

  /** The sequence as it was when it had `n` tokens. */
  function Earlier(s: Sequence, n: nat): Sequence {
    s.(tokens := Upto(s.tokens, n))
  }

  /** Complete by a token it was not born with. */
  predicate Ended(cfg: Config, s: Sequence, from: nat) {
    from < |s.tokens| && Complete(cfg, s)
  }

  /** Nothing came after the text was complete, from `from` on; and a sequence that has not finished is not. */
  ghost predicate Unstopped(cfg: Config, s: Sequence, from: nat) {
    s.promptLen <= from <= |s.tokens|
    && (forall n :: from < n < |s.tokens| ==> !Complete(cfg, Earlier(s, n)))
    && (!IsFinished(s) ==> !Ended(cfg, s, from))
  }

  /** Sequence `id`, born with its prompt and `seeds` tokens more, in the state `w`. */
  ghost predicate StopsAt(cfg: Config, w: World, id: SeqId, seeds: nat) {
    id in w.st.seqs ==>
      var s := w.st.seqs[id];
      Unstopped(cfg, s, s.promptLen + seeds)
      && (w.flight.Some? && id in w.flight.value.plan.sampledSeqs ==> !Ended(cfg, s, s.promptLen + seeds))
  }

  /** The step brings `id` into being, if it does, with `seeds` tokens: none on arrival, one by a fork. */
  ghost predicate BornWith(w: World, step: Step, id: SeqId, seeds: nat) {
    (step.AdmitRequest? && id == w.st.nextId ==> seeds == 0)
    && (step.ForkAt? && w.st.nextId <= id < w.st.nextId + |step.tokens| ==> seeds == 1)
  }

  lemma SameEnded(cfg: Config, s: Sequence, t: Sequence, from: nat)
    requires SameSpeech(s, t)
    ensures Ended(cfg, t, from) == Ended(cfg, s, from)
  {}

  lemma SameStops(cfg: Config, s: Sequence, t: Sequence, from: nat)
    requires SameSpeech(s, t) && Unstopped(cfg, s, from) && (IsFinished(s) ==> IsFinished(t))
    ensures Unstopped(cfg, t, from)
  {
    SameEnded(cfg, s, t, from);
    hide Complete, Ended;
    forall n | from < n < |t.tokens| ensures !Complete(cfg, Earlier(t, n)) {
      SameComplete(cfg, Earlier(s, n), Earlier(t, n));
    }
  }

  lemma NewUnstopped(cfg: Config, s: Sequence)
    requires s.promptLen <= |s.tokens|
    ensures Unstopped(cfg, s, |s.tokens|)
  {}

  /** One more token. */
  lemma UnstoppedGrows(cfg: Config, s: Sequence, token: u32, t: Sequence, from: nat)
    requires Unstopped(cfg, s, from) && !Ended(cfg, s, from) && SameSpeech(PushToken(s, token), t)
    requires !IsFinished(t) ==> !Complete(cfg, t)
    ensures Unstopped(cfg, t, from)
  {
    forall n | from < n < |t.tokens| ensures !Complete(cfg, Earlier(t, n)) {
      if n < |s.tokens| {
        assert Upto(t.tokens, n) == Upto(s.tokens, n);
        SameComplete(cfg, Earlier(s, n), Earlier(t, n));
      } else {
        assert Upto(t.tokens, n) == s.tokens;
        SameComplete(cfg, s, Earlier(t, n));
      }
    }
  }

  lemma CommittedRuns(cfg: Config, s: Sequence, q: nat, token: u32, t: Sequence)
    requires cfg.blockSize > 0 && Committed(cfg, s, q, Some(token), t) && s.promptLen <= |s.tokens| && !IsFinished(t)
    ensures !Complete(cfg, t)
  {
    var a := PushToken(Advanced(s, q), token);
    CheckIs(cfg, a);
    SameComplete(cfg, a, t);
  }

  lemma CommittedStops(cfg: Config, s: Sequence, q: nat, token: Option<u32>, t: Sequence, from: nat)
    requires cfg.blockSize > 0 && Committed(cfg, s, q, token, t) && Unstopped(cfg, s, from) && (token.Some? ==> !Ended(cfg, s, from))
    ensures Unstopped(cfg, t, from) && t.promptLen == s.promptLen
  {
    CommittedSpeech(cfg, s, q, token, t);
    hide Committed, Complete, Ended;
    if token.None? {
      SameStops(cfg, s, t, from);
    } else {
      if !IsFinished(t) {
        CommittedRuns(cfg, s, q, token.value, t);
      }
      UnstoppedGrows(cfg, s, token.value, t, from);
    }
  }

  // --------------------------------------------------------------- the steps

  lemma StopsOf(cfg: Config, w: World, id: SeqId, seeds: nat)
    requires StopsAt(cfg, w, id, seeds) && id in w.st.seqs
    ensures Unstopped(cfg, w.st.seqs[id], w.st.seqs[id].promptLen + seeds)
    ensures w.flight.Some? && id in w.flight.value.plan.sampledSeqs ==> !Ended(cfg, w.st.seqs[id], w.st.seqs[id].promptLen + seeds)
  {
    hide Unstopped, Ended;
  }

  lemma StopsMade(cfg: Config, w: World, id: SeqId, seeds: nat)
    requires id in w.st.seqs ==> Unstopped(cfg, w.st.seqs[id], w.st.seqs[id].promptLen + seeds)
    requires id in w.st.seqs && w.flight.Some? && id in w.flight.value.plan.sampledSeqs ==> !Ended(cfg, w.st.seqs[id], w.st.seqs[id].promptLen + seeds)
    ensures StopsAt(cfg, w, id, seeds)
  {
    hide Unstopped, Ended;
  }

  /** One sequence through a commit: its row, and its token if it was sampled. */
  lemma LandedOne(cfg: Config, seqs: map<SeqId, Sequence>, plan: Plan, sampled: seq<u32>, after: map<SeqId, Sequence>, id: SeqId) returns (q: nat, token: Option<u32>)
    requires cfg.blockSize > 0 && SampledAt(plan) && |sampled| == |plan.sampledSeqs| && CommittedAll(cfg, seqs, plan, sampled, after)
    requires id in seqs && id in plan.batchSeqs
    ensures id in after && Committed(cfg, seqs[id], q, token, after[id]) && (token.Some? ==> id in plan.sampledSeqs)
    ensures token.Some? ==> exists k :: 0 <= k < |sampled| && plan.sampledSeqs[k] == id && token == Some(sampled[k])
  {
    hide Committed, RowLen;
    if id in plan.sampledSeqs {
      var k :| 0 <= k < |plan.sampledSeqs| && plan.sampledSeqs[k] == id;
      q := CommittedAt(cfg, seqs, plan, sampled, after, k);
      token := Some(sampled[k]);
    } else {
      var i :| 0 <= i < |plan.batchSeqs| && plan.batchSeqs[i] == id;
      q, token := RowLen(plan.batch, i), None;
    }
  }

  lemma UntouchedAt(cfg: Config, seqs: map<SeqId, Sequence>, plan: Plan, sampled: seq<u32>, after: map<SeqId, Sequence>, id: SeqId)
    requires cfg.blockSize > 0 && CommittedAll(cfg, seqs, plan, sampled, after) && id in after
    ensures id in seqs && (id !in plan.batchSeqs ==> after[id] == seqs[id])
  {
    hide Committed, RowLen;
  }

  lemma LandStops(cfg: Config, w: World, sampled: seq<u32>, t: Sched, id: SeqId, seeds: nat)
    requires cfg.blockSize > 0 && w.flight.Some? && StopsAt(cfg, w, id, seeds) && SampledAt(w.flight.value.plan)
    requires |sampled| == |w.flight.value.plan.sampledSeqs| && CommittedAll(cfg, w.st.seqs, w.flight.value.plan, sampled, t.seqs)
    ensures StopsAt(cfg, World(t, w.kv, None), id, seeds)
  {
    hide *;
    var plan := w.flight.value.plan;
    if id in t.seqs {
      UntouchedAt(cfg, w.st.seqs, plan, sampled, t.seqs, id);
      StopsOf(cfg, w, id, seeds);
      if id in plan.batchSeqs {
        var q, token := LandedOne(cfg, w.st.seqs, plan, sampled, t.seqs, id);
        CommittedStops(cfg, w.st.seqs[id], q, token, t.seqs[id], w.st.seqs[id].promptLen + seeds);
      }
    }
    StopsMade(cfg, World(t, w.kv, None), id, seeds);
  }

  lemma BesideStops(cfg: Config, w: World, t: Sched, id: SeqId, seeds: nat)
    requires StopsAt(cfg, w, id, seeds) && Beside(w.st, t)
    requires w.flight.Some? ==> forall o :: o in w.flight.value.plan.sampledSeqs ==> o < w.st.nextId
    requires id in w.st.seqs ==> id < w.st.nextId
    requires id in t.seqs && id !in w.st.seqs ==> id >= w.st.nextId && t.seqs[id].promptLen == |t.seqs[id].tokens| && seeds == 0
    ensures StopsAt(cfg, w.(st := t), id, seeds)
  {
    hide Unstopped, Complete;
    if id in t.seqs {
      if id in w.st.seqs {
        var s := w.st.seqs[id];
        assert SameSpeech(s, t.seqs[id]);
        SameStops(cfg, s, t.seqs[id], s.promptLen + seeds);
        SameEnded(cfg, s, t.seqs[id], s.promptLen + seeds);
      } else {
        NewUnstopped(cfg, t.seqs[id]);
      }
    }
  }

  lemma AdmitNew(cfg: Config, st: Sched, r: RequestId, prompt: seq<u32>, params: Params, tenant: Text, id: SeqId)
    ensures var t := Admit(cfg, st, r, prompt, params, tenant).0;
      id in t.seqs && id !in st.seqs ==> id == st.nextId && t.seqs[id].promptLen == |t.seqs[id].tokens|
  {}

  lemma LaunchStops(cfg: Config, w: World, t: Sched, plan: Plan, f: Flight, kv: Cache, id: SeqId, seeds: nat)
    requires cfg.blockSize > 0 && AllEvolved(cfg, w.st.seqs, t.seqs) && StopsAt(cfg, w, id, seeds)
    requires f.plan == plan && PlanOk(cfg, t.seqs, plan)
    ensures StopsAt(cfg, World(t, kv, Some(f)), id, seeds)
  {
    if id in t.seqs {
      var s := w.st.seqs[id];
      assert Evolved(cfg, s, t.seqs[id]);
      hide Evolved, Ended;
      EvolvedSpeech(cfg, s, t.seqs[id]);
      SameStops(cfg, s, t.seqs[id], s.promptLen + seeds);
      SameEnded(cfg, s, t.seqs[id], s.promptLen + seeds);
      hide Unstopped;
      if id in plan.sampledSeqs {
        SampledActive(cfg, t.seqs, plan, id);
        NotEnded(cfg, t.seqs[id], s.promptLen + seeds);
      }
    }
  }

  lemma NotEnded(cfg: Config, s: Sequence, from: nat)
    requires Unstopped(cfg, s, from) && !IsFinished(s)
    ensures !Ended(cfg, s, from)
  {
    hide Complete;
  }

  lemma EvolvedSpeech(cfg: Config, s: Sequence, t: Sequence)
    requires cfg.blockSize > 0 && Evolved(cfg, s, t)
    ensures SameSpeech(s, t) && IsFinished(t) == IsFinished(s)
  {}

  lemma SampledActive(cfg: Config, seqs: map<SeqId, Sequence>, plan: Plan, id: SeqId)
    requires cfg.blockSize > 0 && PlanOk(cfg, seqs, plan) && id in plan.sampledSeqs && id in seqs
    ensures !IsFinished(seqs[id])
  {
    assert id in plan.batchSeqs;
    var i :| 0 <= i < |plan.batchSeqs| && plan.batchSeqs[i] == id;
    assert RowOk(cfg, seqs[id], plan.batch, i);
  }

  lemma ForkStops(cfg: Config, w: World, parent: SeqId, tokens: seq<u32>, u: Sched, kv: Cache, id: SeqId, seeds: nat)
    requires w.flight.None? && parent in w.st.seqs && w.st.seqs[parent].promptLen <= |w.st.seqs[parent].tokens|
    requires Choices(cfg, w.st, w.st.seqs[parent], tokens, u) && StopsAt(cfg, w, id, seeds) && BornWith(w, ForkAt(parent, tokens), id, seeds)
    ensures StopsAt(cfg, World(u, kv, w.flight), id, seeds)
  {
    hide Unstopped, Ended;
    if id in u.seqs && id !in w.st.seqs {
      assert Choice(w.st.seqs[parent], tokens[id - w.st.nextId], u.seqs[id]);
      NewUnstopped(cfg, u.seqs[id]);
    }
  }

  lemma BornByAdmission(w: World, step: Step, id: SeqId, seeds: nat)
    requires BornWith(w, step, id, seeds) && step.AdmitRequest? && id == w.st.nextId
    ensures seeds == 0
  {}

  lemma OnlyFinishedIds(st: Sched, t: Sched)
    requires OnlyFinished(st, t)
    ensures forall id :: id in t.seqs ==> id in st.seqs
  {}

  lemma DrainIds(st: Sched)
    ensures forall id :: id in Drain(st).seqs ==> id in st.seqs
  {
    DrainKeeps(st.(finished := []), st.finished);
  }

  lemma TakeStops(cfg: Config, w: World, step: Step, id: SeqId, seeds: nat)
    requires WorldOk(cfg, w) && cfg.blockSize > 0 && StopsAt(cfg, w, id, seeds) && Enabled(cfg, w, step) && BornWith(w, step, id, seeds)
    ensures StopsAt(cfg, Take(cfg, w, step), id, seeds)
  {
    hide *;
    WorldParts(cfg, w);
    RoundParts(cfg, w.st);
    CoreParts(cfg, w.st);
    IdsBelow(w.st);
    TakeIs(cfg, w, step);
    EnabledIs(cfg, w, step);
    if w.flight.Some? {
      FlightParts(cfg, w.st, w.kv, w.flight.value);
    }
    match step
    case AdmitRequest(r, prompt, params, tenant) =>
      AdmitNew(cfg, w.st, r, prompt, params, tenant, id);
      AdmitBeside(cfg, w.st, r, prompt, params, tenant);
      if id == w.st.nextId {
        BornByAdmission(w, step, id, seeds);
      }
      BesideStops(cfg, w, Admit(cfg, w.st, r, prompt, params, tenant).0, id, seeds);
    case CancelRequest(r) =>
      FinishAllBeside(w.st, Listed(w.st.byRequest, r), Cancelled);
      FinishAllOnly(w.st, Listed(w.st.byRequest, r), Cancelled);
      OnlyFinishedIds(w.st, FinishAll(w.st, Listed(w.st.byRequest, r), Cancelled));
      BesideStops(cfg, w, FinishAll(w.st, Listed(w.st.byRequest, r), Cancelled), id, seeds);
    case FinishWith(o, reason) =>
      FinishBeside(w.st, o, reason);
      FinishOnly(w.st, o, reason);
      OnlyFinishedIds(w.st, Finish(w.st, o, reason));
      BesideStops(cfg, w, Finish(w.st, o, reason), id, seeds);
    case DrainFinished =>
      DrainBeside(w.st);
      DrainIds(w.st);
      BesideStops(cfg, w, Drain(w.st), id, seeds);
    case Launch =>
      LaunchIs(cfg, w);
      var (t, plan) := Schedule(cfg, w.st);
      ScheduleOk(cfg, w.st);
      SchedulePasses(cfg, w.st);
      PassedParts(cfg, w.st, t);
      var kv := Forward(w.kv, cfg.blockSize, plan.batch, 0);
      LaunchStops(cfg, w, t, plan, Flight(plan, Contexts(kv, cfg.blockSize, plan.batch)), kv, id, seeds);
    case Land(sampled) =>
      var plan := w.flight.value.plan;
      InFlightParts(cfg, w.st, plan);
      CommitIs(cfg, w.st, plan, sampled);
      LandStops(cfg, w, sampled, Commit(cfg, w.st, plan, sampled), id, seeds);
    case ForkAt(parent, tokens) =>
      ForkStepOk(cfg, w.st, w.kv, parent, tokens);
      PromptInside(cfg, w.st.seqs[parent]);
      var (u, kv, _) := ForkStep(cfg, w.st, w.kv, parent, tokens);
      ForkStops(cfg, w, parent, tokens, u, kv, id, seeds);
  }

  // ---------------------------------------------------------------- the runs

  /** A legal run in which sequence `id`, if it comes into being, does so with `seeds` tokens. */
  ghost predicate RunBearing(cfg: Config, w: World, steps: seq<Step>, id: SeqId, seeds: nat)
    requires cfg.blockSize > 0
    decreases |steps|
  {
    steps == []
    || (Enabled(cfg, w, steps[0]) && BornWith(w, steps[0], id, seeds) && RunBearing(cfg, Take(cfg, w, steps[0]), steps[1..], id, seeds))
  }

  lemma BearingParts(cfg: Config, w: World, steps: seq<Step>, id: SeqId, seeds: nat)
    requires cfg.blockSize > 0 && RunBearing(cfg, w, steps, id, seeds) && steps != []
    ensures Enabled(cfg, w, steps[0]) && BornWith(w, steps[0], id, seeds) && RunBearing(cfg, Take(cfg, w, steps[0]), steps[1..], id, seeds)
  {}

  lemma {:induction false} RunStops(cfg: Config, w: World, steps: seq<Step>, id: SeqId, seeds: nat)
    requires WorldOk(cfg, w) && cfg.blockSize > 0 && StopsAt(cfg, w, id, seeds) && RunBearing(cfg, w, steps, id, seeds)
    ensures StopsAt(cfg, Play(cfg, w, steps), id, seeds)
    decreases |steps|
  {
    hide *;
    LegalParts(cfg, w, steps);
    if steps != [] {
      BearingParts(cfg, w, steps, id, seeds);
      TakeOk(cfg, w, steps[0]);
      TakeStops(cfg, w, steps[0], id, seeds);
      RunStops(cfg, Take(cfg, w, steps[0]), steps[1..], id, seeds);
    }
  }

  lemma BootStops(cfg: Config, w: World, id: SeqId, seeds: nat)
    requires Boot(cfg, w)
    ensures StopsAt(cfg, w, id, seeds)
  {}

  lemma EarlierEnd(cfg: Config, s: Sequence, n: nat)
    requires s.promptLen < n <= |s.tokens| && !Complete(cfg, Earlier(s, n))
    ensures !StopToken(cfg, s.params, s.tokens[n - 1]) && n < s.promptLen + s.params.maxTokens && n < cfg.maxContext
  {
    assert Upto(s.tokens, n)[n - 1] == s.tokens[n - 1];
  }

  /** Over any run, and whatever was sampled: past its prompt and the token it was born with, a text holds no
      end-of-text and no stop token before its last position, and is within both lengths there; and a sequence that has
      not finished holds none at all. */
  lemma NothingAfterTheEnd(cfg: Config, w0: World, steps: seq<Step>, id: SeqId, seeds: nat, p: nat)
    requires Boot(cfg, w0) && cfg.blockSize > 0 && RunBearing(cfg, w0, steps, id, seeds) && id in Play(cfg, w0, steps).st.seqs
    requires var s := Play(cfg, w0, steps).st.seqs[id]; s.promptLen + seeds <= p < |s.tokens| && (p + 1 < |s.tokens| || !IsFinished(s))
    ensures var s := Play(cfg, w0, steps).st.seqs[id];
      s.tokens[p] !in cfg.eos && s.tokens[p] !in s.params.stopTokenIds
      && p + 1 < s.promptLen + s.params.maxTokens && p + 1 < cfg.maxContext
  {
    hide *;
    BootOk(cfg, w0);
    BootStops(cfg, w0, id, seeds);
    RunStops(cfg, w0, steps, id, seeds);
    var w := Play(cfg, w0, steps);
    StopsOf(cfg, w, id, seeds);
    UnstoppedAt(cfg, w.st.seqs[id], w.st.seqs[id].promptLen + seeds, p + 1);
    EarlierEnd(cfg, w.st.seqs[id], p + 1);
    NoStop(cfg, w.st.seqs[id].params, w.st.seqs[id].tokens[p]);
  }

  lemma NoStop(cfg: Config, params: Params, token: u32)
    ensures StopToken(cfg, params, token) <==> token in cfg.eos || token in params.stopTokenIds
  {}

  lemma UnstoppedAt(cfg: Config, s: Sequence, from: nat, n: nat)
    requires Unstopped(cfg, s, from) && from < n && (n < |s.tokens| || (n == |s.tokens| && !IsFinished(s)))
    ensures s.promptLen < n <= |s.tokens| && !Complete(cfg, Earlier(s, n))
  {
    if n == |s.tokens| {
      assert Upto(s.tokens, n) == s.tokens;
      SameComplete(cfg, s, Earlier(s, n));
    }
  }
}
