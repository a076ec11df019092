/** What the mask means for a document: which tokens are left to draw in a state the machine has reached. */
module Drawing {
  import opened Prelude
  import opened Machines
  import opened Closing
  import opened Masking

  /** The text goes on to a complete document. */
  ghost predicate Completes(nodes: Arena, m: Machine, text: string) {
    exists rest :: Push(nodes, m, text + rest).Some? && Machines.Complete(Push(nodes, m, text + rest).value)
  }

  /** The text leads to a state that the caps, and not the schema, keep from completion. */
  ghost predicate LeadsAstray(nodes: Arena, rank: seq<nat>, m: Machine, text: string) {
    Push(nodes, m, text).Some? && Viable(nodes, Push(nodes, m, text).value) && Stranded(nodes, rank, Push(nodes, m, text).value)
  }

  lemma CompletesIs(nodes: Arena, m: Machine, text: string)
    ensures Completes(nodes, m, text) <==>
      Push(nodes, m, text).Some? && exists rest ::
        Push(nodes, Push(nodes, m, text).value, rest).Some? && Machines.Complete(Push(nodes, Push(nodes, m, text).value, rest).value)
  {
    hide Push, Machines.Complete;
    if Completes(nodes, m, text) {
      var rest :| Push(nodes, m, text + rest).Some? && Machines.Complete(Push(nodes, m, text + rest).value);
      PushConcat(nodes, m, text, rest);
    }
    if Push(nodes, m, text).Some? {
      var x := Push(nodes, m, text).value;
      if exists rest :: Push(nodes, x, rest).Some? && Machines.Complete(Push(nodes, x, rest).value) {
        var rest :| Push(nodes, x, rest).Some? && Machines.Complete(Push(nodes, x, rest).value);
        PushConcat(nodes, m, text, rest);
        assert Push(nodes, m, text + rest) == Push(nodes, x, rest);
      }
    }
  }

  /** A text is allowed if and only if it can be completed, or only the caps stand in the way. */
  lemma AllowsIff(nodes: Arena, rank: seq<nat>, before: string, text: string)
    requires WellFormed(nodes, rank) && Push(nodes, NewMachine(), before).Some?
    ensures var m := Push(nodes, NewMachine(), before).value;
      Allows(nodes, m, text) <==> Completes(nodes, m, text) || LeadsAstray(nodes, rank, m, text)
  {
    hide *;
    var m := Push(nodes, NewMachine(), before).value;
    PushConcat(nodes, NewMachine(), before, text);
    CompletesIs(nodes, m, text);
    AllowsIs(nodes, rank, m, text);
    if Push(nodes, m, text).Some? {
      ViabilityIsExact(nodes, rank, before + text);
    }
  }

  lemma AllowsIs(nodes: Arena, rank: seq<nat>, m: Machine, text: string)
    ensures Allows(nodes, m, text) <==> Push(nodes, m, text).Some? && Viable(nodes, Push(nodes, m, text).value)
    ensures LeadsAstray(nodes, rank, m, text) <==> Allows(nodes, m, text) && Stranded(nodes, rank, Push(nodes, m, text).value)
  {
    hide Push, Viable, Stranded;
  }

  /** Token `k` goes on to a complete document, or only the caps keep it from one. */
  ghost predicate Goes(nodes: Arena, rank: seq<nat>, m: Machine, texts: seq<string>, k: nat) {
    k < |texts| && texts[k] != "" && (Completes(nodes, m, texts[k]) || LeadsAstray(nodes, rank, m, texts[k]))
  }

  lemma GoesIff(nodes: Arena, rank: seq<nat>, before: string, texts: seq<string>, k: nat)
    requires WellFormed(nodes, rank) && Push(nodes, NewMachine(), before).Some?
    ensures Allowed(nodes, Push(nodes, NewMachine(), before).value, texts, k) <==> Goes(nodes, rank, Push(nodes, NewMachine(), before).value, texts, k)
  {
    hide Push, Allows, Completes, LeadsAstray, WellFormed;
    if k < |texts| {
      AllowsIff(nodes, rank, before, texts[k]);
    }
  }

  lemma MaskedAt(nodes: Arena, m: Machine, texts: seq<string>, eos: seq<nat>, logits: seq<Logit>, i: nat)
    requires i < |logits| && logits[i] != NegInf
    ensures Masked(nodes, m, texts, eos, logits)[i] != NegInf <==>
      if i in eos then Machines.Complete(m) || forall k: nat :: k < |logits| ==> !Allowed(nodes, m, texts, k)
      else !Machines.Complete(m) && Allowed(nodes, m, texts, i)
    ensures Masked(nodes, m, texts, eos, logits)[i] == logits[i] || Masked(nodes, m, texts, eos, logits)[i] == NegInf
  {
    hide Allowed, Machines.Complete;
  }

  /** The tokens left to draw: once the document is complete, the ends of turn; until then every other token that goes
      on to a complete document, or that only the caps keep from one; and the ends of turn again where there is none. */
  lemma DrawnIff(nodes: Arena, rank: seq<nat>, before: string, texts: seq<string>, eos: seq<nat>, logits: seq<Logit>, i: nat)
    requires WellFormed(nodes, rank) && Push(nodes, NewMachine(), before).Some? && i < |logits| && logits[i] != NegInf
    ensures var m := Push(nodes, NewMachine(), before).value;
      var drawn := Masked(nodes, m, texts, eos, logits)[i];
      (drawn == logits[i] || drawn == NegInf)
      && (drawn != NegInf <==>
            if i in eos then Machines.Complete(m) || forall k: nat :: k < |logits| ==> !Goes(nodes, rank, m, texts, k)
            else !Machines.Complete(m) && Goes(nodes, rank, m, texts, i))
  {
    hide *;
    var m := Push(nodes, NewMachine(), before).value;
    MaskedAt(nodes, m, texts, eos, logits, i);
    forall k: nat ensures Allowed(nodes, m, texts, k) <==> Goes(nodes, rank, m, texts, k) {
      GoesIff(nodes, rank, before, texts, k);
    }
  }

  /** Near the end of the budget, a token closes something if and only if it is allowed and leaves the document complete
      or fewer containers open: fewer frames, not counting a value on top. */
  lemma ClosesIff(nodes: Arena, m: Machine, text: string)
    requires Sane(nodes, m) && Push(nodes, m, text).Some?
    ensures var x := Push(nodes, m, text).value;
      Closes(nodes, m, text) <==> Allows(nodes, m, text) && (Machines.Complete(x) || Open(x) < Open(m))
  {
    PushSane(nodes, m, text);
    hide Push, Viable, Sane, Machines.Complete;
    DepthIs(nodes, m);
    DepthIs(nodes, Push(nodes, m, text).value);
  }

  function Open(m: Machine): nat {
    if m.stack == [] then 0 else |m.stack| - if Container(Top(m)) then 0 else 1
  }

  /** The tokens left near the end of the budget: those that close something; the mask's, if none does or nothing needs
      closing. */
  lemma FinishingDrawnIff(nodes: Arena, m: Machine, texts: seq<string>, eos: seq<nat>, logits: seq<Logit>, i: nat)
    requires i < |logits| && logits[i] != NegInf
    ensures var drawn := Finishing(nodes, m, texts, eos, logits)[i];
      if !Machines.Complete(m) && exists k: nat :: k < |logits| && Closer(nodes, m, texts, k)
      then (drawn == logits[i] || drawn == NegInf) && (drawn != NegInf <==> i !in eos && Closer(nodes, m, texts, i))
      else drawn == Masked(nodes, m, texts, eos, logits)[i]
  {
    hide Closer, Machines.Complete, Masked;
  }
}
