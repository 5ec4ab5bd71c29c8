/** From a proposal as it is offered to a submission: the depth and size preflights. */
module Submissions {
  import opened Wrappers
  import opened Domain
  import opened Ledger
  import D = JsonDepth

  const MAX_PROPOSAL_DEPTH: nat := 64
  const MAX_PROPOSAL_BYTES: nat := 1024 * 1024

  /** A proposal whose encoding succeeded: the containers it is made of and the size it encodes to. */
  datatype Offer = Offer(proposal: Proposal, containers: D.Graph, root: D.Item, encodedBytes: nat)

  ghost predicate Whole(o: Offer) {
    D.Closed(o.containers) && D.Known(o.containers, o.root)
  }

  ghost function Submitted(o: Offer): Submission
    requires Whole(o)
  {
    Encoded(o.proposal, D.Search(o.containers, o.root, 0, {}, MAX_PROPOSAL_DEPTH), o.encodedBytes > MAX_PROPOSAL_BYTES)
  }

  method Submit(o: Offer) returns (s: Submission)
    requires Whole(o)
    ensures s == Submitted(o)
  {
    var tooDeep := D.JsonDepthExceeds(o.containers, o.root, MAX_PROPOSAL_DEPTH);
    s := Encoded(o.proposal, tooDeep, o.encodedBytes > MAX_PROPOSAL_BYTES);
  }

  /** Why the preflights refuse an offer without cycles, if they do: it nests too deeply or, if not,
      its encoding is too long. */
  function Refusal(nesting: nat, encodedBytes: nat): Option<Code> {
    if nesting > MAX_PROPOSAL_DEPTH then Some(ProposalTooDeep)
    else if encodedBytes > MAX_PROPOSAL_BYTES then Some(ProposalTooLarge)
    else None
  }

  /** A commit refuses an offer for its nesting or its size before it looks at anything else, its key
      included: one more receipt and nothing else changes. Only an offer within both limits is accepted. */
  lemma PreflightBoundsNesting(env: Env, state: State, o: Offer, rank: map<nat, nat>)
    requires Whole(o) && D.Ranked(o.containers, rank)
    ensures
      var refusal := Refusal(D.Nesting(o.containers, rank, o.root), o.encodedBytes);
      var (after, receipt) := Commit(env, state, Submitted(o));
      && Preflight(Submitted(o)) == refusal
      && (refusal.Some? ==>
            after == state.(receipts := state.receipts + [receipt])
            && receipt.outcome == ValidationError && receipt.reasons == [refusal.value])
      && (Accepts(env, state, Submitted(o)) ==> refusal.None?)
  {
    D.ExceedsExactlyOnDeepValues(o.containers, rank, o.root, MAX_PROPOSAL_DEPTH);
  }
}
