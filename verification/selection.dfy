/** `Dispatcher.initialize_dispatcher`: which dispatcher class handles a proposal. */
module Selection {
  import opened Wrappers
  import opened Records
  import opened Dispatch

  /** The client tag that turns a linear proposal over to the NCR dispatcher. */
  const NcrClient: string := "ncr"

  /**
   * Parallel flow picks the parallel dispatcher whatever the client; linear
   * flow picks the NCR dispatcher for the NCR client and the linear one
   * otherwise; any other flow matches no branch and yields nothing.
   */
  function InitializeDispatcher(proposal: Proposal): (r: Option<PolicyKind>)
    ensures r == Some(Parallel) <==> proposal.flow == "parallel"
    ensures r == Some(Ncr) <==> proposal.flow == "linear" && proposal.client == NcrClient
    ensures r == Some(Linear) <==> proposal.flow == "linear" && proposal.client != NcrClient
    ensures r == None <==> proposal.flow != "parallel" && proposal.flow != "linear"
  {
    match proposal.flow
    case "parallel" => Some(Parallel)
    case "linear" => if proposal.client == NcrClient then Some(Ncr) else Some(Linear)
    case _ => None
  }

  /** The flow string that each dispatcher class serves. */
  function FlowOf(kind: PolicyKind): string
  {
    match kind
    case Parallel => "parallel"
    case Linear => "linear"
    case Ncr => "linear"
  }

  /** A selected dispatcher serves the proposal's flow, and NCR is chosen by client alone. */
  lemma SelectionServesFlow(proposal: Proposal, kind: PolicyKind)
    requires InitializeDispatcher(proposal) == Some(kind)
    ensures proposal.flow == FlowOf(kind)
    ensures kind != Parallel ==> (kind == Ncr <==> proposal.client == NcrClient)
  {
  }

  /** Every dispatcher class is reached by a proposal of its flow. */
  lemma EveryKindSelectable(kind: PolicyKind, cart: Cart)
    ensures InitializeDispatcher(Proposal(FlowOf(kind), if kind == Ncr then NcrClient else "", cart)) == Some(kind)
  {
  }

  /** The client tag matters only for linear flow. */
  lemma ClientMattersOnlyForLinear(proposal: Proposal, client: string)
    requires proposal.flow != "linear"
    ensures InitializeDispatcher(proposal.(client := client)) == InitializeDispatcher(proposal)
  {
  }
}
