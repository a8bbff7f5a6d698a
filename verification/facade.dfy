/**
 * The class side of `Dispatcher`: every entry point selects a dispatcher for
 * the proposal and delegates to it. When the selector yields nothing the Ruby
 * code calls the handler on `nil`, which raises before any mail is sent; that
 * is `Failure(NoDispatcher(flow))` here.
 */
module Facade {
  import opened Wrappers
  import opened Records
  import opened Outbox
  import Dispatch
  import opened Selection

  /** The error raised when no dispatcher class matches the proposal's flow. */
  datatype DispatchError = NoDispatcher(flow: string)

  function DeliverNewCartEmails(proposal: Proposal): (r: Result<seq<Effect>, DispatchError>)
    ensures r.Failure? <==> InitializeDispatcher(proposal).None?
    ensures r.Failure? ==> r.error == NoDispatcher(proposal.flow)
    ensures r.Success? ==> r.value == Dispatch.DeliverNewCartEmails(proposal.cart)
  {
    match InitializeDispatcher(proposal)
    case None => Failure(NoDispatcher(proposal.flow))
    case Some(_) => Success(Dispatch.DeliverNewCartEmails(proposal.cart))
  }

  function OnProposalRejected(proposal: Proposal): (r: Result<seq<Effect>, DispatchError>)
    requires InitializeDispatcher(proposal).Some? ==> |proposal.cart.rejections| > 0
    ensures r.Failure? <==> InitializeDispatcher(proposal).None?
    ensures r.Failure? ==> r.error == NoDispatcher(proposal.flow)
    ensures r.Success? ==> r.value == Dispatch.OnProposalRejected(proposal)
  {
    match InitializeDispatcher(proposal)
    case None => Failure(NoDispatcher(proposal.flow))
    case Some(_) => Success(Dispatch.OnProposalRejected(proposal))
  }

  function OnApprovalApproved(approval: Approval, proposal: Proposal, rules: Dispatch.NoticeRules): (r: Result<seq<Effect>, DispatchError>)
    ensures r.Failure? <==> InitializeDispatcher(proposal).None?
    ensures r.Failure? ==> r.error == NoDispatcher(proposal.flow)
    ensures r.Success? ==> r.value == Dispatch.OnApprovalApproved(
      Dispatch.Instantiate(InitializeDispatcher(proposal).value, rules), approval, proposal.cart)
  {
    match InitializeDispatcher(proposal)
    case None => Failure(NoDispatcher(proposal.flow))
    case Some(kind) => Success(Dispatch.OnApprovalApproved(Dispatch.Instantiate(kind, rules), approval, proposal.cart))
  }

  function OnCommentCreated(comment: Comment, proposal: Proposal): (r: Result<seq<Effect>, DispatchError>)
    ensures r.Failure? <==> InitializeDispatcher(proposal).None?
    ensures r.Failure? ==> r.error == NoDispatcher(proposal.flow)
    ensures r.Success? ==> r.value == Dispatch.OnCommentCreated(comment)
  {
    match InitializeDispatcher(proposal)
    case None => Failure(NoDispatcher(proposal.flow))
    case Some(_) => Success(Dispatch.OnCommentCreated(comment))
  }

  function EmailApprover(approval: Approval, proposal: Proposal): (r: Result<seq<Effect>, DispatchError>)
    ensures r.Failure? <==> InitializeDispatcher(proposal).None?
    ensures r.Failure? ==> r.error == NoDispatcher(proposal.flow)
    ensures r.Success? ==> r.value == Dispatch.EmailApprover(approval)
    ensures r.Success? ==> r.value[0] == CreateApiToken(approval.id) && Count(r.value, IsToken) == 1
  {
    match InitializeDispatcher(proposal)
    case None => Failure(NoDispatcher(proposal.flow))
    case Some(_) => Success(Dispatch.EmailApprover(approval))
  }

  function OnProposalUpdate(proposal: Proposal): (r: Result<seq<Effect>, DispatchError>)
    ensures r.Failure? <==> InitializeDispatcher(proposal).None?
    ensures r.Failure? ==> r.error == NoDispatcher(proposal.flow)
    ensures r.Success? ==> r.value == []
  {
    match InitializeDispatcher(proposal)
    case None => Failure(NoDispatcher(proposal.flow))
    case Some(_) => Success(Dispatch.OnProposalUpdate(proposal))
  }

  /** A lifecycle event as the rest of the application reports it to the facade. */
  datatype Event =
    | CartCreated(proposal: Proposal)
    | ProposalRejected(proposal: Proposal)
    | ApprovalApproved(approval: Approval, proposal: Proposal)
    | CommentCreated(comment: Comment, proposal: Proposal)
    | ApproverReminded(approval: Approval, proposal: Proposal)
    | ProposalUpdated(proposal: Proposal)

  /**
   * A rejection reaches a selected dispatcher only once the cart carries one;
   * with no dispatcher selected the facade raises before reading the cart.
   */
  predicate Admissible(e: Event)
  {
    e.ProposalRejected? && InitializeDispatcher(e.proposal).Some? ==> |e.proposal.cart.rejections| > 0
  }

  /** The facade entry point for `e`. */
  function Handle(e: Event, rules: Dispatch.NoticeRules): (r: Result<seq<Effect>, DispatchError>)
    requires Admissible(e)
    ensures r.Failure? <==> InitializeDispatcher(e.proposal).None?
    ensures r.Failure? ==> r.error == NoDispatcher(e.proposal.flow)
  {
    match e
    case CartCreated(p) => DeliverNewCartEmails(p)
    case ProposalRejected(p) => OnProposalRejected(p)
    case ApprovalApproved(a, p) => OnApprovalApproved(a, p, rules)
    case CommentCreated(c, p) => OnCommentCreated(c, p)
    case ApproverReminded(a, p) => EmailApprover(a, p)
    case ProposalUpdated(p) => OnProposalUpdate(p)
  }

  /** With every class using the base handlers, only an approver reminder creates a token or mails an approver. */
  lemma HandleTokens(e: Event, rules: Dispatch.NoticeRules)
    requires Admissible(e)
    requires !e.ApproverReminded?
    ensures Handle(e, rules).Success? ==>
      Count(Handle(e, rules).value, IsToken) == 0 && Count(Handle(e, rules).value, IsApproverMail) == 0
  {
    if Handle(e, rules).Success? {
      match e
      case CartCreated(p) => Dispatch.NewCartCounts(p.cart);
      case ProposalRejected(p) => Dispatch.RejectedCounts(p);
      case ApprovalApproved(a, p) =>
        Dispatch.ApprovedCounts(Dispatch.Instantiate(InitializeDispatcher(p).value, rules), a, p.cart);
      case CommentCreated(c, p) => Dispatch.CommentCounts(c);
      case ProposalUpdated(p) =>
    }
  }

  /**
   * The outbox after the facade handled `events` one request at a time; a
   * request that raised hands nothing to the mailer.
   */
  function Replay(events: seq<Event>, rules: Dispatch.NoticeRules): (log: seq<Effect>)
    requires forall i :: 0 <= i < |events| ==> Admissible(events[i])
  {
    if |events| == 0 then []
    else
      var last := events[|events| - 1];
      var before := Replay(events[..|events| - 1], rules);
      match Handle(last, rules)
      case Success(es) => before + es
      case Failure(_) => before
  }

  /** With every class using the base handlers, every entry point's output keeps the token-before-notification discipline. */
  lemma HandleKeepsDiscipline(e: Event, rules: Dispatch.NoticeRules)
    requires Admissible(e)
    ensures Handle(e, rules).Success? ==> NotifiedAfterToken(Handle(e, rules).value)
  {
    if Handle(e, rules).Success? && !e.ApproverReminded? {
      HandleTokens(e, rules);
    }
  }

  /**
   * With every class using the base handlers, no approver is ever mailed
   * before a token was issued for that approval.
   */
  lemma {:induction false} ReplayKeepsDiscipline(events: seq<Event>, rules: Dispatch.NoticeRules)
    requires forall i :: 0 <= i < |events| ==> Admissible(events[i])
    ensures NotifiedAfterToken(Replay(events, rules))
  {
    if |events| > 0 {
      var last := events[|events| - 1];
      ReplayKeepsDiscipline(events[..|events| - 1], rules);
      HandleKeepsDiscipline(last, rules);
      var before := Replay(events[..|events| - 1], rules);
      if Handle(last, rules).Success? {
        AppendKeepsDiscipline(before, Handle(last, rules).value);
      }
    }
  }

  /**
   * An event whose proposal selects no dispatcher leaves the outbox as it was;
   * so does an update, with every class using the base update handler.
   */
  lemma SilentEvents(events: seq<Event>, e: Event, rules: Dispatch.NoticeRules)
    requires forall i :: 0 <= i < |events| ==> Admissible(events[i])
    requires Admissible(e)
    requires e.ProposalUpdated? || InitializeDispatcher(e.proposal).None?
    ensures Replay(events + [e], rules) == Replay(events, rules)
  {
    assert (events + [e])[..|events|] == events;
  }

  /**
   * With every class using the base handlers and the base notice rule, an
   * approval's first mail is the reply notice, followed by the observer mails.
   */
  lemma BaseRulesAlwaysNotice(approval: Approval, proposal: Proposal)
    requires InitializeDispatcher(proposal).Some?
    ensures var r := OnApprovalApproved(approval, proposal, Dispatch.BaseRules());
      r.Success? && |r.value| == |proposal.cart.observations| + 1
      && r.value[0] == Deliver(ApprovalReplyReceivedEmail(approval))
  {
  }
}
