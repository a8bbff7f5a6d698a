/**
 * The instance side of `Dispatcher`: the handlers every dispatch policy
 * inherits. Each handler returns, in order, the effects it hands to the
 * mailer for one lifecycle event.
 */
module Dispatch {
  import opened Records
  import opened Outbox

  /** The three dispatcher classes the selector can instantiate. */
  datatype PolicyKind = Parallel | Linear | Ncr

  /**
   * A dispatcher instance: the class it belongs to and its
   * `requires_approval_notice?` rule, which a subclass may override.
   */
  datatype Dispatcher = Dispatcher(kind: PolicyKind, requiresApprovalNotice: Approval -> bool)

  /** Each dispatcher class's `requires_approval_notice?` rule. */
  type NoticeRules = PolicyKind -> Approval -> bool

  /** The rules when no class overrides the base one: every approval is noticed. */
  function BaseRules(): (rules: NoticeRules)
    ensures forall k: PolicyKind, a: Approval :: rules(k)(a)
  {
    (k: PolicyKind) => (a: Approval) => true
  }

  /** A new instance of the class `kind`, with that class's notice rule. */
  function Instantiate(kind: PolicyKind, rules: NoticeRules): (d: Dispatcher)
    ensures d.kind == kind
    ensures forall a: Approval :: d.requiresApprovalNotice(a) == rules(kind)(a)
  {
    Dispatcher(kind, rules(kind))
  }

  /** An instance of `kind` that keeps the base class's rule. */
  function BaseDispatcher(kind: PolicyKind): (d: Dispatcher)
    ensures d.kind == kind
    ensures forall a: Approval :: d.requiresApprovalNotice(a)
  {
    Instantiate(kind, BaseRules())
  }

  /** One delivered mail per element of `xs`, in the order of `xs`. */
  function FanOut<T>(xs: seq<T>, mail: T -> Mail): (r: seq<Effect>)
    ensures |r| == |xs|
    ensures forall i :: 0 <= i < |xs| ==> r[i] == Deliver(mail(xs[i]))
  {
    if |xs| == 0 then [] else [Deliver(mail(xs[0]))] + FanOut(xs[1..], mail)
  }

  /** Notifies the approver: a fresh token first, then the approver mail. */
  function EmailApprover(approval: Approval): (r: seq<Effect>)
    ensures |r| == 2
    ensures r[0] == CreateApiToken(approval.id)
    ensures IsApproverMail(r[1]) && r[1].mail.approval == approval
    ensures r[1].mail.to == approval.userEmailAddress
    ensures NotifiedAfterToken(r)
  {
    [CreateApiToken(approval.id)] + SendNotificationEmail(approval)
  }

  /** One observer mail per observation, addressed to it, in observation order. */
  function EmailObservers(cart: Cart): (r: seq<Effect>)
    ensures |r| == |cart.observations|
    ensures forall i :: 0 <= i < |r| ==>
      r[i] == Deliver(CartObserverEmail(cart.observations[i].userEmailAddress, cart.id))
  {
    FanOut(cart.observations, (o: Observation) => CartObserverEmail(o.userEmailAddress, cart.id))
  }

  /** The requester's confirmation that the cart was created. */
  function EmailSentConfirmation(cart: Cart): (r: seq<Effect>)
    ensures |r| == 1 && IsConfirmation(r[0]) && r[0].mail.cart == cart.id
  {
    [Deliver(ProposalCreatedConfirmation(cart.id))]
  }

  /** New cart: the observer mails, then exactly one creation confirmation. */
  function DeliverNewCartEmails(cart: Cart): (r: seq<Effect>)
    ensures |r| == |cart.observations| + 1
    ensures r[..|cart.observations|] == EmailObservers(cart)
    ensures r[|cart.observations|] == Deliver(ProposalCreatedConfirmation(cart.id))
  {
    EmailObservers(cart) + EmailSentConfirmation(cart)
  }

  /**
   * Rejection: the reply mail built from the cart's first rejection, then the
   * observer mails. The cart must carry a rejection.
   */
  function OnProposalRejected(proposal: Proposal): (r: seq<Effect>)
    requires |proposal.cart.rejections| > 0
    ensures |r| == |proposal.cart.observations| + 1
    ensures r[0] == Deliver(ApprovalReplyReceivedEmail(proposal.cart.rejections[0]))
    ensures r[1..] == EmailObservers(proposal.cart)
  {
    var cart := proposal.cart;
    var rejection := cart.rejections[0];
    [Deliver(ApprovalReplyReceivedEmail(rejection))] + EmailObservers(cart)
  }

  /**
   * Approval: a reply mail about `approval` first when the dispatcher's rule
   * asks for one, then the observer mails of the approval's cart.
   */
  function OnApprovalApproved(d: Dispatcher, approval: Approval, cart: Cart): (r: seq<Effect>)
    ensures var n := if d.requiresApprovalNotice(approval) then 1 else 0;
      |r| == n + |cart.observations| && r[n..] == EmailObservers(cart)
    ensures Deliver(ApprovalReplyReceivedEmail(approval)) in r <==> d.requiresApprovalNotice(approval)
    ensures d.requiresApprovalNotice(approval) ==> r[0] == Deliver(ApprovalReplyReceivedEmail(approval))
  {
    var notice := if d.requiresApprovalNotice(approval)
      then [Deliver(ApprovalReplyReceivedEmail(approval))] else [];
    notice + EmailObservers(cart)
  }

  /** Comment: one comment mail per listener, addressed to that listener, in listener order. */
  function OnCommentCreated(comment: Comment): (r: seq<Effect>)
    ensures |r| == |comment.listeners|
    ensures forall i :: 0 <= i < |r| ==>
      r[i] == Deliver(CommentAddedEmail(comment.id, comment.listeners[i].emailAddress))
  {
    FanOut(comment.listeners, (u: User) => CommentAddedEmail(comment.id, u.emailAddress))
  }

  /** Update: the base dispatcher hands nothing to the mailer. */
  function OnProposalUpdate(proposal: Proposal): (r: seq<Effect>)
    ensures |r| == 0
  {
    []
  }

  /** The approver mail, addressed to the approval's user. */
  function SendNotificationEmail(approval: Approval): (r: seq<Effect>)
    ensures |r| == 1 && IsApproverMail(r[0])
    ensures r[0].mail.to == approval.userEmailAddress && r[0].mail.approval == approval
  {
    var email := approval.userEmailAddress;
    [Deliver(CartNotificationEmail(email, approval))]
  }

  // Counting properties: what each handler emits, and that it emits nothing else.

  /** The observer fan-out holds only observer mails. */
  lemma ObserversOnly(cart: Cart)
    ensures Count(EmailObservers(cart), IsObserverMail) == |cart.observations|
    ensures Count(EmailObservers(cart), IsToken) == 0
    ensures Count(EmailObservers(cart), IsReply) == 0
    ensures Count(EmailObservers(cart), IsConfirmation) == 0
    ensures Count(EmailObservers(cart), IsApproverMail) == 0
  {
    CountEvery(EmailObservers(cart), IsObserverMail);
  }

  /** A new cart yields one mail per observer and exactly one confirmation, and nothing else. */
  lemma NewCartCounts(cart: Cart)
    ensures var r := DeliverNewCartEmails(cart);
      && Count(r, IsObserverMail) == |cart.observations|
      && Count(r, IsConfirmation) == 1
      && Count(r, IsToken) == 0
      && Count(r, IsReply) == 0
      && Count(r, IsApproverMail) == 0
  {
    ObserversOnly(cart);
    var obs := EmailObservers(cart);
    var conf := EmailSentConfirmation(cart);
    CountAppend(obs, conf, IsObserverMail);
    CountAppend(obs, conf, IsConfirmation);
    CountAppend(obs, conf, IsToken);
    CountAppend(obs, conf, IsReply);
    CountAppend(obs, conf, IsApproverMail);
  }

  /** An approval yields a reply notice exactly when the rule asks, then the observer mails. */
  lemma ApprovedCounts(d: Dispatcher, approval: Approval, cart: Cart)
    ensures var r := OnApprovalApproved(d, approval, cart);
      && Count(r, IsReply) == (if d.requiresApprovalNotice(approval) then 1 else 0)
      && Count(r, IsObserverMail) == |cart.observations|
      && Count(r, IsToken) == 0
      && Count(r, IsApproverMail) == 0
  {
    ObserversOnly(cart);
    var notice := if d.requiresApprovalNotice(approval)
      then [Deliver(ApprovalReplyReceivedEmail(approval))] else [];
    var obs := EmailObservers(cart);
    assert OnApprovalApproved(d, approval, cart) == notice + obs;
    CountAppend(notice, obs, IsReply);
    CountAppend(notice, obs, IsObserverMail);
    CountAppend(notice, obs, IsToken);
    CountAppend(notice, obs, IsApproverMail);
  }

  /** Under the base rule the reply notice is always sent first. */
  lemma BaseApprovalAlwaysNotices(kind: PolicyKind, approval: Approval, cart: Cart)
    ensures var r := OnApprovalApproved(BaseDispatcher(kind), approval, cart);
      && |r| == |cart.observations| + 1
      && r[0] == Deliver(ApprovalReplyReceivedEmail(approval))
      && Count(r, IsReply) == 1
  {
    ApprovedCounts(BaseDispatcher(kind), approval, cart);
  }

  /** A rejection yields exactly one reply notice and the observer mails. */
  lemma RejectedCounts(proposal: Proposal)
    requires |proposal.cart.rejections| > 0
    ensures var r := OnProposalRejected(proposal);
      && Count(r, IsReply) == 1
      && Count(r, IsObserverMail) == |proposal.cart.observations|
      && Count(r, IsToken) == 0
      && Count(r, IsApproverMail) == 0
  {
    var cart := proposal.cart;
    ObserversOnly(cart);
    var head := [Deliver(ApprovalReplyReceivedEmail(cart.rejections[0]))];
    var obs := EmailObservers(cart);
    assert OnProposalRejected(proposal) == head + obs;
    CountAppend(head, obs, IsReply);
    CountAppend(head, obs, IsObserverMail);
    CountAppend(head, obs, IsToken);
    CountAppend(head, obs, IsApproverMail);
  }

  /** A comment yields only comment mails, one per listener. */
  lemma CommentCounts(comment: Comment)
    ensures Count(OnCommentCreated(comment), IsCommentMail) == |comment.listeners|
    ensures Count(OnCommentCreated(comment), IsToken) == 0
    ensures Count(OnCommentCreated(comment), IsApproverMail) == 0
  {
    CountEvery(OnCommentCreated(comment), IsCommentMail);
  }

  /** Adding an observer adds exactly one mail, at the end of the fan-out. */
  lemma {:induction false} ObserverAddedLast(cart: Cart, o: Observation)
    ensures EmailObservers(cart.(observations := cart.observations + [o]))
         == EmailObservers(cart) + [Deliver(CartObserverEmail(o.userEmailAddress, cart.id))]
  {
    var cart' := cart.(observations := cart.observations + [o]);
    var lhs := EmailObservers(cart');
    var rhs := EmailObservers(cart) + [Deliver(CartObserverEmail(o.userEmailAddress, cart.id))];
    assert |lhs| == |rhs|;
    forall i | 0 <= i < |lhs| ensures lhs[i] == rhs[i] {
      if i < |cart.observations| {
        assert cart'.observations[i] == cart.observations[i];
      }
    }
  }

  /**
   * The inherited approval handler reads the dispatcher's class only through
   * its notice rule: two instances with the same rule send the same mails,
   * whatever their classes.
   */
  lemma BaseHandlerReadsOnlyNoticeRule(d1: Dispatcher, d2: Dispatcher, approval: Approval, cart: Cart)
    requires d1.requiresApprovalNotice(approval) == d2.requiresApprovalNotice(approval)
    ensures OnApprovalApproved(d1, approval, cart) == OnApprovalApproved(d2, approval, cart)
  {
  }
}
