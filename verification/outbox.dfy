/**
 * The mailer, abstracted to an append-only log of effects. Every
 * `CommunicartMailer.<kind>(...).deliver` becomes a `Deliver` of the mail
 * with the arguments the dispatcher passes; issuing an approval's access
 * token becomes a `CreateApiToken` entry in the same log.
 */
module Outbox {
  import opened Records

  /** One mail per mailer template the dispatcher uses. */
  datatype Mail =
    | CartObserverEmail(to: Address, cart: CartId)
    | ProposalCreatedConfirmation(cart: CartId)
    | ApprovalReplyReceivedEmail(reply: Approval)
    | CommentAddedEmail(comment: CommentId, to: Address)
    | CartNotificationEmail(to: Address, approval: Approval)

  datatype Effect = CreateApiToken(approval: ApprovalId) | Deliver(mail: Mail)

  predicate IsToken(e: Effect) { e.CreateApiToken? }
  predicate IsObserverMail(e: Effect) { e.Deliver? && e.mail.CartObserverEmail? }
  predicate IsConfirmation(e: Effect) { e.Deliver? && e.mail.ProposalCreatedConfirmation? }
  predicate IsReply(e: Effect) { e.Deliver? && e.mail.ApprovalReplyReceivedEmail? }
  predicate IsCommentMail(e: Effect) { e.Deliver? && e.mail.CommentAddedEmail? }
  predicate IsApproverMail(e: Effect) { e.Deliver? && e.mail.CartNotificationEmail? }

  /** Number of effects in `es` that satisfy `p`. */
  function Count(es: seq<Effect>, p: Effect -> bool): (n: nat)
    ensures n <= |es|
    ensures n == 0 <==> forall i :: 0 <= i < |es| ==> !p(es[i])
  {
    if |es| == 0 then 0
    else
      var rest := Count(es[1..], p);
      assert forall i :: 1 <= i < |es| ==> es[i] == es[1..][i - 1];
      (if p(es[0]) then 1 else 0) + rest
  }

  lemma {:induction false} CountAppend(a: seq<Effect>, b: seq<Effect>, p: Effect -> bool)
    ensures Count(a + b, p) == Count(a, p) + Count(b, p)
  {
    if |a| == 0 {
      assert a + b == b;
    } else {
      assert (a + b)[1..] == a[1..] + b;
      CountAppend(a[1..], b, p);
    }
  }

  lemma {:induction false} CountEvery(es: seq<Effect>, p: Effect -> bool)
    requires forall i :: 0 <= i < |es| ==> p(es[i])
    ensures Count(es, p) == |es|
  {
    if |es| > 0 {
      assert forall i :: 0 <= i < |es[1..]| ==> es[1..][i] == es[i + 1];
      CountEvery(es[1..], p);
    }
  }

  /**
   * The approver-notification discipline: every approver notification in the
   * log is preceded by a token issued for that same approval.
   */
  ghost predicate NotifiedAfterToken(es: seq<Effect>)
  {
    forall i :: 0 <= i < |es| && IsApproverMail(es[i]) ==>
      exists j :: 0 <= j < i && es[j] == CreateApiToken(es[i].mail.approval.id)
  }

  /** Appending a log that keeps the discipline to one that keeps it keeps it. */
  lemma AppendKeepsDiscipline(log: seq<Effect>, es: seq<Effect>)
    requires NotifiedAfterToken(log)
    requires NotifiedAfterToken(es)
    ensures NotifiedAfterToken(log + es)
  {
    var all := log + es;
    forall i | 0 <= i < |all| && IsApproverMail(all[i])
      ensures exists j :: 0 <= j < i && all[j] == CreateApiToken(all[i].mail.approval.id)
    {
      if i < |log| {
        assert all[i] == log[i];
        var j :| 0 <= j < i && log[j] == CreateApiToken(log[i].mail.approval.id);
        assert all[j] == log[j];
      } else {
        var k := i - |log|;
        assert all[i] == es[k];
        var j :| 0 <= j < k && es[j] == CreateApiToken(es[k].mail.approval.id);
        assert all[|log| + j] == es[j];
      }
    }
  }
}
