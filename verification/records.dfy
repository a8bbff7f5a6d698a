/**
 * The records the dispatcher reads. Only the attributes the dispatcher
 * touches are kept; associations that point back to an owner
 * (`approval.proposal`, `comment.proposal`, `cart.proposal`) are passed
 * explicitly next to the record instead of being stored in it.
 */
module Records {

  /** An e-mail address as handed to the mailer. */
  type Address = string

  type CartId = nat
  type ApprovalId = nat
  type CommentId = nat

  /** A user, of whom the dispatcher only reads the e-mail address. */
  datatype User = User(emailAddress: Address)

  /** A non-approving watcher of a cart. */
  datatype Observation = Observation(userEmailAddress: Address)

  /** One approver's slot on a cart; a rejection is such a record too. */
  datatype Approval = Approval(id: ApprovalId, userEmailAddress: Address)

  /** A cart with its watchers and the approvals that rejected it, oldest first. */
  datatype Cart = Cart(id: CartId, observations: seq<Observation>, rejections: seq<Approval>)

  /** A proposal: its approval flow, its client tag and the cart it owns. */
  datatype Proposal = Proposal(flow: string, client: string, cart: Cart)

  /** A comment and the users who listen to it. */
  datatype Comment = Comment(id: CommentId, listeners: seq<User>)
}
