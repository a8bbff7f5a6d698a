# Approval-notification dispatcher (C2) in Dafny

This project models the approval-notification dispatcher of the C2
procurement-approval application (`lib/dispatcher.rb`). When a proposal
(a cart) moves through its life, a cart is created, an approver approves,
the cart is rejected, someone comments, or an approver needs a reminder.
On each of these events the dispatcher decides which mails go to the mailer
and in what order. The class side first selects a dispatcher class from the
proposal's `flow` and `client`, then delegates to it.

The mailer is modelled as an append-only log of effects. Each
`CommunicartMailer.<template>(...).deliver` is a `Deliver(mail)` entry, and
the mail carries the arguments the dispatcher passes. Issuing an approval's
access token (`create_api_token!`) is a `CreateApiToken(id)` entry in the
same log. Every handler is a pure function from the event's records to the
effects it emits.

Modules:

- `Wrappers`: `Option` and `Result`.
- `Records`: the proposal, cart, observation, approval, comment and user
  attributes the dispatcher reads. The back-links `approval.proposal`,
  `comment.proposal` and `cart.proposal` are passed as separate arguments,
  and a proposal holds its cart.
- `Outbox`: the mail and effect types, counting of effects, and the rule
  that an approver mail always comes after a token for that approval.
- `Dispatch`: the instance handlers that every dispatcher class inherits.
- `Selection`: `initialize_dispatcher`.
- `Facade`: the class-level entry points, a lifecycle `Event` type and
  `Replay`, which builds the outbox over a sequence of events.

The three dispatcher classes are tags (`Parallel`, `Linear`, `Ncr`). Each
class carries its own `requires_approval_notice?` rule. The base class's
rule is "always", and `Dispatch.NoticeRules` supplies the rule for each class.
Every facade entry point delegates to the base class's handler for all
three classes; the class matters only through its notice rule.

The model follows the code as written, including these points:

- An unknown flow does not fail with a dedicated error. The selector's
  `case` yields `nil` (`None`), and the facade then calls the handler on
  `nil`. That raises before any mail is sent, which the model writes as
  `Failure(NoDispatcher(flow))`.
- A comment mails every user in `comment.listeners`. Any exclusion of the
  comment's author would be inside the `listeners` association, which is
  not part of this model.
- The base new-cart handler mails the observers and the requester only. It
  does not notify the first approver.
- The base handlers have no "step already resolved" guard.

## Model

| member | source | states |
|---|---|---|
| Dispatch.EmailApprover | lib/dispatcher.rb:2-5 | a token for the approval is created first; then exactly one approver mail, addressed to the approval's user email; the result satisfies the token-before-notification rule |
| Dispatch.SendNotificationEmail | lib/dispatcher.rb:98-101 | exactly one cart-notification mail, addressed to `approval.user_email_address` and carrying the approval |
| Dispatch.FanOut | lib/dispatcher.rb:8-10 | iterating and delivering emits one mail per element, in element order, and nothing else |
| Dispatch.EmailObservers | lib/dispatcher.rb:7-11 | one observer mail per observation, at the same position, addressed to that observation's email and naming the cart |
| Dispatch.ObserversOnly | lib/dispatcher.rb:7-11 | the observer fan-out holds one observer mail per observation and no token, reply, confirmation or approver mail |
| Dispatch.ObserverAddedLast | lib/dispatcher.rb:8-10 | adding an observation at the end adds exactly one mail, addressed to it, at the end of the fan-out |
| Dispatch.EmailSentConfirmation | lib/dispatcher.rb:13-15 | exactly one creation confirmation, about this cart |
| Dispatch.DeliverNewCartEmails | lib/dispatcher.rb:17-20 | the observer mails come first, then the confirmation as the last of `observations + 1` effects |
| Dispatch.NewCartCounts | lib/dispatcher.rb:17-20 | a new cart yields exactly one confirmation, one observer mail per observation, no reply notice and no token |
| Dispatch.BaseDispatcher | lib/dispatcher.rb:22-24 | an instance built with the base rules: the base class's `requires_approval_notice?` holds for every approval |
| Dispatch.BaseApprovalAlwaysNotices | lib/dispatcher.rb:22-40 | under the base rule an approval always yields the reply notice first and exactly once, followed by the observer mails |
| Dispatch.OnProposalRejected | lib/dispatcher.rb:26-32 | the first effect is the reply mail built from the cart's first rejection; the rest is the cart's observer fan-out |
| Dispatch.RejectedCounts | lib/dispatcher.rb:26-32 | a rejection yields exactly one reply notice, one observer mail per observation, no token and no approver mail |
| Dispatch.OnApprovalApproved | lib/dispatcher.rb:34-40 | the reply notice for the approval is sent if and only if the dispatcher's rule holds, and if sent it comes first; the observer fan-out follows |
| Dispatch.BaseHandlerReadsOnlyNoticeRule | lib/dispatcher.rb:34-40 | the inherited approval handler reads the dispatcher only through its notice rule: two instances whose rules agree on the approval send the same mails, whatever their classes |
| Dispatch.ApprovedCounts | lib/dispatcher.rb:34-40 | the number of reply notices is 1 when the rule holds and 0 otherwise; one observer mail per observation; no token and no approver mail |
| Dispatch.OnCommentCreated | lib/dispatcher.rb:42-46 | one comment mail per listener, at the same position, addressed to that listener's email and naming the comment |
| Dispatch.CommentCounts | lib/dispatcher.rb:42-46 | a comment yields only comment mails, one per listener, with no token and no approver mail |
| Dispatch.OnProposalUpdate | lib/dispatcher.rb:48-49 | the update handler emits nothing |
| Selection.InitializeDispatcher | lib/dispatcher.rb:52-64 | flow `parallel` selects Parallel for any client; flow `linear` selects NCR exactly when the client is `ncr` and Linear otherwise; every other flow selects nothing (each stated as an if-and-only-if) |
| Selection.SelectionServesFlow | lib/dispatcher.rb:52-64 | a selected class serves the proposal's flow; among the linear classes, NCR is chosen exactly for the `ncr` client |
| Selection.EveryKindSelectable | lib/dispatcher.rb:52-64 | each of the three classes is selected by some proposal of its own flow |
| Selection.ClientMattersOnlyForLinear | lib/dispatcher.rb:53-62 | changing the client does not change the selection unless the flow is `linear` |
| Dispatch.BaseRules | lib/dispatcher.rb:22-24 | with no class overriding it, every class's notice rule holds for every approval |
| Dispatch.Instantiate | lib/dispatcher.rb:54-62 | the new instance has the selected class and that class's notice rule |
| Facade.DeliverNewCartEmails | lib/dispatcher.rb:66-69 | fails exactly when no class is selected, naming the flow; otherwise it gives the base new-cart handler's output for the proposal's cart, for every selected class |
| Facade.OnProposalRejected | lib/dispatcher.rb:71-74 | fails exactly when no class is selected, whether or not the cart carries a rejection; otherwise it gives the base rejection handler's output, for every selected class |
| Facade.OnApprovalApproved | lib/dispatcher.rb:76-79 | fails exactly when no class is selected; otherwise it gives the base approval handler's output under the selected class's notice rule, for the proposal's cart |
| Facade.OnCommentCreated | lib/dispatcher.rb:81-84 | fails exactly when no class is selected; otherwise it gives the base comment handler's output, for every selected class |
| Facade.EmailApprover | lib/dispatcher.rb:86-89 | fails exactly when no class is selected; otherwise it gives the base approver reminder's output for every selected class, which starts with that approval's token and issues exactly one token |
| Facade.OnProposalUpdate | lib/dispatcher.rb:91-94 | fails exactly when no class is selected; otherwise it succeeds with nothing to send, as the base update handler does |
| Facade.Handle | lib/dispatcher.rb:66-94 | an event fails exactly when its proposal selects no class, with an error naming the flow |
| Facade.HandleTokens | lib/dispatcher.rb:66-94 | with every class using the base handlers, every event other than an approver reminder creates no token and mails no approver |
| Facade.HandleKeepsDiscipline | lib/dispatcher.rb:2-5 | with every class using the base handlers, the output of every successful entry point mails an approver only after creating that approval's token |
| Facade.ReplayKeepsDiscipline | lib/dispatcher.rb:2-5 | with every class using the base handlers, over any sequence of events the outbox never mails an approver before a token for that approval was created |
| Facade.SilentEvents | lib/dispatcher.rb:91-94 | an event whose proposal selects no class leaves the outbox unchanged; so does an update, with every class using the base update handler |
| Facade.BaseRulesAlwaysNotice | lib/dispatcher.rb:76-79 | for any proposal that selects a class, with every class using the base handlers and the base notice rule, the facade's approval output starts with the reply notice and then holds one mail per observation |

## Left out

- `ParallelDispatcher`, `LinearDispatcher` and `NcrDispatcher` are not part of this model. They are tags with their own notice rule, and every facade entry point delegates to the base class's handler for all three. Any handler they override, such as walking or activating the approval chain, is not modelled, so the model makes no claim that the classes send the same mails.
- The approval-chain state machine is not modelled. This covers pending, approved and rejected steps, cart rejection, and resubmission as a new cart with the same external id. Its code is not part of this model.
- Mail delivery is not modelled; the model records what is handed to the mailer, in order. Template rendering is left out, and so is the choice of recipient for the reply-received and creation-confirmation mails, which the mailer makes from its argument.
- `create_api_token!` is an event in the log. The token's random value and its persistence are not modelled.
- Dispatch.OnProposalRejected: requires the cart to carry at least one rejection. Without one, `cart.rejections.first` is `nil` and the mailer receives `nil`; what the mailer does then is not part of this model. The facade (`Facade.OnProposalRejected`, `Facade.Admissible`) asks for a rejection only when a class is selected, since otherwise it raises before reading the cart.
- Facade.DeliverNewCartEmails: takes the proposal that owns the cart, standing for `cart.proposal`.
- Facade.HandleTokens: holds only with every class using the base handlers; an overriding class may mail approvers on other events.
- Facade.HandleKeepsDiscipline: holds only with every class using the base handlers.
- Facade.ReplayKeepsDiscipline: holds only with every class using the base handlers.
- Facade.SilentEvents: the update half holds only with every class using the base update handler.
- Facade.BaseRulesAlwaysNotice: holds only with every class using the base approval handler and the base notice rule.
- Facade.OnApprovalApproved: reads the observers from `proposal.cart`, treating `approval.cart` as `approval.proposal.cart`; the two associations are not modelled separately.
- `lib/query/proposal/search.rb` (full-text search ranking), `app/serializers/ncr/work_order_serializer.rb` (an attribute list) and the controller and feature specs are outside the dispatcher.
