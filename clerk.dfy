/**
 * Identity-provider webhooks: user lifecycle events become inserts, updates
 * and deletes of user records, and a paid subscription charge tops up the
 * total credit balance according to the plan bought.
 */
module Clerk {
  import opened Schema

  const PRO_CREDITS := 80
  const PREMIUM_CREDITS := 240
  const MSG_INVALID_PLAN := "Invalid plan"

  /** The verified payload of one webhook call; fields the event type does
      not use are ignored. */
  datatype EventData = EventData(
    id: Option<UserId>,
    profile: Profile,
    chargeType: Option<string>,
    status: Option<string>,
    payer: Option<UserId>,
    planSlug: Option<string>)

  datatype Event = Event(kind: string, data: EventData)

  /** The column defaults the store gives a freshly created user. */
  datatype SignupDefaults = SignupDefaults(credits: int, dailyCredits: int, lastCreditReset: Instant)

  /** 200 with an acknowledgement, 400 for an unknown plan, 500 when a store
      operation throws (its message is the store's own error text, which the
      model does not know). */
  datatype WebhookReply = Received(message: string) | InvalidPlan(message: string) | ServerError

  /** Credits bought with a plan, looked up among the table's own keys. */
  function PlanCredits(slug: Option<string>): (r: Option<int>)
    ensures r.Some? ==> r.value == PRO_CREDITS || r.value == PREMIUM_CREDITS
  {
    match slug
    case Some("pro") => Some(PRO_CREDITS)
    case Some("premium") => Some(PREMIUM_CREDITS)
    case _ => None
  }

  /** Only a paid recurring or checkout charge buys credits. */
  predicate IsPaidCharge(d: EventData) {
    (d.chargeType == Some("recurring") || d.chargeType == Some("checkout")) && d.status == Some("paid")
  }

  /** Handles one verified event against the user table. */
  method ClerkWebhooks(db: Db, evt: Event, defaults: SignupDefaults) returns (reply: WebhookReply)
    modifies db`users
    // acknowledged events carry the event type back
    ensures reply.Received? ==> reply.message == "Webhook Received : " + evt.kind
    ensures reply.ServerError? || reply.InvalidPlan? ==> db.users == old(db.users)
    // top-ups never make a balance negative, provided new users start non-negative
    ensures old(db.Solvent()) && defaults.credits >= 0 && defaults.dailyCredits >= 0 ==> db.Solvent()
    // user.created inserts a new record with the schema defaults
    ensures evt.kind == "user.created" ==>
              var id := evt.data.id;
              if id.Some? && id.value !in old(db.users) then
                && reply.Received?
                && db.users == old(db.users)[id.value := User(evt.data.profile, defaults.credits,
                                                               defaults.dailyCredits, defaults.lastCreditReset)]
              else reply == ServerError
    // user.updated replaces only the profile of an existing record
    ensures evt.kind == "user.updated" ==>
              var id := evt.data.id;
              if id.Some? && id.value in old(db.users) then
                && reply.Received?
                && db.users == old(db.users)[id.value := old(db.users)[id.value].(profile := evt.data.profile)]
              else reply == ServerError
    // user.deleted removes exactly that record
    ensures evt.kind == "user.deleted" ==>
              var id := evt.data.id;
              if id.Some? && id.value in old(db.users) then
                reply.Received? && db.users == old(db.users) - {id.value}
              else reply == ServerError
    // a charge that is not a paid recurring/checkout charge changes nothing
    ensures evt.kind == "paymentAttempt.updated" && !IsPaidCharge(evt.data) ==>
              reply.Received? && db.users == old(db.users)
    // a paid charge without a known plan is refused, with no credit change
    ensures evt.kind == "paymentAttempt.updated" && IsPaidCharge(evt.data) &&
            evt.data.planSlug != Some("pro") && evt.data.planSlug != Some("premium") ==>
              reply == InvalidPlan(MSG_INVALID_PLAN)
    // a paid charge on a known plan adds 80 (pro) or 240 (premium) to the payer's total
    // balance only; the daily balance, the other fields and the other users stay as they were
    ensures evt.kind == "paymentAttempt.updated" && IsPaidCharge(evt.data) &&
            (evt.data.planSlug == Some("pro") || evt.data.planSlug == Some("premium")) ==>
              var p := evt.data.payer;
              var amount := if evt.data.planSlug == Some("pro") then 80 else 240;
              if p.Some? && p.value in old(db.users) then
                && reply.Received?
                && db.users == old(db.users)[p.value := old(db.users)[p.value].(credits := old(db.users)[p.value].credits + amount)]
              else reply == ServerError
    // any other event type is acknowledged and ignored
    ensures evt.kind !in {"user.created", "user.updated", "user.deleted", "paymentAttempt.updated"} ==>
              reply.Received? && db.users == old(db.users)
  {
    var data := evt.data;
    match evt.kind {
      case "user.created" =>
        if data.id.None? || data.id.value in db.users {
          return ServerError;
        }
        db.users := db.users[data.id.value := User(data.profile, defaults.credits,
                                                    defaults.dailyCredits, defaults.lastCreditReset)];
      case "user.updated" =>
        if data.id.None? || data.id.value !in db.users {
          return ServerError;
        }
        db.users := db.users[data.id.value := db.users[data.id.value].(profile := data.profile)];
      case "user.deleted" =>
        if data.id.None? || data.id.value !in db.users {
          return ServerError;
        }
        db.users := db.users - {data.id.value};
      case "paymentAttempt.updated" =>
        if IsPaidCharge(data) {
          var amount := PlanCredits(data.planSlug);
          if amount.None? {
            return InvalidPlan(MSG_INVALID_PLAN);
          }
          if data.payer.None? || data.payer.value !in db.users {
            return ServerError;
          }
          var payer := data.payer.value;
          db.users := db.users[payer := db.users[payer].(credits := db.users[payer].credits + amount.value)];
        }
      case _ =>
    }
    reply := Received("Webhook Received : " + evt.kind);
  }

  // ---------------------------------------------------------------------
  // The plan guard as written

  /** Names every plain JavaScript object inherits from Object.prototype. */
  const INHERITED_KEYS: set<string> := {
    "constructor", "__proto__", "hasOwnProperty", "isPrototypeOf", "propertyIsEnumerable",
    "toString", "toLocaleString", "valueOf",
    "__defineGetter__", "__defineSetter__", "__lookupGetter__", "__lookupSetter__"
  }

  /** The source's guard `planSlug && planSlug in credits`: the `in` operator
      also finds the keys the table object inherits. */
  predicate PlanGuardPassesAsWritten(slug: Option<string>) {
    slug.Some? && slug.value != "" && (slug.value in {"pro", "premium"} || slug.value in INHERITED_KEYS)
  }

  /** The slug "constructor" passes the guard as written although it names no
      plan, so the request goes on to an increment by a non-number, which the
      store rejects with a 500 instead of the intended 400 "Invalid plan". */
  lemma InheritedSlugPassesGuard()
    ensures PlanGuardPassesAsWritten(Some("constructor"))
    ensures PlanCredits(Some("constructor")) == None
  {
  }

  /** The corrected lookup accepts exactly the two plans of the table. */
  lemma PlanCreditsAcceptsOnlyTablePlans(slug: Option<string>)
    ensures PlanCredits(slug).Some? <==> slug == Some("pro") || slug == Some("premium")
    ensures PlanCredits(slug).Some? ==> PlanGuardPassesAsWritten(slug)
    ensures PlanCredits(slug).Some? ==> PlanCredits(slug).value > 0
  {
  }
}
