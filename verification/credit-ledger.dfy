/**
 * One ledger, four payers. Webhooks, code redemptions, pass sign-ins and
 * invite settlements run side by side, repeat, and may stop between any two
 * writes; the ledger must still pay each reason once.
 */
module CreditLedger {
  import opened Options
  import opened PaymentIds

  // -------------------------------------------------------------------- tables

  datatype Row = Row(org: string, credits: int, key: Payable)

  datatype Status = Pending | Detected | Failed | Expired | Confirmed

  datatype Purchase = Purchase(org: string, credits: int, status: Status)

  /**
   * `purchases` by session id, `redeemed` the code redemptions on record with
   * what each grants, `bonuses` the invite claims by invitee.
   */
  datatype Db = Db(purchases: map<string, Purchase>, ledger: seq<Row>, redeemed: map<Payable, int>,
      bonuses: map<string, int>)

  predicate Holds(ledger: seq<Row>, key: Payable) {
    exists i :: 0 <= i < |ledger| && ledger[i].key == key
  }

  /** The unique index: some row already has this text as its `payment_id`. */
  predicate Taken(ledger: seq<Row>, paymentId: string) {
    exists i :: 0 <= i < |ledger| && PaymentId(ledger[i].key) == paymentId
  }

  /** Inserts a grant unless it is worth nothing or its `payment_id` is taken. */
  function Granted(ledger: seq<Row>, org: string, credits: int, key: Payable): seq<Row> {
    if credits <= 0 || Taken(ledger, PaymentId(key)) then ledger else ledger + [Row(org, credits, key)]
  }

  predicate KeysWellFormed(ledger: seq<Row>) {
    forall i :: 0 <= i < |ledger| ==> WellFormed(ledger[i].key)
  }

  /** Among well-formed keys the text is taken exactly when the reason itself has been paid. */
  lemma TakenIffHeld(ledger: seq<Row>, key: Payable)
    requires KeysWellFormed(ledger) && WellFormed(key)
    ensures Taken(ledger, PaymentId(key)) <==> Holds(ledger, key)
  {
    if Taken(ledger, PaymentId(key)) {
      var i :| 0 <= i < |ledger| && PaymentId(ledger[i].key) == PaymentId(key);
      KeysAreDistinct(ledger[i].key, key);
    }
  }

  /** Were code ids to hold colons, one redemption would find its key taken by another and be paid nothing. */
  lemma ColonCostsAGrant(ledger: seq<Row>, a: string, b: string, c: string, org: string, credits: int)
    requires Holds(ledger, Code(a + ":" + b, c))
    ensures Granted(ledger, org, credits, Code(a, b + ":" + c)) == ledger
  {
    ColonInACodeIdCollides(a, b, c);
  }

  datatype Pack = Pack100 | Pack500 | Pack2000

  function PackCredits(pack: Pack): int {
    match pack
    case Pack100 => 100
    case Pack500 => 500
    case Pack2000 => 2000
  }

  /** The least of the sizes on sale. */
  function Smallest(sizes: seq<int>): (least: int)
    requires sizes != []
    ensures least in sizes
    ensures forall i :: 0 <= i < |sizes| ==> least <= sizes[i]
  {
    var first, rest := sizes[0], sizes[1..];
    if rest == [] then first
    else
      var other := Smallest(rest);
      if first <= other then first else other
  }

  const PASS_CREDITS: int := Smallest([PackCredits(Pack100), PackCredits(Pack500), PackCredits(Pack2000)])

  /** The sizes on sale, and a pass is worth the smallest. */
  lemma SizesAre()
    ensures PackCredits(Pack100) == 100 && PackCredits(Pack500) == 500 && PackCredits(Pack2000) == 2000
    ensures PASS_CREDITS == 100
  {
    var sizes := [PackCredits(Pack100), PackCredits(Pack500), PackCredits(Pack2000)];
    assert sizes[0] == 100 && Smallest(sizes) <= sizes[0];
    assert Smallest(sizes) in sizes;
  }

  // ------------------------------------------------------------------ webhooks

  /** A verified delivery: what happened, the payment's own status if given, and the ids it may be known by. */
  datatype Event = Event(kind: string, status: string, refs: seq<string>)

  predicate Paid(event: Event) {
    if event.status != "" then event.status in {"confirmed", "forwarded"}
    else event.kind in {"payment.confirmed", "payment.forwarded"}
  }

  function WithoutPaymentPrefix(kind: string): string {
    if "payment." <= kind then kind[|"payment."|..] else kind
  }

  function WebhookStatus(event: Event): (s: Status)
    ensures s != Confirmed
  {
    var s := if event.status != "" then event.status else WithoutPaymentPrefix(event.kind);
    if s == "detected" then Detected
    else if s == "failed" then Failed
    else if s == "expired" then Expired
    else Pending
  }

  /** The first id with a purchase behind it. */
  function FirstKnown(purchases: map<string, Purchase>, refs: seq<string>): (found: Option<string>)
    ensures found.None? <==> forall i :: 0 <= i < |refs| ==> refs[i] !in purchases
    ensures found.Some? ==> found.value in refs && found.value in purchases
  {
    if refs == [] then None
    else if refs[0] in purchases then Some(refs[0])
    else
      assert refs == [refs[0]] + refs[1..];
      FirstKnown(purchases, refs[1..])
  }

  // ----------------------------------------------------- handlers, write by write

  datatype HistoryEntry = CodeGrant(codeId: string, amount: int) | OtherEntry

  /** What a handler has still to write. Each Perform is one write. */
  datatype Task =
    | Recording(session: string, status: Status)
    | Crediting(session: string, org: string, credits: int)
    | Confirming(session: string)
    | PayingCode(codeId: string, userId: string, org: string, amount: int)
    | Repairing(userId: string, org: string, left: seq<HistoryEntry>)
    | PayingPass(pass: Payable, org: string)
    | PayingInvitee(invitee: string, org: string, inviterOrg: string, prospects: int)
    | PayingInviter(invitee: string, org: string, prospects: int)
    | Idle

  function WritesLeft(task: Task): nat {
    match task
    case Crediting(_, _, _) => 2
    case PayingInvitee(_, _, _, _) => 2
    case Repairing(_, _, left) => |left| + 1
    case Idle => 0
    case _ => 1
  }

  function SetStatus(purchases: map<string, Purchase>, session: string, status: Status): map<string, Purchase> {
    if session in purchases then purchases[session := purchases[session].(status := status)] else purchases
  }

  function Perform(db: Db, task: Task): Db {
    match task
    case Recording(session, status) => db.(purchases := SetStatus(db.purchases, session, status))
    case Crediting(session, org, credits) => db.(ledger := Granted(db.ledger, org, credits, Gateway(session)))
    case Confirming(session) => db.(purchases := SetStatus(db.purchases, session, Confirmed))
    case PayingCode(codeId, userId, org, amount) => db.(ledger := Granted(db.ledger, org, amount, Code(codeId, userId)))
    case Repairing(userId, org, left) =>
      if left != [] && left[0].CodeGrant? then
        db.(ledger := Granted(db.ledger, org, left[0].amount, Code(left[0].codeId, userId)))
      else db
    case PayingPass(pass, org) => db.(ledger := Granted(db.ledger, org, PASS_CREDITS, pass))
    case PayingInvitee(invitee, org, _, prospects) =>
      db.(ledger := Granted(db.ledger, org, prospects, Invite(invitee, Invitee)))
    case PayingInviter(invitee, org, prospects) =>
      db.(ledger := Granted(db.ledger, org, prospects, Invite(invitee, Inviter)))
    case Idle => db
  }

  function Next(task: Task): (next: Task)
    ensures WritesLeft(task) > 0 ==> WritesLeft(next) < WritesLeft(task)
  {
    match task
    case Crediting(session, _, _) => Confirming(session)
    case Repairing(userId, org, left) => if left == [] then Idle else Repairing(userId, org, left[1..])
    case PayingInvitee(invitee, _, inviterOrg, prospects) => PayingInviter(invitee, inviterOrg, prospects)
    case _ => Idle
  }

  function Finish(db: Db, task: Task): Db
    decreases WritesLeft(task)
  {
    if task.Idle? then db else Finish(Perform(db, task), Next(task))
  }

  function OnWebhook(db: Db, event: Event): Task {
    if event.kind == "test.webhook" then Idle
    else
      var found := FirstKnown(db.purchases, event.refs);
      if found.None? then Idle
      else
        var purchase := db.purchases[found.value];
        if Paid(event) then Crediting(found.value, purchase.org, purchase.credits)
        else if purchase.status != Confirmed then Recording(found.value, WebhookStatus(event))
        else Idle
  }

  /** The redemption package's answer. A code not minted here is redeemed there and pays nothing here. */
  datatype RedeemResult =
    | Redeemed(codeId: string, amount: int)
    | WrongUnit
    | AlreadyRedeemed(history: seq<HistoryEntry>)
    | Refused

  const MOST_PROSPECTS: int := 100_000

  predicate IsHistory(db: Db, userId: string, history: seq<HistoryEntry>) {
    && (forall i :: 0 <= i < |history| && history[i].CodeGrant? ==>
          Code(history[i].codeId, userId) in db.redeemed &&
              db.redeemed[Code(history[i].codeId, userId)] == history[i].amount)
    && (forall key :: key in db.redeemed && key.Code? && key.userId == userId ==>
          CodeGrant(key.codeId, db.redeemed[key]) in history)
  }

  /**
   * What the package may answer: a redemption once per person and code, of a
   * colon-free id and an amount that can be minted, and a true history.
   */
  predicate Answers(db: Db, userId: string, result: RedeemResult) {
    match result
    case Redeemed(codeId, amount) =>
      Code(codeId, userId) !in db.redeemed && ':' !in codeId && 0 < amount <= MOST_PROSPECTS
    case AlreadyRedeemed(history) => IsHistory(db, userId, history)
    case _ => true
  }

  function AfterRedeem(db: Db, userId: string, result: RedeemResult): Db {
    match result
    case Redeemed(codeId, amount) => db.(redeemed := db.redeemed[Code(codeId, userId) := amount])
    case _ => db
  }

  function OnRedeem(userId: string, org: string, result: RedeemResult): Task {
    match result
    case Redeemed(codeId, amount) => PayingCode(codeId, userId, org, amount)
    case AlreadyRedeemed(history) => Repairing(userId, org, history)
    case _ => Idle
  }

  // ---------------------------------------------------------------- every run

  /** The tables and the handlers under way. */
  datatype World = World(db: Db, tasks: seq<Task>)

  datatype Step =
    | Buy(session: string, org: string, pack: Pack)
    | Webhook(event: Event)
    | Redeem(userId: string, org: string, result: RedeemResult)
    | SignIn(sub: string, expires: string, org: string)
    | SettleInvite(invitee: string, org: string, inviterOrg: string, prospects: int)
    | Advance(handler: nat)
    | Crash(handler: nat)

  /** Session ids are not prefixed like our own keys, code ids hold no colon, and a pass ends at a stamp. */
  predicate Enabled(w: World, step: Step) {
    match step
    case Buy(session, _, _) => WellFormed(Gateway(session))
    case SignIn(sub, expires, _) => WellFormed(Pass(sub, expires))
    case Redeem(userId, _, result) => Answers(w.db, userId, result)
    case Advance(handler) => handler < |w.tasks|
    case Crash(handler) => handler < |w.tasks|
    case _ => true
  }

  function Apply(w: World, step: Step): World
    requires Enabled(w, step)
  {
    match step
    case Buy(session, org, pack) =>
      if session in w.db.purchases then w
      else w.(db := w.db.(purchases := w.db.purchases[session := Purchase(org, PackCredits(pack), Pending)]))
    case Webhook(event) => w.(tasks := w.tasks + [OnWebhook(w.db, event)])
    case Redeem(userId, org, result) =>
      World(AfterRedeem(w.db, userId, result), w.tasks + [OnRedeem(userId, org, result)])
    case SignIn(sub, expires, org) => w.(tasks := w.tasks + [PayingPass(Pass(sub, expires), org)])
    case SettleInvite(invitee, org, inviterOrg, prospects) =>
      if invitee in w.db.bonuses then w
      else
        World(w.db.(bonuses := w.db.bonuses[invitee := prospects]),
              w.tasks + [PayingInvitee(invitee, org, inviterOrg, prospects)])
    case Advance(handler) =>
      World(Perform(w.db, w.tasks[handler]), w.tasks[handler := Next(w.tasks[handler])])
    case Crash(handler) => w.(tasks := w.tasks[handler := Idle])
  }

  predicate CanRun(w: World, steps: seq<Step>)
    decreases |steps|
  {
    steps == [] || (Enabled(w, steps[0]) && CanRun(Apply(w, steps[0]), steps[1..]))
  }

  function Run(w: World, steps: seq<Step>): World
    requires CanRun(w, steps)
    decreases |steps|
  {
    if steps == [] then w else Run(Apply(w, steps[0]), steps[1..])
  }

  const EMPTY: World := World(Db(map[], [], map[], map[]), [])

  // ----------------------------------------------------------------- soundness

  /** What a key is worth, from the tables alone. */
  function Worth(db: Db, key: Payable): int {
    match key
    case Gateway(session) => if session in db.purchases then db.purchases[session].credits else 0
    case Code(_, _) => if key in db.redeemed then db.redeemed[key] else 0
    case Invite(invitee, _) => if invitee in db.bonuses then db.bonuses[invitee] else 0
    case Pass(_, _) => PASS_CREDITS
  }

  /** No two rows share a `payment_id`. */
  predicate OncePerKey(ledger: seq<Row>) {
    forall i, j :: 0 <= i < j < |ledger| ==> PaymentId(ledger[i].key) != PaymentId(ledger[j].key)
  }

  predicate Justified(db: Db, row: Row) {
    && row.credits == Worth(db, row.key) > 0
    && (row.key.Gateway? ==> row.key.sessionId in db.purchases && row.org == db.purchases[row.key.sessionId].org)
  }

  predicate AllJustified(db: Db) {
    forall i :: 0 <= i < |db.ledger| ==> Justified(db, db.ledger[i])
  }

  predicate ConfirmedIsCredited(db: Db) {
    forall session :: session in db.purchases && db.purchases[session].status == Confirmed ==>
      Holds(db.ledger, Gateway(session))
  }

  /** What is on record is worth something and has a well-formed key. */
  predicate RecordsCount(db: Db) {
    && (forall session :: session in db.purchases ==> db.purchases[session].credits > 0 && WellFormed(Gateway(session)))
    && (forall key :: key in db.redeemed ==> key.Code? && WellFormed(key) && db.redeemed[key] > 0)
    && KeysWellFormed(db.ledger)
  }

  predicate Backed(db: Db, task: Task) {
    match task
    case Recording(_, status) => status != Confirmed
    case Crediting(session, org, credits) =>
      session in db.purchases && db.purchases[session].org == org && db.purchases[session].credits == credits
    case Confirming(session) => Holds(db.ledger, Gateway(session))
    case PayingCode(codeId, userId, _, amount) =>
      Code(codeId, userId) in db.redeemed && db.redeemed[Code(codeId, userId)] == amount
    case Repairing(userId, _, left) =>
      forall i :: 0 <= i < |left| && left[i].CodeGrant? ==>
        Code(left[i].codeId, userId) in db.redeemed && db.redeemed[Code(left[i].codeId, userId)] == left[i].amount
    case PayingPass(pass, _) => pass.Pass? && WellFormed(pass)
    case PayingInvitee(invitee, _, _, prospects) => invitee in db.bonuses && db.bonuses[invitee] == prospects
    case PayingInviter(invitee, _, prospects) => invitee in db.bonuses && db.bonuses[invitee] == prospects
    case Idle => true
  }

  predicate SoundDb(db: Db) {
    OncePerKey(db.ledger) && AllJustified(db) && ConfirmedIsCredited(db) && RecordsCount(db)
  }

  predicate Sound(w: World) {
    SoundDb(w.db) && forall i :: 0 <= i < |w.tasks| ==> Backed(w.db, w.tasks[i])
  }

  /** Nothing already promised is taken back: rows are only added, and what a key is worth is fixed once known. */
  predicate Extends(before: Db, after: Db) {
    && before.ledger <= after.ledger
    && (forall s :: s in before.purchases ==>
          && s in after.purchases
          && after.purchases[s].org == before.purchases[s].org
          && after.purchases[s].credits == before.purchases[s].credits)
    && (forall k :: k in before.redeemed ==> k in after.redeemed && after.redeemed[k] == before.redeemed[k])
    && (forall u :: u in before.bonuses ==> u in after.bonuses && after.bonuses[u] == before.bonuses[u])
  }

  lemma HoldsStays(before: seq<Row>, after: seq<Row>, key: Payable)
    requires before <= after && Holds(before, key)
    ensures Holds(after, key)
  {
    var i :| 0 <= i < |before| && before[i].key == key;
    assert after[i].key == key;
  }

  lemma BackedStays(before: Db, after: Db, task: Task)
    requires Backed(before, task) && Extends(before, after)
    ensures Backed(after, task)
  {
    if task.Confirming? {
      HoldsStays(before.ledger, after.ledger, Gateway(task.session));
    }
  }

  lemma JustifiedStays(before: Db, after: Db, row: Row)
    requires Justified(before, row) && Extends(before, after)
    ensures Justified(after, row)
  {
  }

  lemma GrantKeeps(db: Db, org: string, credits: int, key: Payable)
    requires SoundDb(db)
    requires WellFormed(key) && (credits > 0 ==> Justified(db, Row(org, credits, key)))
    ensures SoundDb(db.(ledger := Granted(db.ledger, org, credits, key)))
    ensures Extends(db, db.(ledger := Granted(db.ledger, org, credits, key)))
    ensures credits > 0 ==> Holds(Granted(db.ledger, org, credits, key), key)
  {
    var after := db.(ledger := Granted(db.ledger, org, credits, key));
    TakenIffHeld(db.ledger, key);
    if after.ledger != db.ledger {
      assert after.ledger[|db.ledger|].key == key;
      forall i | 0 <= i < |after.ledger| ensures Justified(after, after.ledger[i]) {
        JustifiedStays(db, after, after.ledger[i]);
      }
      forall s | s in after.purchases && after.purchases[s].status == Confirmed
          ensures Holds(after.ledger, Gateway(s)) {
        HoldsStays(db.ledger, after.ledger, Gateway(s));
      }
    }
  }

  lemma StatusExtends(db: Db, session: string, status: Status)
    ensures Extends(db, db.(purchases := SetStatus(db.purchases, session, status)))
  {
  }

  lemma StatusIsCredited(db: Db, session: string, status: Status)
    requires ConfirmedIsCredited(db) && RecordsCount(db) && (status == Confirmed ==> Holds(db.ledger, Gateway(session)))
    ensures var after := db.(purchases := SetStatus(db.purchases, session, status));
            ConfirmedIsCredited(after) && RecordsCount(after)
  {
  }

  lemma StatusKeeps(db: Db, session: string, status: Status)
    requires SoundDb(db) && (status == Confirmed ==> Holds(db.ledger, Gateway(session)))
    ensures SoundDb(db.(purchases := SetStatus(db.purchases, session, status)))
    ensures Extends(db, db.(purchases := SetStatus(db.purchases, session, status)))
  {
    var after := db.(purchases := SetStatus(db.purchases, session, status));
    StatusExtends(db, session, status);
    StatusIsCredited(db, session, status);
    forall i | 0 <= i < |after.ledger| ensures Justified(after, after.ledger[i]) {
      JustifiedStays(db, after, after.ledger[i]);
    }
  }

  lemma PerformKeeps(db: Db, task: Task)
    requires SoundDb(db) && Backed(db, task)
    ensures SoundDb(Perform(db, task)) && Extends(db, Perform(db, task)) && Backed(Perform(db, task), Next(task))
  {
    match task
    case Recording(session, status) => StatusKeeps(db, session, status);
    case Crediting(session, org, credits) => GrantKeeps(db, org, credits, Gateway(session));
    case Confirming(session) => StatusKeeps(db, session, Confirmed);
    case PayingCode(codeId, userId, org, amount) => GrantKeeps(db, org, amount, Code(codeId, userId));
    case Repairing(userId, org, left) =>
      if left != [] && left[0].CodeGrant? {
        GrantKeeps(db, org, left[0].amount, Code(left[0].codeId, userId));
      }
    case PayingPass(pass, org) => GrantKeeps(db, org, PASS_CREDITS, pass);
    case PayingInvitee(invitee, org, _, prospects) => GrantKeeps(db, org, prospects, Invite(invitee, Invitee));
    case PayingInviter(invitee, org, prospects) => GrantKeeps(db, org, prospects, Invite(invitee, Inviter));
    case Idle =>
  }

  /** New purchases, redemptions and claims leave the ledger sound. */
  lemma NewRecordKeeps(db: Db, after: Db)
    requires SoundDb(db) && Extends(db, after) && after.ledger == db.ledger && RecordsCount(after)
    requires forall s :: s in after.purchases && after.purchases[s].status == Confirmed ==>
               s in db.purchases && db.purchases[s].status == Confirmed
    ensures SoundDb(after)
  {
    forall i | 0 <= i < |after.ledger| ensures Justified(after, after.ledger[i]) {
      JustifiedStays(db, after, after.ledger[i]);
    }
  }

  lemma BuyingKeeps(db: Db, session: string, org: string, pack: Pack)
    requires SoundDb(db) && session !in db.purchases && WellFormed(Gateway(session))
    ensures var after := db.(purchases := db.purchases[session := Purchase(org, PackCredits(pack), Pending)]);
            SoundDb(after) && Extends(db, after)
  {
    NewRecordKeeps(db, db.(purchases := db.purchases[session := Purchase(org, PackCredits(pack), Pending)]));
  }

  lemma RedeemingKeeps(db: Db, userId: string, result: RedeemResult)
    requires SoundDb(db) && Answers(db, userId, result)
    ensures SoundDb(AfterRedeem(db, userId, result)) && Extends(db, AfterRedeem(db, userId, result))
  {
    NewRecordKeeps(db, AfterRedeem(db, userId, result));
  }

  lemma ClaimingKeeps(db: Db, invitee: string, prospects: int)
    requires SoundDb(db) && invitee !in db.bonuses
    ensures var after := db.(bonuses := db.bonuses[invitee := prospects]);
            SoundDb(after) && Extends(db, after)
  {
    NewRecordKeeps(db, db.(bonuses := db.bonuses[invitee := prospects]));
  }

  lemma OpeningKeeps(w: World, step: Step)
    requires Sound(w) && Enabled(w, step) && !step.Advance? && !step.Crash?
    ensures SoundDb(Apply(w, step).db) && Extends(w.db, Apply(w, step).db)
  {
    match step
    case Buy(session, org, pack) =>
      if session !in w.db.purchases {
        BuyingKeeps(w.db, session, org, pack);
      }
    case Redeem(userId, _, result) => RedeemingKeeps(w.db, userId, result);
    case SettleInvite(invitee, _, _, prospects) =>
      if invitee !in w.db.bonuses {
        ClaimingKeeps(w.db, invitee, prospects);
      }
    case _ =>
  }

  lemma OpenedIsBacked(w: World, step: Step)
    requires Sound(w) && Enabled(w, step) && !step.Advance? && !step.Crash?
    ensures |w.tasks| <= |Apply(w, step).tasks| <= |w.tasks| + 1 && w.tasks <= Apply(w, step).tasks
    ensures |Apply(w, step).tasks| > |w.tasks| ==> Backed(Apply(w, step).db, Apply(w, step).tasks[|w.tasks|])
  {
  }

  lemma StepIsSound(w: World, step: Step)
    requires Sound(w) && Enabled(w, step)
    ensures Sound(Apply(w, step)) && Extends(w.db, Apply(w, step).db)
  {
    var after := Apply(w, step);
    if step.Advance? {
      PerformKeeps(w.db, w.tasks[step.handler]);
    } else if !step.Crash? {
      OpeningKeeps(w, step);
      OpenedIsBacked(w, step);
    }
    forall i | 0 <= i < |after.tasks| ensures Backed(after.db, after.tasks[i]) {
      if i < |w.tasks| && after.tasks[i] == w.tasks[i] {
        BackedStays(w.db, after.db, w.tasks[i]);
      }
    }
  }

  lemma {:induction false} RunIsSound(w: World, steps: seq<Step>)
    requires Sound(w) && CanRun(w, steps)
    ensures Sound(Run(w, steps))
    decreases |steps|
  {
    if steps != [] {
      StepIsSound(w, steps[0]);
      RunIsSound(Apply(w, steps[0]), steps[1..]);
    }
  }

  /**
   * Whatever is repeated, reordered, interleaved or cut short: each key has at
   * most one row, holding what its own table says and, for a purchase, the
   * organization it was opened for; and a purchase marked confirmed has been
   * credited.
   */
  lemma EachReasonPaysOnce(steps: seq<Step>)
    requires CanRun(EMPTY, steps)
    ensures var db := Run(EMPTY, steps).db;
      && (forall i, j :: 0 <= i < j < |db.ledger| ==> PaymentId(db.ledger[i].key) != PaymentId(db.ledger[j].key))
      && KeysWellFormed(db.ledger)
      && (forall i :: 0 <= i < |db.ledger| ==> IsOwed(db, db.ledger[i]))
      && (forall s :: s in db.purchases && db.purchases[s].status == Confirmed ==>
            Row(db.purchases[s].org, db.purchases[s].credits, Gateway(s)) in db.ledger)
  {
    RunIsSound(EMPTY, steps);
    SizesAre();
    var db := Run(EMPTY, steps).db;
    forall i | 0 <= i < |db.ledger| ensures IsOwed(db, db.ledger[i]) {
      assert Justified(db, db.ledger[i]);
    }
    forall s | s in db.purchases && db.purchases[s].status == Confirmed
      ensures Row(db.purchases[s].org, db.purchases[s].credits, Gateway(s)) in db.ledger
    {
      var i :| 0 <= i < |db.ledger| && db.ledger[i].key == Gateway(s);
      assert IsOwed(db, db.ledger[i]);
    }
  }

  /** A row is worth something, and what and to whom its own table says. */
  predicate IsOwed(db: Db, row: Row) {
    && row.credits > 0
    && match row.key
       case Gateway(session) =>
         session in db.purchases && db.purchases[session].(status := Pending) == Purchase(row.org, row.credits, Pending)
       case Code(_, _) => row.key in db.redeemed && db.redeemed[row.key] == row.credits
       case Invite(invitee, _) => invitee in db.bonuses && db.bonuses[invitee] == row.credits
       case Pass(_, _) => row.credits == 100
  }

  /**
   * Whichever delivery of a paid event comes first credits the purchase as opened
   * and confirms it; a later one only confirms.
   */
  lemma PaidDeliverySettles(db: Db, event: Event)
    requires SoundDb(db) && event.kind != "test.webhook" && Paid(event) && FirstKnown(db.purchases, event.refs).Some?
    ensures var session := FirstKnown(db.purchases, event.refs).value;
            var was := db.purchases[session];
            var after := Finish(db, OnWebhook(db, event));
      && after.purchases == db.purchases[session := was.(status := Confirmed)]
      && after.ledger == (if Holds(db.ledger, Gateway(session)) then db.ledger
            else db.ledger + [Row(was.org, was.credits, Gateway(session))])
      && after.redeemed == db.redeemed && after.bonuses == db.bonuses
  {
    var task := OnWebhook(db, event);
    TakenIffHeld(db.ledger, Gateway(task.session));
    var credited := Perform(db, task);
    assert Finish(db, task) == Finish(credited, Next(task)) == Finish(Perform(credited, Next(task)), Idle);
  }

  /** A delivery of anything else never touches the ledger, nor a purchase already confirmed. */
  lemma UnpaidDeliveryOnlyRecords(db: Db, event: Event)
    requires event.kind == "test.webhook" || !Paid(event)
    ensures var after := Finish(db, OnWebhook(db, event));
      && after.ledger == db.ledger && after.redeemed == db.redeemed && after.bonuses == db.bonuses
      && after.purchases.Keys == db.purchases.Keys
      && (forall s :: s in db.purchases && db.purchases[s].status == Confirmed ==>
            after.purchases[s] == db.purchases[s])
      && (forall s :: s in db.purchases && after.purchases[s] != db.purchases[s] ==>
            FirstKnown(db.purchases, event.refs) == Some(s))
  {
    var task := OnWebhook(db, event);
    if !task.Idle? {
      assert Finish(db, task) == Finish(Perform(db, task), Idle) == Perform(db, task);
    }
  }

  /** The first of the delivery's ids with a purchase is its i-th. */
  predicate FirstIsAt(db: Db, event: Event, i: nat) {
    i < |event.refs| && event.refs[i] in db.purchases && forall j :: 0 <= j < i ==> event.refs[j] !in db.purchases
  }

  /**
   * A delivery whose status is confirmed or forwarded, or that has none and whose
   * kind says so, confirms the purchase and pays it unless its key is taken.
   */
  lemma PaidDeliverySays(db: Db, event: Event, i: nat)
    requires event.kind != "test.webhook" && FirstIsAt(db, event, i)
    requires event.status == "confirmed" || event.status == "forwarded" ||
        (event.status == "" && (event.kind == "payment.confirmed" || event.kind == "payment.forwarded"))
    ensures var session, after := event.refs[i], Finish(db, OnWebhook(db, event));
            var was := db.purchases[session];
      && after.redeemed == db.redeemed && after.bonuses == db.bonuses
      && after.purchases == db.purchases[session := was.(status := Confirmed)]
      && after.ledger ==
           if was.credits > 0 && forall k :: 0 <= k < |db.ledger| ==> PaymentId(db.ledger[k].key) != session then
             db.ledger + [Row(was.org, was.credits, Gateway(session))]
           else db.ledger
  {
    FirstIs(db.purchases, event.refs, i);
    var task := OnWebhook(db, event);
    var credited := Perform(db, task);
    assert Finish(db, task) == Finish(credited, Next(task)) == Finish(Perform(credited, Next(task)), Idle);
  }

  /**
   * Any other leaves the ledger alone and, unless the purchase is confirmed,
   * records exactly what its text says, pending when it says nothing known.
   */
  lemma OtherDeliverySays(db: Db, event: Event, i: nat)
    requires event.kind != "test.webhook" && FirstIsAt(db, event, i)
    requires event.status != "confirmed" && event.status != "forwarded"
    requires event.status == "" ==> event.kind != "payment.confirmed" && event.kind != "payment.forwarded"
    ensures var session, after := event.refs[i], Finish(db, OnWebhook(db, event));
            var was, now := db.purchases[session].status, WebhookStatus(event);
      && after == db.(purchases := after.purchases)
      && after.purchases == db.purchases[session := db.purchases[session].(status :=
           if was == Confirmed then Confirmed else now)]
      && now != Confirmed
      && (now == Detected <==> Says(event, "detected")) && (now == Failed <==> Says(event, "failed"))
      && (now == Expired <==> Says(event, "expired"))
  {
    FirstIs(db.purchases, event.refs, i);
    SaysIsStatus(event);
    var task := OnWebhook(db, event);
    if !task.Idle? {
      assert Finish(db, task) == Finish(Perform(db, task), Idle) == Perform(db, task);
    }
  }

  /** The delivery's status is this word, or it has none and its kind is this word, `payment.` before it or not. */
  predicate Says(event: Event, word: string) {
    event.status == word || (event.status == "" && (event.kind == word || event.kind == "payment." + word))
  }

  lemma SaysIsStatus(event: Event)
    ensures WebhookStatus(event) == Detected <==> Says(event, "detected")
    ensures WebhookStatus(event) == Failed <==> Says(event, "failed")
    ensures WebhookStatus(event) == Expired <==> Says(event, "expired")
  {
    PrefixIsOff(event.kind, "detected");
    PrefixIsOff(event.kind, "failed");
    PrefixIsOff(event.kind, "expired");
  }

  lemma PrefixIsOff(kind: string, word: string)
    requires |word| > 0 && word[0] != 'p'
    ensures WithoutPaymentPrefix(kind) == word <==> kind == word || kind == "payment." + word
  {
    var prefix := "payment.";
    if prefix <= kind {
      assert kind == prefix + kind[|prefix|..];
      assert kind[0] == prefix[0] == 'p';
    } else {
      assert prefix <= prefix + word;
    }
    assert (prefix + word)[|prefix|..] == word;
  }

  lemma {:induction false} FirstIs(purchases: map<string, Purchase>, refs: seq<string>, i: nat)
    requires i < |refs| && refs[i] in purchases && forall j :: 0 <= j < i ==> refs[j] !in purchases
    ensures FirstKnown(purchases, refs) == Some(refs[i])
    decreases |refs|
  {
    if i > 0 {
      assert refs[0] !in purchases;
      FirstIs(purchases, refs[1..], i - 1);
    }
  }

  /** A test, and a delivery none of whose ids has a purchase, change nothing. */
  lemma UnknownDeliveryDoesNothing(db: Db, event: Event)
    requires event.kind == "test.webhook" || forall i :: 0 <= i < |event.refs| ==> event.refs[i] !in db.purchases
    ensures Finish(db, OnWebhook(db, event)) == db
  {
  }

  // ------------------------------------------------------------- conservation

  function Total(ledger: seq<Row>): int {
    if ledger == [] then 0 else Total(ledger[..|ledger| - 1]) + ledger[|ledger| - 1].credits
  }

  function Keys(ledger: seq<Row>): set<Payable> {
    set i | 0 <= i < |ledger| :: ledger[i].key
  }

  ghost function WorthOfAll(db: Db, keys: set<Payable>): int {
    if keys == {} then 0
    else
      var key :| key in keys;
      Worth(db, key) + WorthOfAll(db, keys - {key})
  }

  lemma {:induction false} WorthOfOneMore(db: Db, keys: set<Payable>, key: Payable)
    requires key in keys
    ensures WorthOfAll(db, keys) == Worth(db, key) + WorthOfAll(db, keys - {key})
    decreases |keys|
  {
    var first :| first in keys && WorthOfAll(db, keys) == Worth(db, first) + WorthOfAll(db, keys - {first});
    if first != key {
      WorthOfOneMore(db, keys - {first}, key);
      WorthOfOneMore(db, keys - {key}, first);
      assert keys - {first} - {key} == keys - {key} - {first};
    }
  }

  predicate KeysDiffer(ledger: seq<Row>) {
    forall i, j :: 0 <= i < j < |ledger| ==> ledger[i].key != ledger[j].key
  }

  lemma KeysWithoutLast(ledger: seq<Row>)
    requires ledger != [] && KeysDiffer(ledger)
    ensures ledger[|ledger| - 1].key in Keys(ledger)
    ensures Keys(ledger) - {ledger[|ledger| - 1].key} == Keys(ledger[..|ledger| - 1])
  {
    var before := ledger[..|ledger| - 1];
    assert forall i :: 0 <= i < |before| ==> before[i] == ledger[i];
  }

  lemma {:induction false} TotalOfPrefix(db: Db, ledger: seq<Row>)
    requires KeysDiffer(ledger) && forall i :: 0 <= i < |ledger| ==> ledger[i].credits == Worth(db, ledger[i].key)
    ensures Total(ledger) == WorthOfAll(db, Keys(ledger))
    decreases |ledger|
  {
    if ledger != [] {
      var n := |ledger| - 1;
      TotalOfPrefix(db, ledger[..n]);
      KeysWithoutLast(ledger);
      WorthOfOneMore(db, Keys(ledger), ledger[n].key);
    }
  }

  /** The ledger adds up to the worth of the distinct reasons it holds. */
  lemma TotalIsTheSumOverReasons(steps: seq<Step>)
    requires CanRun(EMPTY, steps)
    ensures var db := Run(EMPTY, steps).db;
      && Total(db.ledger) == WorthOfAll(db, Keys(db.ledger))
      && forall k, l :: k in Keys(db.ledger) && l in Keys(db.ledger) && k != l ==> PaymentId(k) != PaymentId(l)
  {
    RunIsSound(EMPTY, steps);
    TotalOfPrefix(Run(EMPTY, steps).db, Run(EMPTY, steps).db.ledger);
  }

  // ------------------------------------------------------------ invite bonuses

  lemma BothAreGranted(ledger: seq<Row>, invitee: string, org: string, inviterOrg: string, prospects: int)
    requires KeysWellFormed(ledger) && prospects > 0
    requires !Holds(ledger, Invite(invitee, Invitee)) && !Holds(ledger, Invite(invitee, Inviter))
    ensures Granted(Granted(ledger, org, prospects, Invite(invitee, Invitee)), inviterOrg, prospects,
                    Invite(invitee, Inviter))
         == ledger + [Row(org, prospects, Invite(invitee, Invitee))]
                + [Row(inviterOrg, prospects, Invite(invitee, Inviter))]
  {
    TakenIffHeld(ledger, Invite(invitee, Invitee));
    TakenIffHeld(ledger + [Row(org, prospects, Invite(invitee, Invitee))], Invite(invitee, Inviter));
  }

  /** A settlement left to run records the bonus and pays each side its row of it; one already recorded does nothing. */
  lemma SettlingPaysBothSides(w: World, invitee: string, org: string, inviterOrg: string, prospects: int)
    requires SoundDb(w.db) && prospects > 0
    ensures var after := Apply(w, SettleInvite(invitee, org, inviterOrg, prospects));
            if invitee in w.db.bonuses then after == w
            else
              && |after.tasks| == |w.tasks| + 1 && after.tasks[..|w.tasks|] == w.tasks
              && Finish(after.db, after.tasks[|w.tasks|]) == w.db.(
                   bonuses := w.db.bonuses[invitee := prospects],
                   ledger := w.db.ledger + [Row(org, prospects, Invite(invitee, Invitee))]
                       + [Row(inviterOrg, prospects, Invite(invitee, Inviter))])
  {
    if invitee !in w.db.bonuses {
      NotYetPaid(w.db, invitee, Invitee);
      NotYetPaid(w.db, invitee, Inviter);
      BothAreGranted(w.db.ledger, invitee, org, inviterOrg, prospects);
      ClaimLeftToRun(w.db.(bonuses := w.db.bonuses[invitee := prospects]), invitee, org, inviterOrg, prospects);
    }
  }

  lemma NotYetPaid(db: Db, invitee: string, side: Side)
    requires SoundDb(db) && invitee !in db.bonuses
    ensures !Holds(db.ledger, Invite(invitee, side))
  {
  }

  lemma ClaimLeftToRun(db: Db, invitee: string, org: string, inviterOrg: string, prospects: int)
    ensures Finish(db, PayingInvitee(invitee, org, inviterOrg, prospects))
         == db.(ledger := Granted(Granted(db.ledger, org, prospects, Invite(invitee, Invitee)), inviterOrg, prospects,
                                  Invite(invitee, Inviter)))
  {
    var first := PayingInvitee(invitee, org, inviterOrg, prospects);
    var second := PayingInviter(invitee, inviterOrg, prospects);
    var after := Perform(Perform(db, first), second);
    assert Finish(db, first) == Finish(Perform(db, first), second) == Finish(after, Idle) == after;
  }

  /** Left to run, a claimed bonus pays both sides the claimed amount. */
  lemma ClaimPaysBothSides(db: Db, invitee: string, org: string, inviterOrg: string, prospects: int)
    requires SoundDb(db) && invitee in db.bonuses && db.bonuses[invitee] == prospects > 0
    ensures var after := Finish(db, PayingInvitee(invitee, org, inviterOrg, prospects));
      SoundDb(after) && Holds(after.ledger, Invite(invitee, Invitee)) && Holds(after.ledger, Invite(invitee, Inviter))
  {
    var first := PayingInvitee(invitee, org, inviterOrg, prospects);
    var second := PayingInviter(invitee, inviterOrg, prospects);
    var mid := Perform(db, first);
    var after := Perform(mid, second);
    assert Finish(db, first) == Finish(mid, second) == Finish(after, Idle) == after;
    PerformKeeps(db, first);
    PerformKeeps(mid, second);
    HeldOnceGranted(db.ledger, org, prospects, Invite(invitee, Invitee));
    HeldOnceGranted(mid.ledger, inviterOrg, prospects, Invite(invitee, Inviter));
    HoldsStays(mid.ledger, after.ledger, Invite(invitee, Invitee));
  }

  predicate NobodyPaying(w: World, invitee: string) {
    forall i :: 0 <= i < |w.tasks| ==>
      && !(w.tasks[i].PayingInvitee? && w.tasks[i].invitee == invitee)
      && !(w.tasks[i].PayingInviter? && w.tasks[i].invitee == invitee)
  }

  /**
   * A settlement that stopped after its claim is never finished by anything later:
   * what it had not paid stays unpaid.
   */
  lemma {:induction false} StoppedClaimStaysUnpaid(w: World, steps: seq<Step>, invitee: string, side: Side)
    requires Sound(w) && CanRun(w, steps)
    requires invitee in w.db.bonuses && NobodyPaying(w, invitee)
    ensures Holds(Run(w, steps).db.ledger, Invite(invitee, side)) <==> Holds(w.db.ledger, Invite(invitee, side))
    decreases |steps|
  {
    if steps != [] {
      StepIsSound(w, steps[0]);
      NobodyPaysNext(w, steps[0], invitee, side);
      StoppedClaimStaysUnpaid(Apply(w, steps[0]), steps[1..], invitee, side);
    }
  }

  lemma NobodyPaysNext(w: World, step: Step, invitee: string, side: Side)
    requires Sound(w) && Enabled(w, step) && invitee in w.db.bonuses && NobodyPaying(w, invitee)
    ensures NobodyPaying(Apply(w, step), invitee)
    ensures Holds(Apply(w, step).db.ledger, Invite(invitee, side)) <==> Holds(w.db.ledger, Invite(invitee, side))
  {
    if step.Advance? {
      var task := w.tasks[step.handler];
      assert Backed(w.db, task);
      OnlyItsOwnKey(w.db, task, Invite(invitee, side));
    }
  }

  /** A write adds a row for the key its handler is paying, and for no other. */
  lemma OnlyItsOwnKey(db: Db, task: Task, key: Payable)
    requires key.Invite? && Backed(db, task)
    requires !(task.PayingInvitee? && task.invitee == key.inviteeId)
    requires !(task.PayingInviter? && task.invitee == key.inviteeId)
    ensures Holds(Perform(db, task).ledger, key) <==> Holds(db.ledger, key)
  {
    var after := Perform(db, task).ledger;
    assert db.ledger <= after && |after| <= |db.ledger| + 1;
    assert |after| > |db.ledger| ==> after[|db.ledger|].key != key;
    if Holds(db.ledger, key) {
      HoldsStays(db.ledger, after, key);
    }
  }

  // ----------------------------------------------------------- staying confirmed

  predicate IsConfirmed(w: World, session: string) {
    session in w.db.purchases && w.db.purchases[session].status == Confirmed
  }

  /**
   * One step takes a purchase out of confirmed exactly when it is the late
   * write of an unpaid delivery that read the purchase before it was confirmed.
   */
  lemma ConfirmedIsLeftIff(w: World, step: Step, session: string)
    requires Sound(w) && Enabled(w, step) && IsConfirmed(w, session)
    ensures !IsConfirmed(Apply(w, step), session)
       <==> step.Advance? && w.tasks[step.handler].Recording? && w.tasks[step.handler].session == session
  {
    if step.Advance? && w.tasks[step.handler].Recording? {
      assert Backed(w.db, w.tasks[step.handler]);
    }
  }

  predicate NoLateRecording(w: World, session: string) {
    forall i :: 0 <= i < |w.tasks| ==> !(w.tasks[i].Recording? && w.tasks[i].session == session)
  }

  lemma NoLateRecordingStays(w: World, step: Step, session: string)
    requires Sound(w) && Enabled(w, step) && IsConfirmed(w, session) && NoLateRecording(w, session)
    ensures NoLateRecording(Apply(w, step), session)
  {
  }

  lemma {:induction false} ConfirmedStays(w: World, steps: seq<Step>, session: string)
    requires Sound(w) && CanRun(w, steps) && IsConfirmed(w, session) && NoLateRecording(w, session)
    ensures IsConfirmed(Run(w, steps), session)
    decreases |steps|
  {
    if steps != [] {
      ConfirmedIsLeftIff(w, steps[0], session);
      NoLateRecordingStays(w, steps[0], session);
      StepIsSound(w, steps[0]);
      ConfirmedStays(Apply(w, steps[0]), steps[1..], session);
    }
  }

  /**
   * A confirmed purchase stays confirmed through every run exactly when no unpaid
   * delivery of it is still to be written.
   */
  lemma ConfirmedForGoodIff(w: World, session: string)
    requires Sound(w) && IsConfirmed(w, session)
    ensures (forall steps :: CanRun(w, steps) ==> IsConfirmed(Run(w, steps), session)) <==> NoLateRecording(w, session)
  {
    if NoLateRecording(w, session) {
      forall steps | CanRun(w, steps) ensures IsConfirmed(Run(w, steps), session) {
        ConfirmedStays(w, steps, session);
      }
    } else {
      var i :| 0 <= i < |w.tasks| && w.tasks[i].Recording? && w.tasks[i].session == session;
      ConfirmedIsLeftIff(w, Advance(i), session);
      OneStep(w, Advance(i));
      assert !IsConfirmed(Run(w, [Advance(i)]), session);
    }
  }

  function Delivery(status: string): Step {
    Webhook(Event("payment." + status, status, ["cs_1"]))
  }

  const BOUGHT: map<string, Purchase> := map["cs_1" := Purchase("org", 100, Pending)]
  const CREDITED: seq<Row> := [Row("org", 100, Gateway("cs_1"))]

  /** A `detected` delivery reads the purchase before a `confirmed` one does. */
  lemma BothRead()
    ensures var steps := [Buy("cs_1", "org", Pack100)] + [Delivery("detected")] + [Delivery("confirmed")];
      && CanRun(EMPTY, steps)
      && Run(EMPTY, steps) == World(Db(BOUGHT, [], map[], map[]),
            [Recording("cs_1", Detected), Crediting("cs_1", "org", 100)])
  {
    assert !Prefixed("cs_1") by {
      assert "cs_1"[0] == 'c' && "cs_1"[1] == 's';
    }
    OneStep(EMPTY, Buy("cs_1", "org", Pack100));
    Follows(EMPTY, [Buy("cs_1", "org", Pack100)], Delivery("detected"));
    Follows(EMPTY, [Buy("cs_1", "org", Pack100)] + [Delivery("detected")], Delivery("confirmed"));
  }

  /** The second settles the purchase; the first then writes what it read for. */
  lemma LateWriteUnconfirms(w: World)
    requires w == World(Db(BOUGHT, [], map[], map[]), [Recording("cs_1", Detected), Crediting("cs_1", "org", 100)])
    ensures var settled := Apply(Apply(w, Advance(1)), Advance(1));
      && IsConfirmed(settled, "cs_1") && settled.tasks[0] == Recording("cs_1", Detected)
      && !IsConfirmed(Apply(settled, Advance(0)), "cs_1") && Apply(settled, Advance(0)).db.ledger == CREDITED
  {
    assert Granted([], "org", 100, Gateway("cs_1")) == CREDITED;
  }

  /**
   * So the code gets there: from nothing to a purchase credited and confirmed, and
   * no longer confirmed one write later.
   */
  lemma ConfirmedCanBeLeft() returns (steps: seq<Step>)
    ensures CanRun(EMPTY, steps) && IsConfirmed(Run(EMPTY, steps), "cs_1")
    ensures Enabled(Run(EMPTY, steps), Advance(0)) && !IsConfirmed(Apply(Run(EMPTY, steps), Advance(0)), "cs_1")
    ensures Apply(Run(EMPTY, steps), Advance(0)).db.ledger == CREDITED
  {
    var read := [Buy("cs_1", "org", Pack100)] + [Delivery("detected")] + [Delivery("confirmed")];
    BothRead();
    LateWriteUnconfirms(Run(EMPTY, read));
    Follows(EMPTY, read, Advance(1));
    Follows(EMPTY, read + [Advance(1)], Advance(1));
    steps := read + [Advance(1)] + [Advance(1)];
  }

  lemma OneStep(w: World, step: Step)
    requires Enabled(w, step)
    ensures CanRun(w, [step]) && Run(w, [step]) == Apply(w, step)
  {
    assert [step][1..] == [];
    assert CanRun(Apply(w, step), []);
  }

  lemma {:induction false} Follows(w: World, steps: seq<Step>, step: Step)
    requires CanRun(w, steps) && Enabled(Run(w, steps), step)
    ensures CanRun(w, steps + [step]) && Run(w, steps + [step]) == Apply(Run(w, steps), step)
    decreases |steps|
  {
    if steps == [] {
      OneStep(w, step);
      assert steps + [step] == [step];
    } else {
      Follows(Apply(w, steps[0]), steps[1..], step);
      assert (steps + [step])[1..] == steps[1..] + [step];
    }
  }

  // ---------------------------------------------------------- repairing a grant

  /** The rows a repair adds: one for each entry whose key is not yet held. */
  function Repaired(ledger: seq<Row>, userId: string, org: string, left: seq<HistoryEntry>): seq<Row>
    decreases |left|
  {
    if left == [] then ledger
    else if left[0].OtherEntry? then Repaired(ledger, userId, org, left[1..])
    else Repaired(Granted(ledger, org, left[0].amount, Code(left[0].codeId, userId)), userId, org, left[1..])
  }

  lemma {:induction false} RepairFinishes(db: Db, userId: string, org: string, left: seq<HistoryEntry>)
    ensures Finish(db, Repairing(userId, org, left)) == db.(ledger := Repaired(db.ledger, userId, org, left))
    decreases |left|
  {
    if left == [] {
      assert Finish(Perform(db, Repairing(userId, org, left)), Idle) == db;
    } else {
      RepairFinishes(Perform(db, Repairing(userId, org, left)), userId, org, left[1..]);
    }
  }

  function RepairOne(ledger: seq<Row>, userId: string, org: string, entry: HistoryEntry): seq<Row> {
    if entry.OtherEntry? then ledger else Granted(ledger, org, entry.amount, Code(entry.codeId, userId))
  }

  lemma RepairGoesOn(ledger: seq<Row>, userId: string, org: string, history: seq<HistoryEntry>, i: nat)
    requires i < |history|
    ensures Repaired(ledger, userId, org, history[i..])
         == Repaired(RepairOne(ledger, userId, org, history[i]), userId, org, history[i + 1..])
  {
    assert history[i..][0] == history[i] && history[i..][1..] == history[i + 1..];
  }

  predicate Mintable(left: seq<HistoryEntry>) {
    forall i :: 0 <= i < |left| && left[i].CodeGrant? ==> left[i].amount > 0 && ':' !in left[i].codeId
  }

  lemma {:induction false} RepairExtends(ledger: seq<Row>, userId: string, org: string, left: seq<HistoryEntry>)
    requires KeysWellFormed(ledger) && Mintable(left)
    ensures ledger <= Repaired(ledger, userId, org, left) && KeysWellFormed(Repaired(ledger, userId, org, left))
    decreases |left|
  {
    if left != [] {
      RepairExtends(RepairOne(ledger, userId, org, left[0]), userId, org, left[1..]);
    }
  }

  /** Afterwards every entry of the history is held. */
  lemma {:induction false} RepairPaysAll(ledger: seq<Row>, userId: string, org: string, left: seq<HistoryEntry>, i: nat)
    requires KeysWellFormed(ledger) && Mintable(left) && i < |left| && left[i].CodeGrant?
    ensures Holds(Repaired(ledger, userId, org, left), Code(left[i].codeId, userId))
    decreases |left|
  {
    var first := RepairOne(ledger, userId, org, left[0]);
    if i == 0 {
      HeldOnceGranted(ledger, org, left[0].amount, Code(left[0].codeId, userId));
      RepairExtends(first, userId, org, left[1..]);
      HoldsStays(first, Repaired(first, userId, org, left[1..]), Code(left[0].codeId, userId));
    } else {
      RepairPaysAll(first, userId, org, left[1..], i - 1);
    }
  }

  /**
   * A row a repair adds: this person's code grant, not held before, at the amount
   * on record, to the organization retrying.
   */
  predicate IsRepair(ledger: seq<Row>, userId: string, org: string, left: seq<HistoryEntry>, row: Row) {
    && row.key.Code? && row.key.userId == userId && row.org == org && !Holds(ledger, row.key)
    && CodeGrant(row.key.codeId, row.credits) in left
  }

  lemma {:induction false} RepairAddsOnly(ledger: seq<Row>, userId: string, org: string, left: seq<HistoryEntry>,
          i: nat)
    requires KeysWellFormed(ledger) && Mintable(left) && |ledger| <= i < |Repaired(ledger, userId, org, left)|
    ensures IsRepair(ledger, userId, org, left, Repaired(ledger, userId, org, left)[i])
    decreases |left|
  {
    var first := RepairOne(ledger, userId, org, left[0]);
    RepairExtends(first, userId, org, left[1..]);
    if i < |first| {
      TakenIffHeld(ledger, Code(left[0].codeId, userId));
    } else {
      RepairAddsOnly(first, userId, org, left[1..], i);
      var row := Repaired(ledger, userId, org, left)[i];
      if Holds(ledger, row.key) {
        HoldsStays(ledger, first, row.key);
      }
    }
  }

  lemma HeldOnceGranted(ledger: seq<Row>, org: string, credits: int, key: Payable)
    requires credits > 0 && KeysWellFormed(ledger) && WellFormed(key)
    ensures Holds(Granted(ledger, org, credits, key), key)
  {
    TakenIffHeld(ledger, key);
    if !Holds(ledger, key) {
      assert Granted(ledger, org, credits, key)[|ledger|].key == key;
    }
  }

  predicate Lost(db: Db, key: Payable) {
    key in db.redeemed && !Holds(db.ledger, key)
  }

  /**
   * A retry answered "already redeemed" pays exactly this person's lost code
   * grants: the rows added are theirs, at the amounts redeemed, and afterwards
   * none is lost.
   */
  lemma RetryPaysWhatWasLost(db: Db, userId: string, org: string, history: seq<HistoryEntry>)
    requires SoundDb(db) && IsHistory(db, userId, history)
    ensures var after := Finish(db, Repairing(userId, org, history));
      && SoundDb(after) && db.ledger <= after.ledger
      && (forall i :: |db.ledger| <= i < |after.ledger| ==>
            var row := after.ledger[i];
            Lost(db, row.key) && row.key.userId == userId && row.credits == db.redeemed[row.key] && row.org == org)
      && (forall key :: Lost(db, key) && key.userId == userId ==> Holds(after.ledger, key))
  {
    var after := Repaired(db.ledger, userId, org, history);
    RepairFinishes(db, userId, org, history);
    FinishIsSound(db, Repairing(userId, org, history));
    HistoryIsMintable(db, userId, history);
    forall i | |db.ledger| <= i < |after| ensures IsRepair(db.ledger, userId, org, history, after[i]) {
      RepairAddsOnly(db.ledger, userId, org, history, i);
    }
    forall key | Lost(db, key) && key.userId == userId ensures Holds(after, key) {
      var i :| 0 <= i < |history| && history[i] == CodeGrant(key.codeId, db.redeemed[key]);
      RepairPaysAll(db.ledger, userId, org, history, i);
    }
  }

  /** A redemption that stopped before it paid, and the retry that pays it. */
  lemma ALostGrantIsRepaid(codeId: string, amount: int, userId: string, org: string)
    requires ':' !in codeId && 0 < amount <= 100_000
    ensures var none, lost := Db(map[], [], map[], map[]), Db(map[], [], map[Code(codeId, userId) := amount], map[]);
            var history := [CodeGrant(codeId, amount)];
      && Answers(none, userId, Redeemed(codeId, amount)) && AfterRedeem(none, userId, Redeemed(codeId, amount)) == lost
      && Answers(lost, userId, AlreadyRedeemed(history))
      && Finish(lost, OnRedeem(userId, org, AlreadyRedeemed(history)))
         == lost.(ledger := [Row(org, amount, Code(codeId, userId))])
  {
    var lost, history := Db(map[], [], map[Code(codeId, userId) := amount], map[]), [CodeGrant(codeId, amount)];
    assert history[0] in history;
    RepairFinishes(lost, userId, org, history);
    RepairGoesOn(lost.ledger, userId, org, history, 0);
    assert history[1..] == [];
  }

  lemma HistoryIsMintable(db: Db, userId: string, history: seq<HistoryEntry>)
    requires SoundDb(db) && IsHistory(db, userId, history)
    ensures Mintable(history)
  {
    assert forall i :: 0 <= i < |history| && history[i].CodeGrant? ==>
        db.redeemed[Code(history[i].codeId, userId)] > 0 && WellFormed(Code(history[i].codeId, userId));
  }

  lemma {:induction false} FinishIsSound(db: Db, task: Task)
    requires SoundDb(db) && Backed(db, task)
    ensures SoundDb(Finish(db, task)) && Extends(db, Finish(db, task))
    decreases WritesLeft(task)
  {
    if !task.Idle? {
      PerformKeeps(db, task);
      FinishIsSound(Perform(db, task), Next(task));
    }
  }

  // ------------------------------------------------------------- the handlers

  datatype PassGrant = PassCredited | NoPass | NoOrganization | AlreadyGranted

  datatype Outcome = Acknowledged | NoPaymentId | UnknownPayment | RecordedStatus | Credited | AlreadyCredited

  class CreditDesk {
    var purchases: map<string, Purchase>
    var ledger: seq<Row>
    var redeemed: map<Payable, int>
    var bonuses: map<string, int>

    function Tables(): Db
      reads this
    {
      Db(purchases, ledger, redeemed, bonuses)
    }

    /** True when the grant was new. */
    method GrantCredits(org: string, credits: int, key: Payable) returns (added: bool)
      modifies this`ledger
      ensures ledger == Granted(old(ledger), org, credits, key)
      ensures added <==> credits > 0 && !Taken(old(ledger), PaymentId(key))
    {
      if credits <= 0 || Taken(ledger, PaymentId(key)) {
        return false;
      }
      ledger := ledger + [Row(org, credits, key)];
      return true;
    }

    method FindPurchase(refs: seq<string>) returns (found: Option<string>)
      ensures found == FirstKnown(purchases, refs)
    {
      var i := 0;
      while i < |refs|
        invariant 0 <= i <= |refs|
        invariant FirstKnown(purchases, refs) == FirstKnown(purchases, refs[i..])
      {
        if refs[i] in purchases {
          return Some(refs[i]);
        }
        i := i + 1;
      }
      return None;
    }

    method HandleCoinPayWebhook(event: Event) returns (outcome: Outcome)
      modifies this
      ensures Tables() == Finish(old(Tables()), OnWebhook(old(Tables()), event))
      ensures outcome == Credited <==> ledger != old(ledger)
      ensures ledger != old(ledger) ==>
                event.status == "confirmed" || event.status == "forwarded" ||
                (event.status == "" && (event.kind == "payment.confirmed" || event.kind == "payment.forwarded"))
      ensures outcome == UnknownPayment <==>
                event.kind != "test.webhook" && event.refs != [] &&
                (forall i :: 0 <= i < |event.refs| ==> event.refs[i] !in old(purchases))
    {
      if event.kind == "test.webhook" {
        return Acknowledged;
      }
      if event.refs == [] {
        return NoPaymentId;
      }
      ghost var before, task := Tables(), OnWebhook(Tables(), event);
      var found := FindPurchase(event.refs);
      if found.None? {
        return UnknownPayment;
      }
      var session := found.value;
      var purchase := purchases[session];
      if !Paid(event) {
        if purchase.status != Confirmed {
          purchases := purchases[session := purchase.(status := WebhookStatus(event))];
          assert Finish(Perform(before, task), Idle) == Tables();
        }
        return RecordedStatus;
      }
      var credited := GrantCredits(purchase.org, purchase.credits, Gateway(session));
      purchases := purchases[session := purchase.(status := Confirmed)];
      assert Tables() == Perform(Perform(before, task), Next(task));
      assert Finish(before, task) == Finish(Perform(before, task), Next(task)) == Tables();
      return if credited then Credited else AlreadyCredited;
    }

    /** Re-applies every code grant this person holds; the ones already paid collide. */
    method RepairCodeGrants(userId: string, org: string, history: seq<HistoryEntry>)
      modifies this`ledger
      ensures ledger == Repaired(old(ledger), userId, org, history)
    {
      var i := 0;
      while i < |history|
        invariant 0 <= i <= |history|
        invariant Repaired(ledger, userId, org, history[i..]) == Repaired(old(ledger), userId, org, history)
      {
        RepairGoesOn(ledger, userId, org, history, i);
        if history[i].CodeGrant? {
          var _ := GrantCredits(org, history[i].amount, Code(history[i].codeId, userId));
        }
        i := i + 1;
      }
    }

    /** `result` is the redemption package's answer, whose own record is the first write. */
    method RedeemCreditCode(userId: string, org: string, result: RedeemResult)
      requires Answers(Tables(), userId, result)
      modifies this
      ensures Tables() == Finish(AfterRedeem(old(Tables()), userId, result), OnRedeem(userId, org, result))
    {
      ghost var recorded := AfterRedeem(Tables(), userId, result);
      match result {
        case Redeemed(codeId, amount) =>
          redeemed := redeemed[Code(codeId, userId) := amount];
          var _ := GrantCredits(org, amount, Code(codeId, userId));
          assert Finish(recorded, OnRedeem(userId, org, result)) == Perform(recorded, OnRedeem(userId, org, result));
        case AlreadyRedeemed(history) =>
          RepairFinishes(recorded, userId, org, history);
          RepairCodeGrants(userId, org, history);
        case _ =>
      }
    }

    /** `home` is the organization a person's credit goes to, if they have one; `iso` writes a time as its stamp. */
    method GrantCoinpayPass(sub: string, pass: Option<CoinpayPass>, now: int, iso: int -> string, home: Option<string>)
      returns (grant: PassGrant)
      modifies this`ledger
      ensures grant.NoPass? <==> PassPaymentId(sub, pass, now, iso).None?
      ensures grant.NoOrganization? <==> PassPaymentId(sub, pass, now, iso).Some? && home.None?
      ensures grant.PassCredited? || grant.AlreadyGranted? ==>
                ledger == Granted(old(ledger), home.value, 100, Pass(sub, iso(pass.value.expiresAt.value)))
      ensures grant.PassCredited? <==> ledger != old(ledger)
    {
      if PassPaymentId(sub, pass, now, iso).None? {
        return NoPass;
      }
      if home.None? {
        return NoOrganization;
      }
      SizesAre();
      var added := GrantCredits(home.value, PASS_CREDITS, Pass(sub, iso(pass.value.expiresAt.value)));
      return if added then PassCredited else AlreadyGranted;
    }
  }
}
