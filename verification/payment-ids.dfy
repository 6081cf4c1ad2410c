/**
 * The keys of the credit ledger. Each source of credit builds its own
 * `payment_id`, and the ledger's unique index on that text is what makes a
 * grant happen once, so two different reasons to pay must never share a key.
 */
module PaymentIds {
  import opened Options

  datatype Side = Invitee | Inviter

  /** A reason to pay. `expires` is a pass's end as ISO text. */
  datatype Payable =
    | Gateway(sessionId: string)
    | Code(codeId: string, userId: string)
    | Invite(inviteeId: string, side: Side)
    | Pass(sub: string, expires: string)

  function SideName(side: Side): string {
    if side.Invitee? then "invitee" else "inviter"
  }

  function Joined(a: string, x: string): string {
    a + ":" + x
  }

  function Prefix(p: Payable): string {
    match p
    case Gateway(_) => ""
    case Code(_, _) => "code:"
    case Invite(_, _) => "invite:"
    case Pass(_, _) => "coinpay-pass:"
  }

  /** The text after the source's own prefix. */
  function Rest(p: Payable): string {
    match p
    case Gateway(sessionId) => sessionId
    case Code(codeId, userId) => Joined(codeId, userId)
    case Invite(inviteeId, side) => Joined(inviteeId, SideName(side))
    case Pass(sub, expires) => Joined(sub, expires)
  }

  function PaymentId(p: Payable): string {
    Prefix(p) + Rest(p)
  }

  /** The text of each source's key. */
  lemma KeyTexts(p: Payable)
    ensures PaymentId(p) == match p
      case Gateway(sessionId) => sessionId
      case Code(codeId, userId) => "code:" + codeId + ":" + userId
      case Invite(inviteeId, Invitee) => "invite:" + inviteeId + ":invitee"
      case Invite(inviteeId, Inviter) => "invite:" + inviteeId + ":inviter"
      case Pass(sub, expires) => "coinpay-pass:" + sub + ":" + expires
  {
    assert p.Gateway? ==> "" + p.sessionId == p.sessionId;
    assert p.Code? ==> "code:" + (p.codeId + ":" + p.userId) == "code:" + p.codeId + ":" + p.userId;
    assert p.Pass? ==> "coinpay-pass:" + (p.sub + ":" + p.expires) == "coinpay-pass:" + p.sub + ":" + p.expires;
    if p.Invite? {
      var side := SideName(p.side);
      assert "invite:" + (p.inviteeId + ":" + side) == ("invite:" + p.inviteeId) + (":" + side);
      assert ":" + "invitee" == ":invitee" && ":" + "inviter" == ":inviter";
    }
  }

  predicate Digit(c: char) {
    '0' <= c <= '9'
  }

  /** Four digits of year, or a sign and six, then `-MM-DDTHH:mm:ss.sssZ`: twenty characters. */
  predicate IsIsoStamp(s: string) {
    || (|s| == 24 && forall i :: 0 <= i < 4 ==> Digit(s[i]))
    || (|s| == 27 && (s[0] == '+' || s[0] == '-') && forall i :: 1 <= i < 7 ==> Digit(s[i]))
  }

  /** Whatever the rest of a stamp says: four digits of year, or six after a sign. */
  lemma StampShapes(year: string, sign: char, rest: string)
    requires forall i :: 0 <= i < |year| ==> '0' <= year[i] && year[i] <= '9'
    requires (sign == '+' || sign == '-') && |rest| == 20
    ensures |year| == 4 ==> IsIsoStamp(year + rest)
    ensures |year| == 6 ==> IsIsoStamp([sign] + (year + rest))
  {
    assert forall i :: 0 <= i < |year| ==> (year + rest)[i] == year[i];
    assert forall i :: 0 <= i < |year| ==> ([sign] + (year + rest))[i + 1] == (year + rest)[i];
  }

  predicate Prefixed(s: string) {
    "code:" <= s || "invite:" <= s || "coinpay-pass:" <= s
  }

  /** Code ids hold no colon; nothing is asked of user ids or of a CoinPay subject. */
  predicate WellFormed(p: Payable) {
    match p
    case Gateway(sessionId) => !Prefixed(sessionId)
    case Code(codeId, _) => ':' !in codeId
    case Invite(_, _) => true
    case Pass(_, expires) => IsIsoStamp(expires)
  }

  lemma JoinedChars(a: string, x: string)
    ensures |Joined(a, x)| == |a| + 1 + |x|
    ensures Joined(a, x)[|a|] == ':'
    ensures forall i :: 0 <= i < |a| ==> Joined(a, x)[i] == a[i]
    ensures forall i :: |a| < i < |Joined(a, x)| ==> Joined(a, x)[i] == x[i - |a| - 1]
    ensures Joined(a, x)[..|a|] == a && Joined(a, x)[|a| + 1..] == x
  {
  }

  /** Text cut at its first colon comes apart one way. */
  lemma CutAtFirstColon(a: string, b: string, x: string, y: string)
    requires ':' !in a && ':' !in b && Joined(a, x) == Joined(b, y)
    ensures a == b && x == y
  {
    JoinedChars(a, x);
    JoinedChars(b, y);
    assert forall i :: 0 <= i < |a| ==> a[i] != ':';
    assert forall i :: 0 <= i < |b| ==> b[i] != ':';
    assert |a| == |b|;
  }

  /** A pass key comes apart at the colon its stamp's fixed width leaves: a longer stamp has a digit there. */
  lemma CutBeforeStamp(a: string, b: string, x: string, y: string)
    requires IsIsoStamp(x) && IsIsoStamp(y) && Joined(a, x) == Joined(b, y)
    ensures a == b && x == y
  {
    JoinedChars(a, x);
    JoinedChars(b, y);
    assert |x| == 27 ==> x[2] != ':';
    assert |y| == 27 ==> y[2] != ':';
    assert |x| == |y|;
  }

  lemma CutBeforeSide(a: string, b: string, x: Side, y: Side)
    requires Joined(a, SideName(x)) == Joined(b, SideName(y))
    ensures a == b && x == y
  {
    JoinedChars(a, SideName(x));
    JoinedChars(b, SideName(y));
    assert SideName(x)[6] == SideName(y)[6];
  }

  lemma WithoutPrefix(prefix: string, s: string, t: string)
    requires prefix + s == prefix + t
    ensures s == t
  {
    assert s == (prefix + s)[|prefix|..] && t == (prefix + t)[|prefix|..];
  }

  lemma StartsWithItsPrefix(p: Payable)
    requires WellFormed(p)
    ensures p.Gateway? <==> !Prefixed(PaymentId(p))
    ensures !p.Gateway? ==> |PaymentId(p)| > 2 && PaymentId(p)[0] == Prefix(p)[0] && PaymentId(p)[2] == Prefix(p)[2]
  {
  }

  lemma SamePrefix(p: Payable, q: Payable)
    requires WellFormed(p) && WellFormed(q) && PaymentId(p) == PaymentId(q)
    ensures Prefix(p) == Prefix(q)
  {
    StartsWithItsPrefix(p);
    StartsWithItsPrefix(q);
    assert p.Gateway? <==> q.Gateway?;
    if !p.Gateway? {
      assert Prefix(p)[0] == Prefix(q)[0] && Prefix(p)[2] == Prefix(q)[2];
    }
  }

  /** Different reasons to pay have different keys, within a source and across sources. */
  lemma KeysAreDistinct(p: Payable, q: Payable)
    requires WellFormed(p) && WellFormed(q) && PaymentId(p) == PaymentId(q)
    ensures p == q
  {
    SamePrefix(p, q);
    WithoutPrefix(Prefix(p), Rest(p), Rest(q));
    match p
    case Gateway(_) =>
    case Code(codeId, userId) => CutAtFirstColon(codeId, q.codeId, userId, q.userId);
    case Invite(inviteeId, side) => CutBeforeSide(inviteeId, q.inviteeId, side, q.side);
    case Pass(sub, expires) => CutBeforeStamp(sub, q.sub, expires, q.expires);
  }

  /** A colon in a code id is enough to make two redemptions share a key. */
  lemma ColonInACodeIdCollides(a: string, b: string, c: string)
    ensures PaymentId(Code(a + ":" + b, c)) == PaymentId(Code(a, b + ":" + c))
    ensures Code(a + ":" + b, c) != Code(a, b + ":" + c)
  {
    assert |a + ":" + b| > |a|;
    assert Joined(a + ":" + b, c) == Joined(a, b + ":" + c);
  }

  /** How the redemption record names where a grant came from. */
  function HistorySource(codeId: string): string {
    "code:" + codeId
  }

  /** The repair path builds its key from that record, and it is the key the redemption itself would have used. */
  lemma RepairRebuildsTheKey(source: string, codeId: string, userId: string)
    requires ':' !in codeId
    ensures source + ":" + userId == PaymentId(Code(codeId, userId)) <==> source == HistorySource(codeId)
  {
    assert PaymentId(Code(codeId, userId)) == HistorySource(codeId) + ":" + userId;
    if source + ":" + userId == PaymentId(Code(codeId, userId)) {
      var s := source + ":" + userId;
      assert source == s[..|source|];
      assert |source| == |HistorySource(codeId)|;
    }
  }

  /** What the sign-in says of a pass; no end, or one that is not a time, is None. */
  datatype CoinpayPass = CoinpayPass(active: bool, expiresAt: Option<int>)

  function PassPaymentId(sub: string, pass: Option<CoinpayPass>, now: int, iso: int -> string): Option<string> {
    if sub == "" || pass.None? || !pass.value.active || pass.value.expiresAt.None? then None
    else if pass.value.expiresAt.value <= now then None
    else Some(PaymentId(Pass(sub, iso(pass.value.expiresAt.value))))
  }

  /** A sign-in earns a key exactly with a subject and an active pass that has an end still to come. */
  lemma PassKeyIs(sub: string, pass: Option<CoinpayPass>, now: int, iso: int -> string)
    ensures PassPaymentId(sub, pass, now, iso).Some? <==>
            |sub| > 0 && pass.Some? && pass.value.active && pass.value.expiresAt.Some? &&
            now < pass.value.expiresAt.value
    ensures PassPaymentId(sub, pass, now, iso).Some? ==>
              PassPaymentId(sub, pass, now, iso).value
              == "coinpay-pass:" + sub + ":" + iso(pass.value.expiresAt.value)
  {
    if PassPaymentId(sub, pass, now, iso).Some? {
      KeyTexts(Pass(sub, iso(pass.value.expiresAt.value)));
    }
  }

  /** Two sign-ins that both earn a key earn the same one exactly when they are one person's same pass. */
  lemma OneKeyPerPass(sub1: string, pass1: CoinpayPass, now1: int, sub2: string, pass2: CoinpayPass, now2: int,
          iso: int -> string)
    requires forall t, u :: IsIsoStamp(iso(t)) && (iso(t) == iso(u) ==> t == u)
    requires PassPaymentId(sub1, Some(pass1), now1, iso).Some? && PassPaymentId(sub2, Some(pass2), now2, iso).Some?
    ensures PassPaymentId(sub1, Some(pass1), now1, iso) == PassPaymentId(sub2, Some(pass2), now2, iso)
       <==> sub1 == sub2 && pass1.expiresAt == pass2.expiresAt
  {
    var p, q := Pass(sub1, iso(pass1.expiresAt.value)), Pass(sub2, iso(pass2.expiresAt.value));
    if PaymentId(p) == PaymentId(q) {
      KeysAreDistinct(p, q);
    }
  }
}
