/**
 * Which account a CoinPay subject opens. Accounts are found by subject only,
 * a first sign-in makes an account with an unroutable address, and nobody may
 * give up their last way in.
 */
module CoinpayBinding {
  import opened Options

  // -------------------------------------------------------------------- tables

  /** Addresses are kept trimmed and lower-cased, and are unique. */
  datatype User = User(email: string, hasPassword: bool)

  datatype Accounts = Accounts(users: map<string, User>, identities: map<string, string>, signedIn: set<string>)

  const EMPTY: Accounts := Accounts(map[], map[], {})

  const PLACEHOLDER_AT: string := "@coinpay.outreachgraph.invalid"

  function Lower(c: char): char {
    if 'A' <= c <= 'Z' then c - 'A' + 'a' else c
  }

  predicate Plain(c: char) {
    'a' <= c <= 'z' || '0' <= c <= '9' || c == '-'
  }

  function Sanitised(sub: string): string {
    seq(|sub|, i requires 0 <= i < |sub| => if Plain(Lower(sub[i])) then Lower(sub[i]) else '-')
  }

  function PlaceholderEmail(sub: string): string {
    Sanitised(sub) + PLACEHOLDER_AT
  }

  predicate IsPlaceholder(email: string) {
    |email| >= |PLACEHOLDER_AT| && email[|email| - |PLACEHOLDER_AT|..] == PLACEHOLDER_AT
  }

  predicate EmailTaken(users: map<string, User>, email: string) {
    exists u :: u in users && users[u].email == email
  }

  predicate Linked(s: Accounts, user: string) {
    exists sub :: sub in s.identities && s.identities[sub] == user
  }

  predicate PasswordOpens(s: Accounts, user: string) {
    user in s.users && s.users[user].hasPassword && !IsPlaceholder(s.users[user].email)
  }

  predicate WayIn(s: Accounts, user: string) {
    PasswordOpens(s, user) || Linked(s, user)
  }

  // ------------------------------------------------------------------ handlers

  /**
   * A sign-in that provisions makes two writes; `stops` is a process that ends
   * between them. `id` is the id a new account would get.
   */
  datatype Step =
    | Register(id: string, email: string)
    | LogIn(user: string)
    | SignIn(sub: string, id: string, stops: bool)
    | Connect(user: string, sub: string)
    | Disconnect(user: string)
    | ResetPassword(user: string)
    | Remove(user: string)

  /** Ids are fresh, connecting and disconnecting need a session, and mail to a placeholder address reaches nobody. */
  predicate Enabled(s: Accounts, step: Step) {
    match step
    case Register(id, _) => id !in s.users
    case LogIn(user) => user in s.users && s.users[user].hasPassword
    case SignIn(_, id, _) => id !in s.users
    case Connect(user, _) => user in s.signedIn
    case Disconnect(user) => user in s.signedIn
    case ResetPassword(user) => user in s.users && !IsPlaceholder(s.users[user].email)
    case Remove(_) => true
  }

  function Apply(s: Accounts, step: Step): Accounts {
    match step
    case Register(id, email) =>
      if IsPlaceholder(email) || EmailTaken(s.users, email) then s
      else s.(users := s.users[id := User(email, true)])
    case LogIn(user) => s.(signedIn := s.signedIn + {user})
    case SignIn(sub, id, stops) =>
      if sub in s.identities then s.(signedIn := s.signedIn + {s.identities[sub]})
      else if EmailTaken(s.users, PlaceholderEmail(sub)) then s
      else
        var made := s.users[id := User(PlaceholderEmail(sub), false)];
        if stops then s.(users := made) else Accounts(made, s.identities[sub := id], s.signedIn + {id})
    case Connect(user, sub) =>
      if sub in s.identities || Linked(s, user) then s else s.(identities := s.identities[sub := user])
    case Disconnect(user) =>
      if Linked(s, user) && PasswordOpens(s, user) then
        s.(identities := map sub | sub in s.identities && s.identities[sub] != user :: s.identities[sub])
      else s
    case ResetPassword(user) =>
      if user !in s.users then s
      else s.(users := s.users[user := s.users[user].(hasPassword := true)], signedIn := s.signedIn - {user})
    case Remove(user) =>
      var others := map sub | sub in s.identities && s.identities[sub] != user :: s.identities[sub];
      Accounts(s.users - {user}, others, s.signedIn - {user})
  }

  predicate CanRun(s: Accounts, steps: seq<Step>)
    decreases |steps|
  {
    steps == [] || (Enabled(s, steps[0]) && CanRun(Apply(s, steps[0]), steps[1..]))
  }

  function Run(s: Accounts, steps: seq<Step>): Accounts
    requires CanRun(s, steps)
    decreases |steps|
  {
    if steps == [] then s else Run(Apply(s, steps[0]), steps[1..])
  }

  // ------------------------------------------------------- one sub, one account

  /** Each subject opens one existing account and each account has at most one subject. */
  predicate Bijective(s: Accounts) {
    && (forall sub :: sub in s.identities ==> s.identities[sub] in s.users)
    && (forall a, b :: a in s.identities && b in s.identities && s.identities[a] == s.identities[b] ==> a == b)
    && s.signedIn <= s.users.Keys
    && (forall u, v :: u in s.users && v in s.users && s.users[u].email == s.users[v].email ==> u == v)
  }

  lemma SignInIsBijective(s: Accounts, sub: string, id: string, stops: bool)
    requires Bijective(s) && id !in s.users
    ensures Bijective(Apply(s, SignIn(sub, id, stops)))
  {
    assert sub in s.identities ==> s.identities[sub] in s.users;
    assert forall x :: x in s.identities ==> s.identities[x] != id;
  }

  lemma StepIsBijective(s: Accounts, step: Step)
    requires Bijective(s) && Enabled(s, step)
    ensures Bijective(Apply(s, step))
  {
    match step
    case SignIn(sub, id, stops) => SignInIsBijective(s, sub, id, stops);
    case _ =>
  }

  /** Whatever is interrupted, the binding between subjects and accounts is one to one. */
  lemma {:induction false} RunIsBijective(s: Accounts, steps: seq<Step>)
    requires Bijective(s) && CanRun(s, steps)
    ensures Bijective(Run(s, steps))
    ensures var after := Run(s, steps);
      && (forall sub :: sub in after.identities ==> after.identities[sub] in after.users)
      && (forall a, b :: a in after.identities && b in after.identities && a != b ==>
            after.identities[a] != after.identities[b])
      && (forall u, v :: u in after.users && v in after.users && u != v ==>
            after.users[u].email != after.users[v].email)
      && (forall u :: u in after.signedIn ==> u in after.users)
    decreases |steps|
  {
    if steps != [] {
      StepIsBijective(s, steps[0]);
      RunIsBijective(Apply(s, steps[0]), steps[1..]);
    }
  }

  predicate Opens(s: Accounts, sub: string, user: string) {
    sub in s.identities && s.identities[sub] == user
  }

  lemma {:induction false} StaysOpened(s: Accounts, steps: seq<Step>, sub: string, user: string)
    requires Opens(s, sub, user) && CanRun(s, steps)
    requires forall i :: 0 <= i < |steps| ==> steps[i] != Disconnect(user) && steps[i] != Remove(user)
    ensures Opens(Run(s, steps), sub, user)
    decreases |steps|
  {
    if |steps| > 0 {
      StaysOpened(Apply(s, steps[0]), steps[1..], sub, user);
    }
  }

  lemma {:induction false} RunsOn(s: Accounts, steps: seq<Step>, next: Step)
    requires CanRun(s, steps + [next])
    ensures CanRun(s, steps) && Enabled(Run(s, steps), next)
    ensures Run(s, steps + [next]) == Apply(Run(s, steps), next)
    decreases |steps|
  {
    var all := steps + [next];
    if |steps| == 0 {
      assert all[1..] == [];
    } else {
      assert all[1..] == steps[1..] + [next];
      RunsOn(Apply(s, steps[0]), steps[1..], next);
    }
  }

  /**
   * An account is found by its subject alone: whatever address it has come to,
   * whoever has registered, connected or gone since, a subject that signed in opens the
   * same account again until that account disconnects or is removed, and makes no other.
   */
  lemma {:induction false} ReturnsToItsAccount(s: Accounts, steps: seq<Step>, sub: string, user: string, id: string)
    requires Opens(s, sub, user) && CanRun(s, steps + [SignIn(sub, id, false)])
    requires forall i :: 0 <= i < |steps| ==> steps[i] != Disconnect(user) && steps[i] != Remove(user)
    ensures CanRun(s, steps)
    ensures var before, after := Run(s, steps), Run(s, steps + [SignIn(sub, id, false)]);
      && after.users == before.users && after.identities == before.identities
      && Opens(after, sub, user) && after.signedIn == before.signedIn + {user}
  {
    RunsOn(s, steps, SignIn(sub, id, false));
    StaysOpened(s, steps, sub, user);
  }

  /** What the steps other than Sign in with CoinPay do to an account. */
  lemma OtherStepsSay(s: Accounts, user: string, email: string)
    ensures user !in s.users && (forall u :: u in s.users ==> s.users[u].email != email) &&
            !(exists name :: email == name + "@coinpay.outreachgraph.invalid") ==>
              Enabled(s, Register(user, email)) &&
              Apply(s, Register(user, email)) == s.(users := s.users[user := User(email, true)])
    ensures user in s.users && !(exists name :: s.users[user].email == name + "@coinpay.outreachgraph.invalid") ==>
              Enabled(s, ResetPassword(user)) &&
              Apply(s, ResetPassword(user)) == s.(users := s.users[user := User(s.users[user].email, true)],
                                                  signedIn := s.signedIn - {user})
    ensures Enabled(s, Remove(user)) && user !in Apply(s, Remove(user)).users && !Linked(Apply(s, Remove(user)), user)
    ensures user in s.signedIn ==> Enabled(s, Disconnect(user)) && Enabled(s, Connect(user, email))
  {
    EndsSo(email);
    if user in s.users {
      EndsSo(s.users[user].email);
    }
  }

  lemma EndsSo(email: string)
    ensures IsPlaceholder(email) <==> exists name :: email == name + "@coinpay.outreachgraph.invalid"
  {
    if IsPlaceholder(email) {
      var name := email[..|email| - |PLACEHOLDER_AT|];
      assert email == name + PLACEHOLDER_AT;
    }
    if name :| email == name + "@coinpay.outreachgraph.invalid" {
      assert email[|name|..] == PLACEHOLDER_AT;
    }
  }

  // -------------------------------------------------------------- a way in

  /** A step that makes an account and ends before binding it; a stop anywhere else is harmless. */
  predicate Strands(s: Accounts, step: Step) {
    step.SignIn? && step.stops && step.sub !in s.identities && !EmailTaken(s.users, PlaceholderEmail(step.sub))
  }

  predicate NoneStrands(s: Accounts, steps: seq<Step>)
    requires CanRun(s, steps)
    decreases |steps|
  {
    steps == [] || (!Strands(s, steps[0]) && NoneStrands(Apply(s, steps[0]), steps[1..]))
  }

  /** Every account can be entered, and a placeholder address belongs to the subject it was made from. */
  predicate AllHaveAWayIn(s: Accounts) {
    && (forall u :: u in s.users ==> WayIn(s, u))
    && (forall u :: u in s.users && IsPlaceholder(s.users[u].email) ==>
          exists sub :: sub in s.identities && s.identities[sub] == u && PlaceholderEmail(sub) == s.users[u].email)
  }

  lemma PlaceholderIsOne(sub: string)
    ensures IsPlaceholder(PlaceholderEmail(sub))
  {
  }

  lemma RegisterKeepsWayIn(s: Accounts, id: string, email: string)
    requires Bijective(s) && AllHaveAWayIn(s) && id !in s.users
    ensures AllHaveAWayIn(Apply(s, Register(id, email)))
  {
    var after := Apply(s, Register(id, email));
    assert forall sub :: sub in s.identities ==> after.identities[sub] == s.identities[sub];
  }

  lemma SignInKeepsWayIn(s: Accounts, sub: string, id: string, stops: bool)
    requires Bijective(s) && AllHaveAWayIn(s) && id !in s.users && !Strands(s, SignIn(sub, id, stops))
    ensures AllHaveAWayIn(Apply(s, SignIn(sub, id, stops)))
  {
    var after := Apply(s, SignIn(sub, id, stops));
    if after.users != s.users {
      PlaceholderIsOne(sub);
      forall u | u in after.users
        ensures WayIn(after, u)
        ensures IsPlaceholder(after.users[u].email) ==>
                  exists x :: x in after.identities && after.identities[x] == u &&
                      PlaceholderEmail(x) == after.users[u].email
      {
        if u == id {
          assert after.identities[sub] == id;
        } else {
          StillBound(s, after, u);
        }
      }
    }
  }

  lemma StillBound(s: Accounts, after: Accounts, u: string)
    requires u in s.users && u in after.users && after.users[u].email == s.users[u].email
    requires s.users[u].hasPassword ==> after.users[u].hasPassword
    requires forall sub :: sub in s.identities && s.identities[sub] == u ==>
        sub in after.identities && after.identities[sub] == u
    ensures WayIn(s, u) ==> WayIn(after, u)
    ensures (exists x :: x in s.identities && s.identities[x] == u && PlaceholderEmail(x) == s.users[u].email) ==>
              exists x :: x in after.identities && after.identities[x] == u &&
                  PlaceholderEmail(x) == after.users[u].email
  {
    if Linked(s, u) {
      var sub :| sub in s.identities && s.identities[sub] == u;
      assert after.identities[sub] == u;
    }
    if x :| x in s.identities && s.identities[x] == u && PlaceholderEmail(x) == s.users[u].email {
      assert after.identities[x] == u;
    }
  }

  lemma OthersKeepWayIn(s: Accounts, step: Step)
    requires Bijective(s) && AllHaveAWayIn(s) && Enabled(s, step) && !step.Register? && !step.SignIn?
    ensures AllHaveAWayIn(Apply(s, step))
  {
    var after := Apply(s, step);
    forall u | u in after.users
      ensures WayIn(after, u)
      ensures IsPlaceholder(after.users[u].email) ==>
                exists x :: x in after.identities && after.identities[x] == u &&
                    PlaceholderEmail(x) == after.users[u].email
    {
      if step.Disconnect? && step.user == u && after != s {
        assert PasswordOpens(after, u);
      } else {
        StillBound(s, after, u);
      }
    }
  }

  /** One step leaves every account a way in exactly when it does not strand the account it makes. */
  lemma StepKeepsWayInIff(s: Accounts, step: Step)
    requires Bijective(s) && AllHaveAWayIn(s) && Enabled(s, step)
    ensures AllHaveAWayIn(Apply(s, step)) <==> !Strands(s, step)
    ensures Strands(s, step) ==> exists u :: u in Apply(s, step).users && !WayIn(Apply(s, step), u)
  {
    if Strands(s, step) {
      PlaceholderIsOne(step.sub);
      assert !WayIn(Apply(s, step), step.id);
    } else {
      match step {
        case Register(id, email) => RegisterKeepsWayIn(s, id, email);
        case SignIn(sub, id, stops) => SignInKeepsWayIn(s, sub, id, stops);
        case _ => OthersKeepWayIn(s, step);
      }
    }
  }

  /** At every moment of the run every account can be entered. */
  predicate AlwaysAWayIn(s: Accounts, steps: seq<Step>)
    requires CanRun(s, steps)
    decreases |steps|
  {
    (forall u :: u in s.users ==> WayIn(s, u)) && (steps == [] || AlwaysAWayIn(Apply(s, steps[0]), steps[1..]))
  }

  lemma {:induction false} AlwaysIff(s: Accounts, steps: seq<Step>)
    requires Bijective(s) && AllHaveAWayIn(s) && CanRun(s, steps)
    ensures AlwaysAWayIn(s, steps) <==> NoneStrands(s, steps)
    decreases |steps|
  {
    if steps != [] {
      StepKeepsWayInIff(s, steps[0]);
      if !Strands(s, steps[0]) {
        StepIsBijective(s, steps[0]);
        AlwaysIff(Apply(s, steps[0]), steps[1..]);
      }
    }
  }

  /**
   * Every account has a way in at every moment of a run exactly when no sign-in
   * stops between making an account and binding it.
   */
  lemma NobodyIsLockedOutIff(steps: seq<Step>)
    requires CanRun(EMPTY, steps)
    ensures AlwaysAWayIn(EMPTY, steps) <==> NoneStrands(EMPTY, steps)
  {
    AlwaysIff(EMPTY, steps);
  }

  // ---------------------------------------------- when a first sign-in works

  predicate SignsIn(s: Accounts, sub: string, id: string) {
    var after := Apply(s, SignIn(sub, id, false));
    sub in after.identities && after.identities[sub] in after.signedIn
  }

  /** With no sign-in cut short, one is turned away exactly when another bound subject came to the same address. */
  lemma TurnedAwayIff(s: Accounts, sub: string, id: string)
    requires Bijective(s) && AllHaveAWayIn(s) && id !in s.users
    ensures !SignsIn(s, sub, id) <==>
            && sub !in s.identities
            && exists other :: other in s.identities && PlaceholderEmail(other) == PlaceholderEmail(sub)
                 && s.users[s.identities[other]].email == PlaceholderEmail(sub)
  {
    if sub !in s.identities && EmailTaken(s.users, PlaceholderEmail(sub)) {
      var u :| u in s.users && s.users[u].email == PlaceholderEmail(sub);
      PlaceholderIsOne(sub);
      var other :| other in s.identities && s.identities[other] == u && PlaceholderEmail(other) == s.users[u].email;
    }
  }

  /** A digit, a lower-case letter or a hyphen, by its code. */
  predicate PlainCode(code: int) {
    48 <= code <= 57 || 97 <= code <= 122 || code == 45
  }

  /** The address made from a subject, letter by letter. */
  lemma PlaceholderSays(sub: string, i: nat)
    ensures |PlaceholderEmail(sub)| == |sub| + |"@coinpay.outreachgraph.invalid"|
    ensures PlaceholderEmail(sub)[|sub|..] == "@coinpay.outreachgraph.invalid"
    ensures i < |sub| ==>
              var c, made := sub[i], PlaceholderEmail(sub)[i];
              if PlainCode(c as int) then made == c
              else if 65 <= c as int <= 90 then made as int == c as int + 32
              else made == '-'
  {
  }

  /** Subjects of lower-case letters, digits and hyphens, as a UUID is, never come to another's address. */
  lemma PlainSubsAreDistinct(a: string, b: string)
    requires forall c :: c in a || c in b ==> PlainCode(c as int)
    requires PlaceholderEmail(a) == PlaceholderEmail(b)
    ensures a == b
  {
    assert forall i :: 0 <= i < |a| ==> a[i] in a;
    assert forall i :: 0 <= i < |b| ==> b[i] in b;
    assert Sanitised(a) == a && Sanitised(b) == b;
    assert |PlaceholderEmail(a)| - |PLACEHOLDER_AT| == |a|;
    assert PlaceholderEmail(a)[..|a|] == a && PlaceholderEmail(b)[..|a|] == b;
  }

  lemma SomeSubsCollide()
    ensures "a.b" != "A_b" && PlaceholderEmail("a.b") == PlaceholderEmail("A_b")
  {
    assert Sanitised("a.b") == "a-b" == Sanitised("A_b");
  }

  // ------------------------------------------------- a sign-in cut short

  /** An account with no password, no subject, no session, and an address no mail reaches. */
  predicate Stranded(s: Accounts, user: string) {
    && user in s.users && !s.users[user].hasPassword && IsPlaceholder(s.users[user].email)
    && !Linked(s, user) && user !in s.signedIn
  }

  lemma StoppingStrands(s: Accounts, sub: string, id: string)
    requires Bijective(s) && id !in s.users && sub !in s.identities && !EmailTaken(s.users, PlaceholderEmail(sub))
    ensures var after := Apply(s, SignIn(sub, id, true));
            Stranded(after, id) && !WayIn(after, id) && forall later :: !SignsIn(after, sub, later)
  {
    PlaceholderIsOne(sub);
    var after := Apply(s, SignIn(sub, id, true));
    assert after.users[id].email == PlaceholderEmail(sub);
  }

  /** And nothing anyone does afterwards, short of removing it, lets anybody into that account. */
  lemma {:induction false} StrandedForGood(s: Accounts, steps: seq<Step>, user: string)
    requires Bijective(s) && Stranded(s, user) && CanRun(s, steps)
    requires forall i :: 0 <= i < |steps| ==> steps[i] != Remove(user)
    ensures Stranded(Run(s, steps), user) && !WayIn(Run(s, steps), user)
    decreases |steps|
  {
    if steps != [] {
      StepIsBijective(s, steps[0]);
      StaysStranded(s, steps[0], user);
      StrandedForGood(Apply(s, steps[0]), steps[1..], user);
    }
  }

  lemma StaysUnlinked(s: Accounts, step: Step, user: string)
    requires user in s.users && Stranded(s, user) && Enabled(s, step)
    ensures forall sub :: sub in Apply(s, step).identities ==> Apply(s, step).identities[sub] != user
  {
    assert forall sub :: sub in s.identities ==> s.identities[sub] != user;
  }

  lemma StaysStranded(s: Accounts, step: Step, user: string)
    requires Bijective(s) && Stranded(s, user) && Enabled(s, step) && step != Remove(user)
    ensures Stranded(Apply(s, step), user)
  {
    StaysUnlinked(s, step, user);
  }

  // ------------------------------------------------------------- the handlers

  datatype LinkOutcome = Connected | TakenByAnother | AlreadyLinked
  datatype UnlinkOutcome = Disconnected | NotLinked | OnlySignIn

  class CoinpayDesk {
    var users: map<string, User>
    var identities: map<string, string>
    var signedIn: set<string>

    function State(): Accounts
      reads this
    {
      Accounts(users, identities, signedIn)
    }

    /** The account this subject opens, made if there is none; None when the address it would have is taken. */
    method UserForCoinpay(sub: string, id: string) returns (user: Option<string>)
      requires id !in users
      modifies this
      ensures State() == Apply(old(State()), SignIn(sub, id, false))
      ensures user.Some? <==> sub in old(identities) || forall u :: u in old(users) ==>
                  old(users)[u].email != PlaceholderEmail(sub)
      ensures user.Some? ==> user.value == if sub in old(identities) then old(identities)[sub] else id
      ensures users == (if sub in old(identities) || user.None? then old(users)
                        else old(users)[id := User(PlaceholderEmail(sub), false)])
      ensures identities == if user.None? then old(identities) else old(identities)[sub := user.value]
      ensures signedIn == if user.None? then old(signedIn) else old(signedIn) + {user.value}
    {
      if sub in identities {
        user := Some(identities[sub]);
      } else {
        var email := PlaceholderEmail(sub);
        if EmailTaken(users, email) {
          return None;
        }
        users := users[id := User(email, false)];
        identities := identities[sub := id];
        user := Some(id);
      }
      signedIn := signedIn + {user.value};
    }

    method LinkCoinpay(user: string, sub: string) returns (outcome: LinkOutcome)
      modifies this`identities
      ensures State() == Apply(old(State()), Connect(user, sub))
      ensures outcome == TakenByAnother <==> sub in old(identities) && old(identities)[sub] != user
      ensures outcome == AlreadyLinked <==> sub !in old(identities) && user in old(identities).Values
      ensures identities == if outcome == Connected then old(identities)[sub := user] else old(identities)
    {
      if sub in identities {
        return if identities[sub] == user then Connected else TakenByAnother;
      }
      if Linked(State(), user) {
        return AlreadyLinked;
      }
      identities := identities[sub := user];
      return Connected;
    }

    method UnlinkCoinpay(user: string) returns (outcome: UnlinkOutcome)
      modifies this`identities
      ensures State() == Apply(old(State()), Disconnect(user))
      ensures outcome == NotLinked <==> user !in old(identities).Values
      ensures outcome == Disconnected <==>
              && user in old(identities).Values && user in users && users[user].hasPassword
              && !(exists name :: users[user].email == name + "@coinpay.outreachgraph.invalid")
      ensures outcome != Disconnected ==> identities == old(identities)
      ensures outcome == Disconnected ==>
              && (forall x :: x in identities <==> x in old(identities) && old(identities)[x] != user)
              && (forall x :: x in identities ==> identities[x] == old(identities)[x])
    {
      if user in users {
        EndsSo(users[user].email);
      }
      if !Linked(State(), user) {
        return NotLinked;
      }
      if user !in users || !users[user].hasPassword || IsPlaceholder(users[user].email) {
        return OnlySignIn;
      }
      identities := map sub | sub in identities && identities[sub] != user :: identities[sub];
      return Disconnected;
    }
  }
}
