/**
 * Signing in with a password while a reset of it is under way. The password is
 * read and checked first and the session issued afterwards, so a session can be
 * issued on a password that has been replaced since.
 */
module PasswordSignIn {
  import opened Options
  import opened OneTimeTokens

  /** A sign-in whose password was right: for whom, and how long the log was when it was read. */
  datatype Entering = Entering(user: string, read: nat)

  /** `readAt` says of each session begun with a password where in the log that password was read. */
  datatype Desk = Desk(w: World, entering: seq<Option<Entering>>, readAt: map<string, nat>)

  const NOBODY: Desk := Desk(OneTimeTokens.EMPTY, [], map[])

  datatype Move =
    | Other(step: Step, at: int)
    | Check(user: string, password: string)
    | Enter(i: nat, token: string, at: int)
    | GiveUp(i: nat)

  predicate CanMove(d: Desk, move: Move) {
    match move
    case Other(step, at) => Enabled(d.w, step, at) && !(step.StartSession? && step.token in d.readAt)
    case Check(_, _) => true
    case Enter(i, token, at) =>
      i < |d.entering| && d.entering[i].Some? && Enabled(d.w, StartSession(d.entering[i].value.user, token), at)
    case GiveUp(i) => i < |d.entering|
  }

  predicate Right(d: Desk, user: string, password: string) {
    user in d.w.s.users && d.w.s.users[user].active && d.w.s.users[user].password == password
  }

  function Moving(d: Desk, move: Move): Desk
    requires CanMove(d, move)
  {
    match move
    case Other(step, at) => d.(w := OneTimeTokens.Apply(d.w, step, at))
    case Check(user, password) =>
      d.(entering := d.entering + [if Right(d, user, password) then Some(Entering(user, |d.w.s.log|)) else None])
    case Enter(i, token, at) =>
      var e := d.entering[i].value;
      Desk(OneTimeTokens.Apply(d.w, StartSession(e.user, token), at), d.entering[i := None], d.readAt[token := e.read])
    case GiveUp(i) => d.(entering := d.entering[i := None])
  }

  predicate CanMoveAll(d: Desk, moves: seq<Move>)
    decreases |moves|
  {
    moves == [] || (CanMove(d, moves[0]) && CanMoveAll(Moving(d, moves[0]), moves[1..]))
  }

  function Moved(d: Desk, moves: seq<Move>): Desk
    requires CanMoveAll(d, moves)
    decreases |moves|
  {
    if moves == [] then d else Moved(Moving(d, moves[0]), moves[1..])
  }

  // ------------------------------------------------------------ old passwords

  predicate ResetSince(log: seq<Entry>, user: string, from: nat) {
    exists k :: from <= k < |log| && ResetOf(log[k], user)
  }

  /** A session on record that was begun with a password its user has reset since. */
  predicate Stale(d: Desk, token: string) {
    && token in d.readAt && token in d.w.s.sessions
    && ResetSince(d.w.s.log, d.w.s.sessions[token].user, d.readAt[token])
  }

  predicate NoneStale(d: Desk) {
    forall token :: token in d.readAt ==> !Stale(d, token)
  }

  /** A sign-in under way that read a password its user has reset since. */
  predicate Late(d: Desk, i: nat)
    requires i < |d.entering|
  {
    d.entering[i].Some? && ResetSince(d.w.s.log, d.entering[i].value.user, d.entering[i].value.read)
  }

  predicate NoneLate(d: Desk) {
    forall i :: 0 <= i < |d.entering| ==> !Late(d, i)
  }

  predicate Ends(moves: seq<Move>) {
    forall i :: 0 <= i < |moves| ==> moves[i].Enter? || moves[i].GiveUp?
  }

  lemma IssuingIsNoReset(log: seq<Entry>, user: string, token: string, at: int, who: string, from: nat)
    ensures ResetSince(log + [Issued(user, token, at)], who, from) <==> ResetSince(log, who, from)
  {
    var all := log + [Issued(user, token, at)];
    assert all[|log|] == Issued(user, token, at) && forall k :: 0 <= k < |log| ==> all[k] == log[k];
    if ResetSince(log, who, from) {
      var k :| from <= k < |log| && ResetOf(log[k], who);
      assert ResetOf(all[k], who);
    }
  }

  lemma EnteringKeeps(d: Desk, i: nat, token: string, at: int)
    requires CanMove(d, Enter(i, token, at)) && NoneStale(d) && NoneLate(d)
    ensures NoneStale(Moving(d, Enter(i, token, at))) && NoneLate(Moving(d, Enter(i, token, at)))
  {
    var e, after := d.entering[i].value, Moving(d, Enter(i, token, at));
    assert !Late(d, i);
    forall t | t in after.readAt ensures !Stale(after, t) {
      if t == token {
        IssuingIsNoReset(d.w.s.log, e.user, token, at, e.user, e.read);
      } else {
        assert !Stale(d, t);
        if t in d.w.s.sessions {
          IssuingIsNoReset(d.w.s.log, e.user, token, at, d.w.s.sessions[t].user, d.readAt[t]);
        }
      }
    }
    forall j | 0 <= j < |after.entering| ensures !Late(after, j) {
      if j != i && d.entering[j].Some? {
        assert !Late(d, j);
        IssuingIsNoReset(d.w.s.log, e.user, token, at, d.entering[j].value.user, d.entering[j].value.read);
      }
    }
  }

  lemma GivingUpKeeps(d: Desk, i: nat)
    requires CanMove(d, GiveUp(i)) && NoneStale(d) && NoneLate(d)
    ensures NoneStale(Moving(d, GiveUp(i))) && NoneLate(Moving(d, GiveUp(i)))
  {
    var after := Moving(d, GiveUp(i));
    assert forall t :: t in d.readAt ==> Stale(after, t) == Stale(d, t);
    forall j | 0 <= j < |after.entering| ensures !Late(after, j) {
      assert !Late(d, j);
    }
  }

  lemma {:induction false} EndingsKeep(d: Desk, moves: seq<Move>)
    requires CanMoveAll(d, moves) && Ends(moves) && NoneStale(d) && NoneLate(d)
    ensures NoneStale(Moved(d, moves))
    decreases |moves|
  {
    if moves != [] {
      match moves[0] {
        case Enter(i, token, at) => EnteringKeeps(d, i, token, at);
        case GiveUp(i) => GivingUpKeeps(d, i);
      }
      EndingsKeep(Moving(d, moves[0]), moves[1..]);
    }
  }

  lemma OneMove(d: Desk, move: Move)
    requires CanMove(d, move)
    ensures CanMoveAll(d, [move]) && Moved(d, [move]) == Moving(d, move)
  {
    assert [move][1..] == [];
    assert CanMoveAll(Moving(d, move), []);
  }

  lemma LateEnters(d: Desk, i: nat, token: string)
    requires i < |d.entering| && Late(d, i) && Fresh(d.w.s.log, token)
    ensures CanMove(d, Enter(i, token, d.w.s.clock)) && Stale(Moving(d, Enter(i, token, d.w.s.clock)), token)
  {
    var e := d.entering[i].value;
    IssuingIsNoReset(d.w.s.log, e.user, token, d.w.s.clock, e.user, e.read);
  }

  /**
   * However the sign-ins under way end, no session stands on a password that was
   * replaced since it was read, exactly when none does now and none of them read
   * its password before its user's last reset.
   */
  lemma EndingsIff(d: Desk)
    ensures (forall moves :: CanMoveAll(d, moves) && Ends(moves) ==> NoneStale(Moved(d, moves)))
       <==> NoneStale(d) && NoneLate(d)
  {
    if NoneStale(d) && NoneLate(d) {
      forall moves | CanMoveAll(d, moves) && Ends(moves) ensures NoneStale(Moved(d, moves)) {
        EndingsKeep(d, moves);
      }
    } else if !NoneStale(d) {
      var none: seq<Move> := [];
      assert CanMoveAll(d, none) && Ends(none) && Moved(d, none) == d;
    } else {
      var i :| 0 <= i < |d.entering| && Late(d, i);
      var move := Enter(i, NewToken(d.w.s.log), d.w.s.clock);
      LateEnters(d, i, NewToken(d.w.s.log));
      OneMove(d, move);
      assert !NoneStale(Moved(d, [move]));
    }
  }

  // --------------------------------------------------------------- every run

  /** What the token tables see of a run. */
  lemma {:induction false} Seen(d: Desk, moves: seq<Move>) returns (steps: seq<Timed>)
    requires CanMoveAll(d, moves)
    ensures OneTimeTokens.CanRun(d.w, steps) && OneTimeTokens.Run(d.w, steps) == Moved(d, moves).w
    decreases |moves|
  {
    steps := [];
    if moves != [] {
      var next := Moving(d, moves[0]);
      var rest := Seen(next, moves[1..]);
      match moves[0] {
        case Other(step, at) =>
          steps := [Timed(step, at)] + rest;
          assert steps[1..] == rest;
        case Enter(i, token, at) =>
          steps := [Timed(StartSession(d.entering[i].value.user, token), at)] + rest;
          assert steps[1..] == rest;
        case _ => steps := rest;
      }
    }
  }

  /**
   * Over every run, a session that resolves and stands on a password replaced
   * since was issued by a sign-in under way across the reset: the password was
   * read before it and the session issued after.
   */
  lemma StaleWasUnderWay(moves: seq<Move>, token: string, at: int, member: bool) returns (k: nat, n: nat)
    requires CanMoveAll(NOBODY, moves) && Stale(Moved(NOBODY, moves), token)
    requires Resolved(Moved(NOBODY, moves).w.s, token, at, member).Some?
    ensures var d := Moved(NOBODY, moves);
      && d.readAt[token] <= k < n < |d.w.s.log|
      && ResetOf(d.w.s.log[k], d.w.s.sessions[token].user)
      && d.w.s.log[n].Issued? && d.w.s.log[n].token == token && d.w.s.log[n].user == d.w.s.sessions[token].user
  {
    var d := Moved(NOBODY, moves);
    var steps := Seen(NOBODY, moves);
    n := ResolvesOnlyWhatWasIssued(steps, token, at, member);
    k :| d.readAt[token] <= k < |d.w.s.log| && ResetOf(d.w.s.log[k], d.w.s.sessions[token].user);
  }

  // -------------------------------------------------------- which password

  lemma {:induction false} NoneStaysNone(d: Desk, moves: seq<Move>, i: nat)
    requires CanMoveAll(d, moves) && i < |d.entering| && d.entering[i].None?
    ensures i < |Moved(d, moves).entering| && Moved(d, moves).entering[i].None?
    decreases |moves|
  {
    if |moves| > 0 {
      NoneStaysNone(Moving(d, moves[0]), moves[1..], i);
    }
  }

  /** Whatever happens afterwards, a check of a wrong password, or for nobody active, never lets anybody in. */
  lemma WrongPasswordNeverEnters(d: Desk, user: string, password: string, moves: seq<Move>, token: string, at: int)
    requires CanMoveAll(Moving(d, Check(user, password)), moves)
    requires user !in d.w.s.users || !d.w.s.users[user].active || d.w.s.users[user].password != password
    ensures !CanMove(Moved(Moving(d, Check(user, password)), moves), Enter(|d.entering|, token, at))
  {
    NoneStaysNone(Moving(d, Check(user, password)), moves, |d.entering|);
  }

  /** The right one lets its user in, with a session that stands for them. */
  lemma RightPasswordEnters(d: Desk, user: string, password: string, token: string)
    requires user in d.w.s.users && d.w.s.users[user].active && d.w.s.users[user].password == password
    requires Fresh(d.w.s.log, token)
    ensures var checked, enter := Moving(d, Check(user, password)), Enter(|d.entering|, token, d.w.s.clock);
      && CanMove(checked, enter)
      && Resolved(Moving(checked, enter).w.s, token, d.w.s.clock, true) == Some(user)
      && Moving(checked, enter).readAt == d.readAt[token := |d.w.s.log|]
  {
  }

  // ------------------------------------------------------------- such a run

  lemma {:induction false} Follows(d: Desk, moves: seq<Move>, move: Move)
    requires CanMoveAll(d, moves) && CanMove(Moved(d, moves), move)
    ensures CanMoveAll(d, moves + [move]) && Moved(d, moves + [move]) == Moving(Moved(d, moves), move)
    decreases |moves|
  {
    if moves == [] {
      OneMove(d, move);
      assert moves + [move] == [move];
    } else {
      Follows(Moving(d, moves[0]), moves[1..], move);
      assert (moves + [move])[1..] == moves[1..] + [move];
    }
  }

  /** Checked, then reset by a link, with nothing written in between. */
  function CheckedThenReset(d: Desk, user: string, password: string, link: string, replacement: string): Desk {
    var checked := Moving(d, Check(user, password));
    var read := Moving(checked, Other(Receive(ResetPassword(link, replacement)), d.w.s.clock));
    Moving(read, Other(Finish(|d.w.tasks|, ""), d.w.s.clock))
  }

  /** Whoever's password is right can be let in by it after it has been replaced. */
  lemma AResetLeavesItLate(d: Desk, user: string, password: string, link: string, replacement: string)
    requires Right(d, user, password) && CanReset(d.w.s, link, replacement, d.w.s.clock)
    requires d.w.s.resets[link].user == user
    ensures var after := CheckedThenReset(d, user, password, link, replacement);
      && |after.entering| == |d.entering| + 1 && Late(after, |d.entering|)
      && after.w.s.users[user].password == replacement
  {
    var after := CheckedThenReset(d, user, password, link, replacement);
    var log := after.w.s.log;
    assert after.entering[|d.entering|] == Some(Entering(user, |d.w.s.log|));
    assert ResetOf(log[|d.w.s.log| + 1], user);
  }

  /** A user with a reset link in the mail. */
  function Mailed(user: string, password: string): seq<Move> {
    [Other(PutUser(user, User("u@x.io", true, true, password)), 0)]
    + [Other(Receive(AskReset(Some(user))), 0)] + [Other(Finish(0, "t"), 0)]
  }

  lemma MailedALink(user: string, password: string, replacement: string)
    requires !PasswordProblem(replacement)
    ensures CanMoveAll(NOBODY, Mailed(user, password))
    ensures var d := Moved(NOBODY, Mailed(user, password));
      && Right(d, user, password) && d.entering == [] && |d.w.tasks| == 1 && d.w.s.clock == 0
      && CanReset(d.w.s, "t", replacement, 0) && d.w.s.resets["t"].user == user
  {
    var put := Other(PutUser(user, User("u@x.io", true, true, password)), 0);
    var ask := Other(Receive(AskReset(Some(user))), 0);
    OneMove(NOBODY, put);
    Follows(NOBODY, [put], ask);
    Follows(NOBODY, [put] + [ask], Other(Finish(0, "t"), 0));
  }

  lemma ReplacedAfterReading(user: string, password: string, replacement: string) returns (moves: seq<Move>)
    requires !PasswordProblem(replacement)
    ensures CanMoveAll(NOBODY, moves)
    ensures var late := Moved(NOBODY, moves);
            late.w.s.clock == 0 && |late.entering| == 1 && Late(late, 0) && late.entering[0].value.user == user
  {
    MailedALink(user, password, replacement);
    var check, reset := Check(user, password), Other(Receive(ResetPassword("t", replacement)), 0);
    Follows(NOBODY, Mailed(user, password), check);
    Follows(NOBODY, Mailed(user, password) + [check], reset);
    Follows(NOBODY, Mailed(user, password) + [check] + [reset], Other(Finish(1, ""), 0));
    moves := Mailed(user, password) + [check] + [reset] + [Other(Finish(1, ""), 0)];
    AResetLeavesItLate(Moved(NOBODY, Mailed(user, password)), user, password, "t", replacement);
  }

  /** From empty tables: a sign-in that read the old password, a reset, and a session issued on the old one. */
  lemma AnOldPasswordSignsIn(user: string, password: string, replacement: string)
    returns (moves: seq<Move>, token: string)
    requires !PasswordProblem(replacement)
    ensures CanMoveAll(NOBODY, moves) && Stale(Moved(NOBODY, moves), token)
    ensures Resolved(Moved(NOBODY, moves).w.s, token, 0, true) == Some(user)
  {
    moves := ReplacedAfterReading(user, password, replacement);
    var late := Moved(NOBODY, moves);
    token := NewToken(late.w.s.log);
    LateEnters(late, 0, token);
    Follows(NOBODY, moves, Enter(0, token, 0));
    moves := moves + [Enter(0, token, 0)];
  }
}
