/**
 * Verification links, reset links and sessions. A handler reads first and
 * writes later, so requests overlap and may stop in between. A log of what was
 * read, mailed, accepted and issued is kept beside the tables to say what the
 * tables must remember; no handler reads it.
 */
module OneTimeTokens {
  import opened Options

  // -------------------------------------------------------------------- tables

  datatype Kind = Verification | PasswordReset

  /** Milliseconds: a day for a verification link, an hour for a reset link, thirty days for a session. */
  function Ttl(kind: Kind): int {
    if kind.Verification? then 86_400_000 else 3_600_000
  }

  const SESSION_TTL: int := 2_592_000_000
  const RESEND_COOLDOWN: int := 60_000

  datatype User = User(email: string, active: bool, verified: bool, password: string)

  datatype TokenRow = TokenRow(user: string, email: string, createdAt: int, expiresAt: int, consumed: bool)

  /** Rows by token hash, which is unique; hashing is one-to-one here. */
  type Table = map<string, TokenRow>

  datatype Session = Session(user: string, createdAt: int, expiresAt: int)

  /**
   * `Asked` and `Checked` are reads that a handler went on from: a reset
   * request past the cooldown, a link found usable. What is mailed or accepted
   * says where in the log its own read is.
   */
  datatype Entry =
    | Asked(user: string, at: int)
    | Minted(kind: Kind, user: string, token: string, at: int, asked: nat)
    | Checked(kind: Kind, user: string, token: string, at: int)
    | Accepted(kind: Kind, user: string, token: string, at: int, checked: nat)
    | Issued(user: string, token: string, at: int)
    | Removed(user: string, at: int)

  datatype State = State(
    users: map<string, User>,
    verifications: Table,
    resets: Table,
    sessions: map<string, Session>,
    log: seq<Entry>,
    clock: int)

  function Rows(s: State, kind: Kind): Table {
    if kind.Verification? then s.verifications else s.resets
  }

  // --------------------------------------------------------------------- reads

  function Superseding(rows: Table, kind: Kind, user: string, email: string, token: string, at: int): Table {
    (map t | t in rows && rows[t].user != user :: rows[t])[token := TokenRow(user, email, at, at + Ttl(kind), false)]
  }

  /** A link works while its row is unspent, unexpired and still for the address its user has. */
  predicate Usable(rows: Table, users: map<string, User>, token: string, at: int) {
    && token != "" && token in rows
    && !rows[token].consumed && rows[token].expiresAt > at
    && rows[token].user in users && users[rows[token].user].email == rows[token].email
  }

  predicate PasswordProblem(password: string) {
    |password| < 12 || |password| > 512
  }

  predicate CanReset(s: State, token: string, password: string, at: int) {
    && !PasswordProblem(password)
    && Usable(s.resets, s.users, token, at) && s.users[s.resets[token].user].active
  }

  /** An unspent link mailed less than a minute ago, if the user has one. */
  predicate InCooldown(rows: Table, user: string, at: int) {
    exists t :: t in rows && rows[t].user == user && !rows[t].consumed && at - rows[t].createdAt < RESEND_COOLDOWN
  }

  /** `found` is the user whose address was typed in, if any. */
  predicate CanMintReset(s: State, found: Option<string>, at: int) {
    && found.Some? && found.value in s.users && s.users[found.value].active
    && !InCooldown(s.resets, found.value, at)
  }

  /** Who a session cookie stands for; `member` says whether the person still belongs to a workspace. */
  function Resolved(s: State, token: string, at: int, member: bool): Option<string> {
    if token in s.sessions && s.sessions[token].expiresAt > at && member then Some(s.sessions[token].user) else None
  }

  datatype Request =
    | VerifyEmail(token: string)
    | ResetPassword(token: string, password: string)
    | AskReset(found: Option<string>)

  /** What a handler has still to write. */
  datatype Task =
    | Spending(kind: Kind, user: string, token: string, password: string, at: int, checked: nat)
    | Mailing(user: string, email: string, at: int, asked: nat)
    | Idle

  function Read(s: State, request: Request, at: int): Task {
    match request
    case VerifyEmail(token) =>
      if Usable(s.verifications, s.users, token, at) then
        Spending(Verification, s.verifications[token].user, token, "", at, |s.log|)
      else Idle
    case ResetPassword(token, password) =>
      if CanReset(s, token, password, at) then
        Spending(PasswordReset, s.resets[token].user, token, password, at, |s.log|)
      else Idle
    case AskReset(found) =>
      if CanMintReset(s, found, at) then Mailing(found.value, s.users[found.value].email, at, |s.log|) else Idle
  }

  function Noted(s: State, task: Task, at: int): State {
    match task
    case Spending(kind, user, token, _, _, _) => s.(log := s.log + [Checked(kind, user, token, at)], clock := at)
    case Mailing(user, _, _, _) => s.(log := s.log + [Asked(user, at)], clock := at)
    case Idle => s.(clock := at)
  }

  // -------------------------------------------------------------------- writes

  function Spent(rows: Table, token: string): Table {
    if token in rows then rows[token := rows[token].(consumed := true)] else rows
  }

  /**
   * The row is spent by its id, whatever has happened to it since it was read; a
   * link to a removed account is not stored.
   */
  function Written(s: State, task: Task, mail: string): State {
    match task
    case Spending(Verification, user, token, _, at, checked) =>
      s.(verifications := Spent(s.verifications, token),
         users := if user in s.users then s.users[user := s.users[user].(verified := true)] else s.users,
         log := s.log + [Accepted(Verification, user, token, at, checked)])
    case Spending(PasswordReset, user, token, password, at, checked) =>
      s.(resets := Spent(s.resets, token),
         users := if user in s.users then s.users[user := s.users[user].(password := password, verified := true)]
             else s.users,
         sessions := map t | t in s.sessions && s.sessions[t].user != user :: s.sessions[t],
         log := s.log + [Accepted(PasswordReset, user, token, at, checked)])
    case Mailing(user, email, at, asked) =>
      if user !in s.users then s
      else
        s.(resets := Superseding(s.resets, PasswordReset, user, email, mail, at),
           log := s.log + [Minted(PasswordReset, user, mail, at, asked)])
    case Idle => s
  }

  /** A request with nothing else in between. */
  function Alone(s: State, request: Request, mail: string, at: int): State {
    var task := Read(s, request, at);
    Written(Noted(s, task, at), task, mail)
  }

  // ---------------------------------------------------------------- every run

  datatype World = World(s: State, tasks: seq<Task>)

  const EMPTY: World := World(State(map[], map[], map[], map[], [], 0), [])

  datatype Step =
    | Receive(request: Request)
    | Finish(handler: nat, mail: string)
    | Stop(handler: nat)
    | MintVerification(user: string, email: string, token: string)
    | StartSession(user: string, token: string)
    | ResolveSession(token: string)
    | Logout(token: string)
    | PruneSessions
    | PruneResets
    | PutUser(user: string, row: User)
    | RemoveUser(user: string)

  function TokenOf(e: Entry): string {
    if e.Asked? || e.Removed? then "" else e.token
  }

  predicate Fresh(log: seq<Entry>, token: string) {
    token != "" && forall i :: 0 <= i < |log| ==> TokenOf(log[i]) != token
  }

  /** Time does not run backwards, and a minted token is one never seen before. */
  predicate Enabled(w: World, step: Step, at: int) {
    w.s.clock <= at &&
    match step
    case Finish(handler, mail) => handler < |w.tasks| && (w.tasks[handler].Mailing? ==> Fresh(w.s.log, mail))
    case Stop(handler) => handler < |w.tasks|
    case MintVerification(_, _, token) => Fresh(w.s.log, token)
    case StartSession(_, token) => Fresh(w.s.log, token)
    case _ => true
  }

  /** The handlers that are one statement. */
  function Moved(s: State, step: Step, at: int): State {
    match step
    case MintVerification(user, email, token) =>
      s.(verifications := Superseding(s.verifications, Verification, user, email, token, at),
         log := s.log + [Minted(Verification, user, token, at, 0)], clock := at)
    case StartSession(user, token) =>
      s.(sessions := s.sessions[token := Session(user, at, at + SESSION_TTL)],
         log := s.log + [Issued(user, token, at)], clock := at)
    case ResolveSession(token) =>
      if token in s.sessions && s.sessions[token].expiresAt <= at then s.(sessions := s.sessions - {token}, clock := at)
      else s.(clock := at)
    case Logout(token) => s.(sessions := s.sessions - {token}, clock := at)
    case PruneSessions =>
      var kept := map t | t in s.sessions && s.sessions[t].expiresAt > at :: s.sessions[t];
      s.(sessions := kept, clock := at)
    case PruneResets =>
      var kept := map t | t in s.resets && s.resets[t].expiresAt > at && !s.resets[t].consumed :: s.resets[t];
      s.(resets := kept, clock := at)
    case PutUser(user, row) => s.(users := s.users[user := row], clock := at)
    case RemoveUser(user) =>
      State(s.users - {user},
            map t | t in s.verifications && s.verifications[t].user != user :: s.verifications[t],
            map t | t in s.resets && s.resets[t].user != user :: s.resets[t],
            map t | t in s.sessions && s.sessions[t].user != user :: s.sessions[t],
            s.log + [Removed(user, at)], at)
    case _ => s
  }

  function Apply(w: World, step: Step, at: int): World
    requires Enabled(w, step, at)
  {
    match step
    case Receive(request) =>
      var task := Read(w.s, request, at);
      World(Noted(w.s, task, at), w.tasks + [task])
    case Finish(handler, mail) =>
      World(Written(w.s.(clock := at), w.tasks[handler], mail), w.tasks[handler := Idle])
    case Stop(handler) => World(w.s.(clock := at), w.tasks[handler := Idle])
    case _ => w.(s := Moved(w.s, step, at))
  }

  datatype Timed = Timed(step: Step, at: int)

  predicate CanRun(w: World, steps: seq<Timed>)
    decreases |steps|
  {
    steps == [] || (Enabled(w, steps[0].step, steps[0].at) && CanRun(Apply(w, steps[0].step, steps[0].at), steps[1..]))
  }

  function Run(w: World, steps: seq<Timed>): World
    requires CanRun(w, steps)
    decreases |steps|
  {
    if steps == [] then w else Run(Apply(w, steps[0].step, steps[0].at), steps[1..])
  }

  // ------------------------------------------------------------ what was said

  predicate IsMint(e: Entry, kind: Kind, user: string) {
    e.Minted? && e.kind == kind && e.user == user
  }

  /** The latest link mailed to a user, from the log. */
  function LastMint(log: seq<Entry>, kind: Kind, user: string): Option<Entry> {
    if log == [] then None
    else if IsMint(log[|log| - 1], kind, user) then Some(log[|log| - 1])
    else LastMint(log[..|log| - 1], kind, user)
  }

  predicate IsAcceptance(e: Entry, kind: Kind, token: string) {
    e.Accepted? && e.kind == kind && e.token == token
  }

  predicate WasAccepted(log: seq<Entry>, kind: Kind, token: string) {
    exists i :: 0 <= i < |log| && IsAcceptance(log[i], kind, token)
  }

  /** Something happened to a user's reset links: one was mailed, one was used, or the account went. */
  predicate IsResetEvent(e: Entry, user: string) {
    match e
    case Minted(kind, u, _, _, _) => kind == PasswordReset && u == user
    case Accepted(kind, u, _, _, _) => kind == PasswordReset && u == user
    case Removed(u, _) => u == user
    case _ => false
  }

  function LastReset(log: seq<Entry>, user: string): Option<Entry> {
    if log == [] then None
    else if IsResetEvent(log[|log| - 1], user) then Some(log[|log| - 1])
    else LastReset(log[..|log| - 1], user)
  }

  predicate ResetOf(e: Entry, user: string) {
    e.Accepted? && e.kind == PasswordReset && e.user == user
  }

  /** A session of this user that was issued after their last reset. */
  predicate IssuedSinceReset(log: seq<Entry>, user: string, token: string, at: int) {
    log != [] &&
      var last := log[|log| - 1];
      if last == Issued(user, token, at) then true
      else if ResetOf(last, user) then false
      else IssuedSinceReset(log[..|log| - 1], user, token, at)
  }

  /** A link is read as usable only while it is its user's newest, unexpired and not yet accepted. */
  predicate RightlyChecked(before: seq<Entry>, e: Entry)
    requires e.Checked?
  {
    var mint := LastMint(before, e.kind, e.user);
    && mint.Some? && mint.value.Minted? && mint.value.token == e.token && e.at < mint.value.at + Ttl(e.kind)
    && !WasAccepted(before, e.kind, e.token)
  }

  /** A reset request goes on only when the user's last link is used, or a minute old. */
  predicate RightlyAsked(before: seq<Entry>, e: Entry)
    requires e.Asked?
  {
    && (forall i :: 0 <= i < |before| && before[i].Asked? ==> before[i].at <= e.at)
    && (LastReset(before, e.user).Some? && LastReset(before, e.user).value.Minted? ==>
          e.at - LastReset(before, e.user).value.at >= RESEND_COOLDOWN)
  }

  /** What is mailed, accepted or issued comes from a read of its own, earlier in the log. */
  predicate Right(before: seq<Entry>, e: Entry) {
    match e
    case Asked(_, _) => RightlyAsked(before, e)
    case Minted(kind, user, token, at, asked) =>
      Fresh(before, token) && (kind == PasswordReset ==> asked < |before| && before[asked] == Asked(user, at))
    case Checked(_, _, _, _) => RightlyChecked(before, e)
    case Accepted(kind, user, token, at, checked) =>
      checked < |before| && before[checked] == Checked(kind, user, token, at)
    case Issued(_, token, _) => Fresh(before, token)
    case Removed(_, _) => true
  }

  predicate AllRight(log: seq<Entry>) {
    forall j :: 0 <= j < |log| ==> Right(log[..j], log[j])
  }

  lemma AllRightSnoc(log: seq<Entry>, e: Entry)
    requires AllRight(log) && Right(log, e)
    ensures AllRight(log + [e])
  {
    var all := log + [e];
    forall j | 0 <= j < |all| ensures Right(all[..j], all[j]) {
      assert all[..j] == log[..j];
      if j == |log| {
        assert log[..j] == log;
      }
    }
  }

  // ----------------------------------------------------------- the invariant

  predicate MintedAs(mint: Option<Entry>, token: string, at: int) {
    mint.Some? && mint.value.Minted? && mint.value.token == token && mint.value.at == at
  }

  /** Every row is its user's latest link, spent exactly if it was accepted. */
  predicate Tracks(rows: Table, log: seq<Entry>, kind: Kind) {
    forall t :: t in rows ==>
      && t != ""
      && MintedAs(LastMint(log, kind, rows[t].user), t, rows[t].createdAt)
      && rows[t].expiresAt == rows[t].createdAt + Ttl(kind)
      && (rows[t].consumed <==> WasAccepted(log, kind, t))
  }

  /** A reset link still open by the log has its row, unless it has run out. */
  ghost predicate OpenIsKept(resets: Table, log: seq<Entry>, clock: int) {
    forall user :: LastReset(log, user).Some? && LastReset(log, user).value.Minted? ==>
      var e := LastReset(log, user).value;
      || clock >= e.at + Ttl(PasswordReset)
      || (e.token in resets && resets[e.token].user == user && !resets[e.token].consumed &&
          resets[e.token].createdAt == e.at)
  }

  predicate SessionsTrack(sessions: map<string, Session>, log: seq<Entry>) {
    forall t :: t in sessions ==>
      && IssuedSinceReset(log, sessions[t].user, t, sessions[t].createdAt)
      && sessions[t].expiresAt == sessions[t].createdAt + SESSION_TTL
  }

  predicate AskedBy(log: seq<Entry>, clock: int) {
    forall i :: 0 <= i < |log| && log[i].Asked? ==> log[i].at <= clock
  }

  ghost predicate Sound(s: State) {
    && AllRight(s.log) && AskedBy(s.log, s.clock)
    && Tracks(s.verifications, s.log, Verification)
    && Tracks(s.resets, s.log, PasswordReset)
    && OpenIsKept(s.resets, s.log, s.clock)
    && SessionsTrack(s.sessions, s.log)
  }

  /** A handler under way has its read on record, and its link is still its user's if it is there at all. */
  predicate Backed(s: State, task: Task) {
    match task
    case Spending(kind, user, token, _, at, checked) =>
      && checked < |s.log| && s.log[checked] == Checked(kind, user, token, at)
      && (token in Rows(s, kind) ==> Rows(s, kind)[token].user == user)
    case Mailing(user, _, at, asked) => asked < |s.log| && s.log[asked] == Asked(user, at)
    case Idle => true
  }

  ghost predicate WorldSound(w: World) {
    Sound(w.s) && forall i :: 0 <= i < |w.tasks| ==> Backed(w.s, w.tasks[i])
  }

  // ---------------------------------------------------- one more log entry

  lemma SnocFacts(log: seq<Entry>, e: Entry)
    ensures (log + [e])[..|log + [e]| - 1] == log && (log + [e])[|log + [e]| - 1] == e
  {
  }

  lemma LastMintSnoc(log: seq<Entry>, e: Entry, kind: Kind, user: string)
    ensures LastMint(log + [e], kind, user) == if IsMint(e, kind, user) then Some(e) else LastMint(log, kind, user)
  {
    SnocFacts(log, e);
  }

  lemma LastResetSnoc(log: seq<Entry>, e: Entry, user: string)
    ensures LastReset(log + [e], user) == if IsResetEvent(e, user) then Some(e) else LastReset(log, user)
  {
    SnocFacts(log, e);
  }

  lemma WasAcceptedSnoc(log: seq<Entry>, e: Entry, kind: Kind, token: string)
    ensures WasAccepted(log + [e], kind, token) <==> WasAccepted(log, kind, token) || IsAcceptance(e, kind, token)
  {
    var all := log + [e];
    assert all[|log|] == e;
    if WasAccepted(log, kind, token) {
      var i :| 0 <= i < |log| && IsAcceptance(log[i], kind, token);
      assert all[i] == log[i];
    }
  }

  lemma IssuedSnoc(log: seq<Entry>, e: Entry, user: string, token: string, at: int)
    ensures IssuedSinceReset(log + [e], user, token, at) <==>
            e == Issued(user, token, at) || (!ResetOf(e, user) && IssuedSinceReset(log, user, token, at))
  {
    SnocFacts(log, e);
  }

  /** Rows a log entry does not concern go on tracking; deleting rows never hurts. */
  lemma StillTracks(rows: Table, kept: Table, log: seq<Entry>, e: Entry, kind: Kind)
    requires Tracks(rows, log, kind)
    requires forall t :: t in kept ==> t in rows && kept[t] == rows[t]
    requires forall t :: t in kept ==> !IsMint(e, kind, kept[t].user) && !IsAcceptance(e, kind, t)
    ensures Tracks(kept, log + [e], kind)
  {
    forall t | t in kept
      ensures LastMint(log + [e], kind, kept[t].user) == LastMint(log, kind, kept[t].user)
      ensures WasAccepted(log + [e], kind, t) <==> WasAccepted(log, kind, t)
    {
      LastMintSnoc(log, e, kind, kept[t].user);
      WasAcceptedSnoc(log, e, kind, t);
    }
  }

  /** A token is accepted only after it was minted, so a fresh one has not been. */
  lemma FreshIsUnaccepted(log: seq<Entry>, kind: Kind, token: string)
    requires Fresh(log, token)
    ensures !WasAccepted(log, kind, token)
  {
    assert forall i :: 0 <= i < |log| ==> TokenOf(log[i]) != token;
  }

  lemma MintTracks(rows: Table, log: seq<Entry>, kind: Kind, user: string, email: string, token: string, at: int,
          asked: nat)
    requires Tracks(rows, log, kind) && Fresh(log, token)
    ensures Tracks(Superseding(rows, kind, user, email, token, at), log + [Minted(kind, user, token, at, asked)], kind)
  {
    var e := Minted(kind, user, token, at, asked);
    var kept := map t | t in rows && rows[t].user != user :: rows[t];
    StillTracks(rows, kept, log, e, kind);
    LastMintSnoc(log, e, kind, user);
    WasAcceptedSnoc(log, e, kind, token);
    FreshIsUnaccepted(log, kind, token);
  }

  lemma SpendTracks(rows: Table, log: seq<Entry>, kind: Kind, user: string, token: string, at: int, checked: nat)
    requires Tracks(rows, log, kind)
    ensures Tracks(Spent(rows, token), log + [Accepted(kind, user, token, at, checked)], kind)
  {
    var e := Accepted(kind, user, token, at, checked);
    StillTracks(rows, rows - {token}, log, e, kind);
    if token in rows {
      LastMintSnoc(log, e, kind, rows[token].user);
      WasAcceptedSnoc(log, e, kind, token);
    }
  }

  /** What the log says of open reset links carries over, if the entry and the rows kept agree. */
  lemma OpenStaysKept(resets: Table, kept: Table, log: seq<Entry>, clock: int, e: Entry)
    requires OpenIsKept(resets, log, clock)
    requires e.Minted? && e.kind == PasswordReset ==>
               e.token in kept && kept[e.token].user == e.user && !kept[e.token].consumed &&
                   kept[e.token].createdAt == e.at
    requires forall t :: t in resets && !resets[t].consumed && !IsResetEvent(e, resets[t].user) ==>
        t in kept && kept[t] == resets[t]
    ensures OpenIsKept(kept, log + [e], clock)
  {
    forall user | LastReset(log + [e], user).Some? && LastReset(log + [e], user).value.Minted?
      ensures
        var m := LastReset(log + [e], user).value;
        || clock >= m.at + Ttl(PasswordReset)
        || (m.token in kept && kept[m.token].user == user && !kept[m.token].consumed && kept[m.token].createdAt == m.at)
    {
      LastResetSnoc(log, e, user);
    }
  }

  lemma SessionsStillTrack(sessions: map<string, Session>, kept: map<string, Session>, log: seq<Entry>, e: Entry)
    requires SessionsTrack(sessions, log)
    requires forall t :: t in kept ==> t in sessions && kept[t] == sessions[t] && !ResetOf(e, kept[t].user)
    ensures SessionsTrack(kept, log + [e])
  {
    forall t | t in kept ensures IssuedSinceReset(log + [e], kept[t].user, t, kept[t].createdAt) {
      IssuedSnoc(log, e, kept[t].user, t, kept[t].createdAt);
    }
  }

  lemma SessionsGain(sessions: map<string, Session>, log: seq<Entry>, user: string, token: string, at: int)
    requires SessionsTrack(sessions, log)
    ensures SessionsTrack(sessions[token := Session(user, at, at + SESSION_TTL)], log + [Issued(user, token, at)])
  {
    SessionsStillTrack(sessions, sessions, log, Issued(user, token, at));
    IssuedSnoc(log, Issued(user, token, at), user, token, at);
  }

  /** Time passing, and rows run out or spent going, change nothing the log says. */
  lemma FewerStillOpen(resets: Table, kept: Table, log: seq<Entry>, clock: int, at: int)
    requires OpenIsKept(resets, log, clock) && Tracks(resets, log, PasswordReset) && clock <= at
    requires forall t :: t in kept ==> t in resets && kept[t] == resets[t]
    requires forall t :: t in resets && t !in kept ==> resets[t].consumed || resets[t].expiresAt <= at
    ensures OpenIsKept(kept, log, at)
  {
  }

  lemma LaterIsSound(s: State, at: int)
    requires Sound(s) && s.clock <= at
    ensures Sound(s.(clock := at))
  {
    FewerStillOpen(s.resets, s.resets, s.log, s.clock, at);
  }

  // --------------------------------------------------------------- each write

  lemma ReadIsRight(s: State, request: Request, at: int)
    requires Sound(s) && s.clock <= at
    ensures var task := Read(s, request, at);
      && (task.Spending? ==> Right(s.log, Checked(task.kind, task.user, task.token, at)))
      && (task.Mailing? ==> Right(s.log, Asked(task.user, at)))
  {
  }

  /** An entry that is only a read leaves everything as it was. */
  lemma NotingKeeps(s: State, e: Entry, at: int)
    requires Sound(s) && s.clock <= at && (e.Checked? || e.Asked?) && e.at == at && Right(s.log, e)
    ensures Sound(s.(log := s.log + [e], clock := at))
  {
    LaterIsSound(s, at);
    AllRightSnoc(s.log, e);
    StillTracks(s.verifications, s.verifications, s.log, e, Verification);
    StillTracks(s.resets, s.resets, s.log, e, PasswordReset);
    OpenStaysKept(s.resets, s.resets, s.log, at, e);
    SessionsStillTrack(s.sessions, s.sessions, s.log, e);
  }

  lemma ReceiveKeeps(s: State, request: Request, at: int)
    requires Sound(s) && s.clock <= at
    ensures var task := Read(s, request, at);
            Sound(Noted(s, task, at)) && Backed(Noted(s, task, at), task)
  {
    var task := Read(s, request, at);
    ReadIsRight(s, request, at);
    match task
    case Spending(kind, user, token, _, _, _) => NotingKeeps(s, Checked(kind, user, token, at), at);
    case Mailing(user, _, _, _) => NotingKeeps(s, Asked(user, at), at);
    case Idle => LaterIsSound(s, at);
  }

  lemma VerifyingKeeps(s: State, task: Task, mail: string)
    requires Sound(s) && Backed(s, task) && task.Spending? && task.kind == Verification
    ensures Sound(Written(s, task, mail))
  {
    var e := Accepted(Verification, task.user, task.token, task.at, task.checked);
    AllRightSnoc(s.log, e);
    SpendTracks(s.verifications, s.log, Verification, task.user, task.token, task.at, task.checked);
    StillTracks(s.resets, s.resets, s.log, e, PasswordReset);
    OpenStaysKept(s.resets, s.resets, s.log, s.clock, e);
    SessionsStillTrack(s.sessions, s.sessions, s.log, e);
  }

  lemma ResettingKeeps(s: State, task: Task, mail: string)
    requires Sound(s) && Backed(s, task) && task.Spending? && task.kind == PasswordReset
    ensures Sound(Written(s, task, mail))
  {
    var after := Written(s, task, mail);
    var e := Accepted(PasswordReset, task.user, task.token, task.at, task.checked);
    AllRightSnoc(s.log, e);
    SpendTracks(s.resets, s.log, PasswordReset, task.user, task.token, task.at, task.checked);
    StillTracks(s.verifications, s.verifications, s.log, e, Verification);
    OpenStaysKept(s.resets, after.resets, s.log, s.clock, e);
    SessionsStillTrack(s.sessions, after.sessions, s.log, e);
  }

  lemma {:induction false} LastMintIsLogged(log: seq<Entry>, kind: Kind, user: string)
    ensures LastMint(log, kind, user).Some? ==> LastMint(log, kind, user).value in log
  {
    if log != [] {
      LastMintIsLogged(log[..|log| - 1], kind, user);
    }
  }

  lemma FreshIsNotARow(rows: Table, log: seq<Entry>, kind: Kind, token: string)
    requires Tracks(rows, log, kind) && Fresh(log, token)
    ensures token !in rows
  {
    if token in rows {
      LastMintIsLogged(log, kind, rows[token].user);
    }
  }

  lemma MailingKeeps(s: State, task: Task, mail: string)
    requires Sound(s) && Backed(s, task) && task.Mailing? && Fresh(s.log, mail)
    ensures Sound(Written(s, task, mail))
  {
    if task.user in s.users {
      var after := Written(s, task, mail);
      var e := Minted(PasswordReset, task.user, mail, task.at, task.asked);
      AllRightSnoc(s.log, e);
      MintTracks(s.resets, s.log, PasswordReset, task.user, task.email, mail, task.at, task.asked);
      StillTracks(s.verifications, s.verifications, s.log, e, Verification);
      FreshIsNotARow(s.resets, s.log, PasswordReset, mail);
      OpenStaysKept(s.resets, after.resets, s.log, s.clock, e);
      SessionsStillTrack(s.sessions, s.sessions, s.log, e);
    }
  }

  lemma WritingKeeps(s: State, task: Task, mail: string)
    requires Sound(s) && Backed(s, task) && (task.Mailing? ==> Fresh(s.log, mail))
    ensures Sound(Written(s, task, mail))
  {
    match task
    case Spending(Verification, _, _, _, _, _) => VerifyingKeeps(s, task, mail);
    case Spending(PasswordReset, _, _, _, _, _) => ResettingKeeps(s, task, mail);
    case Mailing(_, _, _, _) => MailingKeeps(s, task, mail);
    case Idle =>
  }

  lemma MintVerificationKeeps(s: State, user: string, email: string, token: string, at: int)
    requires Sound(s) && s.clock <= at && Fresh(s.log, token)
    ensures Sound(Moved(s, MintVerification(user, email, token), at))
  {
    var e := Minted(Verification, user, token, at, 0);
    LaterIsSound(s, at);
    AllRightSnoc(s.log, e);
    MintTracks(s.verifications, s.log, Verification, user, email, token, at, 0);
    StillTracks(s.resets, s.resets, s.log, e, PasswordReset);
    OpenStaysKept(s.resets, s.resets, s.log, at, e);
    SessionsStillTrack(s.sessions, s.sessions, s.log, e);
  }

  lemma StartKeeps(s: State, user: string, token: string, at: int)
    requires Sound(s) && s.clock <= at && Fresh(s.log, token)
    ensures Sound(Moved(s, StartSession(user, token), at))
  {
    var e := Issued(user, token, at);
    LaterIsSound(s, at);
    AllRightSnoc(s.log, e);
    StillTracks(s.verifications, s.verifications, s.log, e, Verification);
    StillTracks(s.resets, s.resets, s.log, e, PasswordReset);
    OpenStaysKept(s.resets, s.resets, s.log, at, e);
    SessionsGain(s.sessions, s.log, user, token, at);
  }

  lemma RemoveKeeps(s: State, user: string, at: int)
    requires Sound(s) && s.clock <= at
    ensures Sound(Moved(s, RemoveUser(user), at))
  {
    var after := Moved(s, RemoveUser(user), at);
    var e := Removed(user, at);
    LaterIsSound(s, at);
    AllRightSnoc(s.log, e);
    StillTracks(s.verifications, after.verifications, s.log, e, Verification);
    StillTracks(s.resets, after.resets, s.log, e, PasswordReset);
    OpenStaysKept(s.resets, after.resets, s.log, at, e);
    SessionsStillTrack(s.sessions, after.sessions, s.log, e);
  }

  predicate Quiet(step: Step) {
    step.ResolveSession? || step.Logout? || step.PruneSessions? || step.PruneResets? || step.PutUser?
  }

  lemma QuietShape(s: State, step: Step, at: int)
    requires Quiet(step)
    ensures var after := Moved(s, step, at);
      && after.log == s.log && after.verifications == s.verifications && after.clock == at
      && (forall t :: t in after.resets ==> t in s.resets && after.resets[t] == s.resets[t])
      && (forall t :: t in s.resets && t !in after.resets ==> s.resets[t].consumed || s.resets[t].expiresAt <= at)
      && (forall t :: t in after.sessions ==> t in s.sessions && after.sessions[t] == s.sessions[t])
  {
  }

  lemma FewerSound(s: State, after: State, at: int)
    requires Sound(s) && s.clock <= at
    requires after.log == s.log && after.verifications == s.verifications && after.clock == at
    requires forall t :: t in after.resets ==> t in s.resets && after.resets[t] == s.resets[t]
    requires forall t :: t in s.resets && t !in after.resets ==> s.resets[t].consumed || s.resets[t].expiresAt <= at
    requires forall t :: t in after.sessions ==> t in s.sessions && after.sessions[t] == s.sessions[t]
    ensures Sound(after)
  {
    FewerStillOpen(s.resets, after.resets, s.log, s.clock, at);
  }

  lemma QuietKeeps(s: State, step: Step, at: int)
    requires Sound(s) && s.clock <= at && Quiet(step)
    ensures Sound(Moved(s, step, at))
  {
    QuietShape(s, step, at);
    FewerSound(s, Moved(s, step, at), at);
  }

  // ---------------------------------------------------------------- each step

  /** A row that was not there before is under a token never seen. */
  predicate RowsGoOn(before: Table, after: Table, log: seq<Entry>) {
    forall t :: t in after ==>
      (t in before && after[t].user == before[t].user && after[t].email == before[t].email) || Fresh(log, t)
  }

  predicate GoesOn(s: State, after: State) {
    && s.log <= after.log
    && RowsGoOn(s.verifications, after.verifications, s.log) && RowsGoOn(s.resets, after.resets, s.log)
  }

  lemma BackedGoesOn(s: State, after: State, task: Task)
    requires Backed(s, task) && GoesOn(s, after)
    ensures Backed(after, task)
  {
    if task.Spending? {
      assert TokenOf(s.log[task.checked]) == task.token;
      assert !Fresh(s.log, task.token);
    }
  }

  lemma WritingGoesOn(s: State, task: Task, mail: string)
    requires task.Mailing? ==> Fresh(s.log, mail)
    ensures GoesOn(s, Written(s, task, mail))
  {
  }

  lemma MovingGoesOn(s: State, step: Step, at: int)
    requires step.MintVerification? ==> Fresh(s.log, step.token)
    ensures GoesOn(s, Moved(s, step, at))
  {
  }

  lemma ReceivingGoesOn(s: State, task: Task, at: int)
    ensures GoesOn(s, Noted(s, task, at))
  {
  }

  lemma StepGoesOn(w: World, step: Step, at: int)
    requires Enabled(w, step, at)
    ensures GoesOn(w.s, Apply(w, step, at).s)
  {
    match step
    case Receive(request) => ReceivingGoesOn(w.s, Read(w.s, request, at), at);
    case Finish(handler, mail) => WritingGoesOn(w.s.(clock := at), w.tasks[handler], mail);
    case Stop(_) =>
    case _ => MovingGoesOn(w.s, step, at);
  }

  lemma StepKeeps(w: World, step: Step, at: int)
    requires WorldSound(w) && Enabled(w, step, at)
    ensures WorldSound(Apply(w, step, at))
  {
    var after := Apply(w, step, at);
    StepStateKeeps(w, step, at);
    StepGoesOn(w, step, at);
    forall i | 0 <= i < |after.tasks| ensures Backed(after.s, after.tasks[i]) {
      if i < |w.tasks| && after.tasks[i] == w.tasks[i] {
        BackedGoesOn(w.s, after.s, w.tasks[i]);
      } else if step.Receive? {
        ReceiveKeeps(w.s, step.request, at);
      }
    }
  }

  lemma StepStateKeeps(w: World, step: Step, at: int)
    requires WorldSound(w) && Enabled(w, step, at)
    ensures Sound(Apply(w, step, at).s)
  {
    match step
    case Receive(request) => ReceiveKeeps(w.s, request, at);
    case Finish(handler, mail) =>
      LaterIsSound(w.s, at);
      assert Backed(w.s.(clock := at), w.tasks[handler]);
      WritingKeeps(w.s.(clock := at), w.tasks[handler], mail);
    case Stop(_) => LaterIsSound(w.s, at);
    case MintVerification(user, email, token) => MintVerificationKeeps(w.s, user, email, token, at);
    case StartSession(user, token) => StartKeeps(w.s, user, token, at);
    case RemoveUser(user) => RemoveKeeps(w.s, user, at);
    case _ => QuietKeeps(w.s, step, at);
  }

  lemma {:induction false} RunKeeps(w: World, steps: seq<Timed>)
    requires WorldSound(w) && CanRun(w, steps)
    ensures WorldSound(Run(w, steps))
    decreases |steps|
  {
    if steps != [] {
      StepKeeps(w, steps[0].step, steps[0].at);
      RunKeeps(Apply(w, steps[0].step, steps[0].at), steps[1..]);
    }
  }

  // --------------------------------------------------- what holds in every run

  /** At every moment of every run a user has at most one row in each token table. */
  lemma OneRowPerUser(steps: seq<Timed>, kind: Kind, t: string, u: string)
    requires CanRun(EMPTY, steps)
    ensures var rows := Rows(Run(EMPTY, steps).s, kind);
            t in rows && u in rows && rows[t].user == rows[u].user ==> t == u
  {
    RunKeeps(EMPTY, steps);
  }

  lemma {:induction false} LastMintIsAt(log: seq<Entry>, kind: Kind, user: string) returns (m: nat)
    requires LastMint(log, kind, user).Some?
    ensures m < |log| && LastMint(log, kind, user) == Some(log[m])
    ensures log[m].Minted? && log[m].kind == kind && log[m].user == user
    ensures forall i :: m < i < |log| && log[i].Minted? && log[i].kind == kind ==> log[i].user != user
    decreases |log|
  {
    if IsMint(log[|log| - 1], kind, user) {
      m := |log| - 1;
    } else {
      m := LastMintIsAt(log[..|log| - 1], kind, user);
    }
  }

  /**
   * A link is accepted only by a request that read it while it was its user's
   * newest, had not run out, and had not been accepted: `m` is when it was
   * mailed, a day before at most for a verification and an hour for a reset.
   */
  lemma AcceptedWasRead(steps: seq<Timed>, j: nat) returns (m: nat)
    requires CanRun(EMPTY, steps) && j < |Run(EMPTY, steps).s.log| && Run(EMPTY, steps).s.log[j].Accepted?
    ensures var log := Run(EMPTY, steps).s.log;
            var link, c := log[j], log[j].checked;
      && m < c < j && log[c] == Checked(link.kind, link.user, link.token, link.at)
      && log[m].Minted? && log[m].kind == link.kind && log[m].user == link.user && log[m].token == link.token
      && (forall i :: m < i < c && log[i].Minted? && log[i].kind == link.kind ==> log[i].user != link.user)
      && link.at < log[m].at + (if link.kind == Verification then 24 * 3600 * 1000 else 3600 * 1000)
      && (forall i :: 0 <= i < c && log[i].Accepted? && log[i].kind == link.kind ==> log[i].token != link.token)
  {
    RunKeeps(EMPTY, steps);
    var log := Run(EMPTY, steps).s.log;
    ReadBefore(log, j);
    var link, c := log[j], log[j].checked;
    m := LastMintIsAt(log[..c], link.kind, link.user);
    assert forall i :: 0 <= i < c ==> log[..c][i] == log[i];
    forall i | 0 <= i < c && log[i].Accepted? && log[i].kind == link.kind ensures log[i].token != link.token {
      assert IsAcceptance(log[..c][i], link.kind, log[i].token);
    }
  }

  lemma ReadBefore(log: seq<Entry>, j: nat)
    requires AllRight(log) && j < |log| && log[j].Accepted?
    ensures var c := log[j].checked;
      && c < j && log[c] == Checked(log[j].kind, log[j].user, log[j].token, log[j].at) &&
            RightlyChecked(log[..c], log[c])
  {
    var c := log[j].checked;
    assert Right(log[..j], log[j]);
    assert log[..j][c] == log[c];
    assert Right(log[..c], log[c]);
  }

  /**
   * A link is accepted a second time only by a request that had read it before the
   * first was written: requests that do not overlap spend it once.
   */
  lemma SecondAcceptanceOverlapped(steps: seq<Timed>, i: nat, j: nat)
    requires CanRun(EMPTY, steps) && i < j < |Run(EMPTY, steps).s.log|
    requires var log := Run(EMPTY, steps).s.log;
      log[i].Accepted? && IsAcceptance(log[j], log[i].kind, log[i].token)
    ensures Run(EMPTY, steps).s.log[j].checked < i
  {
    RunKeeps(EMPTY, steps);
    var log := Run(EMPTY, steps).s.log;
    AcceptedFromThen(log, i);
    ReadBefore(log, j);
  }

  lemma AcceptedFromThen(log: seq<Entry>, i: nat)
    requires i < |log| && log[i].Accepted?
    ensures forall c :: i < c <= |log| ==> WasAccepted(log[..c], log[i].kind, log[i].token)
  {
    forall c | i < c <= |log| ensures WasAccepted(log[..c], log[i].kind, log[i].token) {
      assert IsAcceptance(log[..c][i], log[i].kind, log[i].token);
    }
  }

  // ----------------------------------------------------- how requests may end

  /** What is counted: acceptances of a link, or reset links mailed to a user. */
  datatype Mark = Spends(kind: Kind, token: string) | Mails(user: string)

  predicate Bears(e: Entry, m: Mark) {
    match m
    case Spends(kind, token) => IsAcceptance(e, kind, token)
    case Mails(user) => IsMint(e, PasswordReset, user)
  }

  /** A handler under way that will bear the mark if it ends; a link for a removed account is not stored. */
  predicate Promises(users: map<string, User>, task: Task, m: Mark) {
    match m
    case Spends(kind, token) => task.Spending? && task.kind == kind && task.token == token
    case Mails(user) => task.Mailing? && task.user == user && user in users
  }

  function CountOf(log: seq<Entry>, m: Mark): nat {
    if log == [] then 0 else CountOf(log[..|log| - 1], m) + (if Bears(log[|log| - 1], m) then 1 else 0)
  }

  function OpenOf(users: map<string, User>, tasks: seq<Task>, m: Mark): nat {
    if tasks == [] then 0
    else OpenOf(users, tasks[..|tasks| - 1], m) + (if Promises(users, tasks[|tasks| - 1], m) then 1 else 0)
  }

  lemma CountOfSnoc(log: seq<Entry>, e: Entry, m: Mark)
    ensures CountOf(log + [e], m) == CountOf(log, m) + (if Bears(e, m) then 1 else 0)
  {
    SnocFacts(log, e);
  }

  lemma {:induction false} OpenOfDone(users: map<string, User>, tasks: seq<Task>, i: nat, m: Mark)
    requires i < |tasks|
    ensures OpenOf(users, tasks, m) ==
        OpenOf(users, tasks[i := Idle], m) + (if Promises(users, tasks[i], m) then 1 else 0)
    decreases |tasks|
  {
    var n := |tasks| - 1;
    if i < n {
      OpenOfDone(users, tasks[..n], i, m);
      assert tasks[i := Idle][..n] == tasks[..n][i := Idle];
    } else {
      assert tasks[i := Idle][..n] == tasks[..n];
    }
  }

  lemma {:induction false} SameUsersSameOpen(a: map<string, User>, b: map<string, User>, tasks: seq<Task>, m: Mark)
    requires a.Keys == b.Keys
    ensures OpenOf(a, tasks, m) == OpenOf(b, tasks, m)
    decreases |tasks|
  {
    if tasks != [] {
      SameUsersSameOpen(a, b, tasks[..|tasks| - 1], m);
    }
  }

  predicate Ending(step: Step) {
    step.Finish? || step.Stop?
  }

  predicate AllEnding(steps: seq<Timed>) {
    forall i :: 0 <= i < |steps| ==> Ending(steps[i].step)
  }

  /** What has been counted and what is still promised. */
  function Due(w: World, m: Mark): nat {
    CountOf(w.s.log, m) + OpenOf(w.s.users, w.tasks, m)
  }

  lemma WrittenCounts(s: State, task: Task, mail: string, m: Mark)
    ensures Written(s, task, mail).users.Keys == s.users.Keys
    ensures CountOf(Written(s, task, mail).log, m) == CountOf(s.log, m) + (if Promises(s.users, task, m) then 1 else 0)
  {
    match task
    case Spending(kind, user, token, _, at, checked) => CountOfSnoc(s.log, Accepted(kind, user, token, at, checked), m);
    case Mailing(user, _, at, asked) => CountOfSnoc(s.log, Minted(PasswordReset, user, mail, at, asked), m);
    case Idle =>
  }

  /** Finishing turns a promise into a count; stopping drops it. */
  lemma EndingCounts(w: World, step: Step, at: int, m: Mark)
    requires Enabled(w, step, at) && Ending(step)
    ensures var after := Apply(w, step, at);
            var promised := if Promises(w.s.users, w.tasks[step.handler], m) then 1 else 0;
      && after.s.users.Keys == w.s.users.Keys
      && OpenOf(after.s.users, after.tasks, m) == OpenOf(w.s.users, w.tasks, m) - promised
      && CountOf(after.s.log, m) == CountOf(w.s.log, m) + (if step.Finish? then promised else 0)
  {
    var after := Apply(w, step, at);
    OpenOfDone(w.s.users, w.tasks, step.handler, m);
    if step.Finish? {
      WrittenCounts(w.s.(clock := at), w.tasks[step.handler], step.mail, m);
    }
    SameUsersSameOpen(w.s.users, after.s.users, after.tasks, m);
  }

  lemma {:induction false} NeverMoreThanDue(w: World, steps: seq<Timed>, m: Mark)
    requires CanRun(w, steps) && AllEnding(steps)
    ensures Due(Run(w, steps), m) <= Due(w, m)
    decreases |steps|
  {
    if steps != [] {
      EndingCounts(w, steps[0].step, steps[0].at, m);
      NeverMoreThanDue(Apply(w, steps[0].step, steps[0].at), steps[1..], m);
    }
  }

  function Longest(log: seq<Entry>): (n: nat)
    ensures forall i :: 0 <= i < |log| ==> |TokenOf(log[i])| <= n
  {
    if log == [] then 0
    else
      var n := Longest(log[..|log| - 1]);
      if |TokenOf(log[|log| - 1])| > n then |TokenOf(log[|log| - 1])| else n
  }

  /** There is always a token never seen. */
  function NewToken(log: seq<Entry>): (token: string)
    ensures Fresh(log, token)
  {
    seq(Longest(log) + 1, _ => 'x')
  }

  lemma {:induction false} SomePromise(users: map<string, User>, tasks: seq<Task>, m: Mark) returns (i: nat)
    requires OpenOf(users, tasks, m) > 0
    ensures i < |tasks| && Promises(users, tasks[i], m)
    decreases |tasks|
  {
    if Promises(users, tasks[|tasks| - 1], m) {
      i := |tasks| - 1;
    } else {
      i := SomePromise(users, tasks[..|tasks| - 1], m);
    }
  }

  /** Everything promised can be written. */
  lemma {:induction false} AllDueCanHappen(w: World, m: Mark) returns (steps: seq<Timed>)
    ensures CanRun(w, steps) && AllEnding(steps) && CountOf(Run(w, steps).s.log, m) == Due(w, m)
    ensures Run(w, steps).s.clock == w.s.clock
    decreases OpenOf(w.s.users, w.tasks, m)
  {
    if OpenOf(w.s.users, w.tasks, m) == 0 {
      steps := [];
    } else {
      var i := SomePromise(w.s.users, w.tasks, m);
      var step := Finish(i, NewToken(w.s.log));
      EndingCounts(w, step, w.s.clock, m);
      var rest := AllDueCanHappen(Apply(w, step, w.s.clock), m);
      steps := [Timed(step, w.s.clock)] + rest;
      assert steps[1..] == rest;
    }
  }

  /**
   * However the requests under way may end, a link is accepted at most n times,
   * and a user is mailed at most n reset links, exactly when that many is the
   * most that has been counted and is still promised.
   */
  lemma EndingsIff(w: World, m: Mark, n: nat)
    ensures (forall steps :: CanRun(w, steps) && AllEnding(steps) ==> CountOf(Run(w, steps).s.log, m) <= n) <==>
        Due(w, m) <= n
  {
    if Due(w, m) <= n {
      forall steps | CanRun(w, steps) && AllEnding(steps) ensures CountOf(Run(w, steps).s.log, m) <= n {
        NeverMoreThanDue(w, steps, m);
      }
    } else {
      var steps := AllDueCanHappen(w, m);
    }
  }

  // --------------------------------------------------------- one link, twice

  lemma OneStep(w: World, step: Step, at: int)
    requires Enabled(w, step, at)
    ensures CanRun(w, [Timed(step, at)]) && Run(w, [Timed(step, at)]) == Apply(w, step, at)
  {
    assert [Timed(step, at)][1..] == [];
    assert CanRun(Apply(w, step, at), []);
  }

  lemma {:induction false} Follows(w: World, steps: seq<Timed>, step: Step, at: int)
    requires CanRun(w, steps) && Enabled(Run(w, steps), step, at)
    ensures CanRun(w, steps + [Timed(step, at)]) && Run(w, steps + [Timed(step, at)]) == Apply(Run(w, steps), step, at)
    decreases |steps|
  {
    if steps == [] {
      OneStep(w, step, at);
      assert steps + [Timed(step, at)] == [Timed(step, at)];
    } else {
      Follows(Apply(w, steps[0].step, steps[0].at), steps[1..], step, at);
      assert (steps + [Timed(step, at)])[1..] == steps[1..] + [Timed(step, at)];
    }
  }

  lemma NotedCounts(s: State, task: Task, at: int, m: Mark)
    ensures var after := Noted(s, task, at);
      && after == s.(log := after.log, clock := at)
      && CountOf(after.log, m) == CountOf(s.log, m)
  {
    match task
    case Spending(kind, user, token, _, _, _) => CountOfSnoc(s.log, Checked(kind, user, token, at), m);
    case Mailing(user, _, _, _) => CountOfSnoc(s.log, Asked(user, at), m);
    case Idle =>
  }

  lemma OpenOfSnoc(users: map<string, User>, tasks: seq<Task>, task: Task, m: Mark)
    ensures OpenOf(users, tasks + [task], m) == OpenOf(users, tasks, m) + (if Promises(users, task, m) then 1 else 0)
  {
    assert (tasks + [task])[..|tasks|] == tasks;
  }

  /** Receiving a request counts nothing, and adds what it promises. */
  lemma ReceivingPromises(w: World, request: Request, at: int, m: Mark)
    requires w.s.clock <= at
    ensures var after := Apply(w, Receive(request), at);
      && after.s == w.s.(log := after.s.log, clock := at)
      && Due(after, m) == Due(w, m) + (if Promises(w.s.users, Read(w.s, request, at), m) then 1 else 0)
  {
    NotedCounts(w.s, Read(w.s, request, at), at, m);
    OpenOfSnoc(w.s.users, w.tasks, Read(w.s, request, at), m);
  }

  /** Whatever link is usable, two requests that both read it before either writes can both spend it. */
  lemma TwoRequestsSpendTwice(w: World, token: string)
    requires Usable(w.s.verifications, w.s.users, token, w.s.clock)
    ensures var both := Apply(Apply(w, Receive(VerifyEmail(token)), w.s.clock), Receive(VerifyEmail(token)), w.s.clock);
      Due(both, Spends(Verification, token)) == Due(w, Spends(Verification, token)) + 2
  {
    ReceivingPromises(w, VerifyEmail(token), w.s.clock, Spends(Verification, token));
    ReceivingPromises(Apply(w, Receive(VerifyEmail(token)), w.s.clock), VerifyEmail(token), w.s.clock,
        Spends(Verification, token));
  }

  /** So a link can be accepted twice: from nothing, one user, one link, two requests. */
  lemma ALinkCanBeAcceptedTwice() returns (steps: seq<Timed>)
    ensures CanRun(EMPTY, steps) && CountOf(Run(EMPTY, steps).s.log, Spends(Verification, "t")) == 2
  {
    var begun := [Timed(PutUser("u", User("u@x.io", true, false, "")), 0)] +
        [Timed(MintVerification("u", "u@x.io", "t"), 0)];
    OneStep(EMPTY, PutUser("u", User("u@x.io", true, false, "")), 0);
    Follows(EMPTY, [Timed(PutUser("u", User("u@x.io", true, false, "")), 0)], MintVerification("u", "u@x.io", "t"), 0);
    var w := Run(EMPTY, begun);
    TwoRequestsSpendTwice(w, "t");
    Follows(EMPTY, begun, Receive(VerifyEmail("t")), 0);
    var read := begun + [Timed(Receive(VerifyEmail("t")), 0)];
    Follows(EMPTY, read, Receive(VerifyEmail("t")), 0);
    var both := read + [Timed(Receive(VerifyEmail("t")), 0)];
    var rest := AllDueCanHappen(Run(EMPTY, both), Spends(Verification, "t"));
    Joined(EMPTY, both, rest);
    steps := both + rest;
  }

  lemma {:induction false} Joined(w: World, a: seq<Timed>, b: seq<Timed>)
    requires CanRun(w, a) && CanRun(Run(w, a), b)
    ensures CanRun(w, a + b) && Run(w, a + b) == Run(Run(w, a), b)
    decreases |a|
  {
    if a == [] {
      assert a + b == b;
    } else {
      Joined(Apply(w, a[0].step, a[0].at), a[1..], b);
      assert (a + b)[1..] == a[1..] + b;
    }
  }

  // ------------------------------------------------------------ whose address

  /** A link once mailed to a user at an address, whatever has become of its row. */
  predicate IsFor(s: State, kind: Kind, token: string, user: string, email: string) {
    && !Fresh(s.log, token)
    && (token in Rows(s, kind) ==> Rows(s, kind)[token].user == user && Rows(s, kind)[token].email == email)
  }

  lemma {:induction false} StaysFor(w: World, steps: seq<Timed>, kind: Kind, token: string, user: string, email: string)
    requires CanRun(w, steps) && token != "" && IsFor(w.s, kind, token, user, email)
    ensures IsFor(Run(w, steps).s, kind, token, user, email)
    decreases |steps|
  {
    if |steps| > 0 {
      StepGoesOn(w, steps[0].step, steps[0].at);
      StaysFor(Apply(w, steps[0].step, steps[0].at), steps[1..], kind, token, user, email);
    }
  }

  /**
   * A verification link confirms nothing but the address it was mailed to: over
   * every run it is found usable only while that is its user's address.
   */
  lemma LinkIsForItsAddress(w: World, user: string, email: string, token: string, at: int, after: seq<Timed>,
          later: int)
    requires Enabled(w, MintVerification(user, email, token), at)
    requires CanRun(Apply(w, MintVerification(user, email, token), at), after)
    ensures var s := Run(Apply(w, MintVerification(user, email, token), at), after).s;
            Read(s, VerifyEmail(token), later) != Idle ==> user in s.users && s.users[user].email == email
  {
    var minted := Apply(w, MintVerification(user, email, token), at);
    assert TokenOf(minted.s.log[|w.s.log|]) == token;
    StaysFor(minted, after, Verification, token, user, email);
  }

  /** So does a reset link reset nothing else, and only while the account is active. */
  lemma ResetIsForItsAddress(w: World, handler: nat, token: string, at: int, after: seq<Timed>, password: string,
          later: int)
    requires Enabled(w, Finish(handler, token), at) && w.tasks[handler].Mailing?
    requires w.tasks[handler].user in w.s.users
    requires CanRun(Apply(w, Finish(handler, token), at), after)
    ensures var s := Run(Apply(w, Finish(handler, token), at), after).s;
            var user, email := w.tasks[handler].user, w.tasks[handler].email;
            Read(s, ResetPassword(token, password), later) != Idle ==>
                user in s.users && s.users[user].email == email && s.users[user].active
  {
    var mailed := Apply(w, Finish(handler, token), at);
    assert TokenOf(mailed.s.log[|w.s.log|]) == token;
    StaysFor(mailed, after, PasswordReset, token, w.tasks[handler].user, w.tasks[handler].email);
  }

  // ------------------------------------------------------------ reset spacing

  /** No reset request of this user read its cooldown before an earlier one had mailed. */
  predicate AskedInTurn(log: seq<Entry>, user: string) {
    forall i, j ::
      0 <= i < j < |log| && IsMint(log[i], PasswordReset, user) && IsMint(log[j], PasswordReset, user) ==>
        i < log[j].asked
  }

  lemma AskedBefore(log: seq<Entry>, user: string, j: nat)
    requires AllRight(log) && j < |log| && IsMint(log[j], PasswordReset, user)
    ensures var a := log[j].asked;
      a < j && log[a] == Asked(user, log[j].at) && RightlyAsked(log[..a], log[a])
  {
    var a := log[j].asked;
    assert Right(log[..j], log[j]);
    assert log[..j][a] == log[a];
    assert Right(log[..a], log[a]);
  }

  /** The last reset event of a user is no earlier than any one of them. */
  lemma {:induction false} LastResetIsAt(log: seq<Entry>, user: string, i: nat) returns (k: nat)
    requires i < |log| && IsResetEvent(log[i], user)
    ensures i <= k < |log| && LastReset(log, user) == Some(log[k]) && IsResetEvent(log[k], user)
    decreases |log|
  {
    if IsResetEvent(log[|log| - 1], user) {
      k := |log| - 1;
    } else {
      k := LastResetIsAt(log[..|log| - 1], user, i);
    }
  }

  lemma AskedInOrder(log: seq<Entry>, a: nat, b: nat)
    requires AllRight(log) && a <= b < |log| && log[a].Asked? && log[b].Asked?
    ensures log[a].at <= log[b].at
  {
    assert Right(log[..b], log[b]);
    assert a < b ==> log[..b][a] == log[a];
  }

  /**
   * When a user's reset requests do not overlap, between two links mailed under a
   * minute apart one was used or the account was removed.
   */
  lemma ResetsAreSpaced(steps: seq<Timed>, user: string, i: nat, j: nat)
    requires CanRun(EMPTY, steps) && AskedInTurn(Run(EMPTY, steps).s.log, user)
    requires i < j < |Run(EMPTY, steps).s.log|
    requires var log := Run(EMPTY, steps).s.log;
      IsMint(log[i], PasswordReset, user) && IsMint(log[j], PasswordReset, user) &&
          log[j].at - log[i].at < RESEND_COOLDOWN
    ensures var log := Run(EMPTY, steps).s.log;
      exists k :: i < k < j && (ResetOf(log[k], user) || (log[k].Removed? && log[k].user == user))
  {
    RunKeeps(EMPTY, steps);
    var log := Run(EMPTY, steps).s.log;
    var a := log[j].asked;
    AskedBefore(log, user, j);
    AskedBefore(log, user, i);
    assert log[..a][i] == log[i];
    var k := LastResetIsAt(log[..a], user, i);
    assert log[..a][k] == log[k];
    assert log[k].Minted? || ResetOf(log[k], user) || (log[k].Removed? && log[k].user == user);
    if log[k].Minted? {
      AskedBefore(log, user, k);
      if k != i {
        AskedInOrder(log, log[i].asked, log[k].asked);
      }
    }
  }

  /** Two requests that both read the cooldown before either mails can both mail. */
  lemma TwoRequestsMailTwice(w: World, user: string)
    requires CanMintReset(w.s, Some(user), w.s.clock)
    ensures var ask := Receive(AskReset(Some(user)));
            var both := Apply(Apply(w, ask, w.s.clock), ask, w.s.clock);
      Due(both, Mails(user)) == Due(w, Mails(user)) + 2
  {
    ReceivingPromises(w, AskReset(Some(user)), w.s.clock, Mails(user));
    ReceivingPromises(Apply(w, Receive(AskReset(Some(user))), w.s.clock), AskReset(Some(user)), w.s.clock, Mails(user));
  }

  /** So two links can be mailed in one moment: from nothing, one user, two requests. */
  lemma TwoLinksAtOnce(user: string) returns (steps: seq<Timed>)
    ensures CanRun(EMPTY, steps) && CountOf(Run(EMPTY, steps).s.log, Mails(user)) == 2
    ensures Run(EMPTY, steps).s.clock == 0
  {
    var put := PutUser(user, User("u@x.io", true, false, ""));
    var ask := Receive(AskReset(Some(user)));
    OneStep(EMPTY, put, 0);
    TwoRequestsMailTwice(Run(EMPTY, [Timed(put, 0)]), user);
    Follows(EMPTY, [Timed(put, 0)], ask, 0);
    Follows(EMPTY, [Timed(put, 0)] + [Timed(ask, 0)], ask, 0);
    var both := [Timed(put, 0)] + [Timed(ask, 0)] + [Timed(ask, 0)];
    var rest := AllDueCanHappen(Run(EMPTY, both), Mails(user));
    Joined(EMPTY, both, rest);
    steps := both + rest;
  }

  // ---------------------------------------------------------------- sessions

  /** A session issued before its user's password was reset stands for nobody ever after. */
  lemma NoSessionOutlivesAReset(steps: seq<Timed>, i: nat, k: nat, at: int, member: bool)
    requires CanRun(EMPTY, steps)
    requires var log := Run(EMPTY, steps).s.log;
      i < k < |log| && log[i].Issued? && ResetOf(log[k], log[i].user)
    ensures Resolved(Run(EMPTY, steps).s, Run(EMPTY, steps).s.log[i].token, at, member) == None
  {
    RunKeeps(EMPTY, steps);
    var s := Run(EMPTY, steps).s;
    var token := s.log[i].token;
    if token in s.sessions {
      var n := IssuedAt(s.log, s.sessions[token].user, token, s.sessions[token].createdAt);
      IssuedOnlyOnce(s.log, i, n);
    }
  }

  /** Where a session was issued, with no reset of its user since. */
  lemma {:induction false} IssuedAt(log: seq<Entry>, user: string, token: string, at: int) returns (n: nat)
    requires IssuedSinceReset(log, user, token, at)
    ensures n < |log| && log[n] == Issued(user, token, at)
    ensures forall m :: n < m < |log| ==> !ResetOf(log[m], user)
    decreases |log|
  {
    if log[|log| - 1] == Issued(user, token, at) {
      n := |log| - 1;
    } else {
      n := IssuedAt(log[..|log| - 1], user, token, at);
    }
  }

  lemma FreshWhenIssued(log: seq<Entry>, n: nat)
    requires AllRight(log) && n < |log| && log[n].Issued?
    ensures forall i :: 0 <= i < n ==> TokenOf(log[i]) != log[n].token
  {
    assert Right(log[..n], log[n]);
    assert forall i :: 0 <= i < n ==> log[..n][i] == log[i];
  }

  lemma IssuedOnlyOnce(log: seq<Entry>, i: nat, n: nat)
    requires AllRight(log) && i < |log| && n < |log| && log[i].Issued? && log[n].Issued? && log[i].token == log[n].token
    ensures i == n
  {
    FreshWhenIssued(log, i);
    FreshWhenIssued(log, n);
  }

  /** A cookie stands only for the user it was issued to, for thirty days at most, and with no reset of theirs since. */
  lemma ResolvesOnlyWhatWasIssued(steps: seq<Timed>, token: string, at: int, member: bool) returns (n: nat)
    requires CanRun(EMPTY, steps) && Resolved(Run(EMPTY, steps).s, token, at, member).Some?
    ensures var log := Run(EMPTY, steps).s.log;
            var user := Resolved(Run(EMPTY, steps).s, token, at, member).value;
      && n < |log| && log[n].Issued? && log[n].user == user && log[n].token == token && at < log[n].at + 2_592_000_000
      && forall m :: n < m < |log| ==> !ResetOf(log[m], user)
  {
    RunKeeps(EMPTY, steps);
    var s := Run(EMPTY, steps).s;
    n := IssuedAt(s.log, s.sessions[token].user, token, s.sessions[token].createdAt);
  }

  // ------------------------------------------------------------- the handlers

  /** What the statements with no handler of their own leave of each table. */
  lemma StatementsSay(s: State, user: string, token: string, at: int)
    ensures var started := Moved(s, StartSession(user, token), at);
            started == s.(sessions := s.sessions[token := Session(user, at, at + 30 * 24 * 3600 * 1000)],
                          log := s.log + [Issued(user, token, at)], clock := at)
    ensures Moved(s, Logout(token), at) == s.(sessions := s.sessions - {token}, clock := at)
    ensures var left := Moved(s, PruneSessions, at);
      && left == s.(sessions := left.sessions, clock := at)
      && (forall t :: t in left.sessions <==> t in s.sessions && at < s.sessions[t].expiresAt)
      && (forall t :: t in left.sessions ==> left.sessions[t] == s.sessions[t])
    ensures var left := Moved(s, PruneResets, at);
      && left == s.(resets := left.resets, clock := at)
      && (forall t :: t in left.resets <==> t in s.resets && at < s.resets[t].expiresAt && !s.resets[t].consumed)
      && (forall t :: t in left.resets ==> left.resets[t] == s.resets[t])
  {
  }

  /** A removed account takes its links and sessions with it, and nobody else's. */
  lemma RemovingSays(s: State, user: string, at: int)
    ensures var left := Moved(s, RemoveUser(user), at);
      && left.users == s.users - {user} && left.log == s.log + [Removed(user, at)]
      && (forall t :: t in left.verifications <==> t in s.verifications && s.verifications[t].user != user)
      && (forall t :: t in left.resets <==> t in s.resets && s.resets[t].user != user)
      && (forall t :: t in left.sessions <==> t in s.sessions && s.sessions[t].user != user)
      && (forall t :: t in left.verifications ==> left.verifications[t] == s.verifications[t])
      && (forall t :: t in left.resets ==> left.resets[t] == s.resets[t])
      && (forall t :: t in left.sessions ==> left.sessions[t] == s.sessions[t])
  {
  }

  class AccountDesk {
    var users: map<string, User>
    var verifications: Table
    var resets: Table
    var sessions: map<string, Session>
    ghost var log: seq<Entry>
    ghost var clock: int

    ghost function Now(): State
      reads this
    {
      State(users, verifications, resets, sessions, log, clock)
    }

    method MintVerificationToken(user: string, email: string, token: string, at: int)
      modifies this
      ensures Now() == Moved(old(Now()), MintVerification(user, email, token), at)
      ensures token in verifications && verifications[token] == TokenRow(user, email, at, at + 86_400_000, false)
      ensures forall t :: t != token ==>
                (t in verifications <==> t in old(verifications) && old(verifications)[t].user != user)
      ensures forall t :: t != token && t in verifications ==> verifications[t] == old(verifications)[t]
      ensures users == old(users) && resets == old(resets) && sessions == old(sessions)
    {
      verifications := map t | t in verifications && verifications[t].user != user :: verifications[t];
      verifications := verifications[token := TokenRow(user, email, at, at + Ttl(Verification), false)];
      log, clock := log + [Minted(Verification, user, token, at, 0)], at;
    }

    /** The user whose address is now confirmed; None is the one answer to every bad link. */
    method VerifyEmailToken(token: string, at: int) returns (confirmed: Option<string>)
      modifies this
      ensures Now() == Alone(old(Now()), VerifyEmail(token), "", at)
      ensures confirmed.Some? <==>
              && token != "" && token in old(verifications) && !old(verifications)[token].consumed
              && at < old(verifications)[token].expiresAt && old(verifications)[token].user in old(users)
              && old(users)[old(verifications)[token].user].email == old(verifications)[token].email
      ensures confirmed.Some? ==>
              && confirmed.value == old(verifications)[token].user
              && users == old(users)[confirmed.value := old(users)[confirmed.value].(verified := true)]
              && verifications == old(verifications)[token := old(verifications)[token].(consumed := true)]
      ensures confirmed.None? ==> users == old(users) && verifications == old(verifications)
      ensures resets == old(resets) && sessions == old(sessions)
    {
      clock := at;
      if token == "" || token !in verifications {
        return None;
      }
      var row := verifications[token];
      if row.consumed || row.expiresAt <= at || row.user !in users || users[row.user].email != row.email {
        return None;
      }
      verifications := verifications[token := row.(consumed := true)];
      users := users[row.user := users[row.user].(verified := true)];
      log := log + [Checked(Verification, row.user, token, at)] + [Accepted(Verification, row.user, token, at, |log|)];
      return Some(row.user);
    }

    method HasRecentReset(user: string, at: int) returns (recent: bool)
      ensures recent <==> exists t ::
              t in resets && resets[t].user == user && !resets[t].consumed && at - resets[t].createdAt < 60_000
    {
      var left := resets.Keys;
      while left != {}
        invariant left <= resets.Keys
        invariant forall t :: t in resets && t !in left && resets[t].user == user && !resets[t].consumed ==>
                    at - resets[t].createdAt >= RESEND_COOLDOWN
        decreases |left|
      {
        var t :| t in left;
        left := left - {t};
        if resets[t].user == user && !resets[t].consumed && at - resets[t].createdAt < RESEND_COOLDOWN {
          return true;
        }
      }
      return false;
    }

    /** True when there is a link to mail; unknown, suspended and too soon are alike. */
    method MintPasswordResetToken(found: Option<string>, token: string, at: int) returns (mailed: bool)
      requires found.Some? ==> found.value in users
      modifies this
      ensures Now() == Alone(old(Now()), AskReset(found), token, at)
      ensures mailed <==>
              && found.Some? && old(users)[found.value].active
              && forall t :: t in old(resets) && old(resets)[t].user == found.value && !old(resets)[t].consumed ==>
                   at - old(resets)[t].createdAt >= 60_000
      ensures mailed ==>
              && token in resets
              && resets[token] == TokenRow(found.value, users[found.value].email, at, at + 3_600_000, false)
              && forall t :: t != token ==>
                   && (t in resets <==> t in old(resets) && old(resets)[t].user != found.value)
                   && (t in resets ==> resets[t] == old(resets)[t])
      ensures !mailed ==> resets == old(resets)
      ensures users == old(users) && verifications == old(verifications) && sessions == old(sessions)
    {
      if found.None? || !users[found.value].active {
        clock := at;
        return false;
      }
      var user := found.value;
      var recent := HasRecentReset(user, at);
      clock := at;
      if recent {
        return false;
      }
      resets := map t | t in resets && resets[t].user != user :: resets[t];
      resets := resets[token := TokenRow(user, users[user].email, at, at + Ttl(PasswordReset), false)];
      log := log + [Asked(user, at)] + [Minted(PasswordReset, user, token, at, |log|)];
      return true;
    }

    method ResetPasswordWith(token: string, password: string, at: int) returns (done: bool)
      modifies this
      ensures Now() == Alone(old(Now()), ResetPassword(token, password), "", at)
      ensures done <==>
              && 12 <= |password| <= 512 && token != "" && token in old(resets) && !old(resets)[token].consumed
              && at < old(resets)[token].expiresAt && old(resets)[token].user in old(users)
              && old(users)[old(resets)[token].user].email == old(resets)[token].email
              && old(users)[old(resets)[token].user].active
      ensures done ==>
              var user := old(resets)[token].user;
              && users == old(users)[user := old(users)[user].(password := password, verified := true)]
              && resets == old(resets)[token := old(resets)[token].(consumed := true)]
              && (forall t :: t in sessions <==> t in old(sessions) && old(sessions)[t].user != user)
              && (forall t :: t in sessions ==> sessions[t] == old(sessions)[t])
      ensures !done ==> users == old(users) && resets == old(resets) && sessions == old(sessions)
      ensures verifications == old(verifications)
    {
      clock := at;
      if PasswordProblem(password) || token == "" || token !in resets {
        return false;
      }
      var row := resets[token];
      if row.consumed || row.expiresAt <= at {
        return false;
      }
      if row.user !in users || users[row.user].email != row.email || !users[row.user].active {
        return false;
      }
      resets := resets[token := row.(consumed := true)];
      users := users[row.user := users[row.user].(password := password, verified := true)];
      sessions := map t | t in sessions && sessions[t].user != row.user :: sessions[t];
      log := log + [Checked(PasswordReset, row.user, token, at)] +
          [Accepted(PasswordReset, row.user, token, at, |log|)];
      return true;
    }

    /** An expired session is deleted on sight. */
    method ActorFromSession(token: string, at: int, member: bool) returns (actor: Option<string>)
      modifies this
      ensures Now() == Moved(old(Now()), ResolveSession(token), at)
      ensures actor == Resolved(old(Now()), token, at, member)
      ensures actor.Some? <==> token in old(sessions) && at < old(sessions)[token].expiresAt && member
      ensures actor.Some? ==> actor.value == old(sessions)[token].user
      ensures sessions == if token in old(sessions) && at >= old(sessions)[token].expiresAt then old(sessions) - {token}
                          else old(sessions)
    {
      clock := at;
      if token !in sessions {
        return None;
      }
      var session := sessions[token];
      if session.expiresAt <= at {
        sessions := sessions - {token};
        return None;
      }
      return if member then Some(session.user) else None;
    }
  }
}
