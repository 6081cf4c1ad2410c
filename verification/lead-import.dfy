/**
 * Importing leads into a campaign: every row the importer stored ends as one
 * new member or as one line of the report saying why not.
 */
module LeadImport {

  // -------------------------------------------------------------------- tables

  /** A row the importer kept, its address normalised, with the person it made or found. */
  datatype StoredRow = StoredRow(row: nat, email: string, person: string)

  datatype MatchKey = PersonKey(person: string) | EmailKey(email: string) | DomainKey(domain: string)

  /** One membership of a campaign, with the project the campaign belongs to. */
  datatype Member = Member(person: string, campaign: string, project: string)

  datatype Reason = Suppressed | AlreadyInCampaign | AlreadyInProject | Duplicate

  datatype Report = Report(row: nat, email: string, reason: Reason)

  /**
   * What the import reads: suppression keys that apply to the workspace,
   * people suppressed or deleted, memberships in table order, and how an
   * address's domain is read and which domains are mailbox providers.
   */
  datatype Tables = Tables(
    suppressionKeys: set<MatchKey>,
    gone: set<string>,
    members: seq<Member>,
    domainOf: string -> string,
    consumerDomains: set<string>)

  datatype Input = Input(campaign: string, project: string, skipProjectDuplicates: bool)

  // --------------------------------------------------------------- suppression

  function KeysOf(t: Tables, entry: StoredRow): set<MatchKey> {
    var domain := t.domainOf(entry.email);
    {PersonKey(entry.person), EmailKey(entry.email)}
    + (if domain != "" && domain !in t.consumerDomains then {DomainKey(domain)} else {})
  }

  /** Every key any row of the file gives a person. */
  function KeysFor(t: Tables, stored: seq<StoredRow>, person: string): set<MatchKey> {
    if stored == [] then {}
    else
      var last := stored[|stored| - 1];
      KeysFor(t, stored[..|stored| - 1], person) + (if last.person == person then KeysOf(t, last) else {})
  }

  predicate InFile(stored: seq<StoredRow>, person: string) {
    exists i :: 0 <= i < |stored| && stored[i].person == person
  }

  /** One of the person's keys is on a list, or the person is gone. */
  predicate IsSuppressed(t: Tables, stored: seq<StoredRow>, person: string) {
    InFile(stored, person) &&
    (person in t.gone || exists key :: key in KeysFor(t, stored, person) && key in t.suppressionKeys)
  }

  // ------------------------------------------------------------------- reasons

  ghost predicate KeysCollected(keysFor: map<string, set<MatchKey>>, t: Tables, stored: seq<StoredRow>) {
    forall p :: if p in keysFor then keysFor[p] == KeysFor(t, stored, p) && InFile(stored, p) else !InFile(stored, p)
  }

  lemma InFileSnoc(stored: seq<StoredRow>, entry: StoredRow, person: string)
    ensures InFile(stored + [entry], person) <==> InFile(stored, person) || entry.person == person
  {
    var all := stored + [entry];
    assert all[|stored|] == entry;
    if InFile(stored, person) {
      var i :| 0 <= i < |stored| && stored[i].person == person;
      assert all[i] == stored[i];
    }
  }

  lemma {:induction false} NoKeysUnlessInFile(t: Tables, stored: seq<StoredRow>, person: string)
    ensures !InFile(stored, person) ==> KeysFor(t, stored, person) == {}
  {
    if stored != [] {
      assert stored == stored[..|stored| - 1] + [stored[|stored| - 1]];
      InFileSnoc(stored[..|stored| - 1], stored[|stored| - 1], person);
      NoKeysUnlessInFile(t, stored[..|stored| - 1], person);
    }
  }

  function Known(keysFor: map<string, set<MatchKey>>, person: string): set<MatchKey> {
    if person in keysFor then keysFor[person] else {}
  }

  lemma KeysCollectedSnoc(keysFor: map<string, set<MatchKey>>, t: Tables, stored: seq<StoredRow>, entry: StoredRow)
    requires KeysCollected(keysFor, t, stored)
    ensures KeysCollected(
              keysFor[entry.person := Known(keysFor, entry.person) + KeysOf(t, entry)],
              t, stored + [entry])
  {
    var after := keysFor[entry.person := Known(keysFor, entry.person) + KeysOf(t, entry)];
    var all := stored + [entry];
    assert all[..|all| - 1] == stored;
    NoKeysUnlessInFile(t, stored, entry.person);
    forall p ensures if p in after then after[p] == KeysFor(t, all, p) && InFile(all, p) else !InFile(all, p) {
      InFileSnoc(stored, entry, p);
    }
  }

  method CollectKeys(t: Tables, stored: seq<StoredRow>) returns (keysFor: map<string, set<MatchKey>>)
    ensures KeysCollected(keysFor, t, stored)
  {
    keysFor := map[];
    var i := 0;
    while i < |stored|
      invariant 0 <= i <= |stored|
      invariant KeysCollected(keysFor, t, stored[..i])
    {
      var entry := stored[i];
      KeysCollectedSnoc(keysFor, t, stored[..i], entry);
      assert stored[..i + 1] == stored[..i] + [entry];
      var keys := if entry.person in keysFor then keysFor[entry.person] else {};
      keysFor := keysFor[entry.person := keys + KeysOf(t, entry)];
      i := i + 1;
    }
    assert stored[..i] == stored;
  }

  /** A membership of the project that keeps a person of the file out. */
  predicate Bars(member: Member, stored: seq<StoredRow>, input: Input) {
    && InFile(stored, member.person) && member.project == input.project
    && (member.campaign == input.campaign || input.skipProjectDuplicates)
  }

  predicate ElsewhereInProject(members: seq<Member>, person: string, input: Input) {
    exists i :: 0 <= i < |members| &&
      members[i].person == person && members[i].project == input.project && members[i].campaign != input.campaign
  }

  /** Suppression has the last word; otherwise a barring membership among these gives the reason. */
  ghost predicate ReasonsRight(reasons: map<string, Reason>, t: Tables, stored: seq<StoredRow>, input: Input,
          members: seq<Member>) {
    forall p ::
      && (p in reasons <==>
          || IsSuppressed(t, stored, p)
          || exists i :: 0 <= i < |members| && members[i].person == p && Bars(members[i], stored, input))
      && (p in reasons ==>
            && (reasons[p] == Suppressed <==> IsSuppressed(t, stored, p))
            && reasons[p] != Duplicate
            && (reasons[p] == AlreadyInCampaign ==> Member(p, input.campaign, input.project) in members)
            && (reasons[p] == AlreadyInProject ==>
                  input.skipProjectDuplicates && ElsewhereInProject(members, p, input)))
  }

  predicate GivesKey(t: Tables, row: StoredRow, person: string, key: MatchKey) {
    row.person == person && key in KeysOf(t, row)
  }

  lemma {:induction false} KeysForAre(t: Tables, stored: seq<StoredRow>, person: string, key: MatchKey)
    ensures key in KeysFor(t, stored, person) <==> exists i :: 0 <= i < |stored| && GivesKey(t, stored[i], person, key)
  {
    if stored != [] {
      var n := |stored| - 1;
      KeysForAre(t, stored[..n], person, key);
      assert forall i :: 0 <= i < n ==> stored[..n][i] == stored[i];
    }
  }

  /** A suppress list names the row's person, address, or domain unless a mailbox provider's. */
  predicate OnAList(t: Tables, row: StoredRow) {
    || PersonKey(row.person) in t.suppressionKeys
    || EmailKey(row.email) in t.suppressionKeys
    || (DomainKey(t.domainOf(row.email)) in t.suppressionKeys && t.domainOf(row.email) != ""
        && t.domainOf(row.email) !in t.consumerDomains)
  }

  lemma OnAListMeans(t: Tables, row: StoredRow)
    ensures OnAList(t, row) <==> exists key :: GivesKey(t, row, row.person, key) && key in t.suppressionKeys
  {
    if OnAList(t, row) {
      var key := if PersonKey(row.person) in t.suppressionKeys then PersonKey(row.person)
                 else if EmailKey(row.email) in t.suppressionKeys then EmailKey(row.email)
                 else DomainKey(t.domainOf(row.email));
      assert GivesKey(t, row, row.person, key) && key in t.suppressionKeys;
    }
  }

  predicate Listed(t: Tables, stored: seq<StoredRow>, person: string) {
    exists j :: 0 <= j < |stored| && stored[j].person == person && OnAList(t, stored[j])
  }

  lemma SuppressedTells(t: Tables, stored: seq<StoredRow>, person: string)
    requires InFile(stored, person)
    ensures IsSuppressed(t, stored, person) <==> person in t.gone || Listed(t, stored, person)
  {
    if Listed(t, stored, person) {
      var j :| 0 <= j < |stored| && stored[j].person == person && OnAList(t, stored[j]);
      OnAListMeans(t, stored[j]);
      var key :| GivesKey(t, stored[j], person, key) && key in t.suppressionKeys;
      KeysForAre(t, stored, person, key);
    }
    if exists key :: key in KeysFor(t, stored, person) && key in t.suppressionKeys {
      var key :| key in KeysFor(t, stored, person) && key in t.suppressionKeys;
      KeysForAre(t, stored, person, key);
      var j :| 0 <= j < |stored| && GivesKey(t, stored[j], person, key);
      OnAListMeans(t, stored[j]);
    }
  }

  /** A member of the campaign, or of its project when those are skipped too. */
  predicate MemberAlready(t: Tables, input: Input, person: string) {
    exists i :: 0 <= i < |t.members| && t.members[i].person == person && t.members[i].project == input.project
                && (input.skipProjectDuplicates || t.members[i].campaign == input.campaign)
  }

  /**
   * Who of the file is kept out, in the tables' own words: whoever is suppressed
   * or deleted, is named by a suppress list through any of their rows, or is a
   * member already.
   */
  lemma KeptOutTells(t: Tables, stored: seq<StoredRow>, input: Input, reasons: map<string, Reason>, person: string)
    requires ReasonsRight(reasons, t, stored, input, t.members) && InFile(stored, person)
    ensures person in reasons <==>
            person in t.gone || Listed(t, stored, person) || MemberAlready(t, input, person)
    ensures person in reasons && reasons[person] == Suppressed <==> person in t.gone || Listed(t, stored, person)
  {
    SuppressedTells(t, stored, person);
    if MemberAlready(t, input, person) {
      var i :| 0 <= i < |t.members| && t.members[i].person == person && t.members[i].project == input.project
               && (input.skipProjectDuplicates || t.members[i].campaign == input.campaign);
      assert Bars(t.members[i], stored, input);
    }
  }

  function WithMember(reasons: map<string, Reason>, stored: seq<StoredRow>, input: Input,
          member: Member): map<string, Reason> {
    if member.person in reasons || !Bars(member, stored, input) then reasons
    else reasons[member.person := if member.campaign == input.campaign then AlreadyInCampaign else AlreadyInProject]
  }

  lemma ReasonsRightSnoc(reasons: map<string, Reason>, t: Tables, stored: seq<StoredRow>, input: Input,
          members: seq<Member>, member: Member)
    requires ReasonsRight(reasons, t, stored, input, members)
    ensures ReasonsRight(WithMember(reasons, stored, input, member), t, stored, input, members + [member])
  {
    var all := members + [member];
    assert all[|members|] == member;
    assert forall i :: 0 <= i < |members| ==> all[i] == members[i];
  }

  lemma SuppressedReasons(reasons: map<string, Reason>, keysFor: map<string, set<MatchKey>>, t: Tables,
          stored: seq<StoredRow>, input: Input)
    requires KeysCollected(keysFor, t, stored)
    requires reasons == map p | p in keysFor && (p in t.gone || keysFor[p] * t.suppressionKeys != {}) :: Suppressed
    ensures ReasonsRight(reasons, t, stored, input, [])
  {
    forall p ensures p in reasons <==> IsSuppressed(t, stored, p) {
      if p in keysFor && keysFor[p] * t.suppressionKeys != {} {
        var key :| key in keysFor[p] * t.suppressionKeys;
        assert key in KeysFor(t, stored, p);
      }
      if IsSuppressed(t, stored, p) && p !in t.gone {
        var key :| key in KeysFor(t, stored, p) && key in t.suppressionKeys;
        assert key in keysFor[p] * t.suppressionKeys;
      }
    }
  }

  /** Why each person of the file is not added; those with no entry are. */
  method SkipReasons(t: Tables, stored: seq<StoredRow>, input: Input) returns (reasons: map<string, Reason>)
    ensures ReasonsRight(reasons, t, stored, input, t.members)
  {
    var keysFor := CollectKeys(t, stored);
    reasons := map p | p in keysFor && (p in t.gone || keysFor[p] * t.suppressionKeys != {}) :: Suppressed;
    SuppressedReasons(reasons, keysFor, t, stored, input);
    var i := 0;
    while i < |t.members|
      invariant 0 <= i <= |t.members|
      invariant ReasonsRight(reasons, t, stored, input, t.members[..i])
    {
      ReasonsRightSnoc(reasons, t, stored, input, t.members[..i], t.members[i]);
      assert t.members[..i + 1] == t.members[..i] + [t.members[i]];
      reasons := WithMember(reasons, stored, input, t.members[i]);
      i := i + 1;
    }
    assert t.members[..i] == t.members;
  }

  // -------------------------------------------------------------------- import

  /** How the rows divide: members to add, and report lines, each in file order. */
  datatype Split = Split(added: seq<StoredRow>, reports: seq<Report>)

  predicate Adds(reasons: map<string, Reason>, before: seq<StoredRow>, entry: StoredRow) {
    entry.person !in reasons && !InFile(before, entry.person)
  }

  function Divided(reasons: map<string, Reason>, stored: seq<StoredRow>): Split {
    if stored == [] then Split([], [])
    else
      var before := stored[..|stored| - 1];
      var last := stored[|stored| - 1];
      var s := Divided(reasons, before);
      if Adds(reasons, before, last) then Split(s.added + [last], s.reports)
      else
        var reason := if last.person in reasons then reasons[last.person] else Duplicate;
        Split(s.added, s.reports + [Report(last.row, last.email, reason)])
  }

  function AddedRows(added: seq<StoredRow>): seq<nat> {
    seq(|added|, i requires 0 <= i < |added| => added[i].row)
  }

  function ReportedRows(reports: seq<Report>): seq<nat> {
    seq(|reports|, i requires 0 <= i < |reports| => reports[i].row)
  }

  /** Every stored row is accounted for exactly once: as a row added or as a row reported. */
  lemma {:induction false} EveryRowOnce(reasons: map<string, Reason>, stored: seq<StoredRow>)
    ensures var s := Divided(reasons, stored);
      && |s.added| + |s.reports| == |stored|
      && multiset(AddedRows(s.added)) + multiset(ReportedRows(s.reports)) == multiset(AddedRows(stored))
    decreases |stored|
  {
    if stored != [] {
      var before := stored[..|stored| - 1];
      var last := stored[|stored| - 1];
      var s, end := Divided(reasons, before), Divided(reasons, stored);
      EveryRowOnce(reasons, before);
      assert AddedRows(stored) == AddedRows(before) + [last.row];
      if Adds(reasons, before, last) {
        assert AddedRows(end.added) == AddedRows(s.added) + [last.row];
      } else {
        assert ReportedRows(end.reports) == ReportedRows(s.reports) + [last.row];
      }
    }
  }

  predicate AddedOnce(added: seq<StoredRow>) {
    forall i, j :: 0 <= i < j < |added| ==> added[i].person != added[j].person
  }

  /** Exactly the people with no reason against them are added, each once, by the first of their rows. */
  lemma {:induction false} AddedExactly(reasons: map<string, Reason>, stored: seq<StoredRow>)
    ensures var added := Divided(reasons, stored).added;
      && AddedOnce(added)
      && (forall p :: InFile(added, p) <==> InFile(stored, p) && p !in reasons)
    decreases |stored|
  {
    if stored != [] {
      var before := stored[..|stored| - 1];
      var last := stored[|stored| - 1];
      AddedExactly(reasons, before);
      assert stored == before + [last];
      var added := Divided(reasons, before).added;
      forall p ensures InFile(Divided(reasons, stored).added, p) <==> InFile(stored, p) && p !in reasons {
        InFileSnoc(before, last, p);
        InFileSnoc(added, last, p);
      }
      if Adds(reasons, before, last) {
        assert !InFile(added, last.person);
      }
    }
  }

  /** Who was in the campaign, by its memberships in its own project. */
  function MembersOf(members: seq<Member>, campaign: string): set<string> {
    set i | 0 <= i < |members| && members[i].campaign == campaign :: members[i].person
  }

  function PeopleOf(added: seq<StoredRow>): set<string> {
    set i | 0 <= i < |added| :: added[i].person
  }

  function NewMembers(added: seq<StoredRow>, input: Input): seq<Member> {
    seq(|added|, i requires 0 <= i < |added| => Member(added[i].person, input.campaign, input.project))
  }

  lemma MembersOfGrows(members: seq<Member>, added: seq<StoredRow>, input: Input)
    ensures MembersOf(members + NewMembers(added, input), input.campaign) ==
        MembersOf(members, input.campaign) + PeopleOf(added)
  {
    var all := members + NewMembers(added, input);
    forall p ensures p in MembersOf(all, input.campaign) <==>
        p in MembersOf(members, input.campaign) + PeopleOf(added) {
      if p in MembersOf(members, input.campaign) {
        var i :| 0 <= i < |members| && members[i].campaign == input.campaign && members[i].person == p;
        assert all[i] == members[i];
      }
      if p in PeopleOf(added) {
        var i :| 0 <= i < |added| && added[i].person == p;
        assert all[|members| + i] == Member(p, input.campaign, input.project);
      }
    }
  }

  /** Each campaign belongs to one project. */
  predicate OneProject(members: seq<Member>, campaign: string, project: string) {
    forall i :: 0 <= i < |members| && members[i].campaign == campaign ==> members[i].project == project
  }

  /**
   * Nobody suppressed, gone or already a member is added; the new membership is
   * the old one and those added, with nobody in both.
   */
  lemma MembershipIsExact(t: Tables, stored: seq<StoredRow>, input: Input, reasons: map<string, Reason>)
    requires ReasonsRight(reasons, t, stored, input, t.members) && OneProject(t.members, input.campaign, input.project)
    ensures var added := Divided(reasons, stored).added;
      && (forall p :: p in PeopleOf(added) ==> !IsSuppressed(t, stored, p) && p !in t.gone)
      && PeopleOf(added) !! MembersOf(t.members, input.campaign)
      && (input.skipProjectDuplicates ==>
            forall m :: m in t.members && m.project == input.project ==> m.person !in PeopleOf(added))
      && MembersOf(t.members + NewMembers(added, input), input.campaign) ==
            MembersOf(t.members, input.campaign) + PeopleOf(added)
  {
    var added := Divided(reasons, stored).added;
    AddedExactly(reasons, stored);
    MembersOfGrows(t.members, added, input);
    forall p | p in PeopleOf(added)
      ensures p !in reasons && InFile(stored, p)
      ensures p !in MembersOf(t.members, input.campaign)
      ensures input.skipProjectDuplicates ==> forall m :: m in t.members && m.project == input.project ==> m.person != p
    {
      var i :| 0 <= i < |added| && added[i].person == p;
      assert InFile(added, p);
      assert forall m :: 0 <= m < |t.members| && t.members[m].person == p ==> !Bars(t.members[m], stored, input);
    }
  }

  // ------------------------------------------------------ imports that overlap

  /** Memberships as they are written, some time after they were read: whoever is one by then is passed over. */
  function Inserted(members: seq<Member>, added: seq<StoredRow>, input: Input): seq<Member> {
    if added == [] then members
    else
      var before := Inserted(members, added[..|added| - 1], input);
      var person := added[|added| - 1].person;
      if person in MembersOf(before, input.campaign) then before
      else before + [Member(person, input.campaign, input.project)]
  }

  lemma MembersOfSnoc(members: seq<Member>, m: Member, campaign: string)
    ensures MembersOf(members + [m], campaign) ==
            MembersOf(members, campaign) + (if m.campaign == campaign then {m.person} else {})
  {
    var all := members + [m];
    assert all[|members|] == m;
    forall p ensures p in MembersOf(all, campaign) <==>
        p in MembersOf(members, campaign) || (m.campaign == campaign && p == m.person) {
      if p in MembersOf(members, campaign) {
        var i :| 0 <= i < |members| && members[i].campaign == campaign && members[i].person == p;
        assert all[i] == members[i];
      }
    }
  }

  /** Whenever they are written, everybody added is a member afterwards and nobody else has become one. */
  lemma {:induction false} InsertedMembers(members: seq<Member>, added: seq<StoredRow>, input: Input)
    ensures MembersOf(Inserted(members, added, input), input.campaign)
         == MembersOf(members, input.campaign) + PeopleOf(added)
    decreases |added|
  {
    if added == [] {
      assert PeopleOf(added) == {};
    } else {
      var n := |added| - 1;
      var before := Inserted(members, added[..n], input);
      InsertedMembers(members, added[..n], input);
      MembersOfSnoc(before, Member(added[n].person, input.campaign, input.project), input.campaign);
      PeopleOfSnoc(added);
    }
  }

  lemma PeopleOfSnoc(added: seq<StoredRow>)
    requires added != []
    ensures PeopleOf(added) == PeopleOf(added[..|added| - 1]) + {added[|added| - 1].person}
  {
    var n := |added| - 1;
    forall p ensures p in PeopleOf(added) <==> p in PeopleOf(added[..n]) || p == added[n].person {
      if p in PeopleOf(added[..n]) {
        var i :| 0 <= i < n && added[..n][i].person == p;
        assert added[i].person == p;
      }
      if p in PeopleOf(added) {
        var i :| 0 <= i < |added| && added[i].person == p;
        assert i < n ==> added[..n][i].person == p;
      }
    }
  }

  /**
   * Imports overlap when one reads the memberships and another writes before it
   * does. The rows reported as added are then exactly those that became members
   * as long as none of them was made one in between; each that was is reported
   * as added by both, and one row fewer is written.
   */
  lemma {:induction false} ReportIsTrueIff(members: seq<Member>, added: seq<StoredRow>, input: Input)
    requires AddedOnce(added)
    ensures |Inserted(members, added, input)| <= |members| + |added|
    ensures |Inserted(members, added, input)| == |members| + |added|
       <==> PeopleOf(added) !! MembersOf(members, input.campaign)
    ensures PeopleOf(added) !! MembersOf(members, input.campaign) ==>
              Inserted(members, added, input) == members + NewMembers(added, input)
    decreases |added|
  {
    if added == [] {
      assert PeopleOf(added) == {} && NewMembers(added, input) == [];
    } else {
      var n := |added| - 1;
      ReportIsTrueIff(members, added[..n], input);
      InsertedMembers(members, added[..n], input);
      PeopleOfSnoc(added);
      LastIsNew(added);
      assert NewMembers(added, input)
          == NewMembers(added[..n], input) + [Member(added[n].person, input.campaign, input.project)];
    }
  }

  lemma LastIsNew(added: seq<StoredRow>)
    requires AddedOnce(added) && added != []
    ensures added[|added| - 1].person !in PeopleOf(added[..|added| - 1])
  {
  }

  /**
   * Two imports of one file that both read before either writes report the same
   * rows as added; the second writes none.
   */
  lemma TwoImportsReportTwice(members: seq<Member>, added: seq<StoredRow>, input: Input)
    ensures var once := Inserted(members, added, input);
            Inserted(once, added, input) == once
  {
    InsertedMembers(members, added, input);
    NothingMissing(Inserted(members, added, input), added, input);
  }

  lemma {:induction false} NothingMissing(members: seq<Member>, added: seq<StoredRow>, input: Input)
    requires PeopleOf(added) <= MembersOf(members, input.campaign)
    ensures Inserted(members, added, input) == members
    decreases |added|
  {
    if added != [] {
      PeopleOfSnoc(added);
      NothingMissing(members, added[..|added| - 1], input);
    }
  }

  /** What one more row does to the division, and who is then in the file. */
  lemma OneRowMore(reasons: map<string, Reason>, stored: seq<StoredRow>, i: nat)
    requires i < |stored|
    ensures forall p :: InFile(stored[..i + 1], p) <==> InFile(stored[..i], p) || stored[i].person == p
    ensures var entry, s := stored[i], Divided(reasons, stored[..i]);
            var reason := if entry.person in reasons then reasons[entry.person] else Duplicate;
            Divided(reasons, stored[..i + 1])
            == if Adds(reasons, stored[..i], entry) then Split(s.added + [entry], s.reports)
               else Split(s.added, s.reports + [Report(entry.row, entry.email, reason)])
  {
    assert stored[..i + 1][..i] == stored[..i] && stored[..i + 1] == stored[..i] + [stored[i]];
    forall p ensures InFile(stored[..i + 1], p) <==> InFile(stored[..i], p) || stored[i].person == p {
      InFileSnoc(stored[..i], stored[i], p);
    }
  }

  /** Goes through the rows once: the first of each person with no reason is added, the rest are reported. */
  method DivideRows(reasons: map<string, Reason>, stored: seq<StoredRow>) returns (split: Split)
    ensures split == Divided(reasons, stored)
  {
    var added: seq<StoredRow>, reports: seq<Report> := [], [];
    var seenPeople: set<string> := {};
    var i := 0;
    while i < |stored|
      invariant 0 <= i <= |stored|
      invariant Split(added, reports) == Divided(reasons, stored[..i])
      invariant forall p :: p in seenPeople <==> InFile(stored[..i], p) && p !in reasons
    {
      var entry := stored[i];
      OneRowMore(reasons, stored, i);
      if entry.person in reasons || entry.person in seenPeople {
        var reason := if entry.person in reasons then reasons[entry.person] else Duplicate;
        reports := reports + [Report(entry.row, entry.email, reason)];
      } else {
        seenPeople := seenPeople + {entry.person};
        added := added + [entry];
      }
      i := i + 1;
    }
    assert stored[..i] == stored;
    return Split(added, reports);
  }

  class LeadImporter {
    var members: seq<Member>

    /** `t.members` is what the tables held when the rows were stored; callers pass the campaign's own project. */
    method ImportIntoCampaign(t: Tables, stored: seq<StoredRow>, input: Input)
      returns (split: Split, reasons: map<string, Reason>)
      requires t.members == members && OneProject(members, input.campaign, input.project)
      modifies this
      ensures ReasonsRight(reasons, t, stored, input, old(members))
      ensures split == Divided(reasons, stored)
      ensures members == old(members) + NewMembers(split.added, input)
    {
      reasons := SkipReasons(t, stored, input);
      split := DivideRows(reasons, stored);
      members := members + NewMembers(split.added, input);
    }
  }
}
