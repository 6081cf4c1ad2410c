/**
 * Reading each campaign's own URL and drafting what is new. A read counts its
 * room first and drafts afterwards, one model call at a time, and may stop
 * anywhere in between; a scheduled read and one asked for by hand may overlap.
 */
module CampaignSource {
  import opened Options
  import opened DailyQuota
  import opened Sequences
  import opened Bounds

  const BATCHES_PER_CAMPAIGN_PER_DAY: nat := 3
  const BATCHES_PER_WORKSPACE_PER_DAY: nat := 12
  const ITEMS_READ: nat := 10

  datatype Campaign = Campaign(workspace: string, id: string)

  /** A batch of cards. `item` when it was drafted from a feed's item; `byReader` unless a person drafted it. */
  datatype Batch = Batch(campaign: Campaign, url: string, item: bool, byReader: bool, at: nat)

  datatype Item = Item(campaign: Campaign, url: string)

  /** What a source turned out to be. */
  datatype Content =
    | Feed(items: seq<string>, fingerprint: string)
    | Page(source: string, fingerprint: string)
    | Unreadable

  /**
   * A read under way: the room and the first-read answer it began with, the
   * listed items it has still to insert and those that were new, then what it
   * has still to draft, and the fingerprint it will leave.
   */
  datatype Job = Job(
    campaign: Campaign,
    at: nat,
    item: bool,
    room: nat,
    first: bool,
    toList: seq<string>,
    unseen: seq<string>,
    queue: seq<string>,
    fingerprint: Option<string>)

  datatype Desk = Desk(
    batches: seq<Batch>,
    seen: set<Item>,
    fingerprints: map<Campaign, string>,
    jobs: map<nat, Job>,
    clock: nat)

  const EMPTY: Desk := Desk([], {}, map[], map[], 0)

  // --------------------------------------------------------------------- room

  datatype Group = OfCampaign(campaign: Campaign) | OfWorkspace(workspace: string)

  predicate In(group: Group, campaign: Campaign) {
    match group
    case OfCampaign(c) => c == campaign
    case OfWorkspace(w) => w == campaign.workspace
  }

  function Cap(group: Group): nat {
    if group.OfCampaign? then BATCHES_PER_CAMPAIGN_PER_DAY else BATCHES_PER_WORKSPACE_PER_DAY
  }

  /** When a group's batches were written: all of them, or the reader's only. */
  function Times(batches: seq<Batch>, group: Group, readerOnly: bool): seq<int> {
    if batches == [] then []
    else
      var last := batches[|batches| - 1];
      var before := Times(batches[..|batches| - 1], group, readerOnly);
      if In(group, last.campaign) && (readerOnly ==> last.byReader) then before + [last.at] else before
  }

  function DraftRoom(batches: seq<Batch>, campaign: Campaign, at: nat): (room: nat)
  {
    var ofIt := Times(batches, OfCampaign(campaign), false);
    var ofAll := Times(batches, OfWorkspace(campaign.workspace), false);
    var mine := BATCHES_PER_CAMPAIGN_PER_DAY - CountSince(ofIt, DayOf(at));
    var all := BATCHES_PER_WORKSPACE_PER_DAY - CountSince(ofAll, DayOf(at));
    var least := if mine <= all then mine else all;
    if least <= 0 then 0 else least
  }

  function Take(s: seq<string>, n: nat): seq<string> {
    if |s| <= n then s else s[..n]
  }

  /** The items not seen before this read, each once. */
  function Fresh(campaign: Campaign, items: seq<string>, seen: set<Item>): seq<string> {
    if items == [] then []
    else
      var last := items[|items| - 1];
      var before := Fresh(campaign, items[..|items| - 1], seen);
      if Item(campaign, last) in seen || last in items[..|items| - 1] then before else before + [last]
  }

  function NowSeen(campaign: Campaign, items: seq<string>, seen: set<Item>): set<Item> {
    seen + set i | 0 <= i < |items| :: Item(campaign, items[i])
  }

  predicate FirstRead(campaign: Campaign, seen: set<Item>) {
    forall item :: item in seen ==> item.campaign != campaign
  }

  /** The first read drafts the newest item only, never the back catalogue. */
  function ToDraft(unseen: seq<string>, first: bool, room: nat): seq<string> {
    Take(if first then Take(unseen, 1) else unseen, room)
  }

  predicate Changed(fingerprints: map<Campaign, string>, campaign: Campaign, fingerprint: string) {
    campaign in fingerprints && fingerprints[campaign] != fingerprint
  }

  /** What a read knows before it inserts anything. */
  function Begun(desk: Desk, campaign: Campaign, at: nat, content: Content): Job {
    var room := DraftRoom(desk.batches, campaign, at);
    match content
    case Feed(items, fingerprint) =>
      Job(campaign, at, true, room, FirstRead(campaign, desk.seen), Take(items, ITEMS_READ), [], [], Some(fingerprint))
    case Page(source, fingerprint) =>
      var queue := if Changed(desk.fingerprints, campaign, fingerprint) && room > 0 then [source] else [];
      Job(campaign, at, false, room, false, [], [], queue, Some(fingerprint))
    case Unreadable => Job(campaign, at, false, room, false, [], [], [], None)
  }

  /** One insert; after the last, the queue is chosen. */
  function Inserted(desk: Desk, id: nat): Desk
    requires id in desk.jobs && desk.jobs[id].toList != []
  {
    var job := desk.jobs[id];
    var item := Item(job.campaign, job.toList[0]);
    var unseen := if item in desk.seen then job.unseen else job.unseen + [job.toList[0]];
    var rest := job.toList[1..];
    var queue := if rest == [] then ToDraft(unseen, job.first, job.room) else [];
    desk.(seen := desk.seen + {item}, jobs := desk.jobs[id := job.(toList := rest, unseen := unseen, queue := queue)])
  }

  // --------------------------------------------------------------- every run

  datatype Step =
    | Open(job: nat, campaign: Campaign, at: nat, content: Content)
    | Insert(job: nat)
    | Draft(job: nat, works: bool, now: nat)
    | Close(job: nat)
    | Stop(job: nat)
    | ByHand(campaign: Campaign, url: string, now: nat)

  /** A read's `at` may be the start of the run it belongs to, earlier than now but never later. */
  predicate Enabled(desk: Desk, step: Step) {
    match step
    case Open(job, _, at, _) => job !in desk.jobs && at <= desk.clock
    case Insert(job) => job in desk.jobs && desk.jobs[job].toList != []
    case Draft(job, _, now) =>
      job in desk.jobs && desk.jobs[job].toList == [] && desk.jobs[job].queue != [] && desk.clock <= now
    case Close(job) => job in desk.jobs && desk.jobs[job].toList == [] && desk.jobs[job].queue == []
    case Stop(job) => job in desk.jobs
    case ByHand(_, _, now) => desk.clock <= now
  }

  function Apply(desk: Desk, step: Step): Desk
    requires Enabled(desk, step)
  {
    match step
    case Open(job, campaign, at, content) => desk.(jobs := desk.jobs[job := Begun(desk, campaign, at, content)])
    case Insert(job) => Inserted(desk, job)
    case Draft(id, works, now) =>
      var job := desk.jobs[id];
      var more := desk.batches + [Batch(job.campaign, job.queue[0], job.item, true, now)];
      desk.(batches := if works then more else desk.batches,
            jobs := desk.jobs[id := job.(queue := job.queue[1..])], clock := now)
    case Close(id) =>
      var job := desk.jobs[id];
      var known := desk.fingerprints;
      desk.(fingerprints := if job.fingerprint.Some? then known[job.campaign := job.fingerprint.value] else known,
            jobs := desk.jobs - {id})
    case Stop(id) => desk.(jobs := desk.jobs - {id})
    case ByHand(campaign, url, now) =>
      desk.(batches := desk.batches + [Batch(campaign, url, false, false, now)], clock := now)
  }

  predicate CanRun(desk: Desk, steps: seq<Step>)
    decreases |steps|
  {
    steps == [] || (Enabled(desk, steps[0]) && CanRun(Apply(desk, steps[0]), steps[1..]))
  }

  function Run(desk: Desk, steps: seq<Step>): Desk
    requires CanRun(desk, steps)
    decreases |steps|
  {
    if steps == [] then desk else Run(Apply(desk, steps[0]), steps[1..])
  }

  // --------------------------------------------------------------------- caps

  lemma TimesSnoc(batches: seq<Batch>, b: Batch, group: Group, readerOnly: bool)
    ensures Times(batches + [b], group, readerOnly) ==
            if In(group, b.campaign) && (readerOnly ==> b.byReader) then Times(batches, group, readerOnly) + [b.at]
            else Times(batches, group, readerOnly)
  {
    assert (batches + [b])[..|batches|] == batches;
  }

  lemma {:induction false} ReaderIsCounted(batches: seq<Batch>, group: Group, from: int)
    ensures CountSince(Times(batches, group, true), from) <= CountSince(Times(batches, group, false), from)
    decreases |batches|
  {
    if batches != [] {
      var before := batches[..|batches| - 1];
      var last := batches[|batches| - 1];
      ReaderIsCounted(before, group, from);
      CountSnoc(Times(before, group, true), last.at, from, 0);
      CountSnoc(Times(before, group, false), last.at, from, 0);
    }
  }

  /** How many batches a read may still write. */
  function Reserve(job: Job): nat {
    if job.toList != [] then job.room else |job.queue|
  }

  /** A read drafts within the room it found, in each group it belongs to. */
  predicate WithinRoom(batches: seq<Batch>, job: Job, group: Group) {
    In(group, job.campaign) && Reserve(job) > 0 ==>
      CountSince(Times(batches, group, true), DayOf(job.at)) + Reserve(job) <= Cap(group)
  }

  /** Reads of one workspace do not overlap. */
  predicate Apart(desk: Desk) {
    forall i, j :: i in desk.jobs && j in desk.jobs && i != j ==>
        desk.jobs[i].campaign.workspace != desk.jobs[j].campaign.workspace
  }

  /** A read of a workspace that has none under way keeps them so, and so does every other step. */
  lemma StepStaysApart(desk: Desk, step: Step)
    requires Apart(desk) && Enabled(desk, step)
    requires step.Open? ==> forall i :: i in desk.jobs ==> desk.jobs[i].campaign.workspace != step.campaign.workspace
    ensures Apart(Apply(desk, step))
  {
  }

  predicate JobsFit(desk: Desk, group: Group) {
    Apart(desk) && forall i :: i in desk.jobs ==>
        desk.jobs[i].at <= desk.clock && WithinRoom(desk.batches, desk.jobs[i], group)
  }

  /** How many batches the reader wrote for a group on a day. */
  function OnDay(batches: seq<Batch>, group: Group, day: int): nat {
    CountOn(Times(batches, group, true), day)
  }

  predicate DayIsCapped(batches: seq<Batch>, group: Group, day: int) {
    OnDay(batches, group, day) <= Cap(group)
  }

  lemma RoomFits(batches: seq<Batch>, campaign: Campaign, at: nat, group: Group)
    requires In(group, campaign) && DraftRoom(batches, campaign, at) > 0
    ensures CountSince(Times(batches, group, true), DayOf(at)) + DraftRoom(batches, campaign, at) <= Cap(group)
  {
    ReaderIsCounted(batches, group, DayOf(at));
  }

  lemma OpeningFits(desk: Desk, job: nat, campaign: Campaign, at: nat, content: Content, group: Group)
    requires JobsFit(desk, group) && Enabled(desk, Open(job, campaign, at, content))
    requires Apart(Apply(desk, Open(job, campaign, at, content)))
    ensures JobsFit(Apply(desk, Open(job, campaign, at, content)), group)
  {
    if In(group, campaign) && DraftRoom(desk.batches, campaign, at) > 0 {
      RoomFits(desk.batches, campaign, at, group);
    }
  }

  lemma InsertingFits(desk: Desk, id: nat, group: Group)
    requires JobsFit(desk, group) && Enabled(desk, Insert(id))
    ensures JobsFit(Apply(desk, Insert(id)), group)
  {
    var after := Apply(desk, Insert(id));
    assert Reserve(after.jobs[id]) <= Reserve(desk.jobs[id]);
    assert WithinRoom(desk.batches, desk.jobs[id], group);
  }

  lemma OneDraftFits(batches: seq<Batch>, job: Job, now: nat, group: Group)
    requires WithinRoom(batches, job, group) && job.toList == [] && job.queue != [] && job.at <= now
    ensures var b := Batch(job.campaign, job.queue[0], job.item, true, now);
            WithinRoom(batches + [b], job.(queue := job.queue[1..]), group)
  {
    TimesSnoc(batches, Batch(job.campaign, job.queue[0], job.item, true, now), group, true);
    CountSnoc(Times(batches, group, true), now, DayOf(job.at), 0);
  }

  lemma OneDraftIsCapped(batches: seq<Batch>, job: Job, now: nat, group: Group, day: int)
    requires WithinRoom(batches, job, group) && DayIsCapped(batches, group, day)
    requires job.toList == [] && job.queue != [] && job.at <= now
    ensures DayIsCapped(batches + [Batch(job.campaign, job.queue[0], job.item, true, now)], group, day)
  {
    TimesSnoc(batches, Batch(job.campaign, job.queue[0], job.item, true, now), group, true);
    if In(group, job.campaign) {
      WritingKeepsTheCap(Times(batches, group, true), job.at, now, |job.queue|, Cap(group), day);
    }
  }

  /** A batch of one workspace takes nothing from the room another's read found. */
  lemma OtherReadStillFits(batches: seq<Batch>, b: Batch, job: Job, group: Group)
    requires WithinRoom(batches, job, group) && b.campaign.workspace != job.campaign.workspace
    ensures WithinRoom(batches + [b], job, group)
  {
    TimesSnoc(batches, b, group, true);
  }

  lemma JobsStillFit(desk: Desk, id: nat, works: bool, now: nat, group: Group, other: nat)
    requires JobsFit(desk, group) && Enabled(desk, Draft(id, works, now)) && other in desk.jobs
    ensures var after := Apply(desk, Draft(id, works, now));
            WithinRoom(after.batches, after.jobs[other], group)
  {
    var job := desk.jobs[id];
    assert WithinRoom(desk.batches, desk.jobs[other], group);
    if works {
      if other == id {
        OneDraftFits(desk.batches, job, now, group);
      } else {
        var b := Batch(job.campaign, job.queue[0], job.item, true, now);
        OtherReadStillFits(desk.batches, b, desk.jobs[other], group);
      }
    }
  }

  lemma DraftingFits(desk: Desk, id: nat, works: bool, now: nat, group: Group)
    requires JobsFit(desk, group) && Enabled(desk, Draft(id, works, now))
    ensures JobsFit(Apply(desk, Draft(id, works, now)), group)
  {
    forall i | i in desk.jobs
      ensures WithinRoom(Apply(desk, Draft(id, works, now)).batches, Apply(desk, Draft(id, works, now)).jobs[i], group)
    {
      JobsStillFit(desk, id, works, now, group, i);
    }
  }

  lemma DayStaysCapped(desk: Desk, id: nat, works: bool, now: nat, group: Group, day: int)
    requires JobsFit(desk, group) && DayIsCapped(desk.batches, group, day) && Enabled(desk, Draft(id, works, now))
    ensures DayIsCapped(Apply(desk, Draft(id, works, now)).batches, group, day)
  {
    if works {
      OneDraftIsCapped(desk.batches, desk.jobs[id], now, group, day);
    }
  }

  lemma StepFits(desk: Desk, step: Step, group: Group, day: int)
    requires JobsFit(desk, group) && DayIsCapped(desk.batches, group, day) && Enabled(desk, step)
    requires Apart(Apply(desk, step))
    ensures JobsFit(Apply(desk, step), group) && DayIsCapped(Apply(desk, step).batches, group, day)
  {
    match step
    case Open(job, campaign, at, content) => OpeningFits(desk, job, campaign, at, content, group);
    case Insert(id) => InsertingFits(desk, id, group);
    case Draft(id, works, now) =>
      DraftingFits(desk, id, works, now, group);
      DayStaysCapped(desk, id, works, now, group, day);
    case ByHand(campaign, url, now) => TimesSnoc(desk.batches, Batch(campaign, url, false, false, now), group, true);
    case _ =>
  }

  predicate NeverOverlaps(desk: Desk, steps: seq<Step>)
    requires CanRun(desk, steps)
    decreases |steps|
  {
    Apart(desk) && (steps == [] || NeverOverlaps(Apply(desk, steps[0]), steps[1..]))
  }

  lemma {:induction false} RunFits(desk: Desk, steps: seq<Step>, group: Group, day: int)
    requires JobsFit(desk, group) && DayIsCapped(desk.batches, group, day) && CanRun(desk, steps)
    requires NeverOverlaps(desk, steps)
    ensures DayIsCapped(Run(desk, steps).batches, group, day)
    decreases |steps|
  {
    if steps != [] {
      StepFits(desk, steps[0], group, day);
      RunFits(Apply(desk, steps[0]), steps[1..], group, day);
    }
  }

  /**
   * While reads of a workspace follow one another, past midnight included: three
   * batches a day for a campaign, twelve for a workspace.
   */
  lemma DailyCapsHold(steps: seq<Step>, campaign: Campaign, workspace: string, day: int)
    requires CanRun(EMPTY, steps) && NeverOverlaps(EMPTY, steps)
    ensures OnDay(Run(EMPTY, steps).batches, OfCampaign(campaign), day) <= BATCHES_PER_CAMPAIGN_PER_DAY
    ensures OnDay(Run(EMPTY, steps).batches, OfWorkspace(workspace), day) <= BATCHES_PER_WORKSPACE_PER_DAY
  {
    RunFits(EMPTY, steps, OfCampaign(campaign), day);
    RunFits(EMPTY, steps, OfWorkspace(workspace), day);
  }

  // ------------------------------------------------------------ once per item

  lemma {:induction false} FreshFacts(campaign: Campaign, items: seq<string>, seen: set<Item>)
    ensures Distinct(Fresh(campaign, items, seen))
    ensures forall u :: u in Fresh(campaign, items, seen) <==> u in items && Item(campaign, u) !in seen
    decreases |items|
  {
    if items != [] {
      var before := items[..|items| - 1];
      assert items == before + [items[|items| - 1]];
      FreshFacts(campaign, before, seen);
    }
  }

  /** An item was drafted at most once, and what is queued was seen but not drafted. */
  predicate OnceEach(batches: seq<Batch>, seen: set<Item>) {
    && (forall i, j :: 0 <= i < j < |batches| && batches[i].item && batches[j].item ==>
          batches[i].campaign != batches[j].campaign || batches[i].url != batches[j].url)
    && (forall i :: 0 <= i < |batches| && batches[i].item ==> Item(batches[i].campaign, batches[i].url) in seen)
  }

  /** The items a read has found new, or has queued of them. */
  function Found(job: Job): seq<string> {
    if job.toList != [] then job.unseen else job.queue
  }

  predicate FoundIsNew(batches: seq<Batch>, seen: set<Item>, job: Job) {
    job.item ==>
      && Distinct(Found(job))
      && (forall k :: 0 <= k < |Found(job)| ==> Item(job.campaign, Found(job)[k]) in seen)
      && (forall k, i :: 0 <= k < |Found(job)| && 0 <= i < |batches| && batches[i].item ==>
            batches[i].campaign != job.campaign || batches[i].url != Found(job)[k])
  }

  /** Two reads never hold the same item of a campaign. */
  predicate FoundApart(a: Job, b: Job) {
    a.item && b.item && a.campaign == b.campaign ==>
      forall k, l :: 0 <= k < |Found(a)| && 0 <= l < |Found(b)| ==> Found(a)[k] != Found(b)[l]
  }

  predicate NothingTwice(desk: Desk) {
    && OnceEach(desk.batches, desk.seen)
    && (forall i :: i in desk.jobs ==> FoundIsNew(desk.batches, desk.seen, desk.jobs[i]))
    && (forall i, j :: i in desk.jobs && j in desk.jobs && i != j ==> FoundApart(desk.jobs[i], desk.jobs[j]))
  }

  lemma OpeningIsNew(desk: Desk, job: nat, campaign: Campaign, at: nat, content: Content)
    requires NothingTwice(desk) && Enabled(desk, Open(job, campaign, at, content))
    ensures NothingTwice(Apply(desk, Open(job, campaign, at, content)))
  {
    var begun := Begun(desk, campaign, at, content);
    assert begun.item ==> Found(begun) == [];
    forall i | i in desk.jobs ensures FoundApart(desk.jobs[i], begun) && FoundApart(begun, desk.jobs[i]) {
    }
  }

  /** What an insert leaves of a read: some of what it had found, and the item if nobody had seen it. */
  lemma InsertFinds(desk: Desk, id: nat)
    requires id in desk.jobs && desk.jobs[id].toList != []
    ensures var job, after := desk.jobs[id], Inserted(desk, id).jobs[id];
            var item := Item(job.campaign, job.toList[0]);
      && after.item == job.item && after.campaign == job.campaign
      && Found(after) <= job.unseen + (if item in desk.seen then [] else [job.toList[0]])
  {
  }

  lemma InsertedIsNew(desk: Desk, id: nat)
    requires NothingTwice(desk) && id in desk.jobs && desk.jobs[id].toList != []
    ensures FoundIsNew(desk.batches, Inserted(desk, id).seen, Inserted(desk, id).jobs[id])
  {
    InsertFinds(desk, id);
    var job, after := desk.jobs[id], Inserted(desk, id);
    assert FoundIsNew(desk.batches, desk.seen, job);
    forall k | job.item && 0 <= k < |Found(after.jobs[id])|
      ensures Found(after.jobs[id])[k] in job.unseen ||
              (Found(after.jobs[id])[k] == job.toList[0] && Item(job.campaign, job.toList[0]) !in desk.seen)
    {
      var added := if Item(job.campaign, job.toList[0]) in desk.seen then [] else [job.toList[0]];
      assert Found(after.jobs[id])[k] == (job.unseen + added)[k];
    }
  }

  lemma InsertedIsApart(desk: Desk, id: nat, i: nat)
    requires NothingTwice(desk) && id in desk.jobs && desk.jobs[id].toList != [] && i in desk.jobs && i != id
    ensures FoundApart(desk.jobs[i], Inserted(desk, id).jobs[id])
    ensures FoundApart(Inserted(desk, id).jobs[id], desk.jobs[i])
  {
    InsertFinds(desk, id);
    assert FoundApart(desk.jobs[i], desk.jobs[id]);
    assert FoundIsNew(desk.batches, desk.seen, desk.jobs[i]);
  }

  lemma InsertingIsNew(desk: Desk, id: nat)
    requires NothingTwice(desk) && Enabled(desk, Insert(id))
    ensures NothingTwice(Apply(desk, Insert(id)))
  {
    var after := Inserted(desk, id);
    InsertedIsNew(desk, id);
    forall i | i in desk.jobs && i != id
      ensures FoundIsNew(after.batches, after.seen, after.jobs[i])
      ensures FoundApart(after.jobs[i], after.jobs[id]) && FoundApart(after.jobs[id], after.jobs[i])
    {
      assert FoundIsNew(desk.batches, desk.seen, desk.jobs[i]);
      InsertedIsApart(desk, id, i);
    }
    forall i, j | i in desk.jobs && j in desk.jobs && i != j && i != id && j != id
        ensures FoundApart(after.jobs[i], after.jobs[j]) {
      assert FoundApart(desk.jobs[i], desk.jobs[j]);
    }
  }

  lemma DraftedIsNew(desk: Desk, id: nat, now: nat, i: nat)
    requires NothingTwice(desk) && Enabled(desk, Draft(id, true, now)) && i in desk.jobs
    ensures var after := Apply(desk, Draft(id, true, now));
            FoundIsNew(after.batches, desk.seen, after.jobs[i])
  {
    assert FoundIsNew(desk.batches, desk.seen, desk.jobs[i]);
    assert i != id ==> FoundApart(desk.jobs[id], desk.jobs[i]);
  }

  lemma DraftedOnce(batches: seq<Batch>, seen: set<Item>, job: Job, now: nat)
    requires OnceEach(batches, seen) && FoundIsNew(batches, seen, job) && job.toList == [] && job.queue != []
    ensures OnceEach(batches + [Batch(job.campaign, job.queue[0], job.item, true, now)], seen)
  {
    assert job.item ==> Found(job)[0] == job.queue[0];
  }

  lemma DraftedIsApart(a: Job, b: Job)
    requires FoundApart(a, b) && a.toList == [] && a.queue != []
    ensures FoundApart(a.(queue := a.queue[1..]), b) && FoundApart(b, a.(queue := a.queue[1..]))
  {
    var left := a.(queue := a.queue[1..]);
    assert forall k :: 0 <= k < |Found(left)| ==> Found(left)[k] == Found(a)[k + 1];
  }

  lemma FoundIsApart(desk: Desk, id: nat, works: bool, now: nat, i: nat, j: nat)
    requires NothingTwice(desk) && Enabled(desk, Draft(id, works, now)) && i in desk.jobs && j in desk.jobs && i != j
    ensures var jobs := Apply(desk, Draft(id, works, now)).jobs;
            FoundApart(jobs[i], jobs[j])
  {
    assert FoundApart(desk.jobs[i], desk.jobs[j]) && FoundApart(desk.jobs[j], desk.jobs[i]);
    if i == id {
      DraftedIsApart(desk.jobs[i], desk.jobs[j]);
    } else if j == id {
      DraftedIsApart(desk.jobs[j], desk.jobs[i]);
    }
  }

  lemma DraftingIsNew(desk: Desk, id: nat, works: bool, now: nat)
    requires NothingTwice(desk) && Enabled(desk, Draft(id, works, now))
    ensures NothingTwice(Apply(desk, Draft(id, works, now)))
  {
    var after := Apply(desk, Draft(id, works, now));
    assert FoundIsNew(desk.batches, desk.seen, desk.jobs[id]);
    if works {
      DraftedOnce(desk.batches, desk.seen, desk.jobs[id], now);
    }
    forall i | i in after.jobs ensures FoundIsNew(after.batches, after.seen, after.jobs[i]) {
      if works {
        DraftedIsNew(desk, id, now, i);
      } else {
        assert FoundIsNew(desk.batches, desk.seen, desk.jobs[i]);
      }
    }
    forall i, j | i in after.jobs && j in after.jobs && i != j ensures FoundApart(after.jobs[i], after.jobs[j]) {
      FoundIsApart(desk, id, works, now, i, j);
    }
  }

  lemma StepIsNew(desk: Desk, step: Step)
    requires NothingTwice(desk) && Enabled(desk, step)
    ensures NothingTwice(Apply(desk, step))
  {
    match step
    case Open(job, campaign, at, content) => OpeningIsNew(desk, job, campaign, at, content);
    case Insert(id) => InsertingIsNew(desk, id);
    case Draft(id, works, now) => DraftingIsNew(desk, id, works, now);
    case _ =>
  }

  lemma {:induction false} RunIsNew(desk: Desk, steps: seq<Step>)
    requires NothingTwice(desk) && CanRun(desk, steps)
    ensures NothingTwice(Run(desk, steps))
    decreases |steps|
  {
    if steps != [] {
      StepIsNew(desk, steps[0]);
      RunIsNew(Apply(desk, steps[0]), steps[1..]);
    }
  }

  /** No feed item is drafted twice for a campaign, however often it is listed and however reads overlap. */
  lemma NoItemTwice(steps: seq<Step>, i: nat, j: nat)
    requires CanRun(EMPTY, steps) && i < j < |Run(EMPTY, steps).batches|
    ensures var batches := Run(EMPTY, steps).batches;
            batches[i].item && batches[j].item && batches[i].campaign == batches[j].campaign ==>
                batches[i].url != batches[j].url
  {
    RunIsNew(EMPTY, steps);
  }

  // ------------------------------------------------------------- a whole read

  /** Opening a read and inserting its items with nothing in between. */
  function Opened(desk: Desk, id: nat, campaign: Campaign, at: nat, content: Content): Desk {
    var begun := Begun(desk, campaign, at, content);
    if begun.toList == [] then desk.(jobs := desk.jobs[id := begun])
    else
      var unseen := Fresh(campaign, begun.toList, desk.seen);
      desk.(seen := NowSeen(campaign, begun.toList, desk.seen),
            jobs := desk.jobs[id := begun.(toList := [], unseen := unseen,
                queue := ToDraft(unseen, begun.first, begun.room))])
  }

  function Inserts(id: nat, n: nat): seq<Step> {
    seq(n, _ => Insert(id))
  }

  /** The desk when a read has inserted the first n items of its list. */
  function Listed(desk: Desk, id: nat, begun: Job, n: nat): Desk
    requires n <= |begun.toList|
  {
    var unseen := Fresh(begun.campaign, begun.toList[..n], desk.seen);
    var queue := if n == |begun.toList| then ToDraft(unseen, begun.first, begun.room) else [];
    desk.(seen := NowSeen(begun.campaign, begun.toList[..n], desk.seen),
          jobs := desk.jobs[id := begun.(toList := begun.toList[n..], unseen := unseen, queue := queue)])
  }

  lemma OneMoreItem(campaign: Campaign, items: seq<string>, seen: set<Item>, n: nat)
    requires n < |items|
    ensures var item := Item(campaign, items[n]);
      && NowSeen(campaign, items[..n + 1], seen) == NowSeen(campaign, items[..n], seen) + {item}
      && Fresh(campaign, items[..n + 1], seen)
         == Fresh(campaign, items[..n], seen) + (if item in NowSeen(campaign, items[..n], seen) then [] else [items[n]])
  {
    assert items[..n + 1][..n] == items[..n];
    assert Item(campaign, items[n]) in NowSeen(campaign, items[..n], seen)
      <==> Item(campaign, items[n]) in seen || items[n] in items[..n];
    assert items[..n + 1] == items[..n] + [items[n]];
  }

  lemma JobListsOneMore(desk: Desk, id: nat, begun: Job, n: nat)
    requires n < |begun.toList|
    ensures Inserted(Listed(desk, id, begun, n), id).jobs[id] == Listed(desk, id, begun, n + 1).jobs[id]
  {
    OneMoreItem(begun.campaign, begun.toList, desk.seen, n);
    assert begun.toList[n..][0] == begun.toList[n] && begun.toList[n..][1..] == begun.toList[n + 1..];
  }

  lemma ListsOneMore(desk: Desk, id: nat, begun: Job, n: nat)
    requires n < |begun.toList|
    ensures Inserted(Listed(desk, id, begun, n), id) == Listed(desk, id, begun, n + 1)
  {
    OneMoreItem(begun.campaign, begun.toList, desk.seen, n);
    JobListsOneMore(desk, id, begun, n);
    assert begun.toList[n..][0] == begun.toList[n];
    var job := Listed(desk, id, begun, n + 1).jobs[id];
    assert Listed(desk, id, begun, n).jobs[id := job] == desk.jobs[id := job];
  }

  /** From `now`, inserting once more than it takes from `next` comes to the same end. */
  lemma OneInsertThenRest(now: Desk, next: Desk, end: Desk, id: nat, n: nat)
    requires n >= 1 && Enabled(now, Insert(id)) && Inserted(now, id) == next
    requires CanRun(next, Inserts(id, n - 1)) && Run(next, Inserts(id, n - 1)) == end
    ensures CanRun(now, Inserts(id, n)) && Run(now, Inserts(id, n)) == end
  {
    assert Inserts(id, n)[1..] == Inserts(id, n - 1);
  }

  lemma NothingToInsert(now: Desk, id: nat, n: nat)
    requires n == 0
    ensures CanRun(now, Inserts(id, n)) && Run(now, Inserts(id, n)) == now
  {
    assert |Inserts(id, n)| == 0;
  }

  lemma MayInsert(desk: Desk, id: nat, begun: Job, n: nat)
    requires n < |begun.toList|
    ensures Enabled(Listed(desk, id, begun, n), Insert(id))
  {
    assert |begun.toList[n..]| > 0;
  }

  lemma {:induction false} ListsTheRest(desk: Desk, id: nat, begun: Job, n: nat, end: Desk)
    requires n <= |begun.toList| && end == Listed(desk, id, begun, |begun.toList|)
    ensures CanRun(Listed(desk, id, begun, n), Inserts(id, |begun.toList| - n))
    ensures Run(Listed(desk, id, begun, n), Inserts(id, |begun.toList| - n)) == end
    decreases |begun.toList| - n
  {
    if n == |begun.toList| {
      NothingToInsert(end, id, |begun.toList| - n);
    } else {
      MayInsert(desk, id, begun, n);
      ListsOneMore(desk, id, begun, n);
      ListsTheRest(desk, id, begun, n + 1, end);
      OneInsertThenRest(Listed(desk, id, begun, n), Listed(desk, id, begun, n + 1), end, id, |begun.toList| - n);
    }
  }

  function OpenSteps(desk: Desk, id: nat, campaign: Campaign, at: nat, content: Content): seq<Step> {
    [Open(id, campaign, at, content)] + Inserts(id, |Begun(desk, campaign, at, content).toList|)
  }

  lemma ListingEnds(desk: Desk, id: nat, campaign: Campaign, at: nat, content: Content)
    requires Begun(desk, campaign, at, content).toList != []
    ensures var begun := Begun(desk, campaign, at, content);
      && Listed(desk, id, begun, 0) == desk.(jobs := desk.jobs[id := begun])
      && Listed(desk, id, begun, |begun.toList|) == Opened(desk, id, campaign, at, content)
  {
    var begun := Begun(desk, campaign, at, content);
    assert begun.toList[..0] == [] && begun.toList[0..] == begun.toList;
    assert begun.toList[..|begun.toList|] == begun.toList && begun.toList[|begun.toList|..] == [];
    assert NowSeen(campaign, [], desk.seen) == desk.seen;
  }

  /** Insert by insert, with nothing else in between, is what Opened says. */
  lemma OpenedIsItsSteps(desk: Desk, id: nat, campaign: Campaign, at: nat, content: Content)
    requires Enabled(desk, Open(id, campaign, at, content))
    ensures CanRun(desk, OpenSteps(desk, id, campaign, at, content))
    ensures Run(desk, OpenSteps(desk, id, campaign, at, content)) == Opened(desk, id, campaign, at, content)
  {
    var begun := Begun(desk, campaign, at, content);
    var first := Apply(desk, Open(id, campaign, at, content));
    var inserts := Inserts(id, |begun.toList|);
    assert OpenSteps(desk, id, campaign, at, content)[1..] == inserts;
    if begun.toList == [] {
      assert inserts == [] && Run(first, []) == first;
    } else {
      ListingEnds(desk, id, campaign, at, content);
      ListsTheRest(desk, id, begun, 0, Listed(desk, id, begun, |begun.toList|));
    }
  }

  // ------------------------------------------------------- what a read queues

  /** A group's batches, by their places, written at a moment or later; the reader's only, or anybody's. */
  ghost function WrittenSince(batches: seq<Batch>, group: Group, readerOnly: bool, from: int): set<nat> {
    set i | 0 <= i < |batches| && IsWrittenSince(batches[i], group, readerOnly, from)
  }

  ghost predicate IsWrittenSince(b: Batch, group: Group, readerOnly: bool, from: int) {
    && b.at >= from && (readerOnly ==> b.byReader)
    && match group
       case OfCampaign(c) => b.campaign == c
       case OfWorkspace(w) => b.campaign.workspace == w
  }

  lemma WrittenSnoc(batches: seq<Batch>, b: Batch, group: Group, readerOnly: bool, from: int)
    ensures WrittenSince(batches + [b], group, readerOnly, from)
         == WrittenSince(batches, group, readerOnly, from) +
            (if IsWrittenSince(b, group, readerOnly, from) then {|batches|} else {})
  {
    var all := batches + [b];
    forall i: nat ensures i in WrittenSince(all, group, readerOnly, from) <==>
        || i in WrittenSince(batches, group, readerOnly, from)
        || (i == |batches| && IsWrittenSince(b, group, readerOnly, from)) {
      if i < |batches| {
        assert all[i] == batches[i];
      }
    }
  }

  lemma OneMoreWritten(batches: seq<Batch>, b: Batch, group: Group, readerOnly: bool, from: int)
    requires CountSince(Times(batches, group, readerOnly), from) == |WrittenSince(batches, group, readerOnly, from)|
    ensures CountSince(Times(batches + [b], group, readerOnly), from)
         == |WrittenSince(batches + [b], group, readerOnly, from)|
  {
    TimesSnoc(batches, b, group, readerOnly);
    CountSnoc(Times(batches, group, readerOnly), b.at, from, 0);
    WrittenSnoc(batches, b, group, readerOnly, from);
    assert |batches| !in WrittenSince(batches, group, readerOnly, from);
  }

  lemma {:induction false} CountIsWritten(batches: seq<Batch>, group: Group, readerOnly: bool, from: int)
    ensures CountSince(Times(batches, group, readerOnly), from) == |WrittenSince(batches, group, readerOnly, from)|
    decreases |batches|
  {
    if |batches| == 0 {
      assert WrittenSince(batches, group, readerOnly, from) == {};
    } else {
      CountIsWritten(batches[..|batches| - 1], group, readerOnly, from);
      OneMoreWritten(batches[..|batches| - 1], batches[|batches| - 1], group, readerOnly, from);
      assert batches == batches[..|batches| - 1] + [batches[|batches| - 1]];
    }
  }

  /** Three batches a day for a campaign and twelve for its workspace, less what anybody wrote since midnight. */
  lemma RoomIs(batches: seq<Batch>, campaign: Campaign, at: nat)
    ensures var midnight := at - at % 86_400_000;
            var mine := |WrittenSince(batches, OfCampaign(campaign), false, midnight)|;
            var all := |WrittenSince(batches, OfWorkspace(campaign.workspace), false, midnight)|;
            DraftRoom(batches, campaign, at) == Max(0, Min(3 - mine, 12 - all))
  {
    CountIsWritten(batches, OfCampaign(campaign), false, DayOf(at));
    CountIsWritten(batches, OfWorkspace(campaign.workspace), false, DayOf(at));
  }

  /** How many the reader wrote on a day: those since its midnight but not since the next. */
  lemma {:induction false} OnDayIs(batches: seq<Batch>, group: Group, day: int)
    ensures OnDay(batches, group, day) == |WrittenSince(batches, group, true, day * 86_400_000)|
                                        - |WrittenSince(batches, group, true, (day + 1) * 86_400_000)|
  {
    CountIsWritten(batches, group, true, day * DAY);
    CountIsWritten(batches, group, true, (day + 1) * DAY);
    OnIsBetween(Times(batches, group, true), day);
  }

  lemma {:induction false} OnIsBetween(times: seq<int>, day: int)
    ensures CountOn(times, day) == CountSince(times, day * DAY) - CountSince(times, (day + 1) * DAY)
  {
    if |times| > 0 {
      OnIsBetween(times[..|times| - 1], day);
    }
  }

  /** What a read finds new stands in the order of the list it was found in. */
  lemma {:induction false} FreshInOrder(campaign: Campaign, items: seq<string>, seen: set<Item>) returns (at: seq<nat>)
    ensures TakenAt(Fresh(campaign, items, seen), items, at)
    ensures forall k, l :: 0 <= k < l < |at| ==> at[k] < at[l]
    decreases |items|
  {
    at := [];
    if |items| > 0 {
      var before, last := items[..|items| - 1], items[|items| - 1];
      var places := FreshInOrder(campaign, before, seen);
      TakenGoesOn(Fresh(campaign, before, seen), before, places, last);
      assert items == before + [last];
      at := if Item(campaign, last) in seen || last in before then places else places + [|before|];
    }
  }

  /**
   * Of ten listed items at most, a read nothing interrupts queues the first of those
   * it finds new: as many as the room allows, or one when nothing of its campaign's was seen.
   */
  lemma FeedQueues(desk: Desk, id: nat, campaign: Campaign, at: nat, items: seq<string>, fingerprint: string)
    ensures var queue := Opened(desk, id, campaign, at, Feed(items, fingerprint)).jobs[id].queue;
            var found := Fresh(campaign, if |items| > 10 then items[..10] else items, desk.seen);
            var room := DraftRoom(desk.batches, campaign, at);
            var known := exists item :: item in desk.seen && item.campaign == campaign;
      queue <= found && |queue| == Min(room, if known then |found| else Min(1, |found|))
  {
  }

  /** A page is queued exactly when an earlier read left another fingerprint and there is room. */
  lemma PageQueues(desk: Desk, id: nat, campaign: Campaign, at: nat, source: string, fingerprint: string)
    ensures var queue := Opened(desk, id, campaign, at, Page(source, fingerprint)).jobs[id].queue;
      && (queue == [] || queue == [source])
      && (queue == [source] <==>
            && campaign in desk.fingerprints && desk.fingerprints[campaign] != fingerprint
            && DraftRoom(desk.batches, campaign, at) > 0)
  {
  }

  /** The campaign's page was last read with this fingerprint, and no read under way has anything of it to draft. */
  ghost predicate AtRest(desk: Desk, campaign: Campaign, fingerprint: string) {
    && campaign in desk.fingerprints && desk.fingerprints[campaign] == fingerprint
    && forall i :: i in desk.jobs && desk.jobs[i].campaign == campaign ==>
         desk.jobs[i].toList == [] && desk.jobs[i].queue == [] && desk.jobs[i].fingerprint in {None, Some(fingerprint)}
  }

  /** Whoever reads the campaign's page finds this fingerprint, or cannot read it. */
  ghost predicate SamePage(steps: seq<Step>, campaign: Campaign, fingerprint: string) {
    forall i :: 0 <= i < |steps| && steps[i].Open? && steps[i].campaign == campaign ==>
      || steps[i].content.Unreadable?
      || (steps[i].content.Page? && steps[i].content.fingerprint == fingerprint)
  }

  lemma StepIsAtRest(desk: Desk, step: Step, campaign: Campaign, fingerprint: string)
    requires AtRest(desk, campaign, fingerprint) && Enabled(desk, step) && SamePage([step], campaign, fingerprint)
    ensures AtRest(Apply(desk, step), campaign, fingerprint)
    ensures var after := Apply(desk, step).batches;
      && desk.batches <= after
      && forall i :: |desk.batches| <= i < |after| && after[i].byReader ==> after[i].campaign != campaign
  {
    assert [step][0] == step;
  }

  /** However often an unchanged page is read again, and however the reads overlap, it is never drafted. */
  lemma {:induction false} UnchangedIsNeverDrafted(desk: Desk, steps: seq<Step>, campaign: Campaign,
          fingerprint: string)
    requires AtRest(desk, campaign, fingerprint) && CanRun(desk, steps) && SamePage(steps, campaign, fingerprint)
    ensures var after := Run(desk, steps).batches;
      && desk.batches <= after
      && forall i :: |desk.batches| <= i < |after| && after[i].byReader ==> after[i].campaign != campaign
    decreases |steps|
  {
    if |steps| > 0 {
      assert [steps[0]][0] == steps[0];
      StepIsAtRest(desk, steps[0], campaign, fingerprint);
      UnchangedIsNeverDrafted(Apply(desk, steps[0]), steps[1..], campaign, fingerprint);
    }
  }

  // ---------------------------------------------------------------- first read

  lemma {:induction false} FirstIsFirst(campaign: Campaign, items: seq<string>, seen: set<Item>)
    requires items != [] && Item(campaign, items[0]) !in seen
    ensures Fresh(campaign, items, seen) != [] && Fresh(campaign, items, seen)[0] == items[0]
    decreases |items|
  {
    if |items| > 1 {
      FirstIsFirst(campaign, items[..|items| - 1], seen);
    } else {
      assert Fresh(campaign, items[..0], seen) == [];
    }
  }

  /**
   * Nobody drafted this item and nobody holds it, though it has been seen; but for
   * one read that may have it queued.
   */
  predicate Spoken(desk: Desk, item: Item) {
    && item in desk.seen
    && (forall i :: 0 <= i < |desk.batches| && desk.batches[i].item ==>
          Item(desk.batches[i].campaign, desk.batches[i].url) != item)
    && (forall j :: j in desk.jobs && desk.jobs[j].item && desk.jobs[j].campaign == item.campaign ==>
          item.url !in Found(desk.jobs[j]))
  }

  lemma FoundByInserting(desk: Desk, id: nat, u: string)
    requires id in desk.jobs && desk.jobs[id].toList != []
    ensures u in Found(Inserted(desk, id).jobs[id]) ==>
              u in desk.jobs[id].unseen || Item(desk.jobs[id].campaign, u) !in desk.seen
  {
    InsertFinds(desk, id);
    var job := desk.jobs[id];
    var found := job.unseen + (if Item(job.campaign, job.toList[0]) in desk.seen then [] else [job.toList[0]]);
    assert u in Found(Inserted(desk, id).jobs[id]) ==> u in found;
  }

  lemma InsertStaysSpoken(desk: Desk, id: nat, item: Item)
    requires Spoken(desk, item) && id in desk.jobs && desk.jobs[id].toList != []
    ensures Spoken(Inserted(desk, id), item)
  {
    FoundByInserting(desk, id, item.url);
  }

  lemma StepStaysSpoken(desk: Desk, step: Step, item: Item)
    requires Spoken(desk, item) && Enabled(desk, step)
    ensures Spoken(Apply(desk, step), item)
  {
    match step
    case Insert(id) => InsertStaysSpoken(desk, id, item);
    case Draft(id, works, now) =>
      var job := desk.jobs[id];
      assert job.queue == [job.queue[0]] + job.queue[1..];
    case _ =>
  }

  lemma {:induction false} StaysSpoken(desk: Desk, steps: seq<Step>, item: Item)
    requires Spoken(desk, item) && CanRun(desk, steps)
    ensures Spoken(Run(desk, steps), item)
    decreases |steps|
  {
    if steps != [] {
      StepStaysSpoken(desk, steps[0], item);
      StaysSpoken(Apply(desk, steps[0]), steps[1..], item);
    }
  }

  lemma FoundIsSeen(desk: Desk, j: nat)
    requires NothingTwice(desk) && j in desk.jobs && desk.jobs[j].item
    ensures Found(desk.jobs[j]) == [] || exists u :: Item(desk.jobs[j].campaign, u) in desk.seen
  {
    var job := desk.jobs[j];
    assert FoundIsNew(desk.batches, desk.seen, job);
    assert Found(job) != [] ==> Item(job.campaign, Found(job)[0]) in desk.seen;
  }

  lemma NothingFound(desk: Desk, campaign: Campaign, j: nat)
    requires NothingTwice(desk) && FirstRead(campaign, desk.seen)
    requires j in desk.jobs && desk.jobs[j].item && desk.jobs[j].campaign == campaign
    ensures Found(desk.jobs[j]) == []
  {
    FoundIsSeen(desk, j);
  }

  lemma NothingDrafted(desk: Desk, campaign: Campaign, i: nat)
    requires NothingTwice(desk) && FirstRead(campaign, desk.seen) && i < |desk.batches|
    ensures desk.batches[i].item ==> desk.batches[i].campaign != campaign
  {
    assert OnceEach(desk.batches, desk.seen);
  }

  lemma QueuesTheNewest(desk: Desk, id: nat, campaign: Campaign, at: nat, items: seq<string>, fingerprint: string)
    requires FirstRead(campaign, desk.seen) && items != []
    ensures var after := Opened(desk, id, campaign, at, Feed(items, fingerprint));
            after.jobs[id].queue == [] || after.jobs[id].queue == [items[0]]
  {
    FirstIsFirst(campaign, Take(items, ITEMS_READ), desk.seen);
  }

  lemma OthersAreSpoken(desk: Desk, id: nat, campaign: Campaign, at: nat, items: seq<string>, fingerprint: string,
          u: string)
    requires NothingTwice(desk) && FirstRead(campaign, desk.seen) && id !in desk.jobs && u in Take(items, ITEMS_READ)
    requires u !in Opened(desk, id, campaign, at, Feed(items, fingerprint)).jobs[id].queue
    ensures Spoken(Opened(desk, id, campaign, at, Feed(items, fingerprint)), Item(campaign, u))
  {
    var after := Opened(desk, id, campaign, at, Feed(items, fingerprint));
    assert Item(campaign, u) in after.seen;
    forall i | 0 <= i < |desk.batches| && desk.batches[i].item ensures desk.batches[i].campaign != campaign {
      NothingDrafted(desk, campaign, i);
    }
    forall j | j in desk.jobs && desk.jobs[j].item && desk.jobs[j].campaign == campaign
        ensures Found(desk.jobs[j]) == [] {
      NothingFound(desk, campaign, j);
    }
  }

  /**
   * A read that nothing interrupts and that finds none of its campaign's items
   * seen queues at most the newest, and none of the other items it listed is
   * drafted for the campaign in any run from there on.
   */
  lemma FirstReadNeverFloods(before: seq<Step>, id: nat, campaign: Campaign, at: nat, items: seq<string>,
                             fingerprint: string, steps: seq<Step>)
    requires CanRun(EMPTY, before) && FirstRead(campaign, Run(EMPTY, before).seen) && items != []
    requires id !in Run(EMPTY, before).jobs
    requires CanRun(Opened(Run(EMPTY, before), id, campaign, at, Feed(items, fingerprint)), steps)
    ensures var after := Opened(Run(EMPTY, before), id, campaign, at, Feed(items, fingerprint));
      && (after.jobs[id].queue == [] || after.jobs[id].queue == [items[0]])
      && forall i :: 0 <= i < |Run(after, steps).batches| ==>
           var b := Run(after, steps).batches[i];
           b.item && b.campaign == campaign && b.url in Take(items, ITEMS_READ) ==> after.jobs[id].queue == [b.url]
  {
    var desk := Run(EMPTY, before);
    RunIsNew(EMPTY, before);
    var after := Opened(desk, id, campaign, at, Feed(items, fingerprint));
    QueuesTheNewest(desk, id, campaign, at, items, fingerprint);
    forall i | 0 <= i < |Run(after, steps).batches|
      ensures
        var b := Run(after, steps).batches[i];
        b.item && b.campaign == campaign && b.url in Take(items, ITEMS_READ) ==> after.jobs[id].queue == [b.url]
    {
      var b := Run(after, steps).batches[i];
      if b.item && b.campaign == campaign && b.url in Take(items, ITEMS_READ) && b.url !in after.jobs[id].queue {
        OthersAreSpoken(desk, id, campaign, at, items, fingerprint, b.url);
        StaysSpoken(after, steps, Item(campaign, b.url));
      }
    }
  }

  // ---------------------------------------------------------------- one read

  /** How drafting one queued address went, and when it was over. */
  datatype Outcome = Outcome(works: bool, now: nat)

  function Written(campaign: Campaign, item: bool, queue: seq<string>, outcomes: seq<Outcome>): seq<Batch>
    requires |queue| == |outcomes|
    decreases |queue|
  {
    if queue == [] then []
    else
      (if outcomes[0].works then [Batch(campaign, queue[0], item, true, outcomes[0].now)] else [])
      + Written(campaign, item, queue[1..], outcomes[1..])
  }

  function Drafts(job: nat, outcomes: seq<Outcome>): seq<Step> {
    seq(|outcomes|, i requires 0 <= i < |outcomes| => Draft(job, outcomes[i].works, outcomes[i].now))
  }

  predicate OnTime(clock: nat, outcomes: seq<Outcome>)
    decreases |outcomes|
  {
    outcomes == [] || (clock <= outcomes[0].now && OnTime(outcomes[0].now, outcomes[1..]))
  }

  /** The desk once everything queued has been tried. */
  function AfterDrafts(desk: Desk, id: nat, outcomes: seq<Outcome>): Desk
    requires id in desk.jobs && |desk.jobs[id].queue| == |outcomes|
  {
    var job := desk.jobs[id];
    Desk(desk.batches + Written(job.campaign, job.item, job.queue, outcomes), desk.seen, desk.fingerprints,
         desk.jobs[id := job.(queue := [])], if outcomes == [] then desk.clock else outcomes[|outcomes| - 1].now)
  }

  lemma OneDraftOfMany(desk: Desk, id: nat, outcomes: seq<Outcome>)
    requires id in desk.jobs && desk.jobs[id].toList == [] && |desk.jobs[id].queue| == |outcomes| && outcomes != []
    requires desk.clock <= outcomes[0].now
    ensures var next := Apply(desk, Draft(id, outcomes[0].works, outcomes[0].now));
      && id in next.jobs && next.jobs[id].toList == [] && |next.jobs[id].queue| == |outcomes[1..]|
      && next.clock == outcomes[0].now
      && AfterDrafts(next, id, outcomes[1..]) == AfterDrafts(desk, id, outcomes)
  {
    var next := Apply(desk, Draft(id, outcomes[0].works, outcomes[0].now));
    var job := desk.jobs[id];
    assert desk.jobs[id := job.(queue := [])] == next.jobs[id := job.(queue := [])];
  }

  /** Step by step, an opened read writes a batch for each queued address that works out, in order. */
  lemma {:induction false} DraftsWriteTheQueue(desk: Desk, id: nat, outcomes: seq<Outcome>)
    requires id in desk.jobs && desk.jobs[id].toList == [] && |desk.jobs[id].queue| == |outcomes|
    requires OnTime(desk.clock, outcomes)
    ensures CanRun(desk, Drafts(id, outcomes))
    ensures Run(desk, Drafts(id, outcomes)) == AfterDrafts(desk, id, outcomes)
    decreases |outcomes|
  {
    if outcomes == [] {
      assert desk.jobs[id := desk.jobs[id].(queue := [])] == desk.jobs;
    } else {
      OneDraftOfMany(desk, id, outcomes);
      assert Drafts(id, outcomes)[1..] == Drafts(id, outcomes[1..]);
      DraftsWriteTheQueue(Apply(desk, Draft(id, outcomes[0].works, outcomes[0].now)), id, outcomes[1..]);
    }
  }

  // ------------------------------------------------------------- overlapping

  /** What a read has queued, or will queue if nobody else inserts what is left of its list. */
  function Ahead(job: Job, seen: set<Item>): nat {
    if job.toList == [] then |job.queue|
    else |ToDraft(job.unseen + Fresh(job.campaign, job.toList, seen), job.first, job.room)|
  }

  function Owed(job: Job, seen: set<Item>, group: Group): nat {
    if In(group, job.campaign) then Ahead(job, seen) else 0
  }

  /** The sum over a table, in whatever order it is read. */
  ghost function Sum(amounts: map<nat, nat>): nat {
    if amounts == map[] then 0
    else
      var id :| id in amounts;
      amounts[id] + Sum(amounts - {id})
  }

  lemma {:induction false} SumInAnyOrder(amounts: map<nat, nat>, id: nat)
    requires id in amounts
    ensures Sum(amounts) == amounts[id] + Sum(amounts - {id})
    decreases |amounts|
  {
    var first :| first in amounts && Sum(amounts) == amounts[first] + Sum(amounts - {first});
    if first != id {
      SumInAnyOrder(amounts - {first}, id);
      SumInAnyOrder(amounts - {id}, first);
      assert amounts - {first} - {id} == amounts - {id} - {first};
    }
  }

  lemma {:induction false} SumAtMost(a: map<nat, nat>, b: map<nat, nat>)
    requires a.Keys <= b.Keys && forall id :: id in a ==> a[id] <= b[id]
    ensures Sum(a) <= Sum(b)
    decreases |a|
  {
    if a != map[] {
      var id :| id in a;
      SumInAnyOrder(a, id);
      SumInAnyOrder(b, id);
      SumAtMost(a - {id}, b - {id});
    }
  }

  lemma {:induction false} SomeAmount(amounts: map<nat, nat>) returns (id: nat)
    requires Sum(amounts) > 0
    ensures id in amounts && amounts[id] > 0
    decreases |amounts|
  {
    id :| id in amounts;
    SumInAnyOrder(amounts, id);
    if amounts[id] == 0 {
      id := SomeAmount(amounts - {id});
    }
  }

  /** Two tables that differ in one amount, and otherwise only fall. */
  lemma SumAfterOne(a: map<nat, nat>, b: map<nat, nat>, id: nat)
    requires id in a && id in b && b.Keys == a.Keys
    requires forall i :: i in a && i != id ==> b[i] <= a[i]
    ensures Sum(b) + a[id] <= Sum(a) + b[id]
    ensures (forall i :: i in a && i != id ==> b[i] == a[i]) ==> Sum(b) + a[id] == Sum(a) + b[id]
  {
    SumInAnyOrder(a, id);
    SumInAnyOrder(b, id);
    SumAtMost(b - {id}, a - {id});
    if forall i :: i in a && i != id ==> b[i] == a[i] {
      assert b - {id} == a - {id};
    }
  }

  ghost function Owings(jobs: map<nat, Job>, seen: set<Item>, group: Group): map<nat, nat> {
    map id | id in jobs :: Owed(jobs[id], seen, group)
  }

  /** What all open reads together may still write for a group. */
  ghost function Queued(desk: Desk, group: Group): nat {
    Sum(Owings(desk.jobs, desk.seen, group))
  }

  /** Steps that finish what is open and start nothing. */
  predicate Finishing(step: Step) {
    step.Insert? || step.Draft? || step.Close? || step.Stop?
  }

  predicate Ends(steps: seq<Step>) {
    forall i :: 0 <= i < |steps| ==> Finishing(steps[i])
  }

  // What seeing an item does to a list

  lemma {:induction false} FreshFront(campaign: Campaign, items: seq<string>, seen: set<Item>)
    requires items != []
    ensures var item := Item(campaign, items[0]);
            Fresh(campaign, items, seen)
            == (if item in seen then [] else [items[0]]) + Fresh(campaign, items[1..], seen + {item})
    decreases |items|
  {
    var n := |items| - 1;
    var before := items[..n];
    if n == 0 {
      assert before == [] && items[1..] == [];
    } else {
      FreshFront(campaign, before, seen);
      assert items[1..][..n - 1] == before[1..];
      assert items[n] in before <==> items[n] == items[0] || items[n] in before[1..];
    }
  }

  lemma {:induction false} FreshFalls(campaign: Campaign, items: seq<string>, seen: set<Item>, item: Item)
    ensures |Fresh(campaign, items, seen + {item})| <= |Fresh(campaign, items, seen)|
    ensures item.campaign != campaign || item.url !in items || item in seen ==>
              Fresh(campaign, items, seen + {item}) == Fresh(campaign, items, seen)
    decreases |items|
  {
    if items != [] {
      FreshFalls(campaign, items[..|items| - 1], seen, item);
    }
  }

  lemma DraftsNoMore(a: seq<string>, b: seq<string>, first: bool, room: nat)
    requires |a| <= |b|
    ensures |ToDraft(a, first, room)| <= |ToDraft(b, first, room)|
  {
  }

  /** An insert by another read only lowers what a read will queue, and not at all when the item is not on its list. */
  lemma OthersInsert(job: Job, seen: set<Item>, item: Item, group: Group)
    ensures Owed(job, seen + {item}, group) <= Owed(job, seen, group)
    ensures item.campaign != job.campaign || item.url !in job.toList || item in seen ==>
              Owed(job, seen + {item}, group) == Owed(job, seen, group)
  {
    if job.toList != [] {
      FreshFalls(job.campaign, job.toList, seen, item);
      DraftsNoMore(job.unseen + Fresh(job.campaign, job.toList, seen + {item}),
                   job.unseen + Fresh(job.campaign, job.toList, seen), job.first, job.room);
    }
  }

  /** Its own inserts leave what a read will queue as it was. */
  lemma OwnInsert(desk: Desk, id: nat, group: Group)
    requires Enabled(desk, Insert(id))
    ensures var after := Inserted(desk, id);
            Owed(after.jobs[id], after.seen, group) == Owed(desk.jobs[id], desk.seen, group)
  {
    var job, after := desk.jobs[id], Inserted(desk, id);
    FreshFront(job.campaign, job.toList, desk.seen);
    var rest := job.toList[1..];
    var found := if Item(job.campaign, job.toList[0]) in desk.seen then [] else [job.toList[0]];
    assert after.jobs[id].unseen == job.unseen + found;
    assert job.unseen + (found + Fresh(job.campaign, rest, after.seen))
        == (job.unseen + found) + Fresh(job.campaign, rest, after.seen);
    if rest == [] {
      assert (job.unseen + found) + [] == job.unseen + found;
    }
  }

  lemma InsertingOwes(desk: Desk, id: nat, group: Group)
    requires Enabled(desk, Insert(id))
    ensures Queued(Inserted(desk, id), group) <= Queued(desk, group)
    ensures NoneShares(desk, id) ==> Queued(Inserted(desk, id), group) == Queued(desk, group)
  {
    var after := Inserted(desk, id);
    var item := Item(desk.jobs[id].campaign, desk.jobs[id].toList[0]);
    forall i | i in desk.jobs && i != id
      ensures Owed(after.jobs[i], after.seen, group) <= Owed(desk.jobs[i], desk.seen, group)
      ensures NoneShares(desk, id) ==>
                Owed(after.jobs[i], after.seen, group) == Owed(desk.jobs[i], desk.seen, group)
    {
      OthersInsert(desk.jobs[i], desk.seen, item, group);
    }
    OwnInsert(desk, id, group);
    SumAfterOne(Owings(desk.jobs, desk.seen, group), Owings(after.jobs, after.seen, group), id);
  }

  /** The next item of a read's list is not an unseen one on another read's list too. */
  predicate NoneShares(desk: Desk, id: nat)
    requires id in desk.jobs && desk.jobs[id].toList != []
  {
    var job := desk.jobs[id];
    forall i :: i in desk.jobs && i != id && desk.jobs[i].campaign == job.campaign ==>
      job.toList[0] !in desk.jobs[i].toList || Item(job.campaign, job.toList[0]) in desk.seen
  }

  predicate ListApart(a: Job, b: Job, seen: set<Item>) {
    forall u :: u in a.toList && u in b.toList ==> Item(a.campaign, u) in seen
  }

  /** No two reads of one campaign still have the same unseen item on their lists. */
  predicate OwnLists(desk: Desk) {
    forall i, j :: i in desk.jobs && j in desk.jobs && i != j && desk.jobs[i].campaign == desk.jobs[j].campaign ==>
      ListApart(desk.jobs[i], desk.jobs[j], desk.seen)
  }

  /** So it is while each campaign has one read under way, or none. */
  lemma OneReadEachOwnsItsList(desk: Desk)
    requires forall i, j :: i in desk.jobs && j in desk.jobs && i != j ==>
        desk.jobs[i].campaign != desk.jobs[j].campaign
    ensures OwnLists(desk)
  {
  }

  lemma InsertingKeepsOwnLists(desk: Desk, id: nat)
    requires OwnLists(desk) && Enabled(desk, Insert(id))
    ensures OwnLists(Inserted(desk, id)) && NoneShares(desk, id)
  {
    var job, after := desk.jobs[id], Inserted(desk, id);
    assert forall u :: u in job.toList[1..] ==> u in job.toList;
    forall i, j | i in desk.jobs && j in desk.jobs && i != j && desk.jobs[i].campaign == desk.jobs[j].campaign
      ensures ListApart(after.jobs[i], after.jobs[j], after.seen)
    {
      assert ListApart(desk.jobs[i], desk.jobs[j], desk.seen);
    }
    forall i | i in desk.jobs && i != id && desk.jobs[i].campaign == job.campaign
      ensures job.toList[0] in desk.jobs[i].toList ==> Item(job.campaign, job.toList[0]) in desk.seen
    {
      assert ListApart(job, desk.jobs[i], desk.seen) && job.toList[0] in job.toList;
    }
  }

  lemma DraftingOwes(desk: Desk, id: nat, works: bool, now: nat, group: Group)
    requires Enabled(desk, Draft(id, works, now))
    ensures Queued(Apply(desk, Draft(id, works, now)), group) + (if In(group, desk.jobs[id].campaign) then 1 else 0)
         == Queued(desk, group)
  {
    var after := Apply(desk, Draft(id, works, now));
    SumAfterOne(Owings(desk.jobs, desk.seen, group), Owings(after.jobs, after.seen, group), id);
  }

  lemma LeavingOwes(desk: Desk, id: nat, step: Step, group: Group)
    requires Enabled(desk, step) && (step == Close(id) || step == Stop(id))
    ensures Queued(Apply(desk, step), group) <= Queued(desk, group)
  {
    var after := Apply(desk, step);
    SumAtMost(Owings(after.jobs, after.seen, group), Owings(desk.jobs, desk.seen, group));
  }

  lemma DraftedOnDay(desk: Desk, id: nat, works: bool, now: nat, group: Group, day: int)
    requires Enabled(desk, Draft(id, works, now))
    ensures OnDay(Apply(desk, Draft(id, works, now)).batches, group, day) == OnDay(desk.batches, group, day)
            + (if works && In(group, desk.jobs[id].campaign) && now / DAY == day then 1 else 0)
  {
    var job := desk.jobs[id];
    TimesSnoc(desk.batches, Batch(job.campaign, job.queue[0], job.item, true, now), group, true);
    CountSnoc(Times(desk.batches, group, true), now, 0, day);
  }

  lemma OneEnd(desk: Desk, step: Step, group: Group, day: int)
    requires Enabled(desk, step) && Finishing(step)
    ensures var next := Apply(desk, step);
            OnDay(next.batches, group, day) + Queued(next, group)
            <= OnDay(desk.batches, group, day) + Queued(desk, group)
  {
    match step
    case Insert(id) => InsertingOwes(desk, id, group);
    case Draft(id, works, now) =>
      DraftingOwes(desk, id, works, now, group);
      DraftedOnDay(desk, id, works, now, group, day);
    case Close(id) => LeavingOwes(desk, id, step, group);
    case Stop(id) => LeavingOwes(desk, id, step, group);
  }

  /** Finishing what is open writes no more than was queued or listed. */
  lemma {:induction false} NoMoreThanQueued(desk: Desk, steps: seq<Step>, group: Group, day: int)
    requires CanRun(desk, steps) && Ends(steps)
    ensures OnDay(Run(desk, steps).batches, group, day) <= OnDay(desk.batches, group, day) + Queued(desk, group)
    decreases |steps|
  {
    if steps != [] {
      OneEnd(desk, steps[0], group, day);
      NoMoreThanQueued(Apply(desk, steps[0]), steps[1..], group, day);
    }
  }

  ghost function ListLengths(jobs: map<nat, Job>): map<nat, nat> {
    map id | id in jobs :: |jobs[id].toList|
  }

  lemma InsertingShortens(desk: Desk, id: nat)
    requires Enabled(desk, Insert(id))
    ensures Sum(ListLengths(Inserted(desk, id).jobs)) < Sum(ListLengths(desk.jobs))
  {
    SumAfterOne(ListLengths(desk.jobs), ListLengths(Inserted(desk, id).jobs), id);
  }

  lemma DraftingKeepsLists(desk: Desk, id: nat, works: bool, now: nat)
    requires OwnLists(desk) && Enabled(desk, Draft(id, works, now))
    ensures OwnLists(Apply(desk, Draft(id, works, now)))
    ensures Sum(ListLengths(Apply(desk, Draft(id, works, now)).jobs)) == Sum(ListLengths(desk.jobs))
  {
    var after := Apply(desk, Draft(id, works, now));
    assert ListLengths(after.jobs) == ListLengths(desk.jobs);
    forall i, j | i in desk.jobs && j in desk.jobs && i != j && desk.jobs[i].campaign == desk.jobs[j].campaign
      ensures ListApart(after.jobs[i], after.jobs[j], after.seen)
    {
      assert ListApart(desk.jobs[i], desk.jobs[j], desk.seen);
    }
  }

  /** The step that takes a read one further: its next insert, or its next draft. */
  lemma NextStep(desk: Desk, id: nat, group: Group) returns (step: Step)
    requires OwnLists(desk) && id in desk.jobs && Owed(desk.jobs[id], desk.seen, group) > 0
    ensures Enabled(desk, step) && Finishing(step) && Apply(desk, step).clock == desk.clock
    ensures var next := Apply(desk, step);
      && OwnLists(next)
      && OnDay(next.batches, group, desk.clock / DAY) + Queued(next, group)
         == OnDay(desk.batches, group, desk.clock / DAY) + Queued(desk, group)
      && (Sum(ListLengths(next.jobs)) < Sum(ListLengths(desk.jobs)) ||
          (Sum(ListLengths(next.jobs)) == Sum(ListLengths(desk.jobs)) && Queued(next, group) < Queued(desk, group)))
  {
    if desk.jobs[id].toList != [] {
      step := Insert(id);
      InsertingKeepsOwnLists(desk, id);
      InsertingOwes(desk, id, group);
      InsertingShortens(desk, id);
    } else {
      step := Draft(id, true, desk.clock);
      DraftingKeepsLists(desk, id, true, desk.clock);
      DraftingOwes(desk, id, true, desk.clock, group);
      DraftedOnDay(desk, id, true, desk.clock, group, desk.clock / DAY);
    }
  }

  lemma RunsOn(desk: Desk, step: Step, rest: seq<Step>)
    requires Enabled(desk, step) && Finishing(step) && CanRun(Apply(desk, step), rest) && Ends(rest)
    ensures CanRun(desk, [step] + rest) && Ends([step] + rest)
    ensures Run(desk, [step] + rest) == Run(Apply(desk, step), rest)
  {
    assert ([step] + rest)[1..] == rest;
  }

  lemma {:induction false} AllOfItWritten(desk: Desk, group: Group, listed: nat, queued: nat) returns (steps: seq<Step>)
    requires OwnLists(desk) && listed == Sum(ListLengths(desk.jobs)) && queued == Queued(desk, group)
    ensures CanRun(desk, steps) && Ends(steps)
    ensures OnDay(Run(desk, steps).batches, group, desk.clock / DAY)
         == OnDay(desk.batches, group, desk.clock / DAY) + queued
    decreases listed, queued
  {
    if queued == 0 {
      steps := [];
    } else {
      var id := SomeAmount(Owings(desk.jobs, desk.seen, group));
      var step := NextStep(desk, id, group);
      var next := Apply(desk, step);
      var rest := AllOfItWritten(next, group, Sum(ListLengths(next.jobs)), Queued(next, group));
      RunsOn(desk, step, rest);
      steps := [step] + rest;
    }
  }

  /** And may write all of it, at once. */
  lemma AllThatIsQueued(desk: Desk, group: Group) returns (steps: seq<Step>)
    requires OwnLists(desk)
    ensures CanRun(desk, steps) && Ends(steps)
    ensures OnDay(Run(desk, steps).batches, group, desk.clock / DAY)
         == OnDay(desk.batches, group, desk.clock / DAY) + Queued(desk, group)
  {
    steps := AllOfItWritten(desk, group, Sum(ListLengths(desk.jobs)), Queued(desk, group));
  }

  /** No batch is stamped ahead of the clock. */
  predicate NoneAhead(desk: Desk) {
    forall i :: 0 <= i < |desk.batches| ==> desk.batches[i].at <= desk.clock
  }

  lemma {:induction false} RunIsNeverAhead(desk: Desk, steps: seq<Step>)
    requires NoneAhead(desk) && CanRun(desk, steps)
    ensures NoneAhead(Run(desk, steps))
    decreases |steps|
  {
    if steps != [] {
      RunIsNeverAhead(Apply(desk, steps[0]), steps[1..]);
    }
  }

  lemma {:induction false} NothingYet(batches: seq<Batch>, clock: nat, group: Group, day: int)
    requires (forall i :: 0 <= i < |batches| ==> batches[i].at <= clock) && day > clock / DAY
    ensures OnDay(batches, group, day) == 0
    decreases |batches|
  {
    if batches != [] {
      var before, last := batches[..|batches| - 1], batches[|batches| - 1];
      NothingYet(before, clock, group, day);
      CountSnoc(Times(before, group, true), last.at, 0, day);
    }
  }

  lemma NoMoreOnAnyDay(desk: Desk, steps: seq<Step>, group: Group, day: int)
    requires NoneAhead(desk) && CanRun(desk, steps) && Ends(steps) && day >= desk.clock / DAY
    ensures OnDay(Run(desk, steps).batches, group, day)
         <= OnDay(desk.batches, group, desk.clock / DAY) + Queued(desk, group)
  {
    NoMoreThanQueued(desk, steps, group, day);
    if day > desk.clock / DAY {
      NothingYet(desk.batches, desk.clock, group, day);
    }
  }

  /** However what is open ends, no day from this one on goes over the cap. */
  ghost predicate EndsWithinCap(desk: Desk, group: Group) {
    forall steps, day :: CanRun(desk, steps) && Ends(steps) && day >= desk.clock / DAY ==>
      OnDay(Run(desk, steps).batches, group, day) <= Cap(group)
  }

  /** What was written today, and what every open read has queued or will queue of its list, fit under the cap. */
  ghost predicate AllFits(desk: Desk, group: Group) {
    OnDay(desk.batches, group, desk.clock / DAY) + Queued(desk, group) <= Cap(group)
  }

  /**
   * Overlapping reads share a room each counted for itself. From any reachable
   * desk a group's cap is kept however its open reads end, those still going
   * through their lists included, when what was written today and what all of
   * them have queued or will queue fit under it; and only then, as long as no
   * two of them still list the same unseen item of a campaign.
   */
  lemma EndingsIff(before: seq<Step>, group: Group)
    requires CanRun(EMPTY, before)
    ensures AllFits(Run(EMPTY, before), group) ==> EndsWithinCap(Run(EMPTY, before), group)
    ensures OwnLists(Run(EMPTY, before)) ==>
              (EndsWithinCap(Run(EMPTY, before), group) <==> AllFits(Run(EMPTY, before), group))
  {
    var desk := Run(EMPTY, before);
    RunIsNeverAhead(EMPTY, before);
    forall steps, day | CanRun(desk, steps) && Ends(steps) && day >= desk.clock / DAY
      ensures OnDay(Run(desk, steps).batches, group, day)
           <= OnDay(desk.batches, group, desk.clock / DAY) + Queued(desk, group)
    {
      NoMoreOnAnyDay(desk, steps, group, day);
    }
    if OwnLists(desk) {
      var all := AllThatIsQueued(desk, group);
    }
  }

  // ------------------------------------------------------ two runs to beware of

  lemma {:induction false} RunJoins(desk: Desk, a: seq<Step>, b: seq<Step>)
    requires CanRun(desk, a) && CanRun(Run(desk, a), b)
    ensures CanRun(desk, a + b) && Run(desk, a + b) == Run(Run(desk, a), b)
    decreases |a|
  {
    if a == [] {
      assert a + b == b;
    } else {
      RunJoins(Apply(desk, a[0]), a[1..], b);
      assert (a + b)[1..] == a[1..] + b;
    }
  }

  predicate AllUnseen(campaign: Campaign, items: seq<string>, seen: set<Item>) {
    Distinct(items) && forall i :: 0 <= i < |items| ==> Item(campaign, items[i]) !in seen
  }

  lemma {:induction false} AllFresh(campaign: Campaign, items: seq<string>, seen: set<Item>)
    requires AllUnseen(campaign, items, seen)
    ensures Fresh(campaign, items, seen) == items
    decreases |items|
  {
    if items != [] {
      AllFresh(campaign, items[..|items| - 1], seen);
    }
  }

  /** With nothing drafted yet, a later read of three new items queues all three. */
  lemma QueuesAllThree(desk: Desk, id: nat, campaign: Campaign, items: seq<string>)
    requires desk.batches == [] && !FirstRead(campaign, desk.seen) && |items| == 3
    requires AllUnseen(campaign, items, desk.seen)
    ensures var job := Job(campaign, desk.clock, true, 3, false, [], items, items, Some(""));
            Opened(desk, id, campaign, desk.clock, Feed(items, ""))
            == desk.(seen := NowSeen(campaign, items, desk.seen), jobs := desk.jobs[id := job])
  {
    AllFresh(campaign, items, desk.seen);
  }

  lemma {:induction false} WritingCounts(batches: seq<Batch>, campaign: Campaign, queue: seq<string>,
          outcomes: seq<Outcome>, day: int)
    requires |queue| == |outcomes|
    requires forall i :: 0 <= i < |outcomes| ==> outcomes[i].works && outcomes[i].now / DAY == day
    ensures OnDay(batches + Written(campaign, true, queue, outcomes), OfCampaign(campaign), day)
         == OnDay(batches, OfCampaign(campaign), day) + |queue|
    decreases |queue|
  {
    if queue == [] {
      assert batches + Written(campaign, true, queue, outcomes) == batches;
    } else {
      var first := Batch(campaign, queue[0], true, true, outcomes[0].now);
      WritingCounts(batches + [first], campaign, queue[1..], outcomes[1..], day);
      assert batches + Written(campaign, true, queue, outcomes)
          == (batches + [first]) + Written(campaign, true, queue[1..], outcomes[1..]);
      TimesSnoc(batches, first, OfCampaign(campaign), true);
      CountSnoc(Times(batches, OfCampaign(campaign), true), outcomes[0].now, 0, day);
    }
  }

  const THREE_WORK: seq<Outcome> := [Outcome(true, 0), Outcome(true, 0), Outcome(true, 0)]

  /** A first read of one item that does not draft. */
  function Warm(c: Campaign): seq<Step> {
    [Open(0, c, 0, Feed(["0"], "")), Insert(0), Draft(0, false, 0), Close(0)]
  }

  function OpenThree(id: nat, c: Campaign, items: seq<string>): seq<Step> {
    [Open(id, c, 0, Feed(items, "")), Insert(id), Insert(id), Insert(id)]
  }

  function DraftThree(id: nat): seq<Step> {
    [Draft(id, true, 0), Draft(id, true, 0), Draft(id, true, 0)]
  }

  function Known(c: Campaign): Desk {
    Desk([], {Item(c, "0")}, map[c := ""], map[], 0)
  }

  lemma WarmInserts(c: Campaign)
    ensures var d1 := Apply(EMPTY, Open(0, c, 0, Feed(["0"], "")));
            var job := Job(c, 0, true, 3, true, [], ["0"], ["0"], Some(""));
            Apply(d1, Insert(0)) == Desk([], {Item(c, "0")}, map[], map[0 := job], 0)
  {
    var d1 := Apply(EMPTY, Open(0, c, 0, Feed(["0"], "")));
    assert d1.jobs[0] == Job(c, 0, true, 3, true, ["0"], [], [], Some(""));
    var job := Apply(d1, Insert(0)).jobs[0];
    assert job.toList == [] && job.unseen == ["0"];
    assert Apply(d1, Insert(0)).jobs == map[0 := job];
  }

  lemma WarmRuns(c: Campaign)
    ensures CanRun(EMPTY, Warm(c)) && Run(EMPTY, Warm(c)) == Known(c)
  {
    var steps := Warm(c);
    assert steps[1..] == [Insert(0), Draft(0, false, 0), Close(0)];
    assert steps[1..][1..] == [Draft(0, false, 0), Close(0)];
    assert steps[1..][1..][1..] == [Close(0)];
    assert steps[1..][1..][1..][1..] == [];
    WarmInserts(c);
    var d2 := Apply(Apply(EMPTY, steps[0]), Insert(0));
    var d3 := Apply(d2, Draft(0, false, 0));
    assert d3.jobs[0].queue == [];
    assert Apply(d3, Close(0)) == Known(c);
    assert CanRun(d3, [Close(0)]) && Run(d3, [Close(0)]) == Known(c);
    assert CanRun(d2, steps[1..][1..]) && Run(d2, steps[1..][1..]) == Known(c);
  }

  lemma OpeningThree(desk: Desk, id: nat, c: Campaign, items: seq<string>)
    requires desk.batches == [] && desk.clock == 0 && id !in desk.jobs
    requires !FirstRead(c, desk.seen) && |items| == 3 && AllUnseen(c, items, desk.seen)
    ensures CanRun(desk, OpenThree(id, c, items))
    ensures Run(desk, OpenThree(id, c, items))
         == desk.(seen := NowSeen(c, items, desk.seen),
                  jobs := desk.jobs[id := Job(c, 0, true, 3, false, [], items, items, Some(""))])
  {
    QueuesAllThree(desk, id, c, items);
    OpenedIsItsSteps(desk, id, c, 0, Feed(items, ""));
    assert OpenSteps(desk, id, c, 0, Feed(items, "")) == OpenThree(id, c, items);
  }

  lemma DraftingThree(desk: Desk, id: nat, c: Campaign)
    requires desk.clock == 0 && id in desk.jobs && desk.jobs[id].toList == [] && |desk.jobs[id].queue| == 3
    requires desk.jobs[id].campaign == c && desk.jobs[id].item
    ensures CanRun(desk, DraftThree(id))
    ensures var end := Run(desk, DraftThree(id));
      && end.jobs == desk.jobs[id := desk.jobs[id].(queue := [])] && end.clock == 0
      && OnDay(end.batches, OfCampaign(c), 0) == OnDay(desk.batches, OfCampaign(c), 0) + 3
  {
    DraftsWriteTheQueue(desk, id, THREE_WORK);
    assert Drafts(id, THREE_WORK) == DraftThree(id);
    WritingCounts(desk.batches, c, desk.jobs[id].queue, THREE_WORK, 0);
  }

  function OpenBoth(c: Campaign): seq<Step> {
    OpenThree(1, c, ["1", "2", "3"]) + OpenThree(2, c, ["4", "5", "6"])
  }

  lemma OpeningBoth(c: Campaign)
    ensures CanRun(Known(c), OpenBoth(c))
    ensures var two := Run(Known(c), OpenBoth(c));
      && two.batches == [] && two.clock == 0 && 1 in two.jobs && 2 in two.jobs
      && two.jobs[1] == Job(c, 0, true, 3, false, [], ["1", "2", "3"], ["1", "2", "3"], Some(""))
      && two.jobs[2] == Job(c, 0, true, 3, false, [], ["4", "5", "6"], ["4", "5", "6"], Some(""))
  {
    OpeningThree(Known(c), 1, c, ["1", "2", "3"]);
    var one := Run(Known(c), OpenThree(1, c, ["1", "2", "3"]));
    assert Item(c, "0") in one.seen;
    OpeningThree(one, 2, c, ["4", "5", "6"]);
    RunJoins(Known(c), OpenThree(1, c, ["1", "2", "3"]), OpenThree(2, c, ["4", "5", "6"]));
  }

  lemma DraftingBoth(two: Desk, c: Campaign)
    requires two.batches == [] && two.clock == 0 && 1 in two.jobs && 2 in two.jobs
    requires two.jobs[1].campaign == c && two.jobs[1].item && two.jobs[1].toList == [] && |two.jobs[1].queue| == 3
    requires two.jobs[2].campaign == c && two.jobs[2].item && two.jobs[2].toList == [] && |two.jobs[2].queue| == 3
    ensures CanRun(two, DraftThree(1) + DraftThree(2))
    ensures OnDay(Run(two, DraftThree(1) + DraftThree(2)).batches, OfCampaign(c), 0) == 6
  {
    DraftingThree(two, 1, c);
    DraftingThree(Run(two, DraftThree(1)), 2, c);
    RunJoins(two, DraftThree(1), DraftThree(2));
  }

  /** Two reads of one campaign, three new items each, both opened before either drafts. */
  function SixSteps(c: Campaign): seq<Step> {
    Warm(c) + (OpenBoth(c) + (DraftThree(1) + DraftThree(2)))
  }

  /** From empty tables: six batches of one campaign in one day. */
  lemma SixInADay(c: Campaign)
    ensures CanRun(EMPTY, SixSteps(c))
    ensures OnDay(Run(EMPTY, SixSteps(c)).batches, OfCampaign(c), 0) == 6
  {
    WarmRuns(c);
    OpeningBoth(c);
    DraftingBoth(Run(Known(c), OpenBoth(c)), c);
    RunJoins(Known(c), OpenBoth(c), DraftThree(1) + DraftThree(2));
    RunJoins(EMPTY, Warm(c), OpenBoth(c) + (DraftThree(1) + DraftThree(2)));
  }

  /** Two first reads of one feed, the second opened while the first has inserted only the newest item. */
  function FloodSteps(c: Campaign): seq<Step> {
    [Open(0, c, 0, Feed(["new", "old", "older"], "")), Insert(0)] + OpenThree(1, c, ["new", "old", "older"])
  }

  lemma OneInserted(c: Campaign)
    ensures var steps := [Open(0, c, 0, Feed(["new", "old", "older"], "")), Insert(0)];
      && CanRun(EMPTY, steps)
      && var desk := Run(EMPTY, steps);
         desk.batches == [] && desk.seen == {Item(c, "new")} && 1 !in desk.jobs && desk.clock == 0
  {
    var steps := [Open(0, c, 0, Feed(["new", "old", "older"], "")), Insert(0)];
    var listing := Apply(EMPTY, steps[0]);
    assert listing.jobs[0].toList[0] == "new";
    assert steps[1..][0] == steps[1] && steps[1..][1..] == [];
    assert Run(listing, steps[1..]) == Inserted(listing, 0);
  }

  lemma OldOnesAreFresh(c: Campaign)
    ensures Fresh(c, ["new", "old", "older"], {Item(c, "new")}) == ["old", "older"]
  {
    var items := ["new", "old", "older"];
    assert items[..2] == ["new", "old"] && items[..2][..1] == ["new"] && items[..2][..1][..0] == [];
    assert Fresh(c, ["new"], {Item(c, "new")}) == [];
    assert Fresh(c, ["new", "old"], {Item(c, "new")}) == ["old"];
  }

  /** The second of them queues the back catalogue. */
  lemma OverlappingFirstReadsFlood(c: Campaign)
    ensures CanRun(EMPTY, FloodSteps(c))
    ensures 1 in Run(EMPTY, FloodSteps(c)).jobs && Run(EMPTY, FloodSteps(c)).jobs[1].queue == ["old", "older"]
  {
    var steps := [Open(0, c, 0, Feed(["new", "old", "older"], "")), Insert(0)];
    OneInserted(c);
    var desk := Run(EMPTY, steps);
    var content := Feed(["new", "old", "older"], "");
    OpenedIsItsSteps(desk, 1, c, 0, content);
    assert OpenSteps(desk, 1, c, 0, content) == OpenThree(1, c, ["new", "old", "older"]);
    RunJoins(EMPTY, steps, OpenThree(1, c, ["new", "old", "older"]));
    OldOnesAreFresh(c);
  }

  class SourceReader {
    var batches: seq<Batch>
    var seen: set<Item>
    var fingerprints: map<Campaign, string>

    /** The tables between reads. */
    function State(clock: nat): Desk
      reads this
    {
      Desk(batches, seen, fingerprints, map[], clock)
    }

    method InsertUnseen(campaign: Campaign, items: seq<string>) returns (unseen: seq<string>)
      modifies this`seen
      ensures unseen == Fresh(campaign, items, old(seen)) && seen == NowSeen(campaign, items, old(seen))
    {
      unseen := [];
      var i := 0;
      while i < |items|
        invariant 0 <= i <= |items|
        invariant unseen == Fresh(campaign, items[..i], old(seen))
        invariant seen == NowSeen(campaign, items[..i], old(seen))
      {
        assert items[..i + 1][..i] == items[..i];
        assert Item(campaign, items[i]) in seen <==> Item(campaign, items[i]) in old(seen) || items[i] in items[..i];
        if Item(campaign, items[i]) !in seen {
          seen := seen + {Item(campaign, items[i])};
          unseen := unseen + [items[i]];
        }
        i := i + 1;
      }
      assert items[..i] == items;
    }

    /** Remembers what is listed and chooses what to draft, as opening a read and inserting its items does. */
    method OpenRead(campaign: Campaign, at: nat, content: Content) returns (queue: seq<string>)
      modifies this`seen
      ensures var begun := Opened(old(State(at)), 0, campaign, at, content);
              queue == begun.jobs[0].queue && seen == begun.seen
    {
      queue := [];
      if content.Unreadable? {
        return;
      }
      var room := DraftRoom(batches, campaign, at);
      if content.Feed? {
        var firstRead := FirstRead(campaign, seen);
        var unseen := InsertUnseen(campaign, Take(content.items, ITEMS_READ));
        queue := Take(if firstRead then Take(unseen, 1) else unseen, room);
      } else if Changed(fingerprints, campaign, content.fingerprint) && room > 0 {
        queue := [content.source];
      }
    }

    method DraftQueue(campaign: Campaign, item: bool, queue: seq<string>, outcomes: seq<Outcome>) returns (drafted: nat)
      requires |outcomes| == |queue|
      modifies this`batches
      ensures batches == old(batches) + Written(campaign, item, queue, outcomes)
      ensures |batches| == |old(batches)| + drafted
    {
      drafted := 0;
      var i := 0;
      while i < |queue|
        invariant 0 <= i <= |queue|
        invariant batches + Written(campaign, item, queue[i..], outcomes[i..])
               == old(batches) + Written(campaign, item, queue, outcomes)
        invariant |batches| == |old(batches)| + drafted
      {
        assert queue[i..][1..] == queue[i + 1..] && outcomes[i..][1..] == outcomes[i + 1..];
        if outcomes[i].works {
          batches := batches + [Batch(campaign, queue[i], item, true, outcomes[i].now)];
          drafted := drafted + 1;
        }
        i := i + 1;
      }
    }

    /** One whole read: what it writes is what its steps write. */
    method CheckCampaignSource(campaign: Campaign, at: nat, content: Content, outcomes: seq<Outcome>)
      returns (drafted: nat)
      requires |outcomes| == |Opened(State(at), 0, campaign, at, content).jobs[0].queue|
      modifies this
      ensures batches == AfterDrafts(Opened(old(State(at)), 0, campaign, at, content), 0, outcomes).batches
      ensures seen == Opened(old(State(at)), 0, campaign, at, content).seen
      ensures fingerprints
           == if content.Unreadable? then old(fingerprints) else old(fingerprints)[campaign := content.fingerprint]
      ensures |batches| == |old(batches)| + drafted
    {
      var queue := OpenRead(campaign, at, content);
      drafted := DraftQueue(campaign, content.Feed?, queue, outcomes);
      if !content.Unreadable? {
        fingerprints := fingerprints[campaign := content.fingerprint];
      }
    }
  }
}
