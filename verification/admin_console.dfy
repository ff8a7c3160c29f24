/**
 * The admin request console (admin-script.js): an in-memory cache of
 * organization requests (`allRequests`), the counts and filter derived from
 * it, and the approve/reject actions that write to the document store and
 * then patch the cached entry in place.
 *
 * The document store is the class `Store` below; its writes may fail (the
 * outcome is chosen nondeterministically), which stands for every exception
 * the awaited `updateDoc`/`setDoc` calls can throw. Time is one integer
 * `now`, in milliseconds, passed to each action.
 */
module AdminConsole {
  import opened JsValues

  /** 30 days in milliseconds, as the approval computes the trial end. */
  const TrialMillis: int := 30 * 24 * 60 * 60 * 1000

  /** The placeholder reviewer identity written by both actions. */
  const AdminId: string := "admin"

  const DefaultRejectionReason: string := "No reason provided"

  const PremiumTrial: string := "premium_trial"

  /** One organization request, as cached (`{id: doc.id, ...doc.data()}`)
      and as stored. Only the fields the console reads or writes are kept. */
  datatype Request = Request(
    id: string,
    orgName: string,
    orgType: string,
    contactEmail: string,
    status: string,
    currentTier: Option<string>,
    approvedAt: Option<int>,
    approvedBy: Option<string>,
    trialStartDate: Option<int>,
    trialEndDate: Option<int>,
    rejectedAt: Option<int>,
    rejectedBy: Option<string>,
    rejectionReason: Option<string>)

  /** The user document written under the contact email on approval. */
  datatype UserRecord = UserRecord(
    email: string,
    organizationName: string,
    organizationType: string,
    currentTier: string,
    trialStartDate: int,
    trialEndDate: int,
    subscriptionStatus: string,
    createdAt: int,
    lastLoginAt: int)

  // ---------------------------------------------------------------------
  // Counts and filter (updateStats, filterRequests)
  // ---------------------------------------------------------------------

  /** The two tests the console filters by: `req.status === s` and
      `req.currentTier === t`. */
  datatype Criterion = ByStatus(status: string) | ByTier(tier: string)

  predicate Holds(c: Criterion, r: Request) {
    match c
    case ByStatus(s) => r.status == s
    case ByTier(t) => r.currentTier == Some(t)
  }

  /** `rs.filter(c)`: the entries satisfying `c`, in cache order. */
  function Where(rs: seq<Request>, c: Criterion): (sel: seq<Request>)
    ensures |sel| <= |rs|
  {
    if rs == [] then []
    else if Holds(c, rs[0]) then [rs[0]] + Where(rs[1..], c)
    else Where(rs[1..], c)
  }

  /** The selected entries are exactly the cached entries satisfying `c`. */
  lemma {:induction false} WhereMembers(rs: seq<Request>, c: Criterion)
    ensures forall r | r in Where(rs, c) :: r in rs && Holds(c, r)
    ensures forall r | r in rs && Holds(c, r) :: r in Where(rs, c)
  {
    if rs != [] {
      WhereMembers(rs[1..], c);
      assert forall r | r in rs :: r == rs[0] || r in rs[1..];
    }
  }

  /** Filtering distributes over concatenation: it keeps the cache order. */
  lemma {:induction false} WhereAppend(a: seq<Request>, b: seq<Request>, c: Criterion)
    ensures Where(a + b, c) == Where(a, c) + Where(b, c)
  {
    if a == [] {
      assert a + b == b;
    } else {
      var ab := a + b;
      assert ab[0] == a[0];
      assert ab[1..] == a[1..] + b;
      WhereAppend(a[1..], b, c);
      if Holds(c, a[0]) {
        assert Where(ab, c) == [a[0]] + Where(a[1..] + b, c);
        assert Where(a, c) == [a[0]] + Where(a[1..], c);
      } else {
        assert Where(ab, c) == Where(a[1..] + b, c);
      }
    }
  }

  /** Filtering keeps every matching entry as often as it occurs and drops
      every other one. */
  lemma {:induction false} WhereMultiset(rs: seq<Request>, c: Criterion, r: Request)
    ensures multiset(Where(rs, c))[r] == if Holds(c, r) then multiset(rs)[r] else 0
  {
    if rs != [] {
      WhereMultiset(rs[1..], c, r);
      assert rs == [rs[0]] + rs[1..];
      assert multiset(rs) == multiset([rs[0]]) + multiset(rs[1..]);
    }
  }

  /** Replacing one entry changes a count by what the old entry and the new
      one contribute to it, and by nothing else. */
  lemma {:induction false} WhereUpdateCount(rs: seq<Request>, i: int, r: Request, c: Criterion)
    requires 0 <= i < |rs|
    ensures |Where(rs[i := r], c)|
         == |Where(rs, c)| - (if Holds(c, rs[i]) then 1 else 0) + (if Holds(c, r) then 1 else 0)
  {
    if i == 0 {
      assert rs[i := r][1..] == rs[1..];
    } else {
      assert rs[i := r][0] == rs[0];
      assert rs[i := r][1..] == rs[1..][i - 1 := r];
      WhereUpdateCount(rs[1..], i - 1, r, c);
    }
  }

  /** The four numbers on the dashboard. */
  datatype Stats = Stats(pending: nat, approved: nat, rejected: nat, trial: nat)

  /** updateStats: three status counts and the premium-trial count. */
  function StatsOf(rs: seq<Request>): (s: Stats)
    ensures s.pending + s.approved + s.rejected <= |rs|
  {
    var pending := Where(rs, ByStatus("pending"));
    var approved := Where(rs, ByStatus("approved"));
    var rejected := Where(rs, ByStatus("rejected"));
    StatusCountsBounded(rs);
    Stats(|pending|, |approved|, |rejected|, |Where(rs, ByTier(PremiumTrial))|)
  }

  /** The three status counts partition (part of) the cache. */
  lemma {:induction false} StatusCountsBounded(rs: seq<Request>)
    ensures |Where(rs, ByStatus("pending"))| + |Where(rs, ByStatus("approved"))|
          + |Where(rs, ByStatus("rejected"))| <= |rs|
  {
    if rs != [] {
      StatusCountsBounded(rs[1..]);
    }
  }

  /** filterRequests: `'all'` shows the whole cache, any other value the
      entries whose status equals it. */
  function Filtered(rs: seq<Request>, filter: string): (shown: seq<Request>)
    ensures filter == "all" ==> shown == rs
    ensures filter != "all" ==> forall r | r in shown :: r in rs && r.status == filter
    ensures filter != "all" ==> forall r | r in rs && r.status == filter :: r in shown
    ensures filter != "all" ==> shown == Where(rs, ByStatus(filter))
  {
    WhereMembers(rs, ByStatus(filter));
    if filter == "all" then rs else Where(rs, ByStatus(filter))
  }

  // ---------------------------------------------------------------------
  // Which request an action refers to
  // ---------------------------------------------------------------------

  /** What the action handler receives as `requestId`: nothing, the
      `data-request-id` string of a row button, or (when the handler is
      registered directly as a click listener) the click event itself. */
  datatype IdArgument = Omitted | Given(text: string) | ClickEvent

  /** The value `id` ends up holding. */
  datatype IdValue = Undefined | Text(s: string) | EventObject

  /** `requestId || document.getElementById(..).dataset.requestId`: a
      missing or empty argument falls back to the id stored on the modal
      buttons; an event object is truthy and is kept. */
  function ResolveId(arg: IdArgument, dataset: Option<string>): (id: IdValue)
    ensures arg.Given? && arg.text != "" ==> id == Text(arg.text)
    ensures arg.ClickEvent? ==> id == EventObject
    ensures (arg.Omitted? || arg == Given("")) && dataset.None? ==> id == Undefined
    ensures (arg.Omitted? || arg == Given("")) && dataset.Some? ==> id == Text(dataset.value)
  {
    match arg
    case Given(s) =>
      if s != "" then Text(s) else FromDataset(dataset)
    case ClickEvent => EventObject
    case Omitted => FromDataset(dataset)
  }

  function FromDataset(dataset: Option<string>): IdValue {
    match dataset
    case Some(s) => Text(s)
    case None => Undefined
  }

  /** `if (!id) return;` lets through non-empty strings and objects. */
  predicate Truthy(id: IdValue)
    ensures !Truthy(id) <==> id == Undefined || id == Text("")
  {
    match id
    case Undefined => false
    case Text(s) => s != ""
    case EventObject => true
  }

  /** `req.id === id`: strict equality, so only a string can match. */
  predicate Matches(id: IdValue, r: Request)
    ensures Matches(id, r) ==> id.Text? && id.s == r.id
    ensures id.Text? && id.s == r.id ==> Matches(id, r)
    ensures id.EventObject? || id.Undefined? ==> !Matches(id, r)
  {
    id == Text(r.id)
  }

  /** `findIndex(req => req.id === id)`; `find` returns the entry at this
      index, or `undefined` when it is -1. */
  function FindIndex(rs: seq<Request>, id: IdValue): (k: int)
    ensures -1 <= k < |rs|
    ensures k >= 0 ==> Matches(id, rs[k]) && forall j | 0 <= j < k :: !Matches(id, rs[j])
    ensures k < 0 ==> forall j | 0 <= j < |rs| :: !Matches(id, rs[j])
  {
    if rs == [] then -1
    else if Matches(id, rs[0]) then 0
    else
      var k := FindIndex(rs[1..], id);
      if k < 0 then -1 else k + 1
  }

  /** The event object a directly registered listener receives is never
      equal to a cached id, whatever the modal shows. */
  lemma ClickEventFindsNothing(rs: seq<Request>, dataset: Option<string>)
    ensures Truthy(ResolveId(ClickEvent, dataset))
    ensures FindIndex(rs, ResolveId(ClickEvent, dataset)) == -1
  {
  }

  /** With no argument, the handler acts on the request the modal shows. */
  lemma OmittedFindsShownRequest(rs: seq<Request>, shown: string)
    requires shown != "" && FindIndex(rs, Text(shown)) >= 0
    ensures Truthy(ResolveId(Omitted, Some(shown)))
    ensures FindIndex(rs, ResolveId(Omitted, Some(shown))) == FindIndex(rs, Text(shown))
    ensures rs[FindIndex(rs, ResolveId(Omitted, Some(shown)))].id == shown
  {
  }

  // ---------------------------------------------------------------------
  // What approve and reject write
  // ---------------------------------------------------------------------

  /** The two `updateDoc` patches of the request document. */
  datatype RequestPatch =
    | ApprovalPatch(at: int)
    | RejectionPatch(at: int, reason: string)

  /** The stored request document after `updateDoc` merges a patch: the
      patched fields take their new values and every other field of the
      document survives, so an approval keeps an earlier rejection's fields
      and a rejection keeps an earlier approval's tier and trial. */
  function Patched(r: Request, p: RequestPatch): (q: Request)
    ensures q.id == r.id && q.orgName == r.orgName && q.orgType == r.orgType
         && q.contactEmail == r.contactEmail
    ensures p.ApprovalPatch? ==>
         && q.status == "approved" && q.currentTier == Some(PremiumTrial)
         && q.approvedAt == Some(p.at) && q.approvedBy == Some(AdminId)
         && q.trialStartDate == Some(p.at) && q.trialEndDate == Some(p.at + TrialMillis)
         && q.rejectedAt == r.rejectedAt && q.rejectedBy == r.rejectedBy
         && q.rejectionReason == r.rejectionReason
    ensures p.RejectionPatch? ==>
         && q.status == "rejected" && q.rejectionReason == Some(p.reason)
         && q.rejectedAt == Some(p.at) && q.rejectedBy == Some(AdminId)
         && q.currentTier == r.currentTier && q.approvedAt == r.approvedAt
         && q.approvedBy == r.approvedBy
         && q.trialStartDate == r.trialStartDate && q.trialEndDate == r.trialEndDate
  {
    match p
    case ApprovalPatch(now) =>
      r.(status := "approved", approvedAt := Some(now), approvedBy := Some(AdminId),
         currentTier := Some(PremiumTrial),
         trialStartDate := Some(now), trialEndDate := Some(now + TrialMillis))
    case RejectionPatch(now, reason) =>
      r.(status := "rejected", rejectedAt := Some(now), rejectedBy := Some(AdminId),
         rejectionReason := Some(reason))
  }

  /** The user document `setDoc` writes under the request's contact email. */
  function TrialUser(r: Request, now: int): (u: UserRecord)
    ensures u.email == r.contactEmail
    ensures u.trialEndDate - u.trialStartDate == TrialMillis
    ensures u.createdAt == now && u.lastLoginAt == now && u.trialStartDate == now
  {
    UserRecord(r.contactEmail, r.orgName, r.orgType, PremiumTrial, now, now + TrialMillis,
               "trial", now, now)
  }

  /** The four fields approve sets on the cached entry; the cached trial
      dates are not updated, and nothing else changes either. */
  function MarkApproved(r: Request, now: int): (q: Request)
    ensures q.id == r.id && q.orgName == r.orgName && q.orgType == r.orgType
         && q.contactEmail == r.contactEmail
    ensures q.status == "approved" && q.currentTier == Some(PremiumTrial)
    ensures q.approvedAt == Some(now) && q.approvedBy == Some(AdminId)
    ensures q.trialStartDate == r.trialStartDate && q.trialEndDate == r.trialEndDate
    ensures q.rejectedAt == r.rejectedAt && q.rejectedBy == r.rejectedBy
         && q.rejectionReason == r.rejectionReason
  {
    r.(status := "approved", currentTier := Some(PremiumTrial),
       approvedAt := Some(now), approvedBy := Some(AdminId))
  }

  /** `reason || 'No reason provided'`: `null` (prompt cancelled) and the
      empty string both fall back to the default. */
  function ReasonOrDefault(reason: Option<string>): (text: string)
    ensures text != ""
    ensures reason.Some? && reason.value != "" ==> text == reason.value
    ensures reason.None? || reason == Some("") ==> text == DefaultRejectionReason
  {
    if reason.Some? && reason.value != "" then reason.value else DefaultRejectionReason
  }

  /** The four fields reject sets on the cached entry; the tier, the
      approval fields and the trial dates are left as they were. */
  function MarkRejected(r: Request, reason: Option<string>, now: int): (q: Request)
    ensures q.id == r.id && q.orgName == r.orgName && q.orgType == r.orgType
         && q.contactEmail == r.contactEmail
    ensures q.status == "rejected" && q.rejectedAt == Some(now) && q.rejectedBy == Some(AdminId)
    ensures q.rejectionReason == Some(ReasonOrDefault(reason)) && q.rejectionReason.value != ""
    ensures q.currentTier == r.currentTier && q.approvedAt == r.approvedAt
         && q.approvedBy == r.approvedBy
         && q.trialStartDate == r.trialStartDate && q.trialEndDate == r.trialEndDate
  {
    r.(status := "rejected", rejectedAt := Some(now), rejectedBy := Some(AdminId),
       rejectionReason := Some(ReasonOrDefault(reason)))
  }

  /** Both documents approve writes end the trial 2,592,000,000 ms (30 days)
      after `now`, and the user record carries the request's organization. */
  lemma ApprovalTrialEnd(r: Request, now: int)
    ensures Patched(r, ApprovalPatch(now)).trialEndDate == Some(now + 2592000000)
    ensures Patched(r, ApprovalPatch(now)).trialStartDate == Some(now)
    ensures var u := TrialUser(r, now);
      && u.trialEndDate == now + 2592000000 && u.trialEndDate - u.trialStartDate == TrialMillis
      && u.email == r.contactEmail && u.organizationName == r.orgName
      && u.organizationType == r.orgType
      && u.currentTier == "premium_trial" && u.subscriptionStatus == "trial"
  {
  }

  /** The cached entry after approve agrees with the stored document on
      every field except the trial dates: the cache keeps whatever dates it
      had, and only the store receives the new ones. */
  lemma CachedApprovalKeepsTrialDates(r: Request, now: int)
    ensures Patched(r, ApprovalPatch(now))
         == MarkApproved(r, now).(trialStartDate := Some(now), trialEndDate := Some(now + TrialMillis))
    ensures MarkApproved(r, now).trialStartDate == r.trialStartDate
    ensures MarkApproved(r, now).trialEndDate == r.trialEndDate
  {
  }

  /** The cached entry after reject equals the stored document. */
  lemma CachedRejectionMatchesStore(r: Request, reason: Option<string>, now: int)
    ensures MarkRejected(r, reason, now) == Patched(r, RejectionPatch(now, ReasonOrDefault(reason)))
    ensures MarkRejected(r, reason, now).currentTier == r.currentTier
  {
  }

  /** Approving does not look at the current status: whatever state the
      entry was in, it ends approved on a premium trial. Approving twice is
      approving once, with the later time. */
  lemma ApproveIgnoresStatus(r: Request, t1: int, t2: int)
    ensures MarkApproved(r, t1).status == "approved"
    ensures MarkApproved(r, t1).currentTier == Some("premium_trial")
    ensures MarkApproved(MarkApproved(r, t1), t2) == MarkApproved(r, t2)
  {
  }

  /** Approving a pending entry that is not already on a trial: pending −1,
      approved +1, trial +1, rejected unchanged. */
  lemma ApprovePendingStats(rs: seq<Request>, i: int, now: int)
    requires 0 <= i < |rs|
    requires rs[i].status == "pending" && rs[i].currentTier != Some(PremiumTrial)
    ensures var before, after := StatsOf(rs), StatsOf(rs[i := MarkApproved(rs[i], now)]);
      && after.pending == before.pending - 1
      && after.approved == before.approved + 1
      && after.rejected == before.rejected
      && after.trial == before.trial + 1
  {
    var r := MarkApproved(rs[i], now);
    WhereUpdateCount(rs, i, r, ByStatus("pending"));
    WhereUpdateCount(rs, i, r, ByStatus("approved"));
    WhereUpdateCount(rs, i, r, ByStatus("rejected"));
    WhereUpdateCount(rs, i, r, ByTier(PremiumTrial));
  }

  /** Approving an entry that is already approved on a trial leaves the
      counts as they were. */
  lemma ReapproveStats(rs: seq<Request>, i: int, now: int)
    requires 0 <= i < |rs|
    requires rs[i].status == "approved" && rs[i].currentTier == Some(PremiumTrial)
    ensures StatsOf(rs[i := MarkApproved(rs[i], now)]) == StatsOf(rs)
  {
    var r := MarkApproved(rs[i], now);
    WhereUpdateCount(rs, i, r, ByStatus("pending"));
    WhereUpdateCount(rs, i, r, ByStatus("approved"));
    WhereUpdateCount(rs, i, r, ByStatus("rejected"));
    WhereUpdateCount(rs, i, r, ByTier(PremiumTrial));
  }

  /** Rejecting a pending entry: pending −1, rejected +1, the others
      unchanged (the tier is left as it was). */
  lemma RejectPendingStats(rs: seq<Request>, i: int, reason: Option<string>, now: int)
    requires 0 <= i < |rs|
    requires rs[i].status == "pending"
    ensures var before, after := StatsOf(rs), StatsOf(rs[i := MarkRejected(rs[i], reason, now)]);
      && after.pending == before.pending - 1
      && after.approved == before.approved
      && after.rejected == before.rejected + 1
      && after.trial == before.trial
  {
    var r := MarkRejected(rs[i], reason, now);
    WhereUpdateCount(rs, i, r, ByStatus("pending"));
    WhereUpdateCount(rs, i, r, ByStatus("approved"));
    WhereUpdateCount(rs, i, r, ByStatus("rejected"));
    WhereUpdateCount(rs, i, r, ByTier(PremiumTrial));
  }

  // ---------------------------------------------------------------------
  // The document store
  // ---------------------------------------------------------------------

  /** The two collections the console writes: `organizationRequests` keyed
      by document id and `users` keyed by email. Every write may fail. */
  class Store {
    var requests: map<string, Request>
    var users: map<string, UserRecord>

    constructor(requests: map<string, Request>, users: map<string, UserRecord>)
      ensures this.requests == requests && this.users == users
    {
      this.requests := requests;
      this.users := users;
    }

    /** `updateDoc`: merges the patch into an existing document; it fails
        when the document does not exist, and may fail for any other
        reason, leaving the collection as it was. */
    method UpdateRequest(id: string, patch: RequestPatch) returns (ok: bool)
      modifies this`requests
      ensures ok ==> id in old(requests) && requests == old(requests)[id := Patched(old(requests)[id], patch)]
      ensures !ok ==> requests == old(requests)
    {
      if id in requests {
        ok :| true;
        if ok {
          requests := requests[id := Patched(requests[id], patch)];
        }
      } else {
        ok := false;
      }
    }

    /** `setDoc`: replaces the whole document under `email`, or fails and
        leaves the collection as it was. */
    method SetUser(email: string, user: UserRecord) returns (ok: bool)
      modifies this`users
      ensures ok ==> users == old(users)[email := user]
      ensures !ok ==> users == old(users)
    {
      ok :| true;
      if ok {
        users := users[email := user];
      }
    }
  }

  // ---------------------------------------------------------------------
  // The console
  // ---------------------------------------------------------------------

  /** What `getDocs` gave `loadOrganizationRequests`: no database handle,
      a thrown error, or the documents ordered by submission time. */
  datatype QueryResult = NoDatabase | QueryError | Snapshot(docs: seq<Request>)

  /** How an action ended: returned early (no id, id not cached), caught an
      error from the first or the second write, or completed. */
  datatype Outcome = NoId | NotCached | RequestWriteFailed | UserWriteFailed | Done

  class Console {
    /** `allRequests` */
    var requests: seq<Request>
    /** `currentFilter` */
    var currentFilter: string
    /** `data-request-id` on the modal's approve and reject buttons */
    var modalRequestId: Option<string>
    /** `window.db` */
    const db: Store

    constructor(db: Store)
      ensures this.db == db
      ensures requests == [] && currentFilter == "all" && modalRequestId == None
    {
      this.db := db;
      requests := [];
      currentFilter := "all";
      modalRequestId := None;
    }

    /** loadOrganizationRequests: on success the cache is replaced by the
        query's documents, in order; on any failure it is left alone. */
    method Reload(result: QueryResult)
      modifies this`requests
      ensures result.Snapshot? ==> requests == result.docs
      ensures !result.Snapshot? ==> requests == old(requests)
    {
      if result.Snapshot? {
        var docs := result.docs;
        requests := [];
        var k := 0;
        while k < |docs|
          invariant 0 <= k <= |docs|
          invariant requests == docs[..k]
        {
          requests := requests + [docs[k]];
          k := k + 1;
        }
      }
    }

    /** The status filter's change listener. */
    method SelectFilter(value: string) returns (shown: seq<Request>)
      modifies this`currentFilter
      ensures currentFilter == value
      ensures shown == Filtered(requests, value)
    {
      currentFilter := value;
      shown := Filtered(requests, currentFilter);
    }

    /** showRequestDetails: only an id found in the cache is remembered on
        the modal buttons. */
    method ShowDetails(requestId: string)
      modifies this`modalRequestId
      ensures FindIndex(requests, Text(requestId)) >= 0 ==> modalRequestId == Some(requestId)
      ensures FindIndex(requests, Text(requestId)) < 0 ==> modalRequestId == old(modalRequestId)
    {
      if FindIndex(requests, Text(requestId)) >= 0 {
        modalRequestId := Some(requestId);
      }
    }

    /** approveRequest. No status is checked: any cached entry can be
        approved. The cache changes only after both writes succeeded. */
    method Approve(arg: IdArgument, now: int) returns (outcome: Outcome)
      modifies this`requests, db
      ensures outcome == NoId <==> !Truthy(ResolveId(arg, modalRequestId))
      ensures outcome == NotCached
          <==> Truthy(ResolveId(arg, modalRequestId)) && FindIndex(old(requests), ResolveId(arg, modalRequestId)) < 0
      ensures outcome in {NoId, NotCached, RequestWriteFailed} ==>
        requests == old(requests) && db.requests == old(db.requests) && db.users == old(db.users)
      ensures outcome == UserWriteFailed ==>
        var i := FindIndex(old(requests), ResolveId(arg, modalRequestId));
        && 0 <= i < |old(requests)|
        && requests == old(requests)
        && old(requests)[i].id in old(db.requests)
        && db.requests == old(db.requests)[old(requests)[i].id := Patched(old(db.requests)[old(requests)[i].id], ApprovalPatch(now))]
        && db.users == old(db.users)
      ensures outcome == Done ==>
        var i := FindIndex(old(requests), ResolveId(arg, modalRequestId));
        && 0 <= i < |old(requests)|
        && requests == old(requests)[i := MarkApproved(old(requests)[i], now)]
        && old(requests)[i].id in old(db.requests)
        && db.requests == old(db.requests)[old(requests)[i].id := Patched(old(db.requests)[old(requests)[i].id], ApprovalPatch(now))]
        && db.users == old(db.users)[old(requests)[i].contactEmail := TrialUser(old(requests)[i], now)]
    {
      var id := ResolveId(arg, modalRequestId);
      if !Truthy(id) {
        return NoId;
      }
      var found := FindIndex(requests, id);
      if found < 0 {
        return NotCached;
      }
      var request := requests[found];
      var ok := db.UpdateRequest(request.id, ApprovalPatch(now));
      if !ok {
        return RequestWriteFailed;
      }
      ok := db.SetUser(request.contactEmail, TrialUser(request, now));
      if !ok {
        return UserWriteFailed;
      }
      var i := FindIndex(requests, id);
      if i != -1 {
        requests := requests[i := MarkApproved(requests[i], now)];
      }
      return Done;
    }

    /** rejectRequest. The prompt's answer is `reason` (`None` when it was
        cancelled, which still rejects). No user record is written. */
    method Reject(arg: IdArgument, reason: Option<string>, now: int) returns (outcome: Outcome)
      modifies this`requests, db
      ensures outcome != UserWriteFailed
      ensures outcome == NoId <==> !Truthy(ResolveId(arg, modalRequestId))
      ensures outcome == NotCached
          <==> Truthy(ResolveId(arg, modalRequestId)) && FindIndex(old(requests), ResolveId(arg, modalRequestId)) < 0
      ensures db.users == old(db.users)
      ensures outcome in {NoId, NotCached, RequestWriteFailed} ==>
        requests == old(requests) && db.requests == old(db.requests)
      ensures outcome == Done ==>
        var i := FindIndex(old(requests), ResolveId(arg, modalRequestId));
        && 0 <= i < |old(requests)|
        && requests == old(requests)[i := MarkRejected(old(requests)[i], reason, now)]
        && old(requests)[i].id in old(db.requests)
        && db.requests == old(db.requests)[old(requests)[i].id :=
             Patched(old(db.requests)[old(requests)[i].id], RejectionPatch(now, ReasonOrDefault(reason)))]
    {
      var id := ResolveId(arg, modalRequestId);
      if !Truthy(id) {
        return NoId;
      }
      var found := FindIndex(requests, id);
      if found < 0 {
        return NotCached;
      }
      var request := requests[found];
      var ok := db.UpdateRequest(request.id, RejectionPatch(now, ReasonOrDefault(reason)));
      if !ok {
        return RequestWriteFailed;
      }
      var i := FindIndex(requests, id);
      if i != -1 {
        requests := requests[i := MarkRejected(requests[i], reason, now)];
      }
      return Done;
    }

    /** The modal's approve button as registered:
        `addEventListener('click', approveRequest)` hands the click event to
        `approveRequest` as its `requestId`, so nothing is ever approved. */
    method ClickModalApprove(now: int) returns (outcome: Outcome)
      modifies this`requests, db
      ensures outcome == NotCached
      ensures requests == old(requests) && db.requests == old(db.requests) && db.users == old(db.users)
    {
      ClickEventFindsNothing(requests, modalRequestId);
      outcome := Approve(ClickEvent, now);
    }

    /** The modal's approve button calling `approveRequest()` with no
        argument, so that it acts on the request the modal shows. */
    method ClickModalApproveIntended(now: int) returns (outcome: Outcome)
      modifies this`requests, db
      ensures modalRequestId.Some? && modalRequestId.value != ""
              && FindIndex(old(requests), Text(modalRequestId.value)) >= 0 ==>
        outcome !in {NoId, NotCached}
        && (outcome == Done ==>
              var i := FindIndex(old(requests), Text(modalRequestId.value));
              var id := modalRequestId.value;
              && old(requests)[i].id == id
              && requests == old(requests)[i := MarkApproved(old(requests)[i], now)]
              && id in old(db.requests)
              && db.requests == old(db.requests)[id := Patched(old(db.requests)[id], ApprovalPatch(now))]
              && db.users == old(db.users)[old(requests)[i].contactEmail := TrialUser(old(requests)[i], now)])
    {
      outcome := Approve(Omitted, now);
    }

    /** The modal's reject button as registered: the click event is the
        `requestId`, so nothing is rejected and the prompt never appears. */
    method ClickModalReject(reason: Option<string>, now: int) returns (outcome: Outcome)
      modifies this`requests, db
      ensures outcome == NotCached
      ensures requests == old(requests) && db.requests == old(db.requests) && db.users == old(db.users)
    {
      ClickEventFindsNothing(requests, modalRequestId);
      outcome := Reject(ClickEvent, reason, now);
    }

    /** The modal's reject button calling `rejectRequest()` with no argument. */
    method ClickModalRejectIntended(reason: Option<string>, now: int) returns (outcome: Outcome)
      modifies this`requests, db
      ensures modalRequestId.Some? && modalRequestId.value != ""
              && FindIndex(old(requests), Text(modalRequestId.value)) >= 0 ==>
        outcome !in {NoId, NotCached}
        && (outcome == Done ==>
              var i := FindIndex(old(requests), Text(modalRequestId.value));
              var id := modalRequestId.value;
              && old(requests)[i].id == id
              && requests == old(requests)[i := MarkRejected(old(requests)[i], reason, now)]
              && id in old(db.requests)
              && db.requests == old(db.requests)[id :=
                   Patched(old(db.requests)[id], RejectionPatch(now, ReasonOrDefault(reason)))]
              && db.users == old(db.users))
    {
      outcome := Reject(Omitted, reason, now);
    }
  }

  // ---------------------------------------------------------------------
  // Display labels (formatOrgType, formatUseCase)
  // ---------------------------------------------------------------------

  const OrgTypeLabels: map<string, string> := map[
    "school" := "School",
    "church" := "Church",
    "town-hall" := "Town Hall",
    "community-center" := "Community Center",
    "non-profit" := "Non-Profit",
    "business" := "Business",
    "other" := "Other"]

  const UseCaseLabels: map<string, string> := map[
    "emergency-alerts" := "Emergency Alerts",
    "event-notifications" := "Event Notifications",
    "schedule-changes" := "Schedule Changes",
    "general-announcements" := "General Announcements",
    "multiple" := "Multiple Use Cases"]

  /** `table[key] || key`: the label of a listed key, any other input as it
      is (every label is non-empty, so the fallback never hides a label). */
  function Label(table: map<string, string>, key: string): (text: string)
    ensures key in table && table[key] != "" ==> text == table[key]
    ensures key !in table ==> text == key
    ensures key in table && table[key] == "" ==> text == key
  {
    if key in table && table[key] != "" then table[key] else key
  }

  function FormatOrgType(orgType: string): (text: string)
    ensures orgType in OrgTypeLabels ==> text == OrgTypeLabels[orgType]
    ensures orgType !in OrgTypeLabels ==> text == orgType
  {
    Label(OrgTypeLabels, orgType)
  }

  function FormatUseCase(useCase: string): (text: string)
    ensures useCase in UseCaseLabels ==> text == UseCaseLabels[useCase]
    ensures useCase !in UseCaseLabels ==> text == useCase
  {
    Label(UseCaseLabels, useCase)
  }

  /** No label is itself a key, so formatting twice is formatting once, and
      a custom type entered for "other" is shown as typed. */
  lemma FormatIdempotent(orgType: string, useCase: string)
    ensures FormatOrgType(FormatOrgType(orgType)) == FormatOrgType(orgType)
    ensures FormatUseCase(FormatUseCase(useCase)) == FormatUseCase(useCase)
    ensures FormatOrgType("Veterans Hall") == "Veterans Hall"
  {
  }
}
