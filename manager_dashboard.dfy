/**
 * The manager's review dashboard: a list of artist submissions with a
 * three-valued review status, a search box, approve / reject / delete
 * actions, a refresh from the seed dataset and the status counters.
 */
module ManagerDashboard {
  import opened Wrappers
  import opened Text
  import opened Seqs

  datatype Status = Pending | Approved | Rejected

  datatype Submission = Submission(
    id: int,
    name: string,
    category: string,
    city: string,
    fee: string,
    status: Status,
    submittedAt: string,
    email: string,
    phone: string)

  datatype AlertKind = SuccessAlert | ErrorAlert

  /** The banner shown above the table. */
  datatype Alert = Alert(kind: AlertKind, message: string)

  // ---------------------------------------------------------------------
  // Search
  // ---------------------------------------------------------------------

  /** The lower-cased term occurs in the lower-cased name, category, city or e-mail. */
  predicate SearchHit(term: string, s: Submission) {
    var t := Lower(term);
    Contains(Lower(s.name), t) || Contains(Lower(s.category), t)
      || Contains(Lower(s.city), t) || Contains(Lower(s.email), t)
  }

  /** The filter callback of the search effect. */
  function Matching(term: string): Submission -> bool {
    (s: Submission) => SearchHit(term, s)
  }

  /**
   * The search effect: a blank term shows every submission; otherwise the term
   * is matched as typed (lower-cased but not trimmed).
   */
  function SearchFilter(list: seq<Submission>, term: string): (r: seq<Submission>)
    ensures IsBlank(term) ==> r == list
    ensures IsSubsequence(r, list)
    ensures !IsBlank(term) ==> forall s :: multiset(r)[s] == if SearchHit(term, s) then multiset(list)[s] else 0
  {
    FilterIsSubsequence(list, Matching(term));
    FilterCounts(list, Matching(term));
    SubsequenceReflexive(list);
    if IsBlank(term) then list else Filter(list, Matching(term))
  }

  /** Under a non-blank term a submission is shown iff it is listed and matches. */
  lemma SearchMembership(list: seq<Submission>, term: string, s: Submission)
    requires !IsBlank(term)
    ensures s in SearchFilter(list, term) <==> s in list && SearchHit(term, s)
  {
    var r := SearchFilter(list, term);
    if s in r {
      var i :| 0 <= i < |r| && r[i] == s;
    }
    if s in list && SearchHit(term, s) {
      var i :| 0 <= i < |list| && list[i] == s;
    }
  }

  predicate NoSpace(s: string) {
    forall i :: 0 <= i < |s| ==> s[i] != ' '
  }

  /** Lower-casing neither removes nor introduces spaces. */
  lemma LowerKeepsSpaces(s: string)
    ensures NoSpace(s) ==> NoSpace(Lower(s))
    ensures forall k :: 0 <= k < |s| && s[k] == ' ' ==> Lower(s)[k] == ' '
  {
  }

  /** A needle holding a space does not occur in a haystack without one. */
  lemma NoSpaceNoMatch(hay: string, needle: string, k: int)
    requires 0 <= k < |needle| && needle[k] == ' '
    requires NoSpace(hay)
    ensures !Contains(hay, needle)
  {
    forall i | 0 <= i <= |hay| && i + k < |hay| ensures hay[i..][k] == hay[i + k] {
    }
  }

  /**
   * The term is not trimmed: a term holding a space (a trailing one, say)
   * hides every submission whose searched fields hold none.
   */
  lemma SpacedTermHidesAll(list: seq<Submission>, term: string, k: int)
    requires !IsBlank(term) && 0 <= k < |term| && term[k] == ' '
    requires forall i :: 0 <= i < |list| ==>
      NoSpace(list[i].name) && NoSpace(list[i].category) && NoSpace(list[i].city) && NoSpace(list[i].email)
    ensures SearchFilter(list, term) == []
  {
    LowerKeepsSpaces(term);
    forall i | 0 <= i < |list| ensures !Matching(term)(list[i]) {
      var s := list[i];
      LowerKeepsSpaces(s.name);
      LowerKeepsSpaces(s.category);
      LowerKeepsSpaces(s.city);
      LowerKeepsSpaces(s.email);
      NoSpaceNoMatch(Lower(s.name), Lower(term), k);
      NoSpaceNoMatch(Lower(s.category), Lower(term), k);
      NoSpaceNoMatch(Lower(s.city), Lower(term), k);
      NoSpaceNoMatch(Lower(s.email), Lower(term), k);
    }
    FilterKeepsNoneIff(list, Matching(term));
  }

  // ---------------------------------------------------------------------
  // Approve, reject, delete
  // ---------------------------------------------------------------------

  /** `prev.map(s => s.id === id ? { ...s, status } : s)`. */
  function SetStatus(list: seq<Submission>, id: int, status: Status): (r: seq<Submission>)
    ensures |r| == |list|
    ensures forall i :: 0 <= i < |list| && list[i].id == id ==> r[i] == list[i].(status := status)
    ensures forall i :: 0 <= i < |list| && list[i].id != id ==> r[i] == list[i]
  {
    if list == [] then []
    else [if list[0].id == id then list[0].(status := status) else list[0]] + SetStatus(list[1..], id, status)
  }

  /** An id that no submission carries leaves the list identical. */
  lemma SetStatusUnknownId(list: seq<Submission>, id: int, status: Status)
    requires forall i :: 0 <= i < |list| ==> list[i].id != id
    ensures SetStatus(list, id, status) == list
  {
  }

  /** Approving (or rejecting) twice is the same as once. */
  lemma SetStatusIdempotent(list: seq<Submission>, id: int, status: Status)
    ensures SetStatus(SetStatus(list, id, status), id, status) == SetStatus(list, id, status)
  {
  }

  /** Of two actions on the same id, the last one wins. */
  lemma SetStatusLastWins(list: seq<Submission>, id: int, first: Status, second: Status)
    ensures SetStatus(SetStatus(list, id, first), id, second) == SetStatus(list, id, second)
  {
  }

  /** Actions on different ids commute. */
  lemma SetStatusCommutes(list: seq<Submission>, id1: int, s1: Status, id2: int, s2: Status)
    requires id1 != id2
    ensures SetStatus(SetStatus(list, id1, s1), id2, s2) == SetStatus(SetStatus(list, id2, s2), id1, s1)
  {
  }

  /** The filter callback `s => s.id !== id`. */
  function OtherId(id: int): Submission -> bool {
    (s: Submission) => s.id != id
  }

  /** `prev.filter(s => s.id !== id)`: every record with the id is gone, the rest stay in order. */
  function RemoveId(list: seq<Submission>, id: int): (r: seq<Submission>)
    ensures forall i :: 0 <= i < |r| ==> r[i].id != id && r[i] in list
    ensures forall i :: 0 <= i < |list| && list[i].id != id ==> list[i] in r
    ensures IsSubsequence(r, list)
    ensures forall s :: multiset(r)[s] == if s.id != id then multiset(list)[s] else 0
  {
    FilterIsSubsequence(list, OtherId(id));
    FilterCounts(list, OtherId(id));
    Filter(list, OtherId(id))
  }

  /** Deleting twice is the same as deleting once. */
  lemma RemoveIdIdempotent(list: seq<Submission>, id: int)
    ensures RemoveId(RemoveId(list, id), id) == RemoveId(list, id)
  {
    FilterIdempotent(list, OtherId(id));
  }

  /** Deleting an id nobody carries leaves the list identical. */
  lemma RemoveIdUnknown(list: seq<Submission>, id: int)
    requires forall i :: 0 <= i < |list| ==> list[i].id != id
    ensures RemoveId(list, id) == list
  {
    FilterKeepsAll(list, OtherId(id));
  }

  // ---------------------------------------------------------------------
  // Statistics
  // ---------------------------------------------------------------------

  datatype Stats = Stats(total: nat, pending: nat, approved: nat, rejected: nat)

  /** The filter callback `s => s.status === status`. */
  function HasStatus(status: Status): Submission -> bool {
    (s: Submission) => s.status == status
  }

  function CountStatus(list: seq<Submission>, status: Status): nat {
    |Filter(list, HasStatus(status))|
  }

  /** The three status counts partition the list. */
  lemma {:induction false} CountsPartition(list: seq<Submission>)
    ensures CountStatus(list, Pending) + CountStatus(list, Approved) + CountStatus(list, Rejected) == |list|
  {
    if list != [] {
      CountsPartition(list[1..]);
    }
  }

  /** `stats`: the total and the per-status counts, which add up to the total. */
  function ComputeStats(list: seq<Submission>): (st: Stats)
    ensures st.total == |list|
    ensures st.pending + st.approved + st.rejected == st.total
    ensures st.pending == |Filter(list, HasStatus(Pending))|
    ensures st.approved == |Filter(list, HasStatus(Approved))|
    ensures st.rejected == |Filter(list, HasStatus(Rejected))|
  {
    CountsPartition(list);
    Stats(|list|, CountStatus(list, Pending), CountStatus(list, Approved), CountStatus(list, Rejected))
  }

  /** Setting a status never lowers that status's count. */
  lemma {:induction false} SetStatusRaisesCount(list: seq<Submission>, id: int, status: Status)
    ensures CountStatus(SetStatus(list, id, status), status) >= CountStatus(list, status)
  {
    if list != [] {
      SetStatusRaisesCount(list[1..], id, status);
      assert SetStatus(list, id, status)[1..] == SetStatus(list[1..], id, status);
    }
  }

  /** After approving an id, no record with that id is still pending. */
  lemma ApprovedNotPending(list: seq<Submission>, id: int)
    ensures forall i :: 0 <= i < |list| && list[i].id == id ==> SetStatus(list, id, Approved)[i].status == Approved
  {
  }

  // ---------------------------------------------------------------------
  // The dashboard's state
  // ---------------------------------------------------------------------

  const RefreshedMessage: string := "Submissions refreshed successfully!"

  /**
   * The dashboard component. The simulated latency of each action is not
   * modelled, so `actionLoading` is set to the acted-on id and reset within
   * one call; the alert's five-second auto-dismiss is not modelled either.
   */
  class Dashboard {
    /** The seed dataset that refresh reloads. */
    const seed: seq<Submission>
    var submissions: seq<Submission>
    var searchTerm: string
    var actionLoading: Option<int>
    var alert: Option<Alert>

    /** `initialSubmissions || submissionsData`: an empty array given as `initial` is still used. */
    constructor (initial: Option<seq<Submission>>, data: seq<Submission>)
      ensures seed == data
      ensures submissions == (if initial.Some? then initial.value else data)
      ensures searchTerm == "" && actionLoading == None && alert == None
    {
      seed := data;
      submissions := if initial.Some? then initial.value else data;
      searchTerm := "";
      actionLoading := None;
      alert := None;
    }

    /** The rows the table shows. */
    function Visible(): seq<Submission>
      reads this
    {
      SearchFilter(submissions, searchTerm)
    }

    /** The user types in the search box. */
    method SetSearchTerm(term: string)
      modifies this`searchTerm
      ensures searchTerm == term
    {
      searchTerm := term;
    }

    /** `handleApprove`: mark every record with the id approved and announce it. */
    method HandleApprove(target: Submission)
      modifies this`submissions, this`actionLoading, this`alert
      ensures submissions == SetStatus(old(submissions), target.id, Approved)
      ensures actionLoading == None
      ensures alert == Some(Alert(SuccessAlert, target.name + "'s submission has been approved!"))
    {
      actionLoading := Some(target.id);
      submissions := SetStatus(submissions, target.id, Approved);
      alert := Some(Alert(SuccessAlert, target.name + "'s submission has been approved!"));
      actionLoading := None;
    }

    /** `handleReject`: mark every record with the id rejected and announce it. */
    method HandleReject(target: Submission)
      modifies this`submissions, this`actionLoading, this`alert
      ensures submissions == SetStatus(old(submissions), target.id, Rejected)
      ensures actionLoading == None
      ensures alert == Some(Alert(SuccessAlert, target.name + "'s submission has been rejected."))
    {
      actionLoading := Some(target.id);
      submissions := SetStatus(submissions, target.id, Rejected);
      alert := Some(Alert(SuccessAlert, target.name + "'s submission has been rejected."));
      actionLoading := None;
    }

    /** `handleDelete`: `confirmed` is the answer to the confirmation dialog. */
    method HandleDelete(target: Submission, confirmed: bool)
      modifies this`submissions, this`actionLoading, this`alert
      ensures !confirmed ==> unchanged(this)
      ensures confirmed ==> submissions == RemoveId(old(submissions), target.id)
      ensures confirmed ==> actionLoading == None
      ensures confirmed ==> alert == Some(Alert(SuccessAlert, target.name + "'s submission has been deleted."))
    {
      if !confirmed {
        return;
      }
      actionLoading := Some(target.id);
      submissions := RemoveId(submissions, target.id);
      alert := Some(Alert(SuccessAlert, target.name + "'s submission has been deleted."));
      actionLoading := None;
    }

    /** `refreshSubmissions`: reload the seed dataset, discarding every change. */
    method RefreshSubmissions()
      modifies this`submissions, this`alert
      ensures submissions == seed
      ensures alert == Some(Alert(SuccessAlert, RefreshedMessage))
    {
      submissions := seed;
      alert := Some(Alert(SuccessAlert, RefreshedMessage));
    }
  }
}
