/** Approval requests: votes bound to a digest, and when they unlock an action (internal/approvals/approvals.go). */
module Approvals {

  datatype Status = Pending | Approved | Rejected | Invalidated

  // `requester` is empty when an agent asked.  The digest of a request is never rewritten.
  datatype Request = Request(status: Status, digest: string, required: nat, expires: int, requester: string)

  datatype Vote = Vote(request: string, user: string, approve: bool, reason: string, digest: string, at: int)

  datatype Db = Db(requests: map<string, Request>, votes: seq<Vote>)

  datatype Decision = Decision(request: string, user: string, approve: bool, reason: string, seen: string)

  datatype Code = ReasonRequired | NotFound | NotPending | Expired | DigestChanged | SelfApproval | NotInvalidated

  datatype Outcome = Done | Refused(code: Code) | Failed

  datatype Why = Free | WasRejected | WasInvalidated | WindowExpired | TooFew | OtherAction | NotYetApproved

  datatype Gate = Gate(status: Status, recorded: nat, required: nat, digest: string, unlocked: bool, why: Why)

  datatype Result<+T> = Ok(value: T) | Err(code: Code)

  /* ---- votes ---- */

  function Approvals(votes: seq<Vote>, id: string): nat {
    if votes == [] then 0
    else Approvals(votes[..|votes| - 1], id) + var v := votes[|votes| - 1]; if v.request == id && v.approve then 1 else 0
  }

  function Approvers(votes: seq<Vote>, id: string): set<string> {
    set v | v in votes && v.request == id && v.approve :: v.user
  }

  predicate HasVoted(votes: seq<Vote>, id: string, user: string) {
    exists v <- votes :: v.request == id && v.user == user
  }

  predicate AnyRejection(votes: seq<Vote>, id: string) {
    exists v <- votes :: v.request == id && !v.approve
  }

  /** How many approvals close a request: at least one, whatever it says. */
  function Needed(r: Request): nat {
    if r.required == 0 then 1 else r.required
  }

  /* ---- the transactions, each atomic ---- */

  /** Records a vote: a rejection ends the request, an approval closes it once enough are recorded. */
  function Record(db: Db, d: Decision, now: int): Db
    requires d.request in db.requests
  {
    var r := db.requests[d.request];
    var votes := db.votes + [Vote(d.request, d.user, d.approve, d.reason, r.digest, now)];
    var status :=
      if !d.approve then Rejected
      else if Approvals(votes, d.request) >= r.required then Approved
      else r.status;
    Db(db.requests[d.request := r.(status := status)], votes)
  }

  /** The answer to a decision, `None` when it is recorded; `visible` is what row-level security lets the user see. */
  function Objection(db: Db, d: Decision, now: int, visible: bool): Outcome {
    if d.request == "" || d.user == "" then Failed
    else if !d.approve && d.reason == "" then Refused(ReasonRequired)
    else if !visible || d.request !in db.requests then Refused(NotFound)
    else
      var r := db.requests[d.request];
      if r.status != Pending then Refused(NotPending)
      else if now > r.expires then Refused(Expired)
      else if d.seen != "" && d.seen != r.digest then Refused(DigestChanged)
      else if r.requester != "" && r.requester == d.user then Refused(SelfApproval)
      else if HasVoted(db.votes, d.request, d.user) then Failed
      else Done
  }

  function Decide(db: Db, d: Decision, now: int, visible: bool): Db {
    if Objection(db, d, now, visible) == Done then Record(db, d, now) else db
  }

  predicate Invalidates(db: Db, id: string, digest: string, visible: bool) {
    visible && id in db.requests && db.requests[id].status in {Pending, Approved} && db.requests[id].digest != digest
  }

  function Invalidate(db: Db, id: string, digest: string, visible: bool): Db {
    if Invalidates(db, id, digest, visible) then Db(db.requests[id := db.requests[id].(status := Invalidated)], db.votes)
    else db
  }

  /** The question StateFor answers, about the action of digest `current`. */
  function Ask(db: Db, id: string, current: string, now: int, visible: bool): Result<Gate> {
    if !visible || id !in db.requests then Err(NotFound) else
    var r := db.requests[id];
    var n := Approvals(db.votes, id);
    var why :=
      if r.status == Rejected then WasRejected
      else if r.status == Invalidated then WasInvalidated
      else if now > r.expires then WindowExpired
      else if n < r.required then TooFew
      else if current != "" && current != r.digest then OtherAction
      else if r.status == Approved then Free
      else NotYetApproved;
    Ok(Gate(r.status, n, r.required, r.digest, why == Free, why))
  }

  class Store {
    var requests: map<string, Request>
    var votes: seq<Vote>

    constructor (db: Db)
      ensures Snapshot() == db
    {
      requests, votes := db.requests, db.votes;
    }

    function Snapshot(): Db
      reads this
    {
      Db(requests, votes)
    }

    /** The count PostgreSQL takes inside the UPDATE and inside StateFor's SELECT. */
    method CountApprovals(id: string) returns (n: nat)
      ensures n == Approvals(votes, id)
    {
      n := 0;
      for i := 0 to |votes|
        invariant n == Approvals(votes[..i], id)
      {
        assert votes[..i + 1][..i] == votes[..i];
        if votes[i].request == id && votes[i].approve {
          n := n + 1;
        }
      }
      assert votes[..|votes|] == votes;
    }

    method DecideOn(d: Decision, now: int, visible: bool) returns (outcome: Outcome)
      modifies this
      ensures outcome == Objection(old(Snapshot()), d, now, visible)
      ensures Snapshot() == Decide(old(Snapshot()), d, now, visible)
      ensures outcome == Done <==>
                && d.request != "" && d.user != "" && (d.approve || d.reason != "")
                && visible && d.request in old(requests) && old(requests)[d.request].status == Pending
                && now <= old(requests)[d.request].expires
                && (d.seen == "" || d.seen == old(requests)[d.request].digest)
                && d.user != old(requests)[d.request].requester
                && !(exists v <- old(votes) :: v.request == d.request && v.user == d.user)
      ensures outcome != Done ==> requests == old(requests) && votes == old(votes)
      ensures outcome == Done ==>
                var r := old(requests)[d.request];
                && votes == old(votes) + [Vote(d.request, d.user, d.approve, d.reason, r.digest, now)]
                && requests == old(requests)[d.request := r.(status :=
                     if !d.approve then Rejected
                     else if Approvals(votes, d.request) >= r.required then Approved else Pending)]
    {
      if d.request == "" || d.user == "" {
        return Failed;
      }
      if !d.approve && d.reason == "" {
        return Refused(ReasonRequired);
      }
      if !visible || d.request !in requests {
        return Refused(NotFound);
      }
      var r := requests[d.request];
      if r.status != Pending {
        return Refused(NotPending);
      }
      if now > r.expires {
        return Refused(Expired);
      }
      if d.seen != "" && d.seen != r.digest {
        return Refused(DigestChanged);
      }
      if r.requester != "" && r.requester == d.user {
        return Refused(SelfApproval);
      }
      if HasVoted(votes, d.request, d.user) {
        return Failed; // the store holds one vote per user and request
      }
      votes := votes + [Vote(d.request, d.user, d.approve, d.reason, r.digest, now)];
      if !d.approve {
        requests := requests[d.request := r.(status := Rejected)];
        return Done;
      }
      var n := CountApprovals(d.request);
      requests := requests[d.request := r.(status := if n >= r.required then Approved else r.status)];
      return Done;
    }

    method StateFor(id: string, current: string, now: int, visible: bool) returns (r: Result<Gate>)
      ensures r == Ask(Snapshot(), id, current, now, visible)
      ensures r.Err? <==> !visible || id !in requests
      ensures r.Ok? ==>
                && r.value.status == requests[id].status && r.value.recorded == Approvals(votes, id)
                && r.value.required == requests[id].required && r.value.digest == requests[id].digest
                && (r.value.unlocked <==>
                      && requests[id].status == Approved && now <= requests[id].expires
                      && Approvals(votes, id) >= requests[id].required
                      && (current == "" || current == requests[id].digest))
    {
      if !visible || id !in requests {
        return Err(NotFound);
      }
      var q := requests[id];
      var n := CountApprovals(id);
      var unlocked, why := false, NotYetApproved;
      if q.status == Rejected {
        why := WasRejected;
      } else if q.status == Invalidated {
        why := WasInvalidated;
      } else if now > q.expires {
        why := WindowExpired;
      } else if n < q.required {
        why := TooFew;
      } else if current != "" && current != q.digest {
        why := OtherAction;
      } else {
        unlocked := q.status == Approved;
        if unlocked {
          why := Free;
        }
      }
      return Ok(Gate(q.status, n, q.required, q.digest, unlocked, why));
    }

    method InvalidateFor(id: string, digest: string, visible: bool) returns (outcome: Outcome)
      modifies this
      ensures Snapshot() == Invalidate(old(Snapshot()), id, digest, visible)
      ensures outcome == if Invalidates(old(Snapshot()), id, digest, visible) then Done else Refused(NotInvalidated)
      ensures if visible && id in old(requests) && old(requests)[id].status in {Pending, Approved}
                 && old(requests)[id].digest != digest
              then outcome == Done && requests == old(requests)[id := old(requests)[id].(status := Invalidated)]
              else outcome == Refused(NotInvalidated) && requests == old(requests)
      ensures votes == old(votes)
    {
      if visible && id in requests && (requests[id].status == Pending || requests[id].status == Approved)
         && requests[id].digest != digest {
        requests := requests[id := requests[id].(status := Invalidated)];
        return Done;
      }
      return Refused(NotInvalidated);
    }
  }

  /* ---- which refusal ---- */

  /** Something is wrong with a decision, whatever the store holds. */
  predicate Incomplete(d: Decision) {
    d.request == "" || d.user == "" || (!d.approve && d.reason == "")
  }

  /** Each refusal is given exactly for its own reason, where nothing that is asked before it stands against the decision. */
  lemma RefusalsInOrder(db: Db, d: Decision, now: int, visible: bool)
    ensures var o := Objection(db, d, now, visible);
            && (o == Refused(ReasonRequired) <==> d.request != "" && d.user != "" && !d.approve && d.reason == "")
            && (o == Refused(NotFound) <==> !Incomplete(d) && (!visible || d.request !in db.requests))
    ensures !Incomplete(d) && visible && d.request in db.requests ==>
              var o, r := Objection(db, d, now, visible), db.requests[d.request];
              && (o == Refused(NotPending) <==> r.status != Pending)
              && (o == Refused(Expired) <==> r.status == Pending && now > r.expires)
              && (o == Refused(DigestChanged) <==> r.status == Pending && now <= r.expires && d.seen !in ["", r.digest])
              && (o == Refused(SelfApproval) <==>
                    r.status == Pending && now <= r.expires && d.seen in ["", r.digest] && d.user == r.requester)
  {
  }

  /** What is the matter with an action that is not unlocked, the first of these that is. */
  lemma ReasonsInOrder(db: Db, id: string, current: string, now: int)
    requires id in db.requests
    ensures var why, r := Ask(db, id, current, now, true).value.why, db.requests[id];
            && (why == WasRejected <==> r.status == Rejected)
            && (why == WasInvalidated <==> r.status == Invalidated)
            && (why == WindowExpired <==> r.status in {Pending, Approved} && now > r.expires)
            && (why == TooFew <==>
                  r.status in {Pending, Approved} && now <= r.expires && Approvals(db.votes, id) < r.required)
            && (why == OtherAction <==>
                  r.status in {Pending, Approved} && now <= r.expires && Approvals(db.votes, id) >= r.required
                  && current !in ["", r.digest])
            && (why == NotYetApproved <==>
                  r.status == Pending && now <= r.expires && Approvals(db.votes, id) >= r.required
                  && current in ["", r.digest])
  {
  }

  /* ---- the invariant ---- */

  /** Every vote was cast by somebody other than the requester, on this digest, inside the window. */
  predicate VoteOk(r: Request, v: Vote) {
    v.user != r.requester && v.digest == r.digest && v.at <= r.expires
  }

  ghost predicate VotesOk(db: Db) {
    && (forall v <- db.votes :: v.request in db.requests && v.user != "" && VoteOk(db.requests[v.request], v))
    && OncePerUser(db.votes)
  }

  /** One vote per user and request. */
  predicate OncePerUser(votes: seq<Vote>) {
    votes == [] ||
    (OncePerUser(votes[..|votes| - 1])
     && !HasVoted(votes[..|votes| - 1], votes[|votes| - 1].request, votes[|votes| - 1].user))
  }

  /** A request's status says what its votes say, until it is invalidated. */
  predicate StatusOk(db: Db, id: string)
    requires id in db.requests
  {
    var r := db.requests[id];
    match r.status
    case Pending => !AnyRejection(db.votes, id) && Approvals(db.votes, id) < Needed(r)
    case Approved => !AnyRejection(db.votes, id) && Approvals(db.votes, id) >= Needed(r)
    case Rejected => AnyRejection(db.votes, id)
    case Invalidated => true
  }

  ghost predicate Valid(db: Db) {
    VotesOk(db) && forall id <- db.requests :: StatusOk(db, id)
  }

  lemma OneMoreVote(votes: seq<Vote>, v: Vote, id: string)
    ensures Approvals(votes + [v], id) == Approvals(votes, id) + if v.request == id && v.approve then 1 else 0
    ensures AnyRejection(votes + [v], id) <==> AnyRejection(votes, id) || (v.request == id && !v.approve)
  {
    assert (votes + [v])[..|votes|] == votes;
    if AnyRejection(votes, id) {
      var w :| w in votes && w.request == id && !w.approve;
      assert w in votes + [v];
    }
    if v.request == id && !v.approve {
      assert v in votes + [v];
    }
  }

  lemma VotesStayOk(db: Db, d: Decision, now: int, visible: bool)
    requires VotesOk(db) && Objection(db, d, now, visible) == Done
    ensures VotesOk(Record(db, d, now))
  {
    var after := Record(db, d, now);
    assert after.votes[..|db.votes|] == db.votes;
    forall v | v in after.votes
      ensures v.request in after.requests && v.user != "" && VoteOk(after.requests[v.request], v)
    {
      if v in db.votes {
        assert VoteOk(db.requests[v.request], v);
      }
    }
  }

  lemma StatusStaysOk(db: Db, d: Decision, now: int, visible: bool, id: string)
    requires Objection(db, d, now, visible) == Done && id in db.requests && StatusOk(db, id)
    ensures StatusOk(Record(db, d, now), id)
  {
    var v := Vote(d.request, d.user, d.approve, d.reason, db.requests[d.request].digest, now);
    OneMoreVote(db.votes, v, id);
  }

  lemma DecideKeepsValid(db: Db, d: Decision, now: int, visible: bool)
    requires Valid(db)
    ensures Valid(Decide(db, d, now, visible))
  {
    if Objection(db, d, now, visible) == Done {
      VotesStayOk(db, d, now, visible);
      StatusesStayOk(db, d, now, visible);
    }
  }

  lemma StatusesStayOk(db: Db, d: Decision, now: int, visible: bool)
    requires Objection(db, d, now, visible) == Done && forall id <- db.requests :: StatusOk(db, id)
    ensures forall id <- Record(db, d, now).requests :: StatusOk(Record(db, d, now), id)
  {
    forall id <- Record(db, d, now).requests
      ensures StatusOk(Record(db, d, now), id)
    {
      assert id in db.requests;
      StatusStaysOk(db, d, now, visible, id);
    }
  }

  lemma InvalidateKeepsValid(db: Db, id: string, digest: string, visible: bool)
    requires Valid(db)
    ensures Valid(Invalidate(db, id, digest, visible))
  {
    var after := Invalidate(db, id, digest, visible);
    forall v | v in after.votes
      ensures v.request in after.requests && v.user != "" && VoteOk(after.requests[v.request], v)
    {
      assert VoteOk(db.requests[v.request], v);
    }
    forall other | other in after.requests
      ensures StatusOk(after, other)
    {
      assert StatusOk(db, other);
    }
  }

  /* ---- all runs ---- */

  // A step of a run.  Asking changes nothing and needs no step; a request is raised under a new id.
  datatype Op =
    | Raise(id: string, request: Request)
    | Vote_(decision: Decision, now: int, visible: bool)
    | Void(target: string, digest: string, visible: bool)

  function Step(db: Db, op: Op): Db {
    match op
    case Raise(id, r) => if id in db.requests then db else Db(db.requests[id := r.(status := Pending)], db.votes)
    case Vote_(d, now, visible) => Decide(db, d, now, visible)
    case Void(id, digest, visible) => Invalidate(db, id, digest, visible)
  }

  function Run(db: Db, ops: seq<Op>): Db {
    if ops == [] then db else Step(Run(db, ops[..|ops| - 1]), ops[|ops| - 1])
  }

  lemma {:induction false} UnraisedHasNoVotes(votes: seq<Vote>, id: string)
    requires forall v <- votes :: v.request != id
    ensures Approvals(votes, id) == 0 && !AnyRejection(votes, id)
  {
    if votes != [] {
      UnraisedHasNoVotes(votes[..|votes| - 1], id);
    }
  }

  lemma StepKeepsValid(db: Db, op: Op)
    requires Valid(db)
    ensures Valid(Step(db, op))
  {
    match op
    case Raise(id, r) =>
      if id !in db.requests {
        UnraisedHasNoVotes(db.votes, id);
        var after := Step(db, op);
        forall v | v in after.votes
          ensures v.request in after.requests && v.user != "" && VoteOk(after.requests[v.request], v)
        {
          assert VoteOk(db.requests[v.request], v);
        }
        forall other | other in after.requests
          ensures StatusOk(after, other)
        {
          assert other != id ==> StatusOk(db, other);
        }
      }
    case Vote_(d, now, visible) => DecideKeepsValid(db, d, now, visible);
    case Void(id, digest, visible) => InvalidateKeepsValid(db, id, digest, visible);
  }

  lemma {:induction false} ValidAlways(db: Db, ops: seq<Op>)
    requires Valid(db)
    ensures Valid(Run(db, ops))
  {
    if ops != [] {
      ValidAlways(db, ops[..|ops| - 1]);
      StepKeepsValid(Run(db, ops[..|ops| - 1]), ops[|ops| - 1]);
    }
  }

  const EMPTY := Db(map[], [])

  /** Some decision of the run, by that user on that request, at a time, and of a digest that was shown to them, cast this vote. */
  predicate CastIn(ops: seq<Op>, v: Vote) {
    exists op <- ops :: op.Vote_? && Casts(op.decision, op.now, op.visible, v)
  }

  predicate Casts(d: Decision, now: int, visible: bool, v: Vote) {
    && visible && d.request == v.request && d.user == v.user && d.approve == v.approve && d.reason == v.reason
    && now == v.at && (d.seen == "" || d.seen == v.digest) && (v.approve || v.reason != "")
  }

  lemma StepCasts(db: Db, op: Op)
    ensures Step(db, op).votes == db.votes
            || (op.Vote_? && Step(db, op).votes != [] && Step(db, op).votes[..|Step(db, op).votes| - 1] == db.votes
                && Casts(op.decision, op.now, op.visible, Step(db, op).votes[|Step(db, op).votes| - 1]))
  {
  }

  /** Every vote of a run was cast by a decision of it, whose user was shown the digest the vote is for, or none at all. */
  lemma {:induction false} VotesAreOfTheDigestSeen(ops: seq<Op>)
    ensures forall v <- Run(EMPTY, ops).votes :: CastIn(ops, v)
  {
    if ops != [] {
      var front, last := ops[..|ops| - 1], ops[|ops| - 1];
      VotesAreOfTheDigestSeen(front);
      StepCasts(Run(EMPTY, front), last);
      assert ops == front + [last];
      var votes, before := Run(EMPTY, ops).votes, Run(EMPTY, front).votes;
      forall v | v in votes
        ensures CastIn(ops, v)
      {
        if v in before {
          assert CastIn(front, v);
        } else {
          assert votes == before + [votes[|votes| - 1]];
          assert last in ops;
        }
      }
    }
  }

  /* ---- safety ---- */

  lemma {:induction false} ApprovalsAreUsers(votes: seq<Vote>, id: string)
    requires OncePerUser(votes)
    ensures |Approvers(votes, id)| == Approvals(votes, id)
  {
    if votes != [] {
      var front, v := votes[..|votes| - 1], votes[|votes| - 1];
      ApprovalsAreUsers(front, id);
      assert votes == front + [v];
      if v.request == id && v.approve {
        assert Approvers(votes, id) == Approvers(front, id) + {v.user};
        assert v.user !in Approvers(front, id);
      } else {
        assert Approvers(votes, id) == Approvers(front, id);
      }
    }
  }

  /**
    Whenever StateFor unlocks an action, the request was closed by as many different users as it needs, none of
    them the requester, each voting on the request's digest inside its window, with nobody against; and the
    action is the one they saw, when the caller says which action it is about to run.
  */
  lemma UnlockedMeansApproved(ops: seq<Op>, id: string, current: string, now: int, visible: bool)
    requires Ask(Run(EMPTY, ops), id, current, now, visible).Ok?
    requires Ask(Run(EMPTY, ops), id, current, now, visible).value.unlocked
    ensures var db := Run(EMPTY, ops);
            && id in db.requests && db.requests[id].status == Approved
            && var r := db.requests[id];
            && |Approvers(db.votes, id)| >= r.required && Approvers(db.votes, id) != {}
            && !AnyRejection(db.votes, id) && now <= r.expires && (current != "" ==> current == r.digest)
            && (forall v <- db.votes :: v.request == id ==>
                  v.approve && v.user != r.requester && v.digest == r.digest && v.at <= r.expires)
  {
    ValidAlways(EMPTY, ops);
    var db := Run(EMPTY, ops);
    assert StatusOk(db, id);
    ApprovalsAreUsers(db.votes, id);
    forall v | v in db.votes && v.request == id
      ensures v.approve && VoteOk(db.requests[id], v)
    {
      assert !AnyRejection(db.votes, id);
    }
  }

  /** When exactly an action is unlocked. */
  lemma UnlockedIff(ops: seq<Op>, id: string, current: string, now: int, visible: bool)
    ensures var db, gate := Run(EMPTY, ops), Ask(Run(EMPTY, ops), id, current, now, visible);
            (gate.Ok? && gate.value.unlocked) <==>
              && visible && id in db.requests && db.requests[id].status == Approved
              && now <= db.requests[id].expires && (current == "" || current == db.requests[id].digest)
  {
    ValidAlways(EMPTY, ops);
    var db := Run(EMPTY, ops);
    assert id in db.requests ==> StatusOk(db, id);
  }

  /** Approved, of the requests nobody rejected or voided, are exactly those with enough approvals. */
  lemma ApprovedIff(ops: seq<Op>, id: string)
    requires id in Run(EMPTY, ops).requests
    requires Run(EMPTY, ops).requests[id].status != Invalidated && !AnyRejection(Run(EMPTY, ops).votes, id)
    ensures var db := Run(EMPTY, ops);
            db.requests[id].status == Approved <==> |Approvers(db.votes, id)| >= Needed(db.requests[id])
  {
    ValidAlways(EMPTY, ops);
    assert StatusOk(Run(EMPTY, ops), id);
    ApprovalsAreUsers(Run(EMPTY, ops).votes, id);
  }

  /* ---- lifecycle ---- */

  predicate MayBecome(a: Status, b: Status) {
    a == b || a == Pending || (a == Approved && b == Invalidated)
  }

  lemma StepMoves(db: Db, op: Op, id: string)
    requires id in db.requests
    ensures var after := Step(db, op);
            && id in after.requests && MayBecome(db.requests[id].status, after.requests[id].status)
            && after.requests[id] == db.requests[id].(status := after.requests[id].status)
  {
  }

  /** Over any continuation a status only moves forward, and what was asked for never changes. */
  lemma {:induction false} OnlyForward(db: Db, ops: seq<Op>, id: string)
    requires id in db.requests
    ensures var after := Run(db, ops);
            && id in after.requests && MayBecome(db.requests[id].status, after.requests[id].status)
            && after.requests[id] == db.requests[id].(status := after.requests[id].status)
  {
    if ops != [] {
      OnlyForward(db, ops[..|ops| - 1], id);
      StepMoves(Run(db, ops[..|ops| - 1]), ops[|ops| - 1], id);
    }
  }

  /** Once rejected or invalidated, a request never unlocks anything again. */
  lemma ClosedForGood(db: Db, ops: seq<Op>, id: string, current: string, now: int, visible: bool)
    requires id in db.requests && db.requests[id].status in {Rejected, Invalidated}
    ensures var gate := Ask(Run(db, ops), id, current, now, visible); gate.Ok? ==> !gate.value.unlocked
  {
    OnlyForward(db, ops, id);
  }

  /** A changed action is caught: whoever asks with the new digest is refused, before and after the request is voided. */
  lemma ChangedActionNeverUnlocks(db: Db, ops: seq<Op>, id: string, current: string, now: int, visible: bool)
    requires id in db.requests && current != "" && current != db.requests[id].digest
    ensures var gate := Ask(Run(db, ops), id, current, now, visible); gate.Ok? ==> !gate.value.unlocked
  {
    OnlyForward(db, ops, id);
  }
}
