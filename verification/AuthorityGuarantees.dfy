/** What the authority protocol promises over whole runs. */
module AuthorityGuarantees {
  import opened Common
  import opened AuthorityModel
  import opened AuthoritySteps
  import opened AuthorityInvariants
  import opened AuthoritySafety

  // ---- Nothing outlives its authority ------------------------------------------------

  /** What is in force on a mandate rests on its current, ACTIVE version. */
  lemma {:induction false} InForceMeansCurrent(cs: seq<Command>)
    ensures var db := Run(NO_AUTHORITY, cs);
            && (forall id :: id in db.bases && db.bases[id].status.Usable? ==> CurrentMandate(db, db.bases[id].source))
            && (forall id ::
                  id in db.reservations && db.reservations[id].status.Held? &&
                  db.reservations[id].source.MandateRef? ==>
                  db.reservations[id].basis in db.bases && db.bases[db.reservations[id].basis].status.Usable?)
            && (forall id :: id in db.receipts && db.receipts[id].status.Issued? ==>
                  db.receipts[id].terms.basis in db.bases &&
                  CurrentMandate(db, db.bases[db.receipts[id].terms.basis].source))
  {
    var db := Run(NO_AUTHORITY, cs);
    ReachableIsSafe(cs);
    forall id | id in db.bases && db.bases[id].status.Usable? ensures CurrentMandate(db, db.bases[id].source) {
      BasisRowOf(db, id);
    }
    forall id | id in db.reservations && db.reservations[id].status.Held? && db.reservations[id].source.MandateRef?
      ensures db.reservations[id].basis in db.bases && db.bases[db.reservations[id].basis].status.Usable?
    {
      ReservationRowOf(db, id);
    }
    forall id | id in db.receipts && db.receipts[id].status.Issued?
      ensures db.receipts[id].terms.basis in db.bases
      ensures CurrentMandate(db, db.bases[db.receipts[id].terms.basis].source)
    {
      ReceiptRow(db, id);
    }
  }

  // ---- Containment -----------------------------------------------------------------------

  /** Expiry of the mandate or approval behind a basis. */
  ghost predicate SourceLasts(db: Auth, b: Basis, until: Time) {
    match b.source
    case FromMandate(m, _) => m in db.mandates && until <= db.mandates[m].expiresAt
    case FromApproval(a, _, _, window) => a in db.approvals && until <= db.approvals[a].expiresAt && until <= window.end
  }

  /** The scope of the mandate or approval behind a basis. */
  ghost predicate SourceScope(db: Auth, b: Basis, scope: Scope) {
    match b.source
    case FromMandate(m, _) => m in db.mandates && db.mandates[m].scope == scope
    case FromApproval(a, _, _, _) => a in db.approvals && db.approvals[a].scope == scope
  }

  /** Each link of the chain expires within the one before, for exactly the
      authorised quantity, inside the scope of the source. */
  lemma {:induction false} ReceiptIsContained(cs: seq<Command>, id: Id)
    requires id in Run(NO_AUTHORITY, cs).receipts
    ensures var db := Run(NO_AUTHORITY, cs);
            var t := db.receipts[id].terms;
            && t.reservation in db.reservations && t.basis in db.bases
            && var r := db.reservations[t.reservation];
               var b := db.bases[t.basis];
               && t.expiresAt <= r.expiresAt <= b.expiresAt && SourceLasts(db, b, b.expiresAt)
               && (db.receipts[id].status.Consumed? ==> db.receipts[id].status.at < t.expiresAt)
               && SourceScope(db, b, b.scope)
               && r.quantity == b.quantity && 0.0 < b.quantity <= b.scope.ceiling
               && t.order == r.order == b.order && b.order.account == b.scope.account
               && b.order.instrument in b.scope.instruments && b.order.strategy in b.scope.strategies
               && b.order.session in b.scope.sessions && t.action == b.action && b.action in b.scope.actions
  {
    var db := Run(NO_AUTHORITY, cs);
    ReachableIsSafe(cs);
    ReceiptRow(db, id);
    ReservationRowOf(db, db.receipts[id].terms.reservation);
    BasisRowOf(db, db.receipts[id].terms.basis);
  }

  // ---- Who authorised it ------------------------------------------------------------------------

  predicate DecidedBy(db: Auth, approval: Id, actor: Actor) {
    approval in db.approvals && db.approvals[approval].decidedBy == Some(actor)
  }

  /** Every receipt goes back to a user or to a mandate: a basis on an approval was
      issued by the user who decided the approval, a manual test receipt names
      that user, and a basis on a mandate was issued by a service. */
  lemma {:induction false} AuthorityHasAnAuthor(cs: seq<Command>, id: Id)
    requires id in Run(NO_AUTHORITY, cs).receipts
    ensures var db := Run(NO_AUTHORITY, cs);
            var t := db.receipts[id].terms;
            && t.basis in db.bases
            && var b := db.bases[t.basis];
               && (b.source.FromMandate? ==> b.issuedBy.Service? && t.origin.Agent?)
               && (b.source.FromApproval? ==> b.issuedBy.User? && DecidedBy(db, b.source.approval, b.issuedBy))
               && (t.origin.ManualTest? ==> b.issuedBy == t.origin.actor)
  {
    var db := Run(NO_AUTHORITY, cs);
    ReachableIsSafe(cs);
    ReceiptRow(db, id);
    var b := db.receipts[id].terms.basis;
    BasisRowOf(db, b);
    if db.bases[b].source.FromApproval? {
      ApprovalRow(db, db.bases[b].source.approval);
    }
  }

  /** Only a user makes a mandate ACTIVE. */
  lemma ActivationNeedsUser(db: Auth, c: Command, id: Id)
    requires id in db.mandates && !db.mandates[id].status.Active?
    requires id in Apply(db, c).mandates && Apply(db, c).mandates[id].status.Active?
    ensures (c.DoTransition? || c.DoCompositeResume?) && c.actor.User?
  {
    if Moves(c) {
      MovingActivates(db, c, id);
    }
  }

  lemma MoveToSets(db: Auth, mandate: Id, to: MandateStatus, newHash: Id, n: Time)
    requires mandate in db.mandates
    ensures MoveTo(db, mandate, to, newHash, n).mandates == MoveMandate(db, mandate, to, newHash).mandates
  {
  }

  lemma LeavingLeavesMandates(db: Auth, binding: Id, row: Binding, n: Time)
    requires binding in db.bindings
    ensures LeaveMode(db, binding, row, n).Done? ==> LeaveMode(db, binding, row, n).value.mandates == db.mandates
  {
  }

  lemma PausingSuspends(
      db: Auth, mandate: Id, binding: Id, account: Id, newMandateHash: Id, newBindingHash: Id, n: Time)
    requires mandate in db.mandates && binding in db.bindings
    ensures var d := PausePair(db, mandate, binding, account, newMandateHash, newBindingHash, n);
            d.Done? ==> d.value.mandates == MoveMandate(db, mandate, Suspended, newMandateHash).mandates
  {
  }

  lemma MovingActivates(db: Auth, c: Command, id: Id)
    requires Moves(c) && id in db.mandates && !db.mandates[id].status.Active?
    ensures id in Apply(db, c).mandates && Apply(db, c).mandates[id].status.Active? ==>
              (c.DoTransition? || c.DoCompositeResume?) && c.actor.User?
  {
    if c.DoTransition? || c.DoExpire? {
      if c.id in db.mandates {
        MoveToSets(db, c.id, if c.DoTransition? then c.to else Expired, c.newHash, c.n);
      }
    } else if c.DoPauseMode? {
      if c.binding in db.bindings {
        LeavingLeavesMandates(
          db, c.binding, db.bindings[c.binding].(version := c.version + 1, paused := true, hash := c.newHash), c.n);
      }
    } else if c.DoRetire? {
      if c.binding in db.bindings {
        LeavingLeavesMandates(
          db, c.binding, db.bindings[c.binding].(version := c.version + 1, status := c.status, hash := c.newHash), c.n);
      }
    } else if c.DoCompositePause? && c.mandate in db.mandates && c.binding in db.bindings {
      PausingSuspends(db, c.mandate, c.binding, c.account, c.newMandateHash, c.newBindingHash, c.n);
    }
  }

  // ---- Exactly once --------------------------------------------------------------------------

  /** One basis per approval, and per mandate version and plan version; one
      reservation and one receipt per basis. */
  lemma {:induction false} OneOfEach(cs: seq<Command>)
    ensures var db := Run(NO_AUTHORITY, cs);
            && (forall a, b :: a in db.bases && b in db.bases && SameAuthority(db.bases[a], db.bases[b]) ==> a == b)
            && (forall r, s ::
                  r in db.reservations && s in db.reservations &&
                  db.reservations[r].basis == db.reservations[s].basis ==>
                  r == s)
            && (forall x, y ::
                  x in db.receipts && y in db.receipts &&
                  db.receipts[x].terms.basis == db.receipts[y].terms.basis ==>
                  x == y)
  {
    var db := Run(NO_AUTHORITY, cs);
    ReachableIsSafe(cs);
    OpenInv(db);
    forall a, b | a in db.bases && b in db.bases && SameAuthority(db.bases[a], db.bases[b]) ensures a == b {
      BasisRowOf(db, a);
      BasisRowOf(db, b);
      assert SamePlanBasis(db.bases[a], db.bases[b]) ==> a == b;
    }
    forall x, y | x in db.receipts && y in db.receipts && db.receipts[x].terms.basis == db.receipts[y].terms.basis
      ensures x == y
    {
      assert Clash(db.receipts[x], db.receipts[y]);
    }
  }

  predicate SameAuthority(a: Basis, b: Basis) {
    match a.source
    case FromMandate(m, v) => MandatePlanBasis(b, m, v, a.order.plan)
    case FromApproval(id, _, _, _) => IsFromApproval(b, id)
  }

  /** Approvals never give one plan two bases, whichever approvals they come from. */
  lemma {:induction false} OneApprovedBasisPerPlan(cs: seq<Command>, a: Id, b: Id)
    requires var db := Run(NO_AUTHORITY, cs);
             && a in db.bases && b in db.bases && db.bases[a].source.FromApproval? && db.bases[b].source.FromApproval?
             && db.bases[a].order.plan == db.bases[b].order.plan
    ensures a == b
  {
    var db := Run(NO_AUTHORITY, cs);
    ReachableIsSafe(cs);
    BasisRowOf(db, a);
    BasisRowOf(db, b);
    var p, q := db.bases[a].source.approval, db.bases[b].source.approval;
    ApprovalRow(db, p);
    ApprovalRow(db, q);
    OpenInv(db);
    assert SameSlot(db.approvals[p], db.approvals[q]);
  }

  /** A CONSUMED reservation has one receipt, which is CONSUMED. */
  lemma {:induction false} UsedReservationHasItsReceipt(cs: seq<Command>, r: Id)
    requires r in Run(NO_AUTHORITY, cs).reservations && Run(NO_AUTHORITY, cs).reservations[r].status.Used?
    ensures var db := Run(NO_AUTHORITY, cs);
            exists x :: x in db.receipts && db.receipts[x].status.Consumed? && db.receipts[x].terms.reservation == r &&
              forall y :: y in db.receipts && db.receipts[y].terms.reservation == r ==> y == x
  {
    var db := Run(NO_AUTHORITY, cs);
    ReachableIsSafe(cs);
    ReservationRowOf(db, r);
    var x :| x in db.receipts && db.receipts[x].status.Consumed? && db.receipts[x].terms.reservation == r;
    forall y | y in db.receipts && db.receipts[y].terms.reservation == r ensures y == x {
      ReceiptRow(db, x);
      ReceiptRow(db, y);
      OpenInv(db);
      assert Clash(db.receipts[x], db.receipts[y]);
    }
  }

  lemma {:induction false} ReceiptStaysConsumed(db: Auth, cs: seq<Command>, id: Id)
    requires Inv(db) && id in db.receipts && !db.receipts[id].status.Issued?
    ensures id in Run(db, cs).receipts && Run(db, cs).receipts[id] == db.receipts[id]
  {
    RunKeeps(db, cs);
    OpenGrown(db, Run(db, cs));
    assert ReceiptGrown(db.receipts[id], Run(db, cs).receipts[id]);
  }

  /** A receipt is consumed at most once in a run. */
  lemma {:induction false} ConsumedAtMostOnce(
      db: Auth, id: Id, nonce: Id, n: Time, later: seq<Command>, nonce': Id, m: Time)
    requires Inv(db) && ConsumeReceipt(db, id, nonce, n).1
    ensures var end := Run(ConsumeReceipt(db, id, nonce, n).0, later);
            ConsumeReceipt(end, id, nonce', m) == (end, false)
  {
    ConsumeReceiptKeeps(db, id, nonce, n);
    ReceiptStaysConsumed(ConsumeReceipt(db, id, nonce, n).0, later, id);
  }

  // ---- Retries ------------------------------------------------------------------------------------

  /** Approval a was consumed by this request into basis id. */
  ghost predicate SpentOn(db: Auth, a: Id, version: nat, token: Id, q: BasisRequest, id: Id) {
    && a in db.approvals && db.approvals[a].version == version + 1 && db.approvals[a].status.Spent?
    && db.approvals[a].status.basis == id
    && id in db.bases && IsFromApproval(db.bases[id], a) && db.bases[id].source.version == version
    && db.bases[id].source.token == token && Repeats(db.bases[id], q)
    && ScopePermits(db.bases[id].scope, q.order, q.action, q.quantity, true)
  }

  lemma {:induction false} SpentStays(
      db: Auth, cs: seq<Command>, a: Id, version: nat, token: Id, q: BasisRequest, id: Id)
    requires Inv(db) && SpentOn(db, a, version, token, q, id)
    ensures SpentOn(Run(db, cs), a, version, token, q, id)
  {
    RunKeeps(db, cs);
    OpenGrown(db, Run(db, cs));
    assert ApprovalGrown(db.approvals[a], Run(db, cs).approvals[a]) && BasisGrown(db.bases[id], Run(db, cs).bases[id]);
  }

  lemma ConsumingSpends(
      db: Auth, a: Id, version: nat, token: Id, basis: Id, q: BasisRequest, formatOk: bool, n: Time, id: Id)
    requires ConsumeApproval(db, a, version, token, basis, q, formatOk, n).1 == Some(id)
    ensures SpentOn(ConsumeApproval(db, a, version, token, basis, q, formatOk, n).0, a, version, token, q, id)
  {
  }

  /** Consuming an approval again, anywhere later in the run, answers the first
      basis exactly when the request is the same, and changes nothing. */
  lemma {:induction false} ApprovalRetry(
      db: Auth, a: Id, version: nat, token: Id, basis: Id, q: BasisRequest, formatOk: bool, n: Time, id: Id,
      later: seq<Command>, token': Id, basis': Id, q': BasisRequest, formatOk': bool, m: Time)
    requires Inv(db) && ConsumeApproval(db, a, version, token, basis, q, formatOk, n).1 == Some(id)
    ensures var end := Run(ConsumeApproval(db, a, version, token, basis, q, formatOk, n).0, later);
            ConsumeApproval(end, a, version, token', basis', q', formatOk', m) ==
              (end, if token' == token && q' == q then Some(id) else None)
  {
    var d := ConsumeApproval(db, a, version, token, basis, q, formatOk, n).0;
    ConsumingSpends(db, a, version, token, basis, q, formatOk, n, id);
    ConsumeApprovalKeeps(db, a, version, token, basis, q, formatOk, n);
    SpentStays(d, later, a, version, token, q, id);
    assert Repeats(d.bases[id], q') ==> q' == q;
  }

  lemma IssuedTerms(db: Auth, id: Id, nonce: Id, t: Terms, formatOk: bool, n: Time, x: Id)
    requires IssueReceipt(db, id, nonce, t, formatOk, n).1 == Some(x)
    ensures SameTerms(IssueReceipt(db, id, nonce, t, formatOk, n).0, x, t)
  {
  }

  lemma {:induction false} TermsStay(db: Auth, cs: seq<Command>, x: Id, t: Terms)
    requires Inv(db) && SameTerms(db, x, t)
    ensures SameTerms(Run(db, cs), x, t)
  {
    RunKeeps(db, cs);
    OpenGrown(db, Run(db, cs));
    assert ReceiptGrown(db.receipts[x], Run(db, cs).receipts[x]);
  }

  lemma IssuedAgain(end: Auth, x: Id, t: Terms, id': Id, nonce': Id, t': Terms, formatOk': bool, m: Time)
    requires Inv(end) && SameTerms(end, x, t) && t'.basis == t.basis
    ensures IssueReceipt(end, id', nonce', t', formatOk', m) ==
              (end, if formatOk' && MayIssueReceipt(end, t', m) && t' == t then Some(x) else None)
  {
    assert ReceiptTaken(end, id', nonce', t'.basis);
    forall y | SameTerms(end, y, t') ensures y == x && t' == t {
      OpenInv(end);
      assert Clash(end.receipts[x], end.receipts[y]);
    }
    assert t' == t ==> SameTerms(end, x, t');
  }

  /** Issuing a receipt again on the same basis never issues a second one: the
      reply is the first id for the same terms while they may still be issued. */
  lemma {:induction false} ReceiptRetry(
      db: Auth, id: Id, nonce: Id, t: Terms, formatOk: bool, n: Time, x: Id, later: seq<Command>,
      id': Id, nonce': Id, t': Terms, formatOk': bool, m: Time)
    requires Inv(db) && IssueReceipt(db, id, nonce, t, formatOk, n).1 == Some(x) && t'.basis == t.basis
    ensures var end := Run(IssueReceipt(db, id, nonce, t, formatOk, n).0, later);
            IssueReceipt(end, id', nonce', t', formatOk', m) ==
              (end, if formatOk' && MayIssueReceipt(end, t', m) && t' == t then Some(x) else None)
  {
    var d := IssueReceipt(db, id, nonce, t, formatOk, n).0;
    IssueReceiptKeeps(db, id, nonce, t, formatOk, n);
    IssuedTerms(db, id, nonce, t, formatOk, n, x);
    TermsStay(d, later, x, t);
    RunKeeps(d, later);
    IssuedAgain(Run(d, later), x, t, id', nonce', t', formatOk', m);
  }

  lemma IssuedBasis(db: Auth, basis: Id, mandate: Id, version: nat, q: BasisRequest, formatOk: bool, n: Time, x: Id)
    requires IssueBasis(db, basis, mandate, version, q, formatOk, n).1 == Some(x)
    ensures RepeatedBasis(IssueBasis(db, basis, mandate, version, q, formatOk, n).0, x, mandate, version, q)
  {
  }

  lemma {:induction false} BasisStaysIssued(
      db: Auth, cs: seq<Command>, x: Id, mandate: Id, version: nat, q: BasisRequest)
    requires Inv(db) && RepeatedBasis(db, x, mandate, version, q)
    ensures RepeatedBasis(Run(db, cs), x, mandate, version, q)
  {
    RunKeeps(db, cs);
    OpenGrown(db, Run(db, cs));
    assert BasisGrown(db.bases[x], Run(db, cs).bases[x]);
  }

  lemma BasisIssuedAgain(
      end: Auth, x: Id, mandate: Id, version: nat, q: BasisRequest, basis': Id, q': BasisRequest, formatOk': bool,
      m: Time)
    requires Inv(end) && RepeatedBasis(end, x, mandate, version, q)
    requires q'.order.plan.id == q.order.plan.id && q'.order.plan.version == q.order.plan.version
    ensures IssueBasis(end, basis', mandate, version, q', formatOk', m) ==
              (end, if formatOk' && MayIssueBasis(end, mandate, version, q', m) && q' == q then Some(x) else None)
  {
    assert MandatePlanBasis(end.bases[x], mandate, version, q'.order.plan);
    assert HasMandateBasis(end, mandate, version, q'.order.plan);
    forall y | RepeatedBasis(end, y, mandate, version, q') ensures y == x && q' == q {
      OpenInv(end);
      assert SamePlanBasis(end.bases[x], end.bases[y]);
    }
    assert q' == q ==> RepeatedBasis(end, x, mandate, version, q');
  }

  /** A mandate version gives each plan version one basis, asked for as often as
      one likes. */
  lemma {:induction false} MandateBasisRetry(
      db: Auth, basis: Id, mandate: Id, version: nat, q: BasisRequest, formatOk: bool, n: Time, x: Id,
      later: seq<Command>, basis': Id, q': BasisRequest, formatOk': bool, m: Time)
    requires Inv(db) && IssueBasis(db, basis, mandate, version, q, formatOk, n).1 == Some(x)
    requires q'.order.plan.id == q.order.plan.id && q'.order.plan.version == q.order.plan.version
    ensures var end := Run(IssueBasis(db, basis, mandate, version, q, formatOk, n).0, later);
            IssueBasis(end, basis', mandate, version, q', formatOk', m) ==
              (end, if formatOk' && MayIssueBasis(end, mandate, version, q', m) && q' == q then Some(x) else None)
  {
    var d := IssueBasis(db, basis, mandate, version, q, formatOk, n).0;
    IssueBasisKeeps(db, basis, mandate, version, q, formatOk, n);
    IssuedBasis(db, basis, mandate, version, q, formatOk, n, x);
    BasisStaysIssued(d, later, x, mandate, version, q);
    RunKeeps(d, later);
    BasisIssuedAgain(Run(d, later), x, mandate, version, q, basis', q', formatOk', m);
  }

  /** A basis is reserved once; a repeated call changes nothing and is TRUE only
      while that reservation is still held. */
  lemma {:induction false} ReservationRetry(
      db: Auth, id: Id, q: ReserveRequest, formatOk: bool, n: Time, later: seq<Command>,
      id': Id, q': ReserveRequest, formatOk': bool, m: Time)
    requires Inv(db) && Reserve(db, id, q, formatOk, n).0 != db && q'.basis == q.basis
    ensures var end := Run(Reserve(db, id, q, formatOk, n).0, later);
            id in end.reservations && Reserve(end, id', q', formatOk', m) ==
              (end, Done(formatOk' && MayReserve(end, q', m) && q' == q && end.reservations[id].status.Held?))
  {
    var d := Reserve(db, id, q, formatOk, n).0;
    var end := Run(d, later);
    ReserveKeeps(db, id, q, formatOk, n);
    RunKeeps(d, later);
    OpenGrown(d, end);
    assert ReservationGrown(d.reservations[id], end.reservations[id]);
    assert BasisGrown(d.bases[q.basis], end.bases[q.basis]);
    ReservedAgain(end, id, q, q', formatOk', m);
  }

  lemma ReservedAgain(end: Auth, id: Id, q: ReserveRequest, q': ReserveRequest, formatOk': bool, m: Time)
    requires Inv(end) && id in end.reservations && q.basis in end.bases && q'.basis == q.basis
    requires end.reservations[id] == ReservationRow(q, end.bases[q.basis]).(status := end.reservations[id].status)
    ensures formatOk' && MayReserve(end, q', m) ==> IsReserved(end, q')
    ensures formatOk' && MayReserve(end, q', m) ==>
              (ReservedAs(end, q') <==> q' == q && end.reservations[id].status.Held?)
  {
    ReservationRowOf(end, id);
    if MayReserve(end, q', m) {
      assert SamePlanAndBasis(end.reservations[id], q');
      OpenInv(end);
      forall r | r in end.reservations && SamePlanAndBasis(end.reservations[r], q') ensures r == id {
      }
      assert SameReservation(end, end.reservations[id], q') <==> q' == q && end.reservations[id].status.Held?;
    }
  }

  // ---- The pause barrier ----------------------------------------------------------------------------

  /** The mode a receipt was issued under has moved on, or the mandate version
      its basis rests on has. */
  ghost predicate Behind(db: Auth, x: Id) {
    && x in db.receipts && db.receipts[x].terms.basis in db.bases
    && var t := db.receipts[x].terms;
       var s := db.bases[t.basis].source;
       || (t.origin.Agent? && t.origin.binding in db.bindings &&
             db.bindings[t.origin.binding].version > t.origin.version)
       || (s.FromMandate? && s.mandate in db.mandates && db.mandates[s.mandate].version > s.version)
  }

  lemma BehindStays(a: Auth, b: Auth, x: Id)
    requires Grown(a, b) && Behind(a, x)
    ensures Behind(b, x)
  {
    OpenGrown(a, b);
    var t := a.receipts[x].terms;
    assert ReceiptGrown(a.receipts[x], b.receipts[x]) && BasisGrown(a.bases[t.basis], b.bases[t.basis]);
    if t.origin.Agent? && t.origin.binding in a.bindings {
      assert BindingGrown(a.bindings[t.origin.binding], b.bindings[t.origin.binding]);
    }
    var s := a.bases[t.basis].source;
    if s.FromMandate? && s.mandate in a.mandates {
      assert MandateGrown(a.mandates[s.mandate], b.mandates[s.mandate]);
    }
  }

  lemma BehindIsRefused(db: Auth, x: Id, n: Time)
    requires Inv(db) && Behind(db, x)
    ensures !MayUseReceipt(db, db.receipts[x], n)
  {
    ReceiptRow(db, x);
  }

  /** A receipt left behind is never consumed, whatever happens afterwards. */
  lemma {:induction false} BehindIsNeverConsumed(db: Auth, x: Id, cs: seq<Command>)
    requires Inv(db) && Behind(db, x) && !db.receipts[x].status.Consumed?
    ensures Behind(Run(db, cs), x) && !Run(db, cs).receipts[x].status.Consumed?
  {
    if cs != [] {
      var front, c := cs[..|cs| - 1], cs[|cs| - 1];
      var mid := Run(db, front);
      BehindIsNeverConsumed(db, x, front);
      RunKeeps(db, front);
      ApplyKeeps(mid, c);
      BehindStays(mid, Apply(mid, c), x);
      if Apply(mid, c).receipts[x].status.Consumed? {
        OnlyConsumingConsumes(mid, c, x);
        BehindIsRefused(mid, x, c.n);
      }
    }
  }

  /** The commands that take a binding out of autonomous mode, when they succeed. */
  ghost predicate Pauses(db: Auth, c: Command, binding: Id) {
    || (c.DoCompositePause? && c.binding == binding &&
          CompositePause(db, c.mandate, c.mandateVersion, binding, c.bindingVersion, c.account, c.actor,
              c.newMandateHash, c.newBindingHash, c.formatOk, c.n).1 == Done(true))
    || (c.DoPauseMode? && c.binding == binding &&
          PauseMode(db, binding, c.version, c.account, c.actor, c.newHash, c.formatOk, c.n).1 == Done(true))
    || (c.DoRetire? && c.binding == binding &&
          Retire(db, binding, c.version, c.owner, c.status, c.actor, c.newHash, c.formatOk, c.n).1 == Done(true))
  }

  lemma LeavingMovesOn(db: Auth, binding: Id, row: Binding, n: Time)
    requires binding in db.bindings && LeaveMode(db, binding, row, n).Done?
    ensures var d := LeaveMode(db, binding, row, n).value;
            binding in d.bindings && d.bindings[binding] == row
  {
  }

  lemma {:induction false} PausingMovesOn(db: Auth, c: Command, binding: Id)
    requires Pauses(db, c, binding)
    ensures binding in db.bindings && binding in Apply(db, c).bindings
    ensures Apply(db, c).bindings[binding].version == db.bindings[binding].version + 1
  {
    if c.DoPauseMode? {
      LeavingMovesOn(
        db, binding, db.bindings[binding].(version := c.version + 1, paused := true, hash := c.newHash), c.n);
    } else if c.DoRetire? {
      LeavingMovesOn(
        db, binding, db.bindings[binding].(version := c.version + 1, status := c.status, hash := c.newHash), c.n);
    }
  }

  /** An autonomous receipt issued on a binding before it was paused or retired
      is never consumed afterwards, even when the binding resumes. */
  lemma {:induction false} PauseBarrier(db: Auth, c: Command, binding: Id, x: Id, later: seq<Command>)
    requires Inv(db) && Pauses(db, c, binding) && x in db.receipts && !db.receipts[x].status.Consumed?
    requires db.receipts[x].terms.origin.Agent? && db.receipts[x].terms.origin.binding == binding
    ensures x in Run(Apply(db, c), later).receipts && !Run(Apply(db, c), later).receipts[x].status.Consumed?
  {
    var d := Apply(db, c);
    PausingMovesOn(db, c, binding);
    ReceiptRow(db, x);
    ApplyKeeps(db, c);
    OpenGrown(db, d);
    assert ReceiptGrown(db.receipts[x], d.receipts[x]) &&
           BasisGrown(db.bases[db.receipts[x].terms.basis], d.bases[db.receipts[x].terms.basis]);
    if d.receipts[x].status.Consumed? {
      OnlyConsumingConsumes(db, c, x);
    }
    assert Behind(d, x);
    BehindIsNeverConsumed(d, x, later);
  }

  /** Whenever a mandate has moved, no receipt issued on it before is still open. */
  lemma {:induction false} MandateBarrier(db: Auth, x: Id, cs: seq<Command>)
    requires Inv(db) && x in db.receipts && db.receipts[x].status.Issued? && db.receipts[x].terms.basis in db.bases
    requires db.bases[db.receipts[x].terms.basis].source.FromMandate?
    ensures var m := db.bases[db.receipts[x].terms.basis].source.mandate;
            var end := Run(db, cs);
            m in db.mandates && m in end.mandates && x in end.receipts &&
              (end.mandates[m] != db.mandates[m] ==> !end.receipts[x].status.Issued?)
  {
    var end := Run(db, cs);
    ReceiptRow(db, x);
    RunKeeps(db, cs);
    OpenGrown(db, end);
    var t := db.receipts[x].terms;
    var m := db.bases[t.basis].source.mandate;
    assert ReceiptGrown(db.receipts[x], end.receipts[x]) && BasisGrown(db.bases[t.basis], end.bases[t.basis]);
    assert MandateGrown(db.mandates[m], end.mandates[m]);
    ReceiptRow(end, x);
  }

  // ---- Bindings whose mandate has moved on -------------------------------------------------------------

  /** An autonomous binding is pinned to a version its mandate has left. */
  ghost predicate Orphan(db: Auth, binding: Id) {
    && binding in db.bindings && db.bindings[binding].mode.Autonomous? && db.bindings[binding].mandate.Some?
    && var pin := db.bindings[binding].mandate.value;
       pin.mandate in db.mandates && db.mandates[pin.mandate].version > pin.version
  }

  ghost predicate PinnedTo(db: Auth, binding: Id, pin: Pin) {
    binding in db.bindings && db.bindings[binding].mode.Autonomous? && db.bindings[binding].mandate == Some(pin)
  }

  /** A mandate that moves leaves every binding pinned to it behind. */
  lemma MovingOrphans(db: Auth, id: Id, to: MandateStatus, newHash: Id, n: Time)
    requires id in db.mandates
    ensures forall b :: Orphan(MoveTo(db, id, to, newHash, n), b) <==>
                          Orphan(db, b) || PinnedTo(db, b, Pin(id, db.mandates[id].version))
  {
    MoveToSets(db, id, to, newHash, n);
    MandatesLeaveBindings(db, id, to, newHash, n);
  }

  /** transition_simulation_autonomy_mandate makes orphans: exactly the bindings
      pinned to the version it leaves, and it takes none back. */
  lemma TransitionOrphans(
      db: Auth, id: Id, version: nat, to: MandateStatus, actor: Actor, newHash: Id, formatOk: bool, n: Time)
    requires Transition(db, id, version, to, actor, newHash, formatOk, n).1
    ensures forall b :: Orphan(Transition(db, id, version, to, actor, newHash, formatOk, n).0, b) <==>
                          Orphan(db, b) || PinnedTo(db, b, Pin(id, version))
  {
    MovingOrphans(db, id, to, newHash, n);
  }

  /** So does expire_simulation_autonomy_mandate. */
  lemma ExpiryOrphans(db: Auth, id: Id, version: nat, actor: Actor, newHash: Id, formatOk: bool, n: Time)
    requires ExpireMandate(db, id, version, actor, newHash, formatOk, n).1
    ensures forall b :: Orphan(ExpireMandate(db, id, version, actor, newHash, formatOk, n).0, b) <==>
                          Orphan(db, b) || PinnedTo(db, b, Pin(id, version))
  {
    MovingOrphans(db, id, Expired, newHash, n);
  }

  /** A mandate that moves together with one binding leaves the others behind. */
  lemma PairOrphans(
      db: Auth, mandate: Id, binding: Id, to: MandateStatus, paused: bool, newMandateHash: Id, newBindingHash: Id,
      n: Time)
    requires mandate in db.mandates && binding in db.bindings
    requires MovePair(db, mandate, binding, to, paused, newMandateHash, newBindingHash, n).Done?
    requires PinnedTo(db, binding, Pin(mandate, db.mandates[mandate].version))
    ensures var d := MovePair(db, mandate, binding, to, paused, newMandateHash, newBindingHash, n).value;
            forall b :: Orphan(d, b) <==>
                b != binding && (Orphan(db, b) || PinnedTo(db, b, Pin(mandate, db.mandates[mandate].version)))
  {
  }

  /** No UPDATE of an orphaned row passes the trigger that keeps its pin. */
  lemma OrphanIsRefused(db: Auth, binding: Id, row: Binding, n: Time)
    requires Orphan(db, binding) && row.mode == db.bindings[binding].mode && row.mandate == db.bindings[binding].mandate
    ensures MoveBinding(db, binding, row, n) == Raised
  {
  }

  lemma WithdrawLeavesBindings(d: Auth, pin: Pin, account: Option<Id>, n: Time)
    ensures Withdraw(d, pin, account, n).bindings == d.bindings
  {
  }

  lemma MandatesLeaveBindings(db: Auth, id: Id, to: MandateStatus, newHash: Id, n: Time)
    requires id in db.mandates
    ensures MoveTo(db, id, to, newHash, n).bindings == db.bindings
  {
    WithdrawLeavesBindings(MoveMandate(db, id, to, newHash), Pin(id, db.mandates[id].version), None, n);
  }

  lemma OrphanUnderMandates(db: Auth, c: Command)
    requires c.DoTransition? || c.DoExpire?
    ensures Apply(db, c).bindings == db.bindings
  {
    if c.id in db.mandates {
      MandatesLeaveBindings(db, c.id, if c.DoTransition? then c.to else Expired, c.newHash, c.n);
    }
  }

  lemma PairLeavesOthers(
      db: Auth, orphan: Id, mandate: Id, binding: Id, account: Id, to: MandateStatus, paused: bool, newMandateHash: Id,
      newBindingHash: Id, n: Time)
    requires mandate in db.mandates && binding in db.bindings && orphan in db.bindings && orphan != binding
    ensures var d := MovePair(db, mandate, binding, to, paused, newMandateHash, newBindingHash, n);
            d.Done? ==> orphan in d.value.bindings && d.value.bindings[orphan] == db.bindings[orphan]
    ensures var d := PausePair(db, mandate, binding, account, newMandateHash, newBindingHash, n);
            d.Done? ==> orphan in d.value.bindings && d.value.bindings[orphan] == db.bindings[orphan]
  {
  }

  /** An orphan is not pinned to the version its mandate has now. */
  lemma OrphanIsNotPinned(
      db: Auth, orphan: Id, mandate: Id, mandateVersion: nat, bindingVersion: nat, account: Id, n: Time)
    requires Orphan(db, orphan)
    ensures !Pinned(db, mandate, mandateVersion, orphan, bindingVersion, account, n)
  {
  }

  lemma OrphanUnderComposites(db: Auth, c: Command, orphan: Id)
    requires Orphan(db, orphan) && (c.DoCompositePause? || c.DoCompositeResume?)
    ensures orphan in Apply(db, c).bindings && Apply(db, c).bindings[orphan] == db.bindings[orphan]
    ensures !Pauses(db, c, orphan)
  {
    if c.binding == orphan {
      OrphanIsNotPinned(db, orphan, c.mandate, c.mandateVersion, c.bindingVersion, c.account, c.n);
    } else if c.mandate in db.mandates && c.binding in db.bindings {
      PairLeavesOthers(
        db, orphan, c.mandate, c.binding, c.account, Active, false, c.newMandateHash, c.newBindingHash, c.n);
    }
  }

  lemma LeavingLeavesOthers(db: Auth, orphan: Id, binding: Id, row: Binding, n: Time)
    requires binding in db.bindings && orphan in db.bindings
    ensures LeaveMode(db, binding, row, n).Done? && orphan != binding ==>
              orphan in LeaveMode(db, binding, row, n).value.bindings &&
              LeaveMode(db, binding, row, n).value.bindings[orphan] == db.bindings[orphan]
  {
  }

  /** Leaving its mode is refused to an orphan and does not concern another one. */
  lemma LeavingSparesOrphans(db: Auth, orphan: Id, binding: Id, row: Binding, n: Time)
    requires Orphan(db, orphan) && binding in db.bindings
    requires row.mode == db.bindings[binding].mode && row.mandate == db.bindings[binding].mandate
    ensures LeaveMode(db, binding, row, n).Done? ==>
              orphan != binding && orphan in LeaveMode(db, binding, row, n).value.bindings &&
              LeaveMode(db, binding, row, n).value.bindings[orphan] == db.bindings[orphan]
  {
    if binding == orphan {
      OrphanIsRefused(db, orphan, row, n);
    } else {
      LeavingLeavesOthers(db, orphan, binding, row, n);
    }
  }

  lemma OrphanUnderPause(db: Auth, c: Command, orphan: Id)
    requires Orphan(db, orphan) && c.DoPauseMode?
    ensures orphan in Apply(db, c).bindings && Apply(db, c).bindings[orphan] == db.bindings[orphan]
    ensures !Pauses(db, c, orphan)
  {
    if c.binding in db.bindings {
      LeavingSparesOrphans(
        db, orphan, c.binding, db.bindings[c.binding].(version := c.version + 1, paused := true, hash := c.newHash),
        c.n);
    }
  }

  lemma OrphanUnderRetire(db: Auth, c: Command, orphan: Id)
    requires Orphan(db, orphan) && c.DoRetire?
    ensures orphan in Apply(db, c).bindings && Apply(db, c).bindings[orphan] == db.bindings[orphan]
    ensures !Pauses(db, c, orphan)
  {
    if c.binding in db.bindings {
      LeavingSparesOrphans(
        db, orphan, c.binding, db.bindings[c.binding].(version := c.version + 1, status := c.status, hash := c.newHash),
        c.n);
    }
  }

  lemma {:induction false} OrphanMove(db: Auth, c: Command, binding: Id)
    requires Orphan(db, binding) && Moves(c)
    ensures binding in Apply(db, c).bindings && Apply(db, c).bindings[binding] == db.bindings[binding]
    ensures !Pauses(db, c, binding)
  {
    if c.DoTransition? || c.DoExpire? {
      OrphanUnderMandates(db, c);
    } else if c.DoPauseMode? {
      OrphanUnderPause(db, c, binding);
    } else if c.DoRetire? {
      OrphanUnderRetire(db, c, binding);
    } else {
      OrphanUnderComposites(db, c, binding);
    }
  }

  lemma OrphanStep(db: Auth, c: Command, binding: Id)
    requires Orphan(db, binding)
    ensures binding in Apply(db, c).bindings && Apply(db, c).bindings[binding] == db.bindings[binding]
    ensures !Pauses(db, c, binding)
  {
    if Moves(c) {
      OrphanMove(db, c, binding);
    }
  }

  /** Moving a mandate by itself leaves its bindings where they are, for good:
      they can be neither paused, resumed nor retired any more. */
  lemma {:induction false} OrphanNeverMoves(db: Auth, binding: Id, cs: seq<Command>)
    requires Inv(db) && Orphan(db, binding)
    ensures Orphan(Run(db, cs), binding) && Run(db, cs).bindings[binding] == db.bindings[binding]
  {
    if cs != [] {
      var front, c := cs[..|cs| - 1], cs[|cs| - 1];
      var mid := Run(db, front);
      OrphanNeverMoves(db, binding, front);
      OrphanStep(mid, c, binding);
      RunKeeps(db, front);
      ApplyKeeps(mid, c);
      OpenGrown(mid, Apply(mid, c));
      var m := db.bindings[binding].mandate.value.mandate;
      assert MandateGrown(mid.mandates[m], Apply(mid, c).mandates[m]);
    }
  }

  // ---- How a binding is orphaned -----------------------------------------------------------------------

  /** The command passes its guards and moves the mandate the binding is pinned to,
      and not the binding. */
  ghost predicate LeavesBehind(db: Auth, c: Command, b: Id) {
    match c
    case DoTransition(id, v, to, actor, h, ok, n) =>
      MayTransition(db, id, v, to, actor, h, ok, n) && PinnedTo(db, b, Pin(id, v))
    case DoExpire(id, v, actor, h, ok, n) =>
      MayExpire(db, id, v, actor, h, ok, n) && PinnedTo(db, b, Pin(id, v))
    case DoCompositePause(m, mv, x, bv, account, actor, mh, bh, ok, n) =>
      MayPausePair(db, m, mv, x, bv, account, actor, mh, bh, ok, n) && b != x && PinnedTo(db, b, Pin(m, mv))
    case DoCompositeResume(m, mv, x, bv, account, run, policy, actor, mh, bh, ok, n) =>
      MayResumePair(db, m, mv, x, bv, account, run, policy, actor, mh, bh, ok, n) && b != x &&
      PinnedTo(db, b, Pin(m, mv))
    case _ => false
  }

  lemma MandateOrphansIff(db: Auth, c: Command, b: Id)
    requires c.DoTransition? || c.DoExpire?
    ensures Orphan(Apply(db, c), b) <==> Orphan(db, b) || LeavesBehind(db, c, b)
  {
    if c.DoTransition? {
      if Transition(db, c.id, c.version, c.to, c.actor, c.newHash, c.formatOk, c.n).1 {
        TransitionOrphans(db, c.id, c.version, c.to, c.actor, c.newHash, c.formatOk, c.n);
      }
    } else {
      if ExpireMandate(db, c.id, c.version, c.actor, c.newHash, c.formatOk, c.n).1 {
        ExpiryOrphans(db, c.id, c.version, c.actor, c.newHash, c.formatOk, c.n);
      }
    }
  }

  /** Orphan reads mandates and bindings only. */
  lemma SameOrphans(a: Auth, d: Auth, b: Id)
    requires d.mandates == a.mandates && d.bindings == a.bindings
    ensures Orphan(d, b) <==> Orphan(a, b)
  {
  }

  lemma PausePairOrphans(
      db: Auth, mandate: Id, binding: Id, account: Id, newMandateHash: Id, newBindingHash: Id, n: Time, b: Id)
    requires mandate in db.mandates && binding in db.bindings
    requires PinnedTo(db, binding, Pin(mandate, db.mandates[mandate].version))
    requires PausePair(db, mandate, binding, account, newMandateHash, newBindingHash, n).Done?
    ensures Orphan(PausePair(db, mandate, binding, account, newMandateHash, newBindingHash, n).value, b) <==>
              b != binding && (Orphan(db, b) || PinnedTo(db, b, Pin(mandate, db.mandates[mandate].version)))
  {
    var e := MovePair(db, mandate, binding, Suspended, true, newMandateHash, newBindingHash, n).value;
    PairOrphans(db, mandate, binding, Suspended, true, newMandateHash, newBindingHash, n);
    SameOrphans(e, Withdraw(e, Pin(mandate, db.mandates[mandate].version), Some(account), n), b);
  }

  lemma PauseOrphansIff(db: Auth, c: Command, b: Id)
    requires Inv(db) && c.DoCompositePause?
    ensures Orphan(Apply(db, c), b) <==> Orphan(db, b) || LeavesBehind(db, c, b)
  {
    PausingNeverRaises(
      db, c.mandate, c.mandateVersion, c.binding, c.bindingVersion, c.account, c.actor, c.newMandateHash,
      c.newBindingHash,
      c.formatOk, c.n);
    if MayPausePair(
         db, c.mandate, c.mandateVersion, c.binding, c.bindingVersion, c.account, c.actor, c.newMandateHash,
         c.newBindingHash, c.formatOk, c.n) {
      PausePairOrphans(db, c.mandate, c.binding, c.account, c.newMandateHash, c.newBindingHash, c.n, b);
    }
  }

  lemma ResumeOrphansIff(db: Auth, c: Command, b: Id)
    requires Inv(db) && c.DoCompositeResume?
    ensures Orphan(Apply(db, c), b) <==> Orphan(db, b) || LeavesBehind(db, c, b)
  {
    ResumingNeverRaises(
      db, c.mandate, c.mandateVersion, c.binding, c.bindingVersion, c.account, c.runHash, c.policy, c.actor,
      c.newMandateHash, c.newBindingHash, c.formatOk, c.n);
    if MayResumePair(
         db, c.mandate, c.mandateVersion, c.binding, c.bindingVersion, c.account, c.runHash, c.policy, c.actor,
         c.newMandateHash, c.newBindingHash, c.formatOk, c.n) {
      PairOrphans(db, c.mandate, c.binding, Active, false, c.newMandateHash, c.newBindingHash, c.n);
    }
  }

  lemma LeavingOrphansNothing(db: Auth, binding: Id, row: Binding, n: Time, b: Id)
    requires binding in db.bindings && LeaveMode(db, binding, row, n).Done?
    requires row.mode == db.bindings[binding].mode && row.mandate == db.bindings[binding].mandate
    ensures Orphan(LeaveMode(db, binding, row, n).value, b) <==> Orphan(db, b)
  {
    LeavingLeavesMandates(db, binding, row, n);
    LeavingMovesOn(db, binding, row, n);
    if b in db.bindings {
      LeavingLeavesOthers(db, b, binding, row, n);
    }
    assert LeaveMode(db, binding, row, n).value.bindings.Keys == db.bindings.Keys;
  }

  lemma PausingOrphansNothing(db: Auth, c: Command, b: Id)
    requires c.DoPauseMode?
    ensures Orphan(Apply(db, c), b) <==> Orphan(db, b)
  {
    if c.binding in db.bindings {
      var row := db.bindings[c.binding].(version := c.version + 1, paused := true, hash := c.newHash);
      if LeaveMode(db, c.binding, row, c.n).Done? {
        LeavingOrphansNothing(db, c.binding, row, c.n, b);
      }
    }
  }

  lemma RetiringOrphansNothing(db: Auth, c: Command, b: Id)
    requires c.DoRetire?
    ensures Orphan(Apply(db, c), b) <==> Orphan(db, b)
  {
    if c.binding in db.bindings {
      var row := db.bindings[c.binding].(version := c.version + 1, status := c.status, hash := c.newHash);
      if LeaveMode(db, c.binding, row, c.n).Done? {
        LeavingOrphansNothing(db, c.binding, row, c.n, b);
      }
    }
  }

  lemma AddMandateOrphansNothing(db: Auth, id: Id, row: Mandate, b: Id)
    requires b in db.bindings ==> BindingSound(db, b)
    ensures Orphan(AddMandate(db, id, row), b) <==> Orphan(db, b)
  {
  }

  lemma AddBindingOrphansNothing(db: Auth, id: Id, row: Binding, n: Time, b: Id)
    ensures Orphan(AddBinding(db, id, row, n), b) <==> Orphan(db, b)
  {
  }

  lemma RecordsOrphanNothing(db: Auth, c: Command, b: Id)
    requires Inv(db) && Records(c)
    ensures Orphan(Apply(db, c), b) <==> Orphan(db, b)
  {
    if b in db.bindings {
      BindingRow(db, b);
    }
    if c.DoAddMandate? {
      AddMandateOrphansNothing(db, c.id, c.mandateRow, b);
    } else if c.DoAddBinding? {
      AddBindingOrphansNothing(db, c.id, c.bindingRow, c.n, b);
    } else {
      SameOrphans(db, Apply(db, c), b);
    }
  }

  predicate Approves(c: Command) {
    c.DoRequest? || c.DoGrant? || c.DoConsumeApproval? || c.DoIssueBasis?
  }

  lemma ApprovalsOrphanNothing(db: Auth, c: Command)
    requires Approves(c)
    ensures Apply(db, c).mandates == db.mandates && Apply(db, c).bindings == db.bindings
  {
  }

  /** The rest of the commands touch neither mandates nor bindings. */
  lemma OthersOrphanNothing(db: Auth, c: Command)
    requires !Moves(c) && !Records(c)
    ensures Apply(db, c).mandates == db.mandates && Apply(db, c).bindings == db.bindings
  {
    if Approves(c) {
      ApprovalsOrphanNothing(db, c);
    }
  }

  /** A binding is an orphan after a command exactly if it was one before or if the
      command moved its mandate without it. */
  lemma OrphanArisesIff(db: Auth, c: Command, b: Id)
    requires Inv(db)
    ensures Orphan(Apply(db, c), b) <==> Orphan(db, b) || LeavesBehind(db, c, b)
  {
    if c.DoTransition? || c.DoExpire? {
      MandateOrphansIff(db, c, b);
    } else if c.DoCompositePause? {
      PauseOrphansIff(db, c, b);
    } else if c.DoCompositeResume? {
      ResumeOrphansIff(db, c, b);
    } else if c.DoPauseMode? {
      PausingOrphansNothing(db, c, b);
    } else if c.DoRetire? {
      RetiringOrphansNothing(db, c, b);
    } else if Records(c) {
      RecordsOrphanNothing(db, c, b);
    } else {
      OthersOrphanNothing(db, c);
    }
  }

  // ---- An orphan from nothing ------------------------------------------------------------------------

  const SMALL_SCOPE := Scope(5, [1], [1], [1], [Close], 1.0, None)
  const NEW_MANDATE := Mandate(1, Draft, 5, SMALL_SCOPE, 0, 0, false, 100)
  const NEW_BINDING := Binding(1, InForce, Autonomous, false, Some(5), Some(Pin(1, 1)), 0, 0, SMALL_SCOPE, 0, true, 100)

  lemma RunThree(db: Auth, a: Command, b: Command, c: Command)
    ensures Run(db, [a, b, c]) == Apply(Apply(Apply(db, a), b), c)
  {
    assert [a, b, c][..2] == [a, b] && [a, b][..1] == [a] && [a][..0] == [];
    assert Run(db, [a]) == Apply(Run(db, []), a);
    assert Run(db, [a, b]) == Apply(Run(db, [a]), b);
  }

  const WITH_BINDING := NO_AUTHORITY.(mandates := map[1 := NEW_MANDATE], bindings := map[2 := NEW_BINDING])

  lemma Recorded()
    ensures Apply(Apply(NO_AUTHORITY, DoAddMandate(1, NEW_MANDATE)), DoAddBinding(2, NEW_BINDING, 0)) == WITH_BINDING
  {
    var d := Apply(NO_AUTHORITY, DoAddMandate(1, NEW_MANDATE));
    assert d == NO_AUTHORITY.(mandates := map[1 := NEW_MANDATE]);
    assert MayStore(d, NEW_BINDING, 0);
  }

  const VALIDATE := DoTransition(1, 1, Validated, Service(0), 1, true, 0)

  lemma ValidatedLeaves()
    ensures Orphan(Apply(WITH_BINDING, VALIDATE), 2) && Apply(WITH_BINDING, VALIDATE).bindings == WITH_BINDING.bindings
  {
    TransitionOrphans(WITH_BINDING, 1, 1, Validated, Service(0), 1, true, 0);
    OrphanUnderMandates(WITH_BINDING, VALIDATE);
    assert PinnedTo(WITH_BINDING, 2, Pin(1, 1));
  }

  /** A mandate and a binding are recorded and the mandate is validated; from then
      on pausing the binding raises. */
  lemma {:induction false} ValidatingOrphans() returns (cs: seq<Command>)
    ensures Orphan(Run(NO_AUTHORITY, cs), 2)
    ensures PauseMode(Run(NO_AUTHORITY, cs), 2, 1, 5, Service(0), 1, true, 0).1.Raised?
  {
    cs := [DoAddMandate(1, NEW_MANDATE), DoAddBinding(2, NEW_BINDING, 0), VALIDATE];
    RunThree(NO_AUTHORITY, cs[0], cs[1], cs[2]);
    Recorded();
    ValidatedLeaves();
    ReachableIsSafe(cs);
    PauseModeRaisesIff(Run(NO_AUTHORITY, cs), 2, 1, 5, Service(0), 1, true, 0);
  }

  // ---- Triggers that never refuse ------------------------------------------------------------------

  /** The rows that consume_plan_approval and issue_mandate_basis insert pass
      assert_v014_basis_scope. */
  lemma BasisTriggerPasses(
      db: Auth, source: Id, version: nat, token: Id, q: BasisRequest, n: Time)
    ensures MayIssueBasis(db, source, version, q, n) ==>
              BindsSource(db, BasisRow(q, FromMandate(source, version), db.mandates[source].scope))
    ensures source in db.approvals && MayConsume(db.approvals[source], version, token, q, n) ==>
              BindsSource(db, BasisRow(q, FromApproval(source, version, token, db.approvals[source].scope.window.value),
                  db.approvals[source].scope))
  {
  }

  /** Every stored row passes its own trigger, so no UPDATE of a status is refused. */
  lemma {:induction false} StoredRowsPassTheirTriggers(cs: seq<Command>)
    ensures var db := Run(NO_AUTHORITY, cs);
            && (forall id :: id in db.bases ==>
                  ScopePermits(db.bases[id].scope, db.bases[id].order, db.bases[id].action, db.bases[id].quantity,
                      db.bases[id].source.FromApproval?))
            && (forall id :: id in db.reservations ==> BindsBasis(db, db.reservations[id]))
            && (forall id :: id in db.receipts ==> BindsReservation(db, db.receipts[id].terms))
            && (forall id :: id in db.approvals ==>
                  ValidScope(db.approvals[id].scope, db.approvals[id].scope.account, true))
  {
    var db := Run(NO_AUTHORITY, cs);
    ReachableIsSafe(cs);
    forall id | id in db.bases
      ensures ScopePermits(db.bases[id].scope, db.bases[id].order, db.bases[id].action, db.bases[id].quantity,
                db.bases[id].source.FromApproval?)
    {
      BasisRowOf(db, id);
    }
    forall id | id in db.reservations ensures BindsBasis(db, db.reservations[id]) {
      ReservationRowOf(db, id);
    }
    forall id | id in db.receipts ensures BindsReservation(db, db.receipts[id].terms) {
      ReceiptRow(db, id);
    }
    forall id | id in db.approvals ensures ValidScope(db.approvals[id].scope, db.approvals[id].scope.account, true) {
      ApprovalRow(db, id);
    }
  }

  // ---- When a command raises --------------------------------------------------------------------------

  lemma MoveRaisesIff(db: Auth, binding: Id, row: Binding, n: Time)
    requires Inv(db) && binding in db.bindings && row.version > 0
    requires row == db.bindings[binding].(version := row.version, status := row.status, paused := true,
               hash := row.hash) ||
             row == db.bindings[binding].(version := row.version, status := row.status, hash := row.hash)
    ensures MoveBinding(db, binding, row, n).Raised? <==> Orphan(db, binding) || !TemporalCheck(row, n)
  {
    BindingRow(db, binding);
  }

  /** Pausing by the supervisor raises exactly for orphaned bindings. */
  lemma PauseModeRaisesIff(
      db: Auth, binding: Id, version: nat, account: Id, actor: Actor, newHash: Id, formatOk: bool, n: Time)
    requires Inv(db)
    ensures PauseMode(db, binding, version, account, actor, newHash, formatOk, n).1.Raised? <==>
              formatOk && !actor.User? && InForceFor(db, binding, version, n) &&
              db.bindings[binding].account == Some(account) &&
              db.bindings[binding].hash != newHash && Orphan(db, binding)
  {
    if InForceFor(db, binding, version, n) {
      MoveRaisesIff(db, binding, db.bindings[binding].(version := version + 1, paused := true, hash := newHash), n);
    }
  }

  /** Retiring raises for orphaned bindings, and when a binding is superseded
      after it has expired. */
  lemma RetireRaisesIff(
      db: Auth, binding: Id, version: nat, account: Option<Id>, to: BindingStatus, actor: Actor, newHash: Id,
      formatOk: bool, n: Time)
    requires Inv(db)
    ensures Retire(db, binding, version, account, to, actor, newHash, formatOk, n).1.Raised? <==>
              formatOk && !to.InForce? && actor.Service? && binding in db.bindings &&
              db.bindings[binding].version == version &&
              db.bindings[binding].status.InForce? && db.bindings[binding].account == account &&
              db.bindings[binding].hash != newHash &&
              (if n < db.bindings[binding].expiresAt then to.Superseded? && Orphan(db, binding)
               else to.Superseded? || Orphan(db, binding))
  {
    if binding in db.bindings {
      MoveRaisesIff(db, binding, db.bindings[binding].(version := version + 1, status := to, hash := newHash), n);
    }
  }

  lemma MovedPair(db: Auth, mandate: Id, binding: Id, to: MandateStatus, newMandateHash: Id, row: Binding, n: Time)
    requires Inv(db) && mandate in db.mandates && binding in db.bindings && row.mode == db.bindings[binding].mode
    requires db.bindings[binding].mode.Autonomous? && db.bindings[binding].mandate.Some?
    requires db.bindings[binding].mandate.value.mandate == mandate
    requires row == db.bindings[binding].(version := row.version, paused := row.paused, mandate := row.mandate,
               hash := row.hash)
    requires row.mandate == Some(Pin(mandate, db.mandates[mandate].version + 1)) && row.version > 0
    requires (row.qualified || row.paused)
    requires TemporalCheck(row, n)
    ensures MoveBinding(MoveMandate(db, mandate, to, newMandateHash), binding, row, n).Done?
  {
    BindingRow(db, binding);
  }

  lemma PausingNeverRaises(
      db: Auth, mandate: Id, mandateVersion: nat, binding: Id, bindingVersion: nat, account: Id, actor: Actor,
      newMandateHash: Id, newBindingHash: Id, formatOk: bool, n: Time)
    requires Inv(db)
    ensures MayPausePair(
              db, mandate, mandateVersion, binding, bindingVersion, account, actor, newMandateHash, newBindingHash,
              formatOk, n) ==>
              PausePair(db, mandate, binding, account, newMandateHash, newBindingHash, n).Done?
  {
    if Pinned(db, mandate, mandateVersion, binding, bindingVersion, account, n) {
      MovedPair(
        db, mandate, binding, Suspended, newMandateHash, PairedRow(db, mandate, binding, true, newBindingHash), n);
    }
  }

  lemma ResumingNeverRaises(
      db: Auth, mandate: Id, mandateVersion: nat, binding: Id, bindingVersion: nat, account: Id, runHash: Id,
      policy: Id, actor: Actor, newMandateHash: Id, newBindingHash: Id, formatOk: bool, n: Time)
    requires Inv(db)
    ensures MayResumePair(
              db, mandate, mandateVersion, binding, bindingVersion, account, runHash, policy, actor,
              newMandateHash, newBindingHash, formatOk, n) ==>
              MovePair(db, mandate, binding, Active, false, newMandateHash, newBindingHash, n).Done?
  {
    if Pinned(db, mandate, mandateVersion, binding, bindingVersion, account, n) && db.bindings[binding].qualified {
      MovedPair(
        db, mandate, binding, Active, newMandateHash, PairedRow(db, mandate, binding, false, newBindingHash), n);
    }
  }

  /** Pausing and resuming a mandate together with its binding never raises. */
  lemma CompositesNeverRaise(
      db: Auth, mandate: Id, mandateVersion: nat, binding: Id, bindingVersion: nat, account: Id, runHash: Id,
      policy: Id, actor: Actor, newMandateHash: Id, newBindingHash: Id, formatOk: bool, n: Time)
    requires Inv(db)
    ensures CompositePause(
              db, mandate, mandateVersion, binding, bindingVersion, account, actor,
              newMandateHash, newBindingHash, formatOk, n).1.Done?
    ensures CompositeResume(
              db, mandate, mandateVersion, binding, bindingVersion, account, runHash, policy, actor,
              newMandateHash, newBindingHash, formatOk, n).1.Done?
  {
    PausingNeverRaises(
      db, mandate, mandateVersion, binding, bindingVersion, account, actor, newMandateHash, newBindingHash, formatOk,
      n);
    ResumingNeverRaises(
      db, mandate, mandateVersion, binding, bindingVersion, account, runHash, policy, actor,
      newMandateHash, newBindingHash, formatOk, n);
  }

  /** Reserving raises exactly when everything is in order but the quantity is not
      the whole authorised one. */
  lemma ReserveRaisesIff(db: Auth, id: Id, q: ReserveRequest, formatOk: bool, n: Time)
    ensures Reserve(db, id, q, formatOk, n).1.Raised? <==>
              formatOk && MayReserve(db, q, n) && !IsReserved(db, q) &&
              HeldLoss(db.reservations, q.order.account, n) + q.loss <= db.authorities[q.order.account].ceiling &&
              q.quantity < db.bases[q.basis].quantity
  {
  }
}
