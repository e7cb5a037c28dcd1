/** What holds of the authority tables in every reachable state. */
module AuthorityInvariants {
  import opened Common
  import opened AuthorityModel
  import opened AuthoritySteps

  // ---- How rows change ---------------------------------------------------------

  /** A mandate keeps its range; only its status moves, and with it its version. */
  ghost predicate MandateGrown(m: Mandate, m': Mandate) {
    && m'.version >= m.version && (m'.version == m.version ==> m' == m)
    && m' == m.(version := m'.version, status := m'.status, hash := m'.hash)
    && (m.status.Expired? || m.status.Revoked? ==> m' == m)
  }

  ghost predicate ApprovalGrown(a: Approval, a': Approval) {
    && a'.version >= a.version && (a'.version == a.version ==> a' == a)
    && a' == a.(version := a'.version, status := a'.status, decidedBy := a'.decidedBy)
    && (a.status.Spent? ==> a' == a)
  }

  ghost predicate BasisGrown(b: Basis, b': Basis) {
    b' == b || (b.status.Usable? && b' == b.(status := Stale))
  }

  ghost predicate ReservationGrown(r: Reservation, r': Reservation) {
    r' == r || (r.status.Held? && !r'.status.Held? && r' == r.(status := r'.status))
  }

  ghost predicate ReceiptGrown(x: Receipt, x': Receipt) {
    x' == x || (x.status.Issued? && !x'.status.Issued? && x' == x.(status := x'.status))
  }

  ghost predicate BindingGrown(b: Binding, b': Binding) {
    && b'.version >= b.version && (b'.version == b.version ==> b' == b)
    && b' == b.(version := b'.version, status := b'.status, paused := b'.paused, mandate := b'.mandate, hash := b'.hash)
  }

  ghost predicate GrownTables(a: Auth, b: Auth) {
    && (forall id :: id in a.mandates ==> id in b.mandates && MandateGrown(a.mandates[id], b.mandates[id]))
    && (forall id :: id in a.approvals ==> id in b.approvals && ApprovalGrown(a.approvals[id], b.approvals[id]))
    && (forall id :: id in a.bases ==> id in b.bases && BasisGrown(a.bases[id], b.bases[id]))
    && (forall id :: id in a.authorities ==> id in b.authorities && b.authorities[id] == a.authorities[id])
    && (forall id :: id in a.reservations ==>
          id in b.reservations && ReservationGrown(a.reservations[id], b.reservations[id]))
    && (forall id :: id in a.receipts ==> id in b.receipts && ReceiptGrown(a.receipts[id], b.receipts[id]))
    && (forall id :: id in a.bindings ==> id in b.bindings && BindingGrown(a.bindings[id], b.bindings[id]))
  }

  ghost predicate UnsealedGrowth(k: int) {
    true
  }

  /** Rows only grow; sealed, OpenGrown and SealGrown convert. */
  ghost predicate Grown(a: Auth, b: Auth) {
    forall k {:trigger UnsealedGrowth(k)} :: UnsealedGrowth(k) ==> GrownTables(a, b)
  }

  lemma OpenGrown(a: Auth, b: Auth)
    requires Grown(a, b)
    ensures GrownTables(a, b)
  {
    assert UnsealedGrowth(0);
  }

  lemma SealGrown(a: Auth, b: Auth)
    requires GrownTables(a, b)
    ensures Grown(a, b)
  {
  }

  lemma GrownTransitive(a: Auth, b: Auth, c: Auth)
    requires Grown(a, b) && Grown(b, c)
    ensures Grown(a, c)
  {
    OpenGrown(a, b);
    OpenGrown(b, c);
    forall id | id in a.mandates ensures id in c.mandates && MandateGrown(a.mandates[id], c.mandates[id]) {
      assert MandateGrown(a.mandates[id], b.mandates[id]) && MandateGrown(b.mandates[id], c.mandates[id]);
    }
    forall id | id in a.approvals ensures id in c.approvals && ApprovalGrown(a.approvals[id], c.approvals[id]) {
      assert ApprovalGrown(a.approvals[id], b.approvals[id]) && ApprovalGrown(b.approvals[id], c.approvals[id]);
    }
    forall id | id in a.bases ensures id in c.bases && BasisGrown(a.bases[id], c.bases[id]) {
      assert BasisGrown(a.bases[id], b.bases[id]) && BasisGrown(b.bases[id], c.bases[id]);
    }
    forall id | id in a.reservations
      ensures id in c.reservations && ReservationGrown(a.reservations[id], c.reservations[id])
    {
      assert ReservationGrown(a.reservations[id], b.reservations[id]) &&
             ReservationGrown(b.reservations[id], c.reservations[id]);
    }
    forall id | id in a.receipts ensures id in c.receipts && ReceiptGrown(a.receipts[id], c.receipts[id]) {
      assert ReceiptGrown(a.receipts[id], b.receipts[id]) && ReceiptGrown(b.receipts[id], c.receipts[id]);
    }
    forall id | id in a.bindings ensures id in c.bindings && BindingGrown(a.bindings[id], c.bindings[id]) {
      assert BindingGrown(a.bindings[id], b.bindings[id]) && BindingGrown(b.bindings[id], c.bindings[id]);
    }
    SealGrown(a, c);
  }

  // ---- What a row says about the rows it rests on ----------------------------------

  predicate IsFromApproval(b: Basis, approval: Id) {
    b.source.FromApproval? && b.source.approval == approval
  }

  /** Requested, granted and spent approvals are at versions 1, 2 and 3. */
  ghost predicate ApprovalSound(db: Auth, id: Id) {
    && id in db.approvals
    && var a := db.approvals[id];
       && ValidScope(a.scope, a.scope.account, true)
       && a.version == (match a.status case Requested => 1 case Granted => 2 case Spent(_, _) => 3)
       && (!a.status.Requested? ==> a.decidedBy.Some? && a.decidedBy.value.User?)
       && (a.status.Spent? ==> a.status.basis in db.bases && IsFromApproval(db.bases[a.status.basis], id))
  }

  /** A basis never reaches beyond the mandate or approval it was made from. */
  ghost predicate BasisSound(db: Auth, id: Id) {
    && id in db.bases
    && var b := db.bases[id];
       && ScopePermits(b.scope, b.order, b.action, b.quantity, b.source.FromApproval?)
       && match b.source
          case FromMandate(m, v) =>
            && m in db.mandates && v <= db.mandates[m].version
            && b.scope == db.mandates[m].scope && b.scopeHash == db.mandates[m].scopeHash
            && b.order.account == db.mandates[m].account && b.expiresAt <= db.mandates[m].expiresAt
            && b.issuedBy.Service?
          case FromApproval(a, v, token, window) =>
            && a in db.approvals && ApprovalStands(db, id, b)
            && b.scope == db.approvals[a].scope && b.order.plan == db.approvals[a].plan
            && db.approvals[a].decidedBy == Some(b.issuedBy)
            && b.scope.window == Some(window) && b.expiresAt <= db.approvals[a].expiresAt && b.expiresAt <= window.end
  }

  ghost predicate ReservationSound(db: Auth, id: Id) {
    && id in db.reservations
    && var r := db.reservations[id];
       && BindsBasis(db, r) && r.expiresAt <= db.bases[r.basis].expiresAt
       && 0.0 <= r.loss <= db.authorities[r.order.account].ceiling && r.margin >= 0.0
       && (r.status.Used? ==> HasUsedReceipt(db, id))
  }

  ghost predicate HasUsedReceipt(db: Auth, reservation: Id) {
    exists x :: x in db.receipts && db.receipts[x].status.Consumed? && db.receipts[x].terms.reservation == reservation
  }

  ghost predicate ReceiptSound(db: Auth, id: Id) {
    && id in db.receipts
    && var x := db.receipts[id];
       && BindsReservation(db, x.terms)
       && x.issuedAt < x.terms.expiresAt <= db.reservations[x.terms.reservation].expiresAt
       && x.terms.expiresAt <= x.terms.snapshots.expiresAt
       && (x.status.Consumed? ==> x.status.at < x.terms.expiresAt)
       && (match x.terms.origin
           case Agent(b, v, _) =>
             b in db.bindings && v <= db.bindings[b].version && x.terms.expiresAt <= db.bindings[b].expiresAt
           case ManualTest(actor) =>
             db.bases[x.terms.basis].source.FromApproval? && db.bases[x.terms.basis].issuedBy == actor)
  }

  /** An autonomous binding has the range of its mandate, of which it has seen a
      current or earlier version. */
  ghost predicate BindingSound(db: Auth, id: Id) {
    && id in db.bindings
    && var b := db.bindings[id];
       && ModeChecks(b)
       && (b.mode.Autonomous? ==>
             && b.mandate.value.mandate in db.mandates
             && var m := db.mandates[b.mandate.value.mandate];
                && b.mandate.value.version <= m.version && ValidScope(m.scope, m.account, false)
                && b.scope == m.scope && b.scopeHash == m.scopeHash && b.account == Some(m.account))
  }

  // ---- What is still in force rests on what is still in force ------------------------

  ghost predicate CurrentMandate(db: Auth, s: Source) {
    s.FromMandate? ==>
        s.mandate in db.mandates && db.mandates[s.mandate].version == s.version && db.mandates[s.mandate].status.Active?
  }

  ghost predicate BasisLive(db: Auth, id: Id) {
    id in db.bases && (db.bases[id].status.Usable? ==> CurrentMandate(db, db.bases[id].source))
  }

  ghost predicate ReservationLive(db: Auth, id: Id) {
    && id in db.reservations && db.reservations[id].basis in db.bases
    && (db.reservations[id].status.Held? && db.bases[db.reservations[id].basis].source.FromMandate? ==>
          db.bases[db.reservations[id].basis].status.Usable?)
  }

  ghost predicate ReceiptLive(db: Auth, id: Id) {
    && id in db.receipts && db.receipts[id].terms.basis in db.bases
    && (db.receipts[id].status.Issued? ==> CurrentMandate(db, db.bases[db.receipts[id].terms.basis].source))
  }

  // ---- Uniqueness ----------------------------------------------------------------------

  predicate SameSlot(a: Approval, b: Approval) {
    a.plan == b.plan && a.version == b.version
  }

  predicate SamePlanBasis(a: Basis, b: Basis) {
    a.source.FromMandate? && MandatePlanBasis(b, a.source.mandate, a.source.version, a.order.plan)
  }

  predicate Clash(a: Receipt, b: Receipt) {
    a.terms.basis == b.terms.basis || a.nonce == b.nonce
  }

  ghost predicate OnePerPlan(db: Auth) {
    forall a, b :: a in db.approvals && b in db.approvals && SameSlot(db.approvals[a], db.approvals[b]) ==> a == b
  }

  ghost predicate OnePerToken(db: Auth) {
    forall a, b :: a in db.approvals && b in db.approvals && db.approvals[a].token == db.approvals[b].token ==> a == b
  }

  ghost predicate OneMandateBasis(db: Auth) {
    forall a, b :: a in db.bases && b in db.bases && SamePlanBasis(db.bases[a], db.bases[b]) ==> a == b
  }

  ghost predicate OneReservation(db: Auth) {
    forall a, b ::
      a in db.reservations && b in db.reservations && db.reservations[a].basis == db.reservations[b].basis ==> a == b
  }

  ghost predicate OneReceipt(db: Auth) {
    forall a, b :: a in db.receipts && b in db.receipts && Clash(db.receipts[a], db.receipts[b]) ==> a == b
  }

  ghost predicate Unique(db: Auth) {
    OnePerPlan(db) && OnePerToken(db) && OneMandateBasis(db) && OneReservation(db) && OneReceipt(db)
  }

  ghost predicate Sound(db: Auth) {
    && (forall id {:trigger ApprovalSound(db, id)} :: id in db.approvals ==> ApprovalSound(db, id))
    && (forall id {:trigger BasisSound(db, id)} :: id in db.bases ==> BasisSound(db, id))
    && (forall id {:trigger ReservationSound(db, id)} :: id in db.reservations ==> ReservationSound(db, id))
    && (forall id {:trigger ReceiptSound(db, id)} :: id in db.receipts ==> ReceiptSound(db, id))
    && (forall id {:trigger BindingSound(db, id)} :: id in db.bindings ==> BindingSound(db, id))
  }

  ghost predicate AllLive(db: Auth) {
    && (forall id {:trigger BasisLive(db, id)} :: id in db.bases ==> BasisLive(db, id))
    && (forall id {:trigger ReservationLive(db, id)} :: id in db.reservations ==> ReservationLive(db, id))
    && (forall id {:trigger ReceiptLive(db, id)} :: id in db.receipts ==> ReceiptLive(db, id))
  }

  ghost predicate Unsealed(k: int) {
    true
  }

  /** Sealed like the workflow's invariant; OpenInv and SealInv convert. */
  ghost predicate Inv(db: Auth) {
    forall k {:trigger Unsealed(k)} :: Unsealed(k) ==> Sound(db) && AllLive(db) && Unique(db)
  }

  lemma OpenInv(db: Auth)
    requires Inv(db)
    ensures Sound(db) && AllLive(db) && Unique(db)
  {
    assert Unsealed(0);
  }

  lemma SealInv(db: Auth)
    requires Sound(db) && AllLive(db) && Unique(db)
    ensures Inv(db)
  {
  }

  // ---- Sound rows stay sound ---------------------------------------------------------------

  lemma ApprovalStays(a: Auth, b: Auth, id: Id)
    requires Grown(a, b) && ApprovalSound(a, id) && id in b.approvals && b.approvals[id] == a.approvals[id]
    ensures ApprovalSound(b, id)
  {
    OpenGrown(a, b);
    if a.approvals[id].status.Spent? {
      var s := a.approvals[id].status.basis;
      assert BasisGrown(a.bases[s], b.bases[s]);
    }
  }

  lemma BasisStays(a: Auth, b: Auth, id: Id)
    requires Grown(a, b) && BasisSound(a, id)
    ensures BasisSound(b, id)
  {
    OpenGrown(a, b);
    assert BasisGrown(a.bases[id], b.bases[id]);
    match a.bases[id].source {
      case FromMandate(m, v) => assert MandateGrown(a.mandates[m], b.mandates[m]);
      case FromApproval(p, v, token, window) => assert ApprovalGrown(a.approvals[p], b.approvals[p]);
    }
  }

  lemma ReservationStays(a: Auth, b: Auth, id: Id)
    requires Grown(a, b) && ReservationSound(a, id)
    requires id in b.reservations
    requires (b.reservations[id].status.Used? ==> HasUsedReceipt(b, id) || a.reservations[id].status.Used?)
    ensures ReservationSound(b, id)
  {
    OpenGrown(a, b);
    var r := a.reservations[id];
    assert ReservationGrown(r, b.reservations[id]) && BasisGrown(a.bases[r.basis], b.bases[r.basis]);
    if b.reservations[id].status.Used? && a.reservations[id].status.Used? {
      var x :| x in a.receipts && a.receipts[x].status.Consumed? && a.receipts[x].terms.reservation == id;
      assert ReceiptGrown(a.receipts[x], b.receipts[x]);
    }
  }

  lemma ReceiptStays(a: Auth, b: Auth, id: Id)
    requires Grown(a, b) && ReceiptSound(a, id)
    requires id in b.receipts
    requires (b.receipts[id].status.Consumed? ==> b.receipts[id].status.at < a.receipts[id].terms.expiresAt)
    ensures ReceiptSound(b, id)
  {
    OpenGrown(a, b);
    var x := a.receipts[id];
    assert ReceiptGrown(x, b.receipts[id]) && BasisGrown(a.bases[x.terms.basis], b.bases[x.terms.basis]);
    assert ReservationGrown(a.reservations[x.terms.reservation], b.reservations[x.terms.reservation]);
    match x.terms.origin {
      case Agent(n, v, _) => assert BindingGrown(a.bindings[n], b.bindings[n]);
      case ManualTest(_) =>
    }
  }

  lemma BindingStays(a: Auth, b: Auth, id: Id)
    requires Grown(a, b) && BindingSound(a, id) && id in b.bindings && b.bindings[id] == a.bindings[id]
    ensures BindingSound(b, id)
  {
    OpenGrown(a, b);
    if a.bindings[id].mode.Autonomous? {
      var m := a.bindings[id].mandate.value.mandate;
      assert MandateGrown(a.mandates[m], b.mandates[m]);
    }
  }

  // ---- What is new must be shown -------------------------------------------------------------

  ghost predicate ApprovalsSound(a: Auth, b: Auth) {
    forall id {:trigger ApprovalSound(b, id)} :: id in b.approvals ==>
      (id in a.approvals && b.approvals[id] == a.approvals[id]) || ApprovalSound(b, id)
  }

  ghost predicate BasesSound(a: Auth, b: Auth) {
    forall id {:trigger BasisSound(b, id)} :: id in b.bases ==> id in a.bases || BasisSound(b, id)
  }

  ghost predicate ReservationsSound(a: Auth, b: Auth) {
    forall id {:trigger ReservationSound(b, id)} :: id in b.reservations ==>
      (id in a.reservations && (b.reservations[id].status.Used? ==> a.reservations[id].status.Used?)) ||
      ReservationSound(b, id)
  }

  ghost predicate ReceiptsSound(a: Auth, b: Auth) {
    forall id {:trigger ReceiptSound(b, id)} :: id in b.receipts ==>
      (id in a.receipts && (b.receipts[id].status.Consumed? ==> b.receipts[id] == a.receipts[id])) ||
      ReceiptSound(b, id)
  }

  ghost predicate BindingsSound(a: Auth, b: Auth) {
    forall id {:trigger BindingSound(b, id)} :: id in b.bindings ==>
      (id in a.bindings && b.bindings[id] == a.bindings[id]) || BindingSound(b, id)
  }

  ghost predicate NewRowsSound(a: Auth, b: Auth) {
    ApprovalsSound(a, b) && BasesSound(a, b) && ReservationsSound(a, b) && ReceiptsSound(a, b) && BindingsSound(a, b)
  }

  ghost predicate BasesLive(a: Auth, b: Auth) {
    forall id {:trigger BasisLive(b, id)} :: id in b.bases ==> id in a.bases || BasisLive(b, id)
  }

  ghost predicate ReservationsLive(a: Auth, b: Auth) {
    forall id {:trigger ReservationLive(b, id)} :: id in b.reservations ==>
      (id in a.reservations && b.reservations[id] == a.reservations[id]) || ReservationLive(b, id)
  }

  ghost predicate ReceiptsLive(a: Auth, b: Auth) {
    forall id {:trigger ReceiptLive(b, id)} :: id in b.receipts ==>
      (id in a.receipts && b.receipts[id] == a.receipts[id]) || ReceiptLive(b, id)
  }

  ghost predicate NewRowsLive(a: Auth, b: Auth) {
    BasesLive(a, b) && ReservationsLive(a, b) && ReceiptsLive(a, b)
  }

  /** A table that is left alone shows nothing new. */
  lemma NothingNew(a: Auth, b: Auth)
    ensures b.approvals == a.approvals ==> ApprovalsSound(a, b)
    ensures b.bases == a.bases ==> BasesSound(a, b) && BasesLive(a, b)
    ensures b.reservations == a.reservations ==> ReservationsSound(a, b) && ReservationsLive(a, b)
    ensures b.receipts == a.receipts ==> ReceiptsSound(a, b) && ReceiptsLive(a, b)
    ensures b.bindings == a.bindings ==> BindingsSound(a, b)
  {
  }

  lemma ApprovalsStay(a: Auth, b: Auth)
    requires Sound(a) && Grown(a, b) && ApprovalsSound(a, b)
    ensures forall id {:trigger ApprovalSound(b, id)} :: id in b.approvals ==> ApprovalSound(b, id)
  {
    forall id | id in b.approvals ensures ApprovalSound(b, id) {
      if id in a.approvals && b.approvals[id] == a.approvals[id] {
        assert ApprovalSound(a, id);
        ApprovalStays(a, b, id);
      }
    }
  }

  lemma BasesStay(a: Auth, b: Auth)
    requires Sound(a) && Grown(a, b) && BasesSound(a, b)
    ensures forall id {:trigger BasisSound(b, id)} :: id in b.bases ==> BasisSound(b, id)
  {
    forall id | id in b.bases ensures BasisSound(b, id) {
      if id in a.bases {
        assert BasisSound(a, id);
        BasisStays(a, b, id);
      }
    }
  }

  lemma ReservationsStay(a: Auth, b: Auth)
    requires Sound(a) && Grown(a, b) && ReservationsSound(a, b)
    ensures forall id {:trigger ReservationSound(b, id)} :: id in b.reservations ==> ReservationSound(b, id)
  {
    forall id | id in b.reservations ensures ReservationSound(b, id) {
      if id in a.reservations && (b.reservations[id].status.Used? ==> a.reservations[id].status.Used?) {
        assert ReservationSound(a, id);
        ReservationStays(a, b, id);
      }
    }
  }

  lemma ReceiptsStay(a: Auth, b: Auth)
    requires Sound(a) && Grown(a, b) && ReceiptsSound(a, b)
    ensures forall id {:trigger ReceiptSound(b, id)} :: id in b.receipts ==> ReceiptSound(b, id)
  {
    forall id | id in b.receipts ensures ReceiptSound(b, id) {
      if id in a.receipts && (b.receipts[id].status.Consumed? ==> b.receipts[id] == a.receipts[id]) {
        assert ReceiptSound(a, id);
        ReceiptStays(a, b, id);
      }
    }
  }

  lemma BindingsStay(a: Auth, b: Auth)
    requires Sound(a) && Grown(a, b) && BindingsSound(a, b)
    ensures forall id {:trigger BindingSound(b, id)} :: id in b.bindings ==> BindingSound(b, id)
  {
    forall id | id in b.bindings ensures BindingSound(b, id) {
      if id in a.bindings && b.bindings[id] == a.bindings[id] {
        assert BindingSound(a, id);
        BindingStays(a, b, id);
      }
    }
  }

  lemma SoundStays(a: Auth, b: Auth)
    requires Sound(a) && Grown(a, b) && NewRowsSound(a, b)
    ensures Sound(b)
  {
    ApprovalsStay(a, b);
    BasesStay(a, b);
    ReservationsStay(a, b);
    ReceiptsStay(a, b);
    BindingsStay(a, b);
  }

  lemma UniqueStays(a: Auth, b: Auth)
    requires Unique(a) && Grown(a, b) && b.approvals == a.approvals
    requires b.bases.Keys == a.bases.Keys && b.reservations.Keys == a.reservations.Keys
    requires b.receipts.Keys == a.receipts.Keys
    ensures Unique(b)
  {
    OpenGrown(a, b);
    forall id | id in a.bases
      ensures b.bases[id].source == a.bases[id].source && b.bases[id].order == a.bases[id].order
    {
      assert BasisGrown(a.bases[id], b.bases[id]);
    }
    forall id | id in a.reservations ensures b.reservations[id].basis == a.reservations[id].basis {
      assert ReservationGrown(a.reservations[id], b.reservations[id]);
    }
    forall id | id in a.receipts
      ensures b.receipts[id].terms == a.receipts[id].terms && b.receipts[id].nonce == a.receipts[id].nonce
    {
      assert ReceiptGrown(a.receipts[id], b.receipts[id]);
    }
  }
}
