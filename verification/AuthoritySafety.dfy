/** Every command keeps the authority invariant; rows only grow. */
module AuthoritySafety {
  import opened Common
  import opened AuthorityModel
  import opened AuthoritySteps
  import opened AuthorityInvariants

  lemma Unmoved(db: Auth)
    ensures Grown(db, db)
  {
    SealGrown(db, db);
  }

  /** Nothing in force is touched, and what is new is in force properly. */
  lemma LiveFrame(a: Auth, b: Auth)
    requires AllLive(a) && NewRowsLive(a, b)
    requires forall m :: m in a.mandates ==> m in b.mandates && b.mandates[m] == a.mandates[m]
    requires forall id :: id in a.bases ==> id in b.bases && b.bases[id] == a.bases[id]
    ensures AllLive(b)
  {
    forall id | id in b.bases ensures BasisLive(b, id) {
      if id in a.bases { assert BasisLive(a, id); }
    }
    forall id | id in b.reservations ensures ReservationLive(b, id) {
      if id in a.reservations && b.reservations[id] == a.reservations[id] { assert ReservationLive(a, id); }
    }
    forall id | id in b.receipts ensures ReceiptLive(b, id) {
      if id in a.receipts && b.receipts[id] == a.receipts[id] { assert ReceiptLive(a, id); }
    }
  }

  /** A step that leaves mandates and existing bases alone. */
  lemma StepKeeps(a: Auth, b: Auth)
    requires Inv(a) && Grown(a, b) && NewRowsSound(a, b) && NewRowsLive(a, b) && Unique(b)
    requires forall m :: m in a.mandates ==> m in b.mandates && b.mandates[m] == a.mandates[m]
    requires forall id :: id in a.bases ==> id in b.bases && b.bases[id] == a.bases[id]
    ensures Inv(b)
  {
    OpenInv(a);
    SoundStays(a, b);
    LiveFrame(a, b);
    SealInv(b);
  }

  lemma StaysUnique(a: Auth, b: Auth)
    requires Inv(a) && Grown(a, b) && b.approvals == a.approvals
    requires b.bases.Keys == a.bases.Keys && b.reservations.Keys == a.reservations.Keys
    requires b.receipts.Keys == a.receipts.Keys
    ensures Unique(b)
  {
    OpenInv(a);
    UniqueStays(a, b);
  }

  /** Commands that add a row nothing refers to yet. */
  lemma OutsideKeeps(a: Auth, b: Auth)
    requires Inv(a) && GrownTables(a, b) && BindingsSound(a, b)
    requires b.approvals == a.approvals && b.bases == a.bases && b.reservations == a.reservations
    requires b.receipts == a.receipts
    requires forall m :: m in a.mandates ==> m in b.mandates && b.mandates[m] == a.mandates[m]
    ensures Grown(a, b) && Inv(b)
  {
    SealGrown(a, b);
    NothingNew(a, b);
    StaysUnique(a, b);
    StepKeeps(a, b);
  }

  lemma ApprovalRow(db: Auth, id: Id)
    requires Inv(db) && id in db.approvals
    ensures ApprovalSound(db, id)
  {
    OpenInv(db);
  }

  lemma BindingRow(db: Auth, id: Id)
    requires Inv(db) && id in db.bindings
    ensures BindingSound(db, id)
  {
    OpenInv(db);
  }

  lemma BasisRowOf(db: Auth, id: Id)
    requires Inv(db) && id in db.bases
    ensures BasisSound(db, id) && BasisLive(db, id)
  {
    OpenInv(db);
  }

  lemma ReservationRowOf(db: Auth, id: Id)
    requires Inv(db) && id in db.reservations
    ensures ReservationSound(db, id) && ReservationLive(db, id)
  {
    OpenInv(db);
  }

  lemma ReceiptRow(db: Auth, id: Id)
    requires Inv(db) && id in db.receipts
    ensures ReceiptSound(db, id) && ReceiptLive(db, id)
  {
    OpenInv(db);
  }

  // ---- Approvals -----------------------------------------------------------------

  lemma OneOffIsValid(q: ApprovalRequest, n: Time)
    requires q.quantity > 0.0 && q.expiresAt > n
    ensures ValidScope(OneOffScope(q, n), q.order.account, true)
  {
  }

  /** A requested or granted approval is written. */
  lemma PutApproval(db: Auth, id: Id, row: Approval)
    requires Inv(db) && (id in db.approvals ==> ApprovalGrown(db.approvals[id], row))
    requires !row.status.Spent? && ValidScope(row.scope, row.scope.account, true)
    requires row.version == (if row.status.Requested? then 1 else 2)
    requires !row.status.Requested? ==> row.decidedBy.Some? && row.decidedBy.value.User?
    requires !ApprovalTaken(db, row.plan, row.version) && (id !in db.approvals ==> !TokenTaken(db, row.token))
    ensures var d := db.(approvals := db.approvals[id := row]);
            Grown(db, d) && Inv(d)
  {
    var d := db.(approvals := db.approvals[id := row]);
    PutApprovalGrows(db, id, row);
    assert ApprovalSound(d, id);
    assert ApprovalsSound(db, d);
    NothingNew(db, d);
    PutApprovalUnique(db, d, id, row);
    StepKeeps(db, d);
  }

  lemma PutApprovalGrows(db: Auth, id: Id, row: Approval)
    requires id in db.approvals ==> ApprovalGrown(db.approvals[id], row)
    ensures Grown(db, db.(approvals := db.approvals[id := row]))
  {
    SealGrown(db, db.(approvals := db.approvals[id := row]));
  }

  lemma PutApprovalUnique(db: Auth, d: Auth, id: Id, row: Approval)
    requires Inv(db) && (id in db.approvals ==> db.approvals[id].token == row.token)
    requires !ApprovalTaken(db, row.plan, row.version) && (id !in db.approvals ==> !TokenTaken(db, row.token))
    requires d.approvals == db.approvals[id := row] && d.reservations == db.reservations && d.receipts == db.receipts
    requires d.bases == db.bases || OneMandateBasis(d)
    ensures Unique(d)
  {
    OpenInv(db);
    forall a | a in db.approvals ensures !SameSlot(db.approvals[a], row) && !SameSlot(row, db.approvals[a]) {
    }
  }

  lemma RequestKeeps(
      db: Auth, id: Id, q: ApprovalRequest, mandate: Id, mandateVersion: nat, binding: Id, bindingVersion: nat,
      policy: Id, formatOk: bool, n: Time)
    requires Inv(db)
    ensures var d := RequestApproval(db, id, q, mandate, mandateVersion, binding, bindingVersion, policy, formatOk,
              n).0;
            Grown(db, d) && Inv(d)
  {
    Unmoved(db);
    if RequestApproval(db, id, q, mandate, mandateVersion, binding, bindingVersion, policy, formatOk, n).0 != db {
      OneOffIsValid(q, n);
      PutApproval(
        db, id,
        Approval(1, Requested, q.order.plan, OneOffScope(q, n), q.scopeHash, q.hash, q.token, q.requestedBy, None,
            q.expiresAt));
    }
  }

  lemma GrantKeeps(db: Auth, id: Id, version: nat, plan: PlanRef, actor: Actor, formatOk: bool, n: Time)
    requires Inv(db)
    ensures var d := GrantApproval(db, id, version, plan, actor, formatOk, n).0;
            Grown(db, d) && Inv(d)
  {
    Unmoved(db);
    if GrantApproval(db, id, version, plan, actor, formatOk, n).0 != db {
      ApprovalRow(db, id);
      PutApproval(db, id, db.approvals[id].(version := version + 1, status := Granted, decidedBy := Some(actor)));
    }
  }

  // ---- Bases -----------------------------------------------------------------------

  /** An approval is spent on the basis inserted with it. */
  lemma SpendApproval(db: Auth, approval: Id, row: Approval, basis: Id, b: Basis)
    requires Inv(db) && approval in db.approvals && basis !in db.bases && ApprovalGrown(db.approvals[approval], row)
    requires var d := db.(bases := db.bases[basis := b], approvals := db.approvals[approval := row]);
             ApprovalSound(d, approval) && BasisSound(d, basis) && b.source.FromApproval?
    requires !ApprovalTaken(db, row.plan, row.version)
    ensures var d := db.(bases := db.bases[basis := b], approvals := db.approvals[approval := row]);
            Grown(db, d) && Inv(d)
  {
    var d := db.(bases := db.bases[basis := b], approvals := db.approvals[approval := row]);
    SpendGrows(db, d, approval, row, basis, b);
    assert BasisLive(d, basis);
    assert ApprovalsSound(db, d) && BasesSound(db, d) && BasesLive(db, d);
    NothingNew(db, d);
    SpentUnique(db, d, approval, row, basis, b);
    StepKeeps(db, d);
  }

  lemma SpendGrows(db: Auth, d: Auth, approval: Id, row: Approval, basis: Id, b: Basis)
    requires approval in db.approvals && basis !in db.bases && ApprovalGrown(db.approvals[approval], row)
    requires d == db.(bases := db.bases[basis := b], approvals := db.approvals[approval := row])
    ensures Grown(db, d)
  {
    SealGrown(db, d);
  }

  lemma SpentUnique(db: Auth, d: Auth, approval: Id, row: Approval, basis: Id, b: Basis)
    requires Inv(db) && approval in db.approvals && basis !in db.bases && row.token == db.approvals[approval].token
    requires d == db.(bases := db.bases[basis := b], approvals := db.approvals[approval := row])
    requires !ApprovalTaken(db, row.plan, row.version) && b.source.FromApproval?
    ensures Unique(d)
  {
    OpenInv(db);
    NewBasisUnique(db, d, basis);
    PutApprovalUnique(db, d, approval, row);
  }

  lemma NewBasisUnique(db: Auth, d: Auth, basis: Id)
    requires OneMandateBasis(db) && basis !in db.bases && basis in d.bases
    requires d.bases == db.bases[basis := d.bases[basis]]
    requires forall b :: b in db.bases ==> !SamePlanBasis(d.bases[basis], db.bases[b])
    ensures OneMandateBasis(d)
  {
    forall b | b in db.bases ensures !SamePlanBasis(db.bases[b], d.bases[basis]) {
      assert !SamePlanBasis(d.bases[basis], db.bases[b]);
    }
  }

  lemma ConsumedRows(db: Auth, approval: Id, version: nat, token: Id, basis: Id, q: BasisRequest, n: Time)
    requires approval in db.approvals && ApprovalSound(db, approval)
    requires MayConsume(db.approvals[approval], version, token, q, n)
    ensures var a := db.approvals[approval];
            var row := a.(version := version + 1, status := Spent(basis, n));
            var d := db.(bases := db.bases[basis := BasisRow(q,
                FromApproval(approval, version, token, a.scope.window.value), a.scope)],
                         approvals := db.approvals[approval := row]);
            ApprovalSound(d, approval) && BasisSound(d, basis) && ApprovalGrown(a, row)
  {
  }

  lemma ConsumeApprovalKeeps(
      db: Auth, approval: Id, version: nat, token: Id, basis: Id, q: BasisRequest, formatOk: bool, n: Time)
    requires Inv(db)
    ensures var d := ConsumeApproval(db, approval, version, token, basis, q, formatOk, n).0;
            Grown(db, d) && Inv(d)
  {
    var d := ConsumeApproval(db, approval, version, token, basis, q, formatOk, n).0;
    Unmoved(db);
    if d != db {
      ApprovalRow(db, approval);
      ConsumedRows(db, approval, version, token, basis, q, n);
      SpendApproval(db, approval, d.approvals[approval], basis, d.bases[basis]);
    }
  }

  /** A new basis on a mandate is written. */
  lemma PutBasis(db: Auth, id: Id, row: Basis)
    requires Inv(db) && id !in db.bases
    requires BasisSound(db.(bases := db.bases[id := row]), id) && BasisLive(db.(bases := db.bases[id := row]), id)
    requires forall b :: b in db.bases ==> !SamePlanBasis(row, db.bases[b])
    ensures Grown(db, db.(bases := db.bases[id := row])) && Inv(db.(bases := db.bases[id := row]))
  {
    var d := db.(bases := db.bases[id := row]);
    PutBasisGrows(db, id, row);
    assert BasesSound(db, d) && BasesLive(db, d);
    NothingNew(db, d);
    PutBasisUnique(db, d, id);
    StepKeeps(db, d);
  }

  lemma PutBasisGrows(db: Auth, id: Id, row: Basis)
    requires id !in db.bases
    ensures Grown(db, db.(bases := db.bases[id := row]))
  {
    SealGrown(db, db.(bases := db.bases[id := row]));
  }

  lemma PutBasisUnique(db: Auth, d: Auth, id: Id)
    requires Inv(db) && id !in db.bases && id in d.bases && d == db.(bases := db.bases[id := d.bases[id]])
    requires forall b :: b in db.bases ==> !SamePlanBasis(d.bases[id], db.bases[b])
    ensures Unique(d)
  {
    OpenInv(db);
    NewBasisUnique(db, d, id);
  }

  lemma IssueBasisKeeps(db: Auth, basis: Id, mandate: Id, version: nat, q: BasisRequest, formatOk: bool, n: Time)
    requires Inv(db)
    ensures var d := IssueBasis(db, basis, mandate, version, q, formatOk, n).0;
            Grown(db, d) && Inv(d)
  {
    var d := IssueBasis(db, basis, mandate, version, q, formatOk, n).0;
    Unmoved(db);
    if d != db {
      assert !HasMandateBasis(db, mandate, version, q.order.plan);
      PutBasis(db, basis, d.bases[basis]);
    }
  }

  // ---- Reservations and receipts -----------------------------------------------------

  lemma PutReservation(db: Auth, id: Id, row: Reservation)
    requires Inv(db) && id !in db.reservations
    requires var d := db.(reservations := db.reservations[id := row]);
             ReservationSound(d, id) && ReservationLive(d, id)
    requires forall r :: r in db.reservations ==> db.reservations[r].basis != row.basis
    ensures Grown(db, db.(reservations := db.reservations[id := row]))
    ensures Inv(db.(reservations := db.reservations[id := row]))
  {
    var d := db.(reservations := db.reservations[id := row]);
    PutReservationGrows(db, id, row);
    assert ReservationsSound(db, d) && ReservationsLive(db, d);
    NothingNew(db, d);
    PutReservationUnique(db, id, row);
    StepKeeps(db, d);
  }

  lemma PutReservationGrows(db: Auth, id: Id, row: Reservation)
    requires id !in db.reservations
    ensures Grown(db, db.(reservations := db.reservations[id := row]))
  {
    SealGrown(db, db.(reservations := db.reservations[id := row]));
  }

  lemma PutReservationUnique(db: Auth, id: Id, row: Reservation)
    requires Inv(db) && id !in db.reservations
    requires forall r :: r in db.reservations ==> db.reservations[r].basis != row.basis
    ensures Unique(db.(reservations := db.reservations[id := row]))
  {
    OpenInv(db);
  }

  lemma ReserveKeeps(db: Auth, id: Id, q: ReserveRequest, formatOk: bool, n: Time)
    requires Inv(db)
    ensures var d := Reserve(db, id, q, formatOk, n).0;
            Grown(db, d) && Inv(d)
  {
    var d := Reserve(db, id, q, formatOk, n).0;
    Unmoved(db);
    if d != db {
      OneReservationEach(db, q);
      PutReservation(db, id, d.reservations[id]);
    }
  }

  lemma OneReservationEach(db: Auth, q: ReserveRequest)
    requires Inv(db) && q.basis in db.bases && q.order == db.bases[q.basis].order && !IsReserved(db, q)
    ensures forall r :: r in db.reservations ==> db.reservations[r].basis != q.basis
  {
    forall r | r in db.reservations ensures db.reservations[r].basis != q.basis {
      ReservationRowOf(db, r);
      assert !SamePlanAndBasis(db.reservations[r], q);
    }
  }

  lemma PutReceipt(db: Auth, id: Id, row: Receipt)
    requires Inv(db) && id !in db.receipts
    requires var d := db.(receipts := db.receipts[id := row]);
             ReceiptSound(d, id) && ReceiptLive(d, id)
    requires forall x :: x in db.receipts ==> !Clash(db.receipts[x], row)
    ensures Grown(db, db.(receipts := db.receipts[id := row])) && Inv(db.(receipts := db.receipts[id := row]))
  {
    var d := db.(receipts := db.receipts[id := row]);
    PutReceiptGrows(db, id, row);
    assert ReceiptsSound(db, d) && ReceiptsLive(db, d);
    NothingNew(db, d);
    PutReceiptUnique(db, id, row);
    StepKeeps(db, d);
  }

  lemma PutReceiptGrows(db: Auth, id: Id, row: Receipt)
    requires id !in db.receipts
    ensures Grown(db, db.(receipts := db.receipts[id := row]))
  {
    SealGrown(db, db.(receipts := db.receipts[id := row]));
  }

  lemma PutReceiptUnique(db: Auth, id: Id, row: Receipt)
    requires Inv(db) && id !in db.receipts
    requires forall x :: x in db.receipts ==> !Clash(db.receipts[x], row)
    ensures Unique(db.(receipts := db.receipts[id := row]))
  {
    OpenInv(db);
  }

  lemma IssueReceiptKeeps(db: Auth, id: Id, nonce: Id, t: Terms, formatOk: bool, n: Time)
    requires Inv(db)
    ensures var d := IssueReceipt(db, id, nonce, t, formatOk, n).0;
            Grown(db, d) && Inv(d)
  {
    var d := IssueReceipt(db, id, nonce, t, formatOk, n).0;
    Unmoved(db);
    if d != db {
      BasisRowOf(db, t.basis);
      PutReceipt(db, id, d.receipts[id]);
    }
  }

  lemma ConsumeReceiptKeeps(db: Auth, id: Id, nonce: Id, n: Time)
    requires Inv(db)
    ensures Grown(db, ConsumeReceipt(db, id, nonce, n).0) && Inv(ConsumeReceipt(db, id, nonce, n).0)
  {
    Unmoved(db);
    if ConsumeReceipt(db, id, nonce, n).1 {
      SetReceipt(db, id, Consumed(n));
    }
  }

  lemma SetReceipt(db: Auth, id: Id, status: ReceiptStatus)
    requires Inv(db) && id in db.receipts && db.receipts[id].status.Issued? && !status.Issued?
    requires status.Consumed? ==> status.at < db.receipts[id].terms.expiresAt
    ensures var d := db.(receipts := db.receipts[id := db.receipts[id].(status := status)]);
            Grown(db, d) && Inv(d)
  {
    var d := db.(receipts := db.receipts[id := db.receipts[id].(status := status)]);
    ReceiptRow(db, id);
    SealGrown(db, d);
    ReceiptStays(db, d, id);
    assert ReceiptLive(d, id);
    assert ReceiptsSound(db, d) && ReceiptsLive(db, d);
    NothingNew(db, d);
    StaysUnique(db, d);
    StepKeeps(db, d);
  }

  /** A HELD reservation whose receipt is consumed. */
  lemma UseReservation(db: Auth, id: Id, receipt: Id, n: Time)
    requires Inv(db) && id in db.reservations && db.reservations[id].status.Held?
    requires receipt in db.receipts && db.receipts[receipt].status.Consumed?
    requires db.receipts[receipt].terms.reservation == id
    ensures var d := db.(reservations := db.reservations[id := db.reservations[id].(status := Used(n))]);
            Grown(db, d) && Inv(d)
  {
    var d := db.(reservations := db.reservations[id := db.reservations[id].(status := Used(n))]);
    ReservationRowOf(db, id);
    SealGrown(db, d);
    assert d.receipts[receipt].status.Consumed? && d.receipts[receipt].terms.reservation == id;
    ReservationStays(db, d, id);
    assert ReservationLive(d, id);
    assert ReservationsSound(db, d) && ReservationsLive(db, d);
    NothingNew(db, d);
    StaysUnique(db, d);
    StepKeeps(db, d);
  }

  lemma ConsumeReservationKeeps(db: Auth, reservation: Id, receipt: Id, n: Time)
    requires Inv(db)
    ensures Grown(db, ConsumeReservation(db, reservation, receipt, n).0)
    ensures Inv(ConsumeReservation(db, reservation, receipt, n).0)
  {
    Unmoved(db);
    if ConsumeReservation(db, reservation, receipt, n).1 {
      UseReservation(db, reservation, receipt, n);
    }
  }

  // ---- Mandates ------------------------------------------------------------------------

  /** Only one mandate moves. */
  ghost predicate OnlyMoves(a: Auth, b: Auth, mandate: Id) {
    && mandate in a.mandates && b.mandates.Keys == a.mandates.Keys
    && (forall m :: m in a.mandates && m != mandate ==> b.mandates[m] == a.mandates[m])
    && b.bases == a.bases && b.reservations == a.reservations && b.receipts == a.receipts
  }

  /** Withdrawing a version leaves in force only what rests on other mandates. */
  lemma WithdrawLive(db: Auth, d: Auth, pin: Pin, account: Option<Id>, n: Time)
    requires AllLive(db) && Sound(db) && OnlyMoves(db, d, pin.mandate)
    requires db.mandates[pin.mandate].version == pin.version
    requires account.Some? ==> account.value == db.mandates[pin.mandate].account
    ensures AllLive(Withdraw(d, pin, account, n))
  {
    var e := Withdraw(d, pin, account, n);
    forall id | id in db.bases && db.bases[id].source == FromMandate(pin.mandate, pin.version)
      ensures IsFrom(db.bases[id], pin, account)
    {
      assert BasisSound(db, id);
    }
    forall id | id in e.bases ensures BasisLive(e, id) {
      assert BasisLive(db, id);
    }
    forall id | id in e.reservations ensures ReservationLive(e, id) {
      assert ReservationLive(db, id) && BasisLive(db, db.reservations[id].basis);
    }
    forall id | id in e.receipts ensures ReceiptLive(e, id) {
      assert ReceiptLive(db, id);
    }
  }

  lemma StaleGrows(d: Auth, pin: Pin, account: Option<Id>)
    ensures var e := d.(bases := StaleBases(d.bases, pin, account));
            Grown(d, e)
  {
    SealGrown(d, d.(bases := StaleBases(d.bases, pin, account)));
  }

  lemma ReleaseGrows(d: Auth, e: Auth, pin: Pin, account: Option<Id>, n: Time)
    requires e.reservations == d.reservations
    ensures var f := e.(reservations := ReleaseHeld(d, pin, account, n));
            Grown(e, f)
  {
    SealGrown(e, e.(reservations := ReleaseHeld(d, pin, account, n)));
  }

  lemma WithdrawByBasisGrows(d: Auth, e: Auth, pin: Pin, account: Option<Id>)
    requires e.receipts == d.receipts
    ensures Grown(e, e.(receipts := WithdrawByBasis(d, pin, account)))
  {
    SealGrown(e, e.(receipts := WithdrawByBasis(d, pin, account)));
  }

  lemma WithdrawGrows(d: Auth, pin: Pin, account: Option<Id>, n: Time)
    ensures Grown(d, Withdraw(d, pin, account, n))
  {
    var e := d.(bases := StaleBases(d.bases, pin, account));
    var f := e.(receipts := WithdrawByBasis(d, pin, account));
    var g := f.(reservations := ReleaseHeld(d, pin, account, n));
    StaleGrows(d, pin, account);
    WithdrawByBasisGrows(d, e, pin, account);
    ReleaseGrows(d, f, pin, account, n);
    GrownTransitive(d, e, f);
    GrownTransitive(d, f, g);
  }

  /** Nothing in force rests on a mandate that is not ACTIVE. */
  lemma MoveLive(db: Auth, d: Auth, mandate: Id)
    requires AllLive(db) && OnlyMoves(db, d, mandate) && !db.mandates[mandate].status.Active?
    ensures AllLive(d)
  {
    forall id | id in d.bases ensures BasisLive(d, id) {
      assert BasisLive(db, id);
    }
    forall id | id in d.reservations ensures ReservationLive(d, id) {
      assert ReservationLive(db, id);
    }
    forall id | id in d.receipts ensures ReceiptLive(d, id) {
      assert ReceiptLive(db, id);
    }
  }

  /** Statuses only fall, and no row appears. */
  ghost predicate OnlyFalls(db: Auth, d: Auth) {
    && d.approvals == db.approvals
    && d.bases.Keys == db.bases.Keys && d.reservations.Keys == db.reservations.Keys
    && d.receipts.Keys == db.receipts.Keys
    && (forall id :: id in db.reservations && d.reservations[id].status.Used? ==> db.reservations[id].status.Used?)
    && (forall id :: id in db.receipts && d.receipts[id].status.Consumed? ==> d.receipts[id] == db.receipts[id])
  }

  lemma FallingIsSound(db: Auth, d: Auth)
    requires OnlyFalls(db, d)
    ensures ApprovalsSound(db, d) && BasesSound(db, d) && ReservationsSound(db, d) && ReceiptsSound(db, d)
  {
  }

  /** Statuses that only fall keep everything else. */
  lemma FallKeeps(db: Auth, d: Auth)
    requires Inv(db) && Grown(db, d) && AllLive(d) && OnlyFalls(db, d) && BindingsSound(db, d)
    ensures Inv(d)
  {
    FallingIsSound(db, d);
    StaysUnique(db, d);
    OpenInv(db);
    SoundStays(db, d);
    SealInv(d);
  }

  lemma MoveGrows(db: Auth, id: Id, to: MandateStatus, newHash: Id)
    requires id in db.mandates && !db.mandates[id].status.Expired? && !db.mandates[id].status.Revoked?
    ensures Grown(db, MoveMandate(db, id, to, newHash)) && OnlyMoves(db, MoveMandate(db, id, to, newHash), id)
  {
    SealGrown(db, MoveMandate(db, id, to, newHash));
  }

  lemma SameBindings(db: Auth, d: Auth, e: Auth)
    requires BindingsSound(db, d) && e.bindings == d.bindings && e.mandates == d.mandates
    ensures BindingsSound(db, e)
  {
    forall id | id in e.bindings
      ensures (id in db.bindings && e.bindings[id] == db.bindings[id]) || BindingSound(e, id)
    {
      assert (id in db.bindings && d.bindings[id] == db.bindings[id]) || BindingSound(d, id);
    }
  }

  lemma WithdrawFalls(d: Auth, pin: Pin, account: Option<Id>, n: Time)
    ensures OnlyFalls(d, Withdraw(d, pin, account, n))
  {
  }

  lemma MoveAndWithdraw(db: Auth, d: Auth, pin: Pin, account: Option<Id>, n: Time)
    requires Inv(db) && Grown(db, d) && OnlyMoves(db, d, pin.mandate) && db.mandates[pin.mandate].version == pin.version
    requires account.Some? ==> account.value == db.mandates[pin.mandate].account
    requires d.approvals == db.approvals && BindingsSound(db, d)
    ensures Grown(db, Withdraw(d, pin, account, n)) && Inv(Withdraw(d, pin, account, n))
  {
    SameBindings(db, d, Withdraw(d, pin, account, n));
    OpenInv(db);
    WithdrawGrows(d, pin, account, n);
    GrownTransitive(db, d, Withdraw(d, pin, account, n));
    WithdrawLive(db, d, pin, account, n);
    WithdrawFalls(d, pin, account, n);
    FallKeeps(db, Withdraw(d, pin, account, n));
  }

  lemma MoveToKeeps(db: Auth, id: Id, to: MandateStatus, newHash: Id, n: Time)
    requires Inv(db) && id in db.mandates && !db.mandates[id].status.Expired? && !db.mandates[id].status.Revoked?
    requires db.mandates[id].status.Active? ==> Falls(to)
    ensures Grown(db, MoveTo(db, id, to, newHash, n)) && Inv(MoveTo(db, id, to, newHash, n))
  {
    var d := MoveMandate(db, id, to, newHash);
    MoveGrows(db, id, to, newHash);
    NothingNew(db, d);
    if Falls(to) {
      MoveAndWithdraw(db, d, Pin(id, db.mandates[id].version), None, n);
    } else {
      OpenInv(db);
      MoveLive(db, d, id);
      FallKeeps(db, d);
    }
  }

  lemma {:induction false} TransitionKeeps(
      db: Auth, id: Id, version: nat, to: MandateStatus, actor: Actor, newHash: Id, formatOk: bool, n: Time)
    requires Inv(db)
    ensures Grown(db, Transition(db, id, version, to, actor, newHash, formatOk, n).0)
    ensures Inv(Transition(db, id, version, to, actor, newHash, formatOk, n).0)
  {
    Unmoved(db);
    if Transition(db, id, version, to, actor, newHash, formatOk, n).1 {
      MoveToKeeps(db, id, to, newHash, n);
    }
  }

  lemma ExpireKeeps(db: Auth, id: Id, version: nat, actor: Actor, newHash: Id, formatOk: bool, n: Time)
    requires Inv(db)
    ensures Grown(db, ExpireMandate(db, id, version, actor, newHash, formatOk, n).0)
    ensures Inv(ExpireMandate(db, id, version, actor, newHash, formatOk, n).0)
  {
    Unmoved(db);
    if ExpireMandate(db, id, version, actor, newHash, formatOk, n).1 {
      MoveToKeeps(db, id, Expired, newHash, n);
    }
  }

  // ---- Modes ------------------------------------------------------------------------------

  lemma MoveBindingGrows(db: Auth, id: Id, row: Binding, n: Time)
    requires id in db.bindings && BindingGrown(db.bindings[id], row) && MoveBinding(db, id, row, n).Done?
    ensures Grown(db, MoveBinding(db, id, row, n).value) && BindingsSound(db, MoveBinding(db, id, row, n).value)
  {
    assert BindingSound(MoveBinding(db, id, row, n).value, id);
    SealGrown(db, MoveBinding(db, id, row, n).value);
  }

  lemma MovePairGrows(
      db: Auth, mandate: Id, binding: Id, to: MandateStatus, paused: bool, newMandateHash: Id, newBindingHash: Id,
      n: Time)
    requires mandate in db.mandates && binding in db.bindings
    requires !db.mandates[mandate].status.Expired? && !db.mandates[mandate].status.Revoked?
    requires MovePair(db, mandate, binding, to, paused, newMandateHash, newBindingHash, n).Done?
    ensures var e := MovePair(db, mandate, binding, to, paused, newMandateHash, newBindingHash, n).value;
            Grown(db, e) && OnlyMoves(db, e, mandate) && BindingsSound(db, e) && e.approvals == db.approvals
  {
    var d := MoveMandate(db, mandate, to, newMandateHash);
    var row := PairedRow(db, mandate, binding, paused, newBindingHash);
    MoveGrows(db, mandate, to, newMandateHash);
    MoveBindingGrows(d, binding, row, n);
    GrownTransitive(db, d, MoveBinding(d, binding, row, n).value);
  }

  lemma {:induction false} CompositePauseKeeps(
      db: Auth, mandate: Id, mandateVersion: nat, binding: Id, bindingVersion: nat, account: Id, actor: Actor,
      newMandateHash: Id, newBindingHash: Id, formatOk: bool, n: Time)
    requires Inv(db)
    ensures var d := CompositePause(db, mandate, mandateVersion, binding, bindingVersion, account, actor,
              newMandateHash, newBindingHash, formatOk, n).0;
            Grown(db, d) && Inv(d)
  {
    Unmoved(db);
    if CompositePause(
         db, mandate, mandateVersion, binding, bindingVersion, account, actor, newMandateHash, newBindingHash, formatOk,
         n).1 == Done(true) {
      MovePairGrows(db, mandate, binding, Suspended, true, newMandateHash, newBindingHash, n);
      var e := MovePair(db, mandate, binding, Suspended, true, newMandateHash, newBindingHash, n).value;
      MoveAndWithdraw(db, e, Pin(mandate, mandateVersion), Some(account), n);
    }
  }

  lemma CompositeResumeKeeps(
      db: Auth, mandate: Id, mandateVersion: nat, binding: Id, bindingVersion: nat, account: Id, runHash: Id,
      policy: Id, actor: Actor, newMandateHash: Id, newBindingHash: Id, formatOk: bool, n: Time)
    requires Inv(db)
    ensures var d := CompositeResume(db, mandate, mandateVersion, binding, bindingVersion, account, runHash, policy,
              actor, newMandateHash, newBindingHash, formatOk, n).0;
            Grown(db, d) && Inv(d)
  {
    Unmoved(db);
    if CompositeResume(
         db, mandate, mandateVersion, binding, bindingVersion, account, runHash, policy, actor, newMandateHash,
         newBindingHash, formatOk, n).1 == Done(true) {
      MovePairGrows(db, mandate, binding, Active, false, newMandateHash, newBindingHash, n);
      var e := MovePair(db, mandate, binding, Active, false, newMandateHash, newBindingHash, n).value;
      OpenInv(db);
      MoveLive(db, e, mandate);
      FallKeeps(db, e);
    }
  }

  lemma WithdrawByBindingGrows(d: Auth, binding: Id, version: nat)
    ensures Grown(d, d.(receipts := WithdrawByBinding(d.receipts, binding, version)))
  {
    SealGrown(d, d.(receipts := WithdrawByBinding(d.receipts, binding, version)));
  }

  lemma DetachFalls(d: Auth, binding: Id, version: nat, pin: Option<Pin>, account: Option<Id>, n: Time)
    ensures OnlyFalls(d, Detach(d, binding, version, pin, account, n))
  {
  }

  lemma DetachGrows(d: Auth, binding: Id, version: nat, pin: Option<Pin>, account: Option<Id>, n: Time)
    ensures Grown(d, Detach(d, binding, version, pin, account, n))
    ensures OnlyFalls(d, Detach(d, binding, version, pin, account, n))
  {
    var e := d.(receipts := WithdrawByBinding(d.receipts, binding, version));
    DetachFalls(d, binding, version, pin, account, n);
    WithdrawByBindingGrows(d, binding, version);
    if pin.Some? && account.Some? {
      var f := e.(bases := StaleBases(d.bases, pin.value, account));
      var g := f.(reservations := ReleaseHeld(d, pin.value, account, n));
      StaleGrows(e, pin.value, account);
      ReleaseGrows(d, f, pin.value, account, n);
      GrownTransitive(d, e, f);
      GrownTransitive(d, f, g);
    }
  }

  lemma DetachLive(d: Auth, binding: Id, version: nat, pin: Option<Pin>, account: Option<Id>, n: Time)
    requires AllLive(d)
    ensures AllLive(Detach(d, binding, version, pin, account, n))
  {
    var e := Detach(d, binding, version, pin, account, n);
    forall id | id in e.bases ensures BasisLive(e, id) {
      assert BasisLive(d, id);
    }
    forall id | id in e.reservations ensures ReservationLive(e, id) {
      assert ReservationLive(d, id);
    }
    forall id | id in e.receipts ensures ReceiptLive(e, id) {
      assert ReceiptLive(d, id);
    }
  }

  lemma LeaveModeKeeps(db: Auth, binding: Id, row: Binding, n: Time)
    requires Inv(db) && binding in db.bindings && BindingGrown(db.bindings[binding], row)
    requires LeaveMode(db, binding, row, n).Done?
    ensures Grown(db, LeaveMode(db, binding, row, n).value) && Inv(LeaveMode(db, binding, row, n).value)
  {
    var b := db.bindings[binding];
    var d := MoveBinding(db, binding, row, n).value;
    MoveBindingGrows(db, binding, row, n);
    BindingMoveKeeps(db, d);
    var e := Detach(d, binding, b.version, b.mandate, b.account, n);
    DetachGrows(d, binding, b.version, b.mandate, b.account, n);
    GrownTransitive(db, d, e);
    OpenInv(d);
    DetachLive(d, binding, b.version, b.mandate, b.account, n);
    NothingNew(d, e);
    FallKeeps(d, e);
  }

  lemma BindingMoveKeeps(db: Auth, d: Auth)
    requires Inv(db) && Grown(db, d) && BindingsSound(db, d) && d.mandates == db.mandates
    requires d.approvals == db.approvals && d.bases == db.bases && d.reservations == db.reservations
    requires d.receipts == db.receipts
    ensures Inv(d)
  {
    NothingNew(db, d);
    StaysUnique(db, d);
    StepKeeps(db, d);
  }

  lemma PauseModeKeeps(
      db: Auth, binding: Id, version: nat, account: Id, actor: Actor, newHash: Id, formatOk: bool, n: Time)
    requires Inv(db)
    ensures Grown(db, PauseMode(db, binding, version, account, actor, newHash, formatOk, n).0)
    ensures Inv(PauseMode(db, binding, version, account, actor, newHash, formatOk, n).0)
  {
    Unmoved(db);
    if PauseMode(db, binding, version, account, actor, newHash, formatOk, n).1 == Done(true) {
      LeaveModeKeeps(db, binding, db.bindings[binding].(version := version + 1, paused := true, hash := newHash), n);
    }
  }

  lemma RetireKeeps(
      db: Auth, binding: Id, version: nat, account: Option<Id>, to: BindingStatus, actor: Actor, newHash: Id,
      formatOk: bool, n: Time)
    requires Inv(db)
    ensures Grown(db, Retire(db, binding, version, account, to, actor, newHash, formatOk, n).0)
    ensures Inv(Retire(db, binding, version, account, to, actor, newHash, formatOk, n).0)
  {
    Unmoved(db);
    if Retire(db, binding, version, account, to, actor, newHash, formatOk, n).1 == Done(true) {
      LeaveModeKeeps(db, binding, db.bindings[binding].(version := version + 1, status := to, hash := newHash), n);
    }
  }

  // ---- What each command leaves alone -------------------------------------------------------

  /** Neither reserves nor consumes anything. */
  ghost predicate Administrative(a: Auth, b: Auth) {
    && b.reservations.Keys == a.reservations.Keys && b.authorities == a.authorities
    && b.receipts.Keys == a.receipts.Keys
    && (forall x :: x in a.receipts && b.receipts[x].status.Consumed? ==> a.receipts[x].status.Consumed?)
  }

  lemma WithdrawIsAdministrative(db: Auth, pin: Pin, account: Option<Id>, n: Time)
    ensures Administrative(db, Withdraw(db, pin, account, n))
  {
  }

  lemma DetachIsAdministrative(db: Auth, binding: Id, version: nat, pin: Option<Pin>, account: Option<Id>, n: Time)
    ensures Administrative(db, Detach(db, binding, version, pin, account, n))
  {
  }

  lemma MoveToIsAdministrative(db: Auth, id: Id, to: MandateStatus, newHash: Id, n: Time)
    requires id in db.mandates
    ensures Administrative(db, MoveTo(db, id, to, newHash, n))
  {
    WithdrawIsAdministrative(MoveMandate(db, id, to, newHash), Pin(id, db.mandates[id].version), None, n);
  }

  lemma PairIsAdministrative(
      db: Auth, mandate: Id, binding: Id, to: MandateStatus, paused: bool, newMandateHash: Id, newBindingHash: Id,
      n: Time)
    requires mandate in db.mandates && binding in db.bindings
    ensures var d := MovePair(db, mandate, binding, to, paused, newMandateHash, newBindingHash, n);
            d.Done? ==>
              d.value.receipts == db.receipts && d.value.reservations == db.reservations &&
              d.value.authorities == db.authorities
  {
  }

  lemma PausePairIsAdministrative(
      db: Auth, mandate: Id, binding: Id, account: Id, newMandateHash: Id, newBindingHash: Id, n: Time)
    requires mandate in db.mandates && binding in db.bindings
    ensures var d := PausePair(db, mandate, binding, account, newMandateHash, newBindingHash, n);
            d.Done? ==> Administrative(db, d.value)
  {
    var d := MovePair(db, mandate, binding, Suspended, true, newMandateHash, newBindingHash, n);
    PairIsAdministrative(db, mandate, binding, Suspended, true, newMandateHash, newBindingHash, n);
    if d.Done? {
      WithdrawIsAdministrative(d.value, Pin(mandate, db.mandates[mandate].version), Some(account), n);
    }
  }

  lemma LeaveIsAdministrative(db: Auth, binding: Id, row: Binding, n: Time)
    requires binding in db.bindings
    ensures LeaveMode(db, binding, row, n).Done? ==> Administrative(db, LeaveMode(db, binding, row, n).value)
  {
    var b := db.bindings[binding];
    var d := MoveBinding(db, binding, row, n);
    if d.Done? {
      DetachIsAdministrative(d.value, binding, b.version, b.mandate, b.account, n);
    }
  }

  predicate Moves(c: Command) {
    c.DoTransition? || c.DoExpire? || c.DoCompositePause? || c.DoCompositeResume? || c.DoPauseMode? || c.DoRetire?
  }

  lemma MandatesAreAdministrative(db: Auth, c: Command)
    requires c.DoTransition? || c.DoExpire?
    ensures Administrative(db, Apply(db, c))
  {
    if c.id in db.mandates {
      MoveToIsAdministrative(db, c.id, if c.DoTransition? then c.to else Expired, c.newHash, c.n);
    }
  }

  lemma CompositePauseIsAdministrative(db: Auth, c: Command)
    requires c.DoCompositePause?
    ensures Administrative(db, Apply(db, c))
  {
    if c.mandate in db.mandates && c.binding in db.bindings {
      PausePairIsAdministrative(db, c.mandate, c.binding, c.account, c.newMandateHash, c.newBindingHash, c.n);
    }
  }

  lemma CompositeResumeIsAdministrative(db: Auth, c: Command)
    requires c.DoCompositeResume?
    ensures Administrative(db, Apply(db, c))
  {
    if c.mandate in db.mandates && c.binding in db.bindings {
      PairIsAdministrative(db, c.mandate, c.binding, Active, false, c.newMandateHash, c.newBindingHash, c.n);
    }
  }

  lemma PauseModeIsAdministrative(db: Auth, c: Command)
    requires c.DoPauseMode?
    ensures Administrative(db, Apply(db, c))
  {
    var r := PauseMode(db, c.binding, c.version, c.account, c.actor, c.newHash, c.formatOk, c.n);
    if r.1 == Done(true) {
      var row := db.bindings[c.binding].(version := c.version + 1, paused := true, hash := c.newHash);
      LeaveIsAdministrative(db, c.binding, row, c.n);
      assert r.0 == LeaveMode(db, c.binding, row, c.n).value;
    } else {
      assert r.0 == db;
    }
  }

  lemma RetireIsAdministrative(db: Auth, c: Command)
    requires c.DoRetire?
    ensures Administrative(db, Apply(db, c))
  {
    if c.binding in db.bindings {
      LeaveIsAdministrative(
        db, c.binding, db.bindings[c.binding].(version := c.version + 1, status := c.status, hash := c.newHash), c.n);
    }
  }

  lemma MovingIsAdministrative(db: Auth, c: Command)
    requires Moves(c)
    ensures Administrative(db, Apply(db, c))
  {
    match c
    case DoTransition(_, _, _, _, _, _, _) => MandatesAreAdministrative(db, c);
    case DoExpire(_, _, _, _, _, _) => MandatesAreAdministrative(db, c);
    case DoCompositePause(_, _, _, _, _, _, _, _, _, _) => CompositePauseIsAdministrative(db, c);
    case DoCompositeResume(_, _, _, _, _, _, _, _, _, _, _, _) => CompositeResumeIsAdministrative(db, c);
    case DoPauseMode(_, _, _, _, _, _, _) => PauseModeIsAdministrative(db, c);
    case DoRetire(_, _, _, _, _, _, _, _) => RetireIsAdministrative(db, c);
  }

  predicate Records(c: Command) {
    c.DoAddMandate? || c.DoAddBinding? || c.DoAddAuthority? || c.DoSetPermit?
  }

  lemma RecordingReservesNothing(db: Auth, c: Command)
    requires Records(c) && !c.DoAddAuthority?
    ensures Apply(db, c).reservations == db.reservations && Apply(db, c).authorities == db.authorities
  {
  }

  lemma ApprovalsReserveNothing(db: Auth, c: Command)
    requires c.DoRequest? || c.DoGrant? || c.DoConsumeApproval? || c.DoIssueBasis?
    ensures Apply(db, c).reservations == db.reservations && Apply(db, c).authorities == db.authorities
  {
  }

  lemma OnlyReservingReserves(db: Auth, c: Command)
    requires !c.DoReserve? && !c.DoAddAuthority?
    ensures Apply(db, c).reservations.Keys == db.reservations.Keys && Apply(db, c).authorities == db.authorities
  {
    if Moves(c) {
      MovingIsAdministrative(db, c);
    } else if Records(c) {
      RecordingReservesNothing(db, c);
    } else if c.DoRequest? || c.DoGrant? || c.DoConsumeApproval? || c.DoIssueBasis? {
      ApprovalsReserveNothing(db, c);
    }
  }

  lemma OnlyConsumingConsumes(db: Auth, c: Command, x: Id)
    requires x in db.receipts && !db.receipts[x].status.Consumed?
    requires x in Apply(db, c).receipts && Apply(db, c).receipts[x].status.Consumed?
    ensures c.DoConsumeReceipt? && c.id == x && MayUseReceipt(db, db.receipts[x], c.n)
  {
    if Moves(c) {
      MovingIsAdministrative(db, c);
    }
  }

  // ---- Every run -------------------------------------------------------------------------------

  lemma NewMandate(db: Auth, id: Id, row: Mandate)
    requires Inv(db) && id !in db.mandates
    ensures Grown(db, db.(mandates := db.mandates[id := row])) && Inv(db.(mandates := db.mandates[id := row]))
  {
    NothingNew(db, db.(mandates := db.mandates[id := row]));
    OutsideKeeps(db, db.(mandates := db.mandates[id := row]));
  }

  lemma AddMandateKeeps(db: Auth, id: Id, row: Mandate)
    requires Inv(db)
    ensures Grown(db, AddMandate(db, id, row)) && Inv(AddMandate(db, id, row))
  {
    Unmoved(db);
    if id !in db.mandates {
      NewMandate(db, id, row);
    }
  }

  lemma NewBinding(db: Auth, id: Id, row: Binding)
    requires Inv(db) && id !in db.bindings && ModeChecks(row) && BindsMandate(db, row)
    ensures Grown(db, db.(bindings := db.bindings[id := row])) && Inv(db.(bindings := db.bindings[id := row]))
  {
    assert BindingSound(db.(bindings := db.bindings[id := row]), id);
    NothingNew(db, db.(bindings := db.bindings[id := row]));
    OutsideKeeps(db, db.(bindings := db.bindings[id := row]));
  }

  lemma AddBindingKeeps(db: Auth, id: Id, row: Binding, n: Time)
    requires Inv(db)
    ensures Grown(db, AddBinding(db, id, row, n)) && Inv(AddBinding(db, id, row, n))
  {
    Unmoved(db);
    if id !in db.bindings && MayStore(db, row, n) {
      NewBinding(db, id, row);
    }
  }

  lemma NewAuthority(db: Auth, id: Id, row: Authority)
    requires Inv(db) && id !in db.authorities
    ensures Grown(db, db.(authorities := db.authorities[id := row]))
    ensures Inv(db.(authorities := db.authorities[id := row]))
  {
    NothingNew(db, db.(authorities := db.authorities[id := row]));
    OutsideKeeps(db, db.(authorities := db.authorities[id := row]));
  }

  lemma AddAuthorityKeeps(db: Auth, id: Id, row: Authority)
    requires Inv(db)
    ensures Grown(db, AddAuthority(db, id, row)) && Inv(AddAuthority(db, id, row))
  {
    Unmoved(db);
    if id !in db.authorities {
      NewAuthority(db, id, row);
    }
  }

  lemma SetPermitKeeps(db: Auth, id: Id, row: Permit)
    requires Inv(db)
    ensures Grown(db, SetPermit(db, id, row)) && Inv(SetPermit(db, id, row))
  {
    var d := SetPermit(db, id, row);
    NothingNew(db, d);
    OutsideKeeps(db, d);
  }

  lemma MandateCommandKeeps(db: Auth, c: Command)
    requires Inv(db) && (c.DoTransition? || c.DoExpire?)
    ensures Grown(db, Apply(db, c)) && Inv(Apply(db, c))
  {
    if c.DoTransition? {
      TransitionKeeps(db, c.id, c.version, c.to, c.actor, c.newHash, c.formatOk, c.n);
    } else {
      ExpireKeeps(db, c.id, c.version, c.actor, c.newHash, c.formatOk, c.n);
    }
  }

  lemma PauseCommandKeeps(db: Auth, c: Command)
    requires Inv(db) && c.DoCompositePause?
    ensures Grown(db, Apply(db, c)) && Inv(Apply(db, c))
  {
    CompositePauseKeeps(
      db, c.mandate, c.mandateVersion, c.binding, c.bindingVersion, c.account, c.actor, c.newMandateHash,
      c.newBindingHash, c.formatOk, c.n);
  }

  lemma ResumeCommandKeeps(db: Auth, c: Command)
    requires Inv(db) && c.DoCompositeResume?
    ensures Grown(db, Apply(db, c)) && Inv(Apply(db, c))
  {
    CompositeResumeKeeps(
      db, c.mandate, c.mandateVersion, c.binding, c.bindingVersion, c.account, c.runHash, c.policy, c.actor,
      c.newMandateHash, c.newBindingHash, c.formatOk, c.n);
  }

  lemma ModeCommandKeeps(db: Auth, c: Command)
    requires Inv(db) && (c.DoPauseMode? || c.DoRetire?)
    ensures Grown(db, Apply(db, c)) && Inv(Apply(db, c))
  {
    if c.DoPauseMode? {
      PauseModeKeeps(db, c.binding, c.version, c.account, c.actor, c.newHash, c.formatOk, c.n);
    } else {
      RetireKeeps(db, c.binding, c.version, c.owner, c.status, c.actor, c.newHash, c.formatOk, c.n);
    }
  }

  lemma MovingKeeps(db: Auth, c: Command)
    requires Inv(db) && Moves(c)
    ensures Grown(db, Apply(db, c)) && Inv(Apply(db, c))
  {
    if c.DoTransition? || c.DoExpire? {
      MandateCommandKeeps(db, c);
    } else if c.DoCompositePause? {
      PauseCommandKeeps(db, c);
    } else if c.DoCompositeResume? {
      ResumeCommandKeeps(db, c);
    } else {
      ModeCommandKeeps(db, c);
    }
  }

  lemma RecordingKeeps(db: Auth, c: Command)
    requires Inv(db) && Records(c)
    ensures Grown(db, Apply(db, c)) && Inv(Apply(db, c))
  {
    match c
    case DoAddMandate(id, row) => AddMandateKeeps(db, id, row);
    case DoAddBinding(id, row, n) => AddBindingKeeps(db, id, row, n);
    case DoAddAuthority(id, row) => AddAuthorityKeeps(db, id, row);
    case DoSetPermit(id, row) => SetPermitKeeps(db, id, row);
  }

  /** Every command keeps the invariant, and rows only grow. */
  lemma {:induction false} ApplyKeeps(db: Auth, c: Command)
    requires Inv(db)
    ensures Grown(db, Apply(db, c)) && Inv(Apply(db, c))
  {
    if Moves(c) {
      MovingKeeps(db, c);
    } else if Records(c) {
      RecordingKeeps(db, c);
    } else {
      match c
      case DoRequest(id, q, m, mv, b, bv, policy, ok, n) => RequestKeeps(db, id, q, m, mv, b, bv, policy, ok, n);
      case DoGrant(id, v, plan, actor, ok, n) => GrantKeeps(db, id, v, plan, actor, ok, n);
      case DoConsumeApproval(id, v, token, basis, q, ok, n) => ConsumeApprovalKeeps(db, id, v, token, basis, q, ok, n);
      case DoIssueBasis(basis, m, v, q, ok, n) => IssueBasisKeeps(db, basis, m, v, q, ok, n);
      case DoReserve(id, q, ok, n) => ReserveKeeps(db, id, q, ok, n);
      case DoIssueReceipt(id, nonce, t, ok, n) => IssueReceiptKeeps(db, id, nonce, t, ok, n);
      case DoConsumeReceipt(id, nonce, n) => ConsumeReceiptKeeps(db, id, nonce, n);
      case DoConsumeReservation(id, receipt, n) => ConsumeReservationKeeps(db, id, receipt, n);
    }
  }

  lemma {:induction false} RunKeeps(db: Auth, cs: seq<Command>)
    requires Inv(db)
    ensures Grown(db, Run(db, cs)) && Inv(Run(db, cs))
  {
    if cs != [] {
      RunKeeps(db, cs[..|cs| - 1]);
      ApplyKeeps(Run(db, cs[..|cs| - 1]), cs[|cs| - 1]);
      GrownTransitive(db, Run(db, cs[..|cs| - 1]), Run(db, cs));
    }
  }

  lemma {:induction false} ReachableIsSafe(cs: seq<Command>)
    ensures Inv(Run(NO_AUTHORITY, cs))
  {
    assert Inv(NO_AUTHORITY);
    RunKeeps(NO_AUTHORITY, cs);
  }
}
