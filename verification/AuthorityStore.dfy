/** The authority tables as they are updated in place, one method per stored
    procedure; every UPDATE and INSERT is one assignment. */
module AuthorityStore {
  import opened Common
  import opened AuthorityModel
  import opened AuthoritySteps
  import opened AuthorityInvariants
  import opened AuthoritySafety
  import opened RiskCeiling

  /** What a grant adds to a request. */
  predicate Decided(a: Approval, b: Approval, actor: Actor) {
    a.status.Requested? && b == a.(version := a.version + 1, status := Granted, decidedBy := Some(actor))
  }

  class Store {
    var mandates: map<Id, Mandate>
    var approvals: map<Id, Approval>
    var bases: map<Id, Basis>
    var authorities: map<Id, Authority>
    var reservations: map<Id, Reservation>
    var receipts: map<Id, Receipt>
    var bindings: map<Id, Binding>
    var permits: map<Id, Permit>

    function State(): Auth
      reads this
    {
      Auth(mandates, approvals, bases, authorities, reservations, receipts, bindings, permits)
    }

    ghost predicate Valid()
      reads this
    {
      Inv(State())
    }

    constructor ()
      ensures Valid() && State() == NO_AUTHORITY
    {
      mandates, approvals, bases, authorities := map[], map[], map[], map[];
      reservations, receipts, bindings, permits := map[], map[], map[], map[];
      new;
      ReachableIsSafe([]);
      assert Run(NO_AUTHORITY, []) == NO_AUTHORITY;
    }

    /** Rows that come from outside the protocol. */
    method RecordMandate(id: Id, row: Mandate)
      requires Valid()
      modifies this
      ensures Valid() && State() == AddMandate(old(State()), id, row)
    {
      AddMandateKeeps(State(), id, row);
      if id !in mandates && row.status.Draft? && row.version > 0 && ValidScope(row.scope, row.account, false) {
        mandates := mandates[id := row];
      }
    }

    method RecordBinding(id: Id, row: Binding, n: Time)
      requires Valid()
      modifies this
      ensures Valid() && State() == AddBinding(old(State()), id, row, n)
      ensures id !in old(bindings) ==> (id in bindings <==> MayStore(old(State()), row, n))
      ensures id in bindings && id !in old(bindings) && row.mode.Autonomous? ==>
                row.mandate.value.mandate in mandates &&
                mandates[row.mandate.value.mandate].version == row.mandate.value.version &&
                Some(mandates[row.mandate.value.mandate].account) == row.account
      ensures forall x :: x in old(bindings) ==> x in bindings && bindings[x] == old(bindings)[x]
    {
      AddBindingKeeps(State(), id, row, n);
      if id !in bindings && MayStore(State(), row, n) {
        bindings := bindings[id := row];
      }
    }

    method RecordAuthority(account: Id, row: Authority)
      requires Valid()
      modifies this
      ensures Valid() && State() == AddAuthority(old(State()), account, row)
    {
      AddAuthorityKeeps(State(), account, row);
      if account !in authorities && row.ceiling >= 0.0 {
        authorities := authorities[account := row];
      }
    }

    method RecordPermit(account: Id, row: Permit)
      requires Valid()
      modifies this
      ensures Valid() && State() == SetPermit(old(State()), account, row)
    {
      SetPermitKeeps(State(), account, row);
      permits := permits[account := row];
    }

    // ---- Approvals and bases -------------------------------------------------------

    method RequestAgentPlanApproval(
        id: Id, q: ApprovalRequest, mandate: Id, mandateVersion: nat, binding: Id, bindingVersion: nat, policy: Id,
        formatOk: bool, n: Time) returns (ok: bool)
      requires Valid()
      modifies this
      ensures Valid()
      ensures (State(), ok) ==
                RequestApproval(old(State()), id, q, mandate, mandateVersion, binding, bindingVersion, policy, formatOk,
                    n)
    {
      RequestKeeps(State(), id, q, mandate, mandateVersion, binding, bindingVersion, policy, formatOk, n);
      if !formatOk || !MayRequest(State(), q, mandate, mandateVersion, binding, bindingVersion, policy, n) {
        return false;
      }
      if id in approvals {
        return SameRequest(approvals[id], q);
      }
      if ApprovalTaken(State(), q.order.plan, 1) || TokenTaken(State(), q.token) {
        return false;
      }
      var row := Approval(1, Requested, q.order.plan, OneOffScope(q, n), q.scopeHash, q.hash, q.token, q.requestedBy,
          None, q.expiresAt);
      approvals := approvals[id := row];
      ok := true;
    }

    method GrantPlanApproval(id: Id, version: nat, plan: PlanRef, actor: Actor, formatOk: bool, n: Time)
      returns (ok: bool)
      requires Valid()
      modifies this
      ensures Valid() && (State(), ok) == GrantApproval(old(State()), id, version, plan, actor, formatOk, n)
      ensures ok ==> id in approvals && id in old(approvals) && Decided(old(approvals)[id], approvals[id], actor)
      ensures ok ==>
                actor.User? && approvals[id].plan == plan && approvals[id].version == version + 1 &&
                approvals[id].expiresAt > n
      ensures forall x :: x in old(approvals) && (x != id || !ok) ==>
                x in approvals && approvals[x] == old(approvals)[x]
      ensures State() == old(State()).(approvals := approvals) && approvals.Keys == old(approvals.Keys)
    {
      GrantKeeps(State(), id, version, plan, actor, formatOk, n);
      if !formatOk || !actor.User? || id !in approvals {
        return false;
      }
      var a := approvals[id];
      if a.version != version || !a.status.Requested? || a.plan != plan || a.expiresAt <= n ||
         ApprovalTaken(State(), plan, version + 1) {
        return false;
      }
      approvals := approvals[id := a.(version := version + 1, status := Granted, decidedBy := Some(actor))];
      ok := true;
    }

    method ConsumePlanApproval(
        approval: Id, version: nat, token: Id, basis: Id, q: BasisRequest, formatOk: bool, n: Time)
      returns (r: Option<Id>)
      requires Valid()
      modifies this
      ensures Valid() && (State(), r) == ConsumeApproval(old(State()), approval, version, token, basis, q, formatOk, n)
    {
      ConsumeApprovalKeeps(State(), approval, version, token, basis, q, formatOk, n);
      if approval !in approvals {
        return None;
      }
      var a := approvals[approval];
      if a.version == version + 1 && a.status.Spent? {
        return ConsumedBasis(State(), approval, version, token, q);
      }
      if !formatOk || !MayConsume(a, version, token, q, n) {
        return None;
      }
      if basis in bases || ApprovalHasBasis(State(), approval) || ApprovalTaken(State(), a.plan, version + 1) {
        return None;
      }
      var source := FromApproval(approval, version, token, a.scope.window.value);
      SpendInto(approval, a.(version := version + 1, status := Spent(basis, n)), basis, BasisRow(q, source, a.scope));
      r := Some(basis);
    }

    /** INSERT of the basis and UPDATE of the approval. */
    method SpendInto(approval: Id, row: Approval, basis: Id, b: Basis)
      modifies this`bases, this`approvals
      ensures State() == old(State()).(bases := old(bases)[basis := b], approvals := old(approvals)[approval := row])
    {
      bases := bases[basis := b];
      approvals := approvals[approval := row];
    }

    method IssueMandateBasis(basis: Id, mandate: Id, version: nat, q: BasisRequest, formatOk: bool, n: Time)
      returns (r: Option<Id>)
      requires Valid()
      modifies this
      ensures Valid() && (State(), r) == IssueBasis(old(State()), basis, mandate, version, q, formatOk, n)
    {
      IssueBasisKeeps(State(), basis, mandate, version, q, formatOk, n);
      if !formatOk || !MayIssueBasis(State(), mandate, version, q, n) {
        return None;
      }
      if HasMandateBasis(State(), mandate, version, q.order.plan) {
        var existing :| existing in bases && MandatePlanBasis(bases[existing], mandate, version, q.order.plan);
        OpenInv(State());
        assert forall y :: RepeatedBasis(State(), y, mandate, version, q) ==> SamePlanBasis(bases[existing], bases[y]);
        assert RepeatedBasis(State(), existing, mandate, version, q) <==> Repeats(bases[existing], q);
        return if Repeats(bases[existing], q) then Some(existing) else None;
      }
      if basis in bases {
        return None;
      }
      bases := bases[basis := BasisRow(q, FromMandate(mandate, version), mandates[mandate].scope)];
      r := Some(basis);
    }

    // ---- Reservations and receipts -----------------------------------------------------

    method ReserveRiskBudget(id: Id, q: ReserveRequest, formatOk: bool, n: Time) returns (r: Outcome<bool>)
      requires Valid()
      modifies this
      ensures Valid() && (State(), r) == Reserve(old(State()), id, q, formatOk, n)
    {
      ReserveKeeps(State(), id, q, formatOk, n);
      if !formatOk || !MayReserve(State(), q, n) {
        return Done(false);
      }
      if IsReserved(State(), q) {
        return Done(ReservedAs(State(), q));
      }
      var held := SumHeld(reservations, q.order.account, n);
      if held + q.loss > authorities[q.order.account].ceiling {
        return Done(false);
      }
      var row := ReservationRow(q, bases[q.basis]);
      if !BindsBasis(State(), row) {
        return Raised;
      }
      if id in reservations {
        return Done(false);
      }
      reservations := reservations[id := row];
      r := Done(true);
    }

    method ConsumeRiskBudgetReservation(reservation: Id, receipt: Id, n: Time) returns (ok: bool)
      requires Valid()
      modifies this
      ensures Valid() && (State(), ok) == ConsumeReservation(old(State()), reservation, receipt, n)
      ensures ok ==>
                receipt in receipts && receipts[receipt].status.Consumed? &&
                receipts[receipt].terms.reservation == reservation
      ensures ok ==> reservation in reservations && reservations[reservation].status == Used(n)
      ensures forall account, t ::
                HeldOf(reservations, account, t) ==
                  HeldOf(old(reservations), account, t) - if ok then {reservation} else {}
      ensures State() == old(State()).(reservations := reservations) && (!ok ==> reservations == old(reservations))
    {
      ConsumeReservationKeeps(State(), reservation, receipt, n);
      ok := reservation in reservations && receipt in receipts && receipts[receipt].terms.reservation == reservation &&
            receipts[receipt].status.Consumed? && reservations[reservation].status.Held?;
      if ok {
        reservations := reservations[reservation := reservations[reservation].(status := Used(n))];
      }
    }

    method IssueAutonomyGateReceipt(id: Id, nonce: Id, t: Terms, formatOk: bool, n: Time) returns (r: Option<Id>)
      requires Valid()
      modifies this
      ensures Valid() && (State(), r) == IssueReceipt(old(State()), id, nonce, t, formatOk, n)
    {
      IssueReceiptKeeps(State(), id, nonce, t, formatOk, n);
      if !formatOk || !MayIssueReceipt(State(), t, n) {
        return None;
      }
      if ReceiptTaken(State(), id, nonce, t.basis) {
        if exists x | x in receipts :: receipts[x].terms == t {
          var x :| x in receipts && receipts[x].terms == t;
          assert SameTerms(State(), x, t);
          OnlySameTerms(State(), x, t);
          return Some(x);
        }
        assert forall y :: !SameTerms(State(), y, t);
        return None;
      }
      receipts := receipts[id := Receipt(Issued, nonce, t, n)];
      r := Some(id);
    }

    method ConsumeAutonomyGateReceipt(id: Id, nonce: Id, n: Time) returns (ok: bool)
      requires Valid()
      modifies this
      ensures Valid() && (State(), ok) == ConsumeReceipt(old(State()), id, nonce, n)
      ensures ok ==> id in old(receipts) && old(receipts)[id].status.Issued? && old(receipts)[id].terms.expiresAt > n
      ensures ok ==>
                id in receipts && receipts[id] == old(receipts)[id].(status := Consumed(n)) &&
                receipts[id].nonce == nonce
      ensures ok ==> receipts[id].terms.basis in bases && bases[receipts[id].terms.basis].status.Usable? &&
                     receipts[id].terms.reservation in reservations &&
                     reservations[receipts[id].terms.reservation].status.Held?
      ensures ok && receipts[id].terms.origin.Agent? ==>
                InForceFor(State(), receipts[id].terms.origin.binding, receipts[id].terms.origin.version, n)
      ensures forall x :: x in old(receipts) && (x != id || !ok) ==> x in receipts && receipts[x] == old(receipts)[x]
      ensures State() == old(State()).(receipts := receipts) && receipts.Keys == old(receipts.Keys)
    {
      ConsumeReceiptKeeps(State(), id, nonce, n);
      ok := id in receipts && receipts[id].nonce == nonce && MayUseReceipt(State(), receipts[id], n);
      if ok {
        receipts := receipts[id := receipts[id].(status := Consumed(n))];
      }
    }

    // ---- Mandates ---------------------------------------------------------------------------

    /** UPDATE authorization_basis SET basis_status='STALE' */
    method MarkStale(pin: Pin, account: Option<Id>)
      modifies this`bases
      ensures bases == StaleBases(old(bases), pin, account)
      ensures forall id :: id in old(bases) ==>
                (IsFrom(bases[id], pin, account) <==> IsFrom(old(bases)[id], pin, account))
      ensures forall id :: id in bases && IsFrom(bases[id], pin, account) ==> bases[id].status.Stale?
    {
      bases := map id | id in bases ::
        if bases[id].status.Usable? && IsFrom(bases[id], pin, account) then bases[id].(status := Stale) else bases[id];
      assert forall id :: id in bases ==> bases[id] == StaleBases(old(bases), pin, account)[id];
    }

    /** The three UPDATEs that take down what rests on a mandate version. */
    method WithdrawVersion(pin: Pin, account: Option<Id>, n: Time)
      modifies this`bases, this`receipts, this`reservations
      ensures State() == Withdraw(old(State()), pin, account, n)
    {
      MarkStale(pin, account);
      receipts := map id | id in receipts ::
        if receipts[id].status.Issued? && receipts[id].terms.basis in bases &&
           IsFrom(bases[receipts[id].terms.basis], pin, account)
        then receipts[id].(status := Withdrawn) else receipts[id];
      reservations := map id | id in reservations ::
        if reservations[id].status.Held? && reservations[id].basis in bases &&
           IsFrom(bases[reservations[id].basis], pin, account)
        then reservations[id].(status := Released(n)) else reservations[id];
      assert receipts == WithdrawByBasis(old(State()), pin, account);
      assert reservations == ReleaseHeld(old(State()), pin, account, n);
    }

    /** One UPDATE of a mandate row. */
    method UpdateMandate(id: Id, to: MandateStatus, newHash: Id)
      requires id in mandates
      modifies this`mandates
      ensures State() == MoveMandate(old(State()), id, to, newHash)
    {
      mandates := mandates[id := mandates[id].(version := mandates[id].version + 1, status := to, hash := newHash)];
    }

    method MoveMandateTo(id: Id, to: MandateStatus, newHash: Id, n: Time)
      requires id in mandates
      modifies this`mandates, this`bases, this`receipts, this`reservations
      ensures State() == MoveTo(old(State()), id, to, newHash, n)
    {
      var pin := Pin(id, mandates[id].version);
      UpdateMandate(id, to, newHash);
      if Falls(to) {
        WithdrawVersion(pin, None, n);
      }
    }

    method TransitionMandate(
        id: Id, version: nat, to: MandateStatus, actor: Actor, newHash: Id, formatOk: bool, n: Time)
      returns (ok: bool)
      requires Valid()
      modifies this
      ensures Valid() && (State(), ok) == Transition(old(State()), id, version, to, actor, newHash, formatOk, n)
    {
      TransitionKeeps(State(), id, version, to, actor, newHash, formatOk, n);
      if !MayTransition(State(), id, version, to, actor, newHash, formatOk, n) {
        return false;
      }
      MoveMandateTo(id, to, newHash, n);
      ok := true;
    }

    method ExpireMandateNow(id: Id, version: nat, actor: Actor, newHash: Id, formatOk: bool, n: Time) returns (ok: bool)
      requires Valid()
      modifies this
      ensures Valid() && (State(), ok) == ExpireMandate(old(State()), id, version, actor, newHash, formatOk, n)
    {
      ExpireKeeps(State(), id, version, actor, newHash, formatOk, n);
      if !MayExpire(State(), id, version, actor, newHash, formatOk, n) {
        return false;
      }
      MoveMandateTo(id, Expired, newHash, n);
      ok := true;
    }

    // ---- Modes ----------------------------------------------------------------------------------

    /** The row trigger and the CHECKs of autonomy_mode_binding. */
    method UpdateBinding(id: Id, row: Binding, n: Time) returns (ok: bool)
      modifies this`bindings
      ensures ok <==> MoveBinding(old(State()), id, row, n).Done?
      ensures State() == if ok then MoveBinding(old(State()), id, row, n).value else old(State())
    {
      ok := MayStore(State(), row, n);
      if ok {
        bindings := bindings[id := row];
      }
    }

    /** Mandate and binding rows move together or not at all. */
    method UpdatePair(
        mandate: Id, binding: Id, to: MandateStatus, paused: bool, newMandateHash: Id, newBindingHash: Id, n: Time)
      returns (ok: bool)
      requires mandate in mandates && binding in bindings
      modifies this`mandates, this`bindings
      ensures ok <==> MovePair(old(State()), mandate, binding, to, paused, newMandateHash, newBindingHash, n).Done?
      ensures State() ==
                if ok
                then MovePair(old(State()), mandate, binding, to, paused, newMandateHash, newBindingHash, n).value
                else old(State())
    {
      var saved := mandates;
      var row := PairedRow(State(), mandate, binding, paused, newBindingHash);
      UpdateMandate(mandate, to, newMandateHash);
      ok := UpdateBinding(binding, row, n);
      if !ok {
        mandates := saved;
      }
    }

    method SuspendPair(mandate: Id, binding: Id, account: Id, newMandateHash: Id, newBindingHash: Id, n: Time)
      returns (r: Outcome<bool>)
      requires mandate in mandates && binding in bindings
      modifies this`mandates, this`bindings, this`bases, this`receipts, this`reservations
      ensures (State(), r) ==
                Reply(old(State()), PausePair(old(State()), mandate, binding, account, newMandateHash, newBindingHash,
                    n))
    {
      var pin := Pin(mandate, mandates[mandate].version);
      var ok := UpdatePair(mandate, binding, Suspended, true, newMandateHash, newBindingHash, n);
      if !ok {
        return Raised;
      }
      WithdrawVersion(pin, Some(account), n);
      r := Done(true);
    }

    method PauseComposite(
        mandate: Id, mandateVersion: nat, binding: Id, bindingVersion: nat, account: Id, actor: Actor,
        newMandateHash: Id, newBindingHash: Id, formatOk: bool, n: Time) returns (r: Outcome<bool>)
      requires Valid()
      modifies this
      ensures Valid()
      ensures (State(), r) == CompositePause(old(State()), mandate, mandateVersion, binding, bindingVersion, account,
                actor, newMandateHash, newBindingHash, formatOk, n)
    {
      CompositePauseKeeps(
        State(), mandate, mandateVersion, binding, bindingVersion, account, actor, newMandateHash, newBindingHash,
            formatOk, n);
      if !MayPausePair(
            State(), mandate, mandateVersion, binding, bindingVersion, account, actor,
            newMandateHash, newBindingHash, formatOk, n) {
        return Done(false);
      }
      r := SuspendPair(mandate, binding, account, newMandateHash, newBindingHash, n);
    }

    method ResumeComposite(
        mandate: Id, mandateVersion: nat, binding: Id, bindingVersion: nat, account: Id, runHash: Id, policy: Id,
        actor: Actor, newMandateHash: Id, newBindingHash: Id, formatOk: bool, n: Time) returns (r: Outcome<bool>)
      requires Valid()
      modifies this
      ensures Valid()
      ensures (State(), r) == CompositeResume(old(State()), mandate, mandateVersion, binding, bindingVersion, account,
                runHash, policy, actor, newMandateHash, newBindingHash, formatOk, n)
    {
      CompositeResumeKeeps(
        State(), mandate, mandateVersion, binding, bindingVersion, account, runHash, policy, actor, newMandateHash,
            newBindingHash, formatOk, n);
      if !MayResumePair(
            State(), mandate, mandateVersion, binding, bindingVersion, account, runHash, policy, actor,
            newMandateHash, newBindingHash, formatOk, n) {
        return Done(false);
      }
      var ok := UpdatePair(mandate, binding, Active, false, newMandateHash, newBindingHash, n);
      r := if ok then Done(true) else Raised;
    }

    /** The UPDATEs behind a paused or retired binding; reservations go by the
        basis rows that are STALE by then. */
    method DetachBinding(binding: Id, version: nat, pin: Option<Pin>, account: Option<Id>, n: Time)
      modifies this`bases, this`receipts, this`reservations
      ensures State() == Detach(old(State()), binding, version, pin, account, n)
    {
      receipts := map id | id in receipts ::
        if receipts[id].status.Issued? && receipts[id].terms.origin.Agent? &&
           receipts[id].terms.origin.binding == binding &&
           receipts[id].terms.origin.version == version
        then receipts[id].(status := Withdrawn) else receipts[id];
      assert receipts == WithdrawByBinding(old(receipts), binding, version);
      if pin.Some? && account.Some? {
        MarkStale(pin.value, account);
        reservations := map id | id in reservations ::
          if reservations[id].status.Held? && reservations[id].basis in bases &&
             bases[reservations[id].basis].status.Stale? &&
             IsFrom(bases[reservations[id].basis], pin.value, account)
          then reservations[id].(status := Released(n)) else reservations[id];
        assert reservations == ReleaseHeld(old(State()), pin.value, account, n);
      }
    }

    method TakeOut(binding: Id, row: Binding, n: Time) returns (r: Outcome<bool>)
      requires binding in bindings
      modifies this`bindings, this`bases, this`receipts, this`reservations
      ensures (State(), r) == Reply(old(State()), LeaveMode(old(State()), binding, row, n))
    {
      var b := bindings[binding];
      var moved := UpdateBinding(binding, row, n);
      if !moved {
        return Raised;
      }
      DetachBinding(binding, b.version, b.mandate, b.account, n);
      r := Done(true);
    }

    method PauseAutonomyMode(binding: Id, version: nat, account: Id, actor: Actor, newHash: Id, formatOk: bool, n: Time)
      returns (r: Outcome<bool>)
      requires Valid()
      modifies this
      ensures Valid() && (State(), r) == PauseMode(old(State()), binding, version, account, actor, newHash, formatOk, n)
    {
      PauseModeKeeps(State(), binding, version, account, actor, newHash, formatOk, n);
      if !formatOk || actor.User? || !InForceFor(State(), binding, version, n) ||
         bindings[binding].account != Some(account) ||
         bindings[binding].hash == newHash {
        return Done(false);
      }
      var b := bindings[binding];
      r := TakeOut(binding, b.(version := version + 1, paused := true, hash := newHash), n);
    }

    method RetireBinding(
        binding: Id, version: nat, account: Option<Id>, to: BindingStatus, actor: Actor, newHash: Id, formatOk: bool,
        n: Time)
      returns (r: Outcome<bool>)
      requires Valid()
      modifies this
      ensures Valid()
      ensures (State(), r) == Retire(old(State()), binding, version, account, to, actor, newHash, formatOk, n)
    {
      RetireKeeps(State(), binding, version, account, to, actor, newHash, formatOk, n);
      if !formatOk || to.InForce? || !actor.Service? || binding !in bindings {
        return Done(false);
      }
      var b := bindings[binding];
      if b.version != version || !b.status.InForce? || b.account != account || b.hash == newHash ||
         (to.Lapsed? && n < b.expiresAt) {
        return Done(false);
      }
      r := TakeOut(binding, b.(version := version + 1, status := to, hash := newHash), n);
    }
  }

  /** Two receipts never carry the same terms. */
  lemma OnlySameTerms(db: Auth, x: Id, t: Terms)
    requires Inv(db) && SameTerms(db, x, t)
    ensures forall y :: SameTerms(db, y, t) ==> y == x
  {
    OpenInv(db);
    forall y | SameTerms(db, y, t) ensures y == x {
      assert Clash(db.receipts[x], db.receipts[y]);
    }
  }
}
