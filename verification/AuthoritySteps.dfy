/** The authority commands as functions from one state to the next.  n is the
    clock reading a command takes when it starts; formatOk stands for the
    textual checks (digests, references, actors) of its arguments. */
module AuthoritySteps {
  import opened Common
  import opened AuthorityModel

  // ---- Rows that come from outside ---------------------------------------------

  function AddMandate(db: Auth, id: Id, row: Mandate): Auth {
    if id in db.mandates || !row.status.Draft? || row.version == 0 || !ValidScope(row.scope, row.account, false) then db
    else db.(mandates := db.mandates[id := row])
  }

  function AddBinding(db: Auth, id: Id, row: Binding, n: Time): Auth {
    if id in db.bindings || !MayStore(db, row, n) then db
    else db.(bindings := db.bindings[id := row])
  }

  function AddAuthority(db: Auth, account: Id, row: Authority): Auth {
    if account in db.authorities || row.ceiling < 0.0 then db
    else db.(authorities := db.authorities[account := row])
  }

  function SetPermit(db: Auth, account: Id, row: Permit): Auth {
    db.(permits := db.permits[account := row])
  }

  predicate Permitted(db: Auth, account: Id, policy: Id, until: Time) {
    account in db.permits && db.permits[account].permits && db.permits[account].policy == policy &&
    db.permits[account].validUntil >= until
  }

  // ---- Approvals -----------------------------------------------------------------

  datatype ApprovalRequest = ApprovalRequest(
    order: Order, action: Action, quantity: real, token: Id, scopeHash: Id, hash: Id, expiresAt: Time,
    requestedBy: Actor)

  predicate InForceFor(db: Auth, binding: Id, version: nat, n: Time) {
    && binding in db.bindings && db.bindings[binding].version == version
    && db.bindings[binding].status.InForce? && db.bindings[binding].mode.Autonomous? && !db.bindings[binding].paused
    && db.bindings[binding].expiresAt > n
  }

  predicate MandateAt(db: Auth, mandate: Id, version: nat, n: Time) {
    && mandate in db.mandates && db.mandates[mandate].version == version
    && db.mandates[mandate].status.Active? && db.mandates[mandate].expiresAt > n
  }

  /** One-off requests are for trades the mandate does not cover. */
  predicate MayRequest(
      db: Auth, q: ApprovalRequest, mandate: Id, mandateVersion: nat, binding: Id, bindingVersion: nat,
      policy: Id, n: Time) {
    && q.quantity > 0.0 && q.requestedBy.Service?
    && MandateAt(db, mandate, mandateVersion, n) && db.mandates[mandate].account == q.order.account
    && db.mandates[mandate].escalates
    && InForceFor(db, binding, bindingVersion, n) && db.bindings[binding].account == Some(q.order.account)
    && db.bindings[binding].mandate == Some(Pin(mandate, mandateVersion)) && db.bindings[binding].qualified
    && q.expiresAt > n && q.expiresAt <= db.mandates[mandate].expiresAt && q.expiresAt <= db.bindings[binding].expiresAt
    && Permitted(db, q.order.account, policy, n + 1)
    && !ScopePermits(db.mandates[mandate].scope, q.order, q.action, q.quantity, false)
  }

  function OneOffScope(q: ApprovalRequest, n: Time): Scope {
    Scope(q.order.account, [q.order.instrument], [q.order.strategy], [q.order.session], [q.action], q.quantity,
          Some(Window(n, q.expiresAt)))
  }

  /** UNIQUE (plan, version) and UNIQUE (approval_token). */
  predicate ApprovalTaken(db: Auth, plan: PlanRef, version: nat) {
    exists a | a in db.approvals :: db.approvals[a].plan == plan && db.approvals[a].version == version
  }

  predicate TokenTaken(db: Auth, token: Id) {
    exists a | a in db.approvals :: db.approvals[a].token == token
  }

  predicate SameRequest(a: Approval, q: ApprovalRequest) {
    && a.version == 1 && a.status.Requested? && a.plan == q.order.plan && a.scope.account == q.order.account
    && a.token == q.token && a.scopeHash == q.scopeHash && a.hash == q.hash && a.requestedBy == q.requestedBy
    && a.expiresAt == q.expiresAt && a.scope.instruments == [q.order.instrument]
    && a.scope.strategies == [q.order.strategy]
    && a.scope.sessions == [q.order.session] && a.scope.actions == [q.action] && a.scope.ceiling == q.quantity
  }

  function RequestApproval(
      db: Auth, id: Id, q: ApprovalRequest, mandate: Id, mandateVersion: nat, binding: Id, bindingVersion: nat,
      policy: Id, formatOk: bool, n: Time): (Auth, bool) {
    if !formatOk || !MayRequest(db, q, mandate, mandateVersion, binding, bindingVersion, policy, n) then (db, false)
    else if id in db.approvals then (db, SameRequest(db.approvals[id], q))
    else if ApprovalTaken(db, q.order.plan, 1) || TokenTaken(db, q.token) then (db, false)
    else
      var row := Approval(1, Requested, q.order.plan, OneOffScope(q, n), q.scopeHash, q.hash, q.token, q.requestedBy,
          None, q.expiresAt);
      (db.(approvals := db.approvals[id := row]), true)
  }

  function GrantApproval(
      db: Auth, id: Id, version: nat, plan: PlanRef, actor: Actor, formatOk: bool, n: Time): (Auth, bool) {
    if !formatOk || !actor.User? || id !in db.approvals then (db, false)
    else
      var a := db.approvals[id];
      if a.version != version || !a.status.Requested? || a.plan != plan || a.expiresAt <= n ||
         ApprovalTaken(db, plan, version + 1)
      then (db, false)
      else (db.(approvals := db.approvals[id := a.(version := version + 1, status := Granted,
          decidedBy := Some(actor))]), true)
  }

  // ---- Bases ---------------------------------------------------------------------

  datatype BasisRequest = BasisRequest(
    order: Order, action: Action, quantity: real, sourceHash: Id, scopeHash: Id, basisHash: Id, expiresAt: Time,
    actor: Actor)

  predicate Repeats(b: Basis, q: BasisRequest) {
    && b.order == q.order && b.action == q.action && b.quantity == q.quantity && b.sourceHash == q.sourceHash
    && b.scopeHash == q.scopeHash && b.hash == q.basisHash && b.expiresAt == q.expiresAt && b.issuedBy == q.actor
  }

  predicate MayConsume(a: Approval, version: nat, token: Id, q: BasisRequest, n: Time) {
    && a.version == version && a.status.Granted? && a.expiresAt > n
    && n < q.expiresAt <= a.expiresAt && a.scope.window.Some? && q.expiresAt <= a.scope.window.value.end
    && a.plan == q.order.plan && a.scope.account == q.order.account && q.quantity <= a.scope.ceiling
    && a.token == token && a.hash == q.sourceHash && a.scopeHash == q.scopeHash
    && a.scope.window.value.start <= n < a.scope.window.value.end
    && a.decidedBy == Some(q.actor) && q.actor.User?
    && ScopePermits(a.scope, q.order, q.action, q.quantity, true)
  }

  function BasisRow(q: BasisRequest, source: Source, scope: Scope): Basis {
    Basis(Usable, q.basisHash, q.order, q.action, q.quantity, source, q.sourceHash, scope, q.scopeHash, q.actor,
        q.expiresAt)
  }

  predicate ApprovalHasBasis(db: Auth, approval: Id) {
    exists b | b in db.bases :: db.bases[b].source.FromApproval? && db.bases[b].source.approval == approval
  }

  /** The basis an already consumed approval was turned into, if the call repeats it. */
  function ConsumedBasis(db: Auth, approval: Id, version: nat, token: Id, q: BasisRequest): Option<Id>
    requires approval in db.approvals && db.approvals[approval].status.Spent?
  {
    var id := db.approvals[approval].status.basis;
    if id in db.bases && db.bases[id].source.FromApproval? && db.bases[id].source.approval == approval &&
       db.bases[id].source.version == version && db.bases[id].source.token == token && Repeats(db.bases[id], q) &&
       ScopePermits(db.bases[id].scope, q.order, q.action, q.quantity, true)
    then Some(id) else None
  }

  function ConsumeApproval(
      db: Auth, approval: Id, version: nat, token: Id, basis: Id, q: BasisRequest, formatOk: bool,
      n: Time): (Auth, Option<Id>) {
    if approval !in db.approvals then (db, None)
    else
      var a := db.approvals[approval];
      if a.version == version + 1 && a.status.Spent? then (db, ConsumedBasis(db, approval, version, token, q))
      else if !formatOk || !MayConsume(a, version, token, q, n) then (db, None)
      else if basis in db.bases || ApprovalHasBasis(db, approval) || ApprovalTaken(db, a.plan, version + 1) then
        (db, None)
      else
        (db.(bases := db.bases[basis := BasisRow(q, FromApproval(approval, version, token, a.scope.window.value),
            a.scope)],
             approvals := db.approvals[approval := a.(version := version + 1, status := Spent(basis, n))]),
         Some(basis))
  }

  predicate MayIssueBasis(db: Auth, mandate: Id, version: nat, q: BasisRequest, n: Time) {
    && MandateAt(db, mandate, version, n)
    && var m := db.mandates[mandate];
       && m.account == q.order.account && m.hash == q.sourceHash && m.scopeHash == q.scopeHash
       && n < q.expiresAt <= m.expiresAt && q.actor.Service?
       && ScopePermits(m.scope, q.order, q.action, q.quantity, false)
  }

  predicate MandatePlanBasis(b: Basis, mandate: Id, version: nat, plan: PlanRef) {
    b.source == FromMandate(mandate, version) && b.order.plan.id == plan.id && b.order.plan.version == plan.version
  }

  predicate HasMandateBasis(db: Auth, mandate: Id, version: nat, plan: PlanRef) {
    exists b | b in db.bases :: MandatePlanBasis(db.bases[b], mandate, version, plan)
  }

  predicate RepeatedBasis(db: Auth, id: Id, mandate: Id, version: nat, q: BasisRequest) {
    id in db.bases && MandatePlanBasis(db.bases[id], mandate, version, q.order.plan) && Repeats(db.bases[id], q)
  }

  ghost function IssueBasis(
      db: Auth, basis: Id, mandate: Id, version: nat, q: BasisRequest, formatOk: bool, n: Time): (Auth, Option<Id>) {
    if !formatOk || !MayIssueBasis(db, mandate, version, q, n) then (db, None)
    else if HasMandateBasis(db, mandate, version, q.order.plan) then
      (db, if id :| RepeatedBasis(db, id, mandate, version, q) then Some(id) else None)
    else if basis in db.bases then (db, None)
    else
      (db.(bases := db.bases[basis := BasisRow(q, FromMandate(mandate, version), db.mandates[mandate].scope)]),
          Some(basis))
  }

  // ---- Reservations ----------------------------------------------------------------

  datatype ReserveRequest = ReserveRequest(
    hash: Id, order: Order, basis: Id, basisHash: Id, constitution: Constitution, dimensions: Id,
    quantity: real, loss: real, margin: real, expiresAt: Time)

  predicate InWindow(s: Source, n: Time, expiresAt: Time) {
    s.FromApproval? ==> s.window.start <= n < s.window.end && expiresAt <= s.window.end
  }

  /** The approval a basis was made from is the one it was consumed into. */
  predicate ApprovalStands(db: Auth, id: Id, b: Basis) {
    && b.source.FromApproval? && b.source.approval in db.approvals
    && var a := db.approvals[b.source.approval];
       && a.version == b.source.version + 1 && a.status.Spent? && a.status.basis == id
       && a.hash == b.sourceHash && a.scopeHash == b.scopeHash && a.token == b.source.token
  }

  /** ... for this account, action and quantity. */
  predicate ApprovalCovers(db: Auth, b: Basis, account: Id, action: Action) {
    && b.source.FromApproval? && b.source.approval in db.approvals
    && var a := db.approvals[b.source.approval];
       a.scope.account == account && action in a.scope.actions && a.scope.ceiling >= b.quantity
  }

  predicate MandateStands(db: Auth, b: Basis, account: Id, n: Time) {
    && b.source.FromMandate? && MandateAt(db, b.source.mandate, b.source.version, n)
    && var m := db.mandates[b.source.mandate];
       m.account == account && m.hash == b.sourceHash && m.scopeHash == b.scopeHash
  }

  predicate MayReserve(db: Auth, q: ReserveRequest, n: Time) {
    && q.order.account in db.authorities && q.basis in db.bases
    && var au, b := db.authorities[q.order.account], db.bases[q.basis];
       && au.constitution == q.constitution && au.trusted && 0.0 <= q.loss <= au.ceiling && q.quantity > 0.0
       && q.margin >= 0.0
       && b.status.Usable? && b.expiresAt > n && b.order == q.order && b.hash == q.basisHash && q.quantity <= b.quantity
       && n < q.expiresAt <= b.expiresAt && InWindow(b.source, n, q.expiresAt)
       && ScopePermits(b.scope, q.order, b.action, q.quantity, b.source.FromApproval?)
       && if b.source.FromMandate? then MandateStands(db, b, q.order.account, n)
          else ApprovalStands(db, q.basis, b) && ApprovalCovers(db, b, q.order.account, b.action)
  }

  predicate SamePlanAndBasis(r: Reservation, q: ReserveRequest) {
    r.order.plan.id == q.order.plan.id && r.order.plan.version == q.order.plan.version && r.basis == q.basis
  }

  predicate SameReservation(db: Auth, r: Reservation, q: ReserveRequest) {
    && r.status.Held? && r.hash == q.hash && r.order == q.order && r.basisHash == q.basisHash
    && r.constitution == q.constitution && r.dimensions == q.dimensions && r.quantity == q.quantity && r.loss == q.loss
    && r.margin == q.margin && r.expiresAt == q.expiresAt
    && q.basis in db.bases && r.source == RefOf(db.bases[q.basis].source)
    && r.sourceHash == db.bases[q.basis].sourceHash
  }

  predicate IsReserved(db: Auth, q: ReserveRequest) {
    exists r | r in db.reservations :: SamePlanAndBasis(db.reservations[r], q)
  }

  predicate ReservedAs(db: Auth, q: ReserveRequest) {
    exists r | r in db.reservations :: SamePlanAndBasis(db.reservations[r], q) &&
        SameReservation(db, db.reservations[r], q)
  }

  function ReservationRow(q: ReserveRequest, b: Basis): Reservation {
    Reservation(Held, q.hash, q.order, q.basis, q.basisHash, q.constitution, q.dimensions, q.quantity, q.loss, q.margin,
                RefOf(b.source), b.sourceHash, q.expiresAt)
  }

  /** The trigger raises when the quantity is not the authorised one. */
  ghost function Reserve(db: Auth, id: Id, q: ReserveRequest, formatOk: bool, n: Time): (Auth, Outcome<bool>) {
    if !formatOk || !MayReserve(db, q, n) then (db, Done(false))
    else if IsReserved(db, q) then (db, Done(ReservedAs(db, q)))
    else if HeldLoss(db.reservations, q.order.account, n) + q.loss > db.authorities[q.order.account].ceiling then
      (db, Done(false))
    else
      var row := ReservationRow(q, db.bases[q.basis]);
      if !BindsBasis(db, row) then (db, Raised)
      else if id in db.reservations then (db, Done(false))
      else (db.(reservations := db.reservations[id := row]), Done(true))
  }

  function ConsumeReservation(db: Auth, reservation: Id, receipt: Id, n: Time): (Auth, bool) {
    if reservation !in db.reservations || receipt !in db.receipts ||
       db.receipts[receipt].terms.reservation != reservation ||
       !db.receipts[receipt].status.Consumed? || !db.reservations[reservation].status.Held?
    then (db, false)
    else
      (db.(reservations := db.reservations[reservation := db.reservations[reservation].(status := Used(n))]), true)
  }

  // ---- Receipts ----------------------------------------------------------------------

  predicate FreshSnapshots(s: Snapshots, n: Time) {
    s.asOf <= n && s.expiresAt > s.asOf && s.expiresAt > n
  }

  /** The checks that issuing and consuming share: basis, reservation and risk
      authority stand behind the terms. */
  predicate Backed(db: Auth, t: Terms, n: Time) {
    && BindsReservation(db, t) && t.order.account in db.authorities
    && var b := db.bases[t.basis];
       var r := db.reservations[t.reservation];
       var au := db.authorities[t.order.account];
       && au.constitution == t.constitution && au.trusted
       && b.status.Usable? && b.expiresAt > n && r.status.Held? && r.expiresAt > n && r.quantity <= b.quantity
       && InWindow(b.source, n, t.expiresAt)
       && FreshSnapshots(t.snapshots, n) && t.expiresAt <= t.snapshots.expiresAt
  }

  /** The autonomous mode the terms were issued under is in force. */
  predicate AgentStands(db: Auth, t: Terms, n: Time) {
    && t.origin.Agent? && t.basis in db.bases
    && InForceFor(db, t.origin.binding, t.origin.version, n)
    && var b := db.bases[t.basis];
       var bind := db.bindings[t.origin.binding];
       && bind.qualified && bind.account == Some(t.order.account) && bind.runHash == t.runHash
       && bind.hash == t.origin.hash
       && t.expiresAt <= bind.expiresAt
       && (b.source.FromApproval? ==> ApprovalStands(db, t.basis, b))
       && (b.source.FromMandate? ==>
             && MandateStands(db, b, t.order.account, n)
             && bind.mandate == Some(Pin(b.source.mandate, b.source.version)) && bind.scopeHash == t.scopeHash)
  }

  predicate ManualStands(db: Auth, t: Terms) {
    && t.origin.ManualTest? && t.basis in db.bases
    && var b := db.bases[t.basis];
       && b.source.FromApproval? && ApprovalStands(db, t.basis, b) && ApprovalCovers(db, b, t.order.account, t.action)
       && db.approvals[b.source.approval].decidedBy == Some(t.origin.actor)
  }

  predicate OriginStands(db: Auth, t: Terms, n: Time) {
    && (if t.origin.Agent? then AgentStands(db, t, n) else ManualStands(db, t))
    && Permitted(db, t.order.account, t.policy, t.expiresAt)
  }

  predicate MayIssueReceipt(db: Auth, t: Terms, n: Time) {
    && Backed(db, t, n) && OriginStands(db, t, n)
    && (match t.origin
        case Agent(_, _, _) => t.issuedBy.Service?
        case ManualTest(actor) => actor == t.issuedBy && actor.User?)
    && var b := db.bases[t.basis];
       && n < t.expiresAt <= b.expiresAt && t.expiresAt <= db.reservations[t.reservation].expiresAt
       && ScopePermits(b.scope, t.order, t.action, b.quantity, b.source.FromApproval?)
  }

  predicate SameTerms(db: Auth, id: Id, t: Terms) {
    id in db.receipts && db.receipts[id].terms == t
  }

  /** UNIQUE (receipt_id), UNIQUE (nonce), UNIQUE (basis_id). */
  predicate ReceiptTaken(db: Auth, id: Id, nonce: Id, basis: Id) {
    id in db.receipts ||
    exists x | x in db.receipts :: db.receipts[x].nonce == nonce || db.receipts[x].terms.basis == basis
  }

  ghost function IssueReceipt(db: Auth, id: Id, nonce: Id, t: Terms, formatOk: bool, n: Time): (Auth, Option<Id>) {
    if !formatOk || !MayIssueReceipt(db, t, n) then (db, None)
    else if ReceiptTaken(db, id, nonce, t.basis) then (db, if x :| SameTerms(db, x, t) then Some(x) else None)
    else (db.(receipts := db.receipts[id := Receipt(Issued, nonce, t, n)]), Some(id))
  }

  predicate MayUseReceipt(db: Auth, x: Receipt, n: Time) {
    && x.status.Issued? && x.terms.expiresAt > n && Backed(db, x.terms, n) && OriginStands(db, x.terms, n)
    && (db.bases[x.terms.basis].source.FromApproval? ==>
          db.reservations[x.terms.reservation].expiresAt <= db.bases[x.terms.basis].source.window.end)
  }

  function ConsumeReceipt(db: Auth, id: Id, nonce: Id, n: Time): (Auth, bool) {
    if id !in db.receipts || db.receipts[id].nonce != nonce || !MayUseReceipt(db, db.receipts[id], n) then (db, false)
    else (db.(receipts := db.receipts[id := db.receipts[id].(status := Consumed(n))]), true)
  }

  // ---- Mandates and modes --------------------------------------------------------------

  predicate IsFrom(b: Basis, pin: Pin, account: Option<Id>) {
    b.source == FromMandate(pin.mandate, pin.version) && (account.Some? ==> b.order.account == account.value)
  }

  function StaleBases(bases: map<Id, Basis>, pin: Pin, account: Option<Id>): map<Id, Basis> {
    map id | id in bases :: if IsFrom(bases[id], pin, account) then bases[id].(status := Stale) else bases[id]
  }

  function ReleaseHeld(db: Auth, pin: Pin, account: Option<Id>, n: Time): map<Id, Reservation> {
    map id | id in db.reservations ::
      var r := db.reservations[id];
      if r.status.Held? && r.basis in db.bases && IsFrom(db.bases[r.basis], pin, account) then r.(status := Released(n))
      else r
  }

  function WithdrawByBasis(db: Auth, pin: Pin, account: Option<Id>): map<Id, Receipt> {
    map id | id in db.receipts ::
      var x := db.receipts[id];
      if x.status.Issued? && x.terms.basis in db.bases && IsFrom(db.bases[x.terms.basis], pin, account)
      then x.(status := Withdrawn)
      else x
  }

  function WithdrawByBinding(receipts: map<Id, Receipt>, binding: Id, version: nat): map<Id, Receipt> {
    map id | id in receipts ::
      var x := receipts[id];
      if x.status.Issued? && x.terms.origin.Agent? && x.terms.origin.binding == binding &&
         x.terms.origin.version == version
      then x.(status := Withdrawn) else x
  }

  /** Everything built on one version of a mandate is withdrawn. */
  function Withdraw(db: Auth, pin: Pin, account: Option<Id>, n: Time): Auth {
    db.(bases := StaleBases(db.bases, pin, account), receipts := WithdrawByBasis(db, pin, account),
        reservations := ReleaseHeld(db, pin, account, n))
  }

  /** The transitions of a mandate. */
  predicate MayFollow(from: MandateStatus, to: MandateStatus) {
    match from
    case Draft => to.Validated?
    case Validated => to.Approved?
    case Approved => to.Active? || to.Revoked?
    case Active => to.Suspended? || to.Halted? || to.Revoked?
    case Suspended => to.Active? || to.Revoked?
    case Halted => to.Recovering? || to.Revoked?
    case Recovering => to.Active? || to.Halted? || to.Revoked?
    case Expired => false
    case Revoked => false
  }

  function MoveMandate(db: Auth, id: Id, to: MandateStatus, newHash: Id): Auth
    requires id in db.mandates
  {
    var m := db.mandates[id];
    db.(mandates := db.mandates[id := m.(version := m.version + 1, status := to, hash := newHash)])
  }

  /** The statuses that end what rests on the version left behind. */
  predicate Falls(to: MandateStatus) {
    to.Suspended? || to.Halted? || to.Revoked? || to.Expired?
  }

  function MoveTo(db: Auth, id: Id, to: MandateStatus, newHash: Id, n: Time): Auth
    requires id in db.mandates
  {
    var d := MoveMandate(db, id, to, newHash);
    if Falls(to) then Withdraw(d, Pin(id, db.mandates[id].version), None, n) else d
  }

  predicate MayTransition(
      db: Auth, id: Id, version: nat, to: MandateStatus, actor: Actor, newHash: Id, formatOk: bool, n: Time) {
    && formatOk && id in db.mandates && db.mandates[id].version == version && db.mandates[id].hash != newHash
    && (db.mandates[id].status.Draft? || n < db.mandates[id].expiresAt) && MayFollow(db.mandates[id].status, to)
    && (to.Active? || to.Recovering? || to.Revoked? ==> actor.User?)
  }

  function Transition(
      db: Auth, id: Id, version: nat, to: MandateStatus, actor: Actor, newHash: Id, formatOk: bool,
      n: Time): (Auth, bool) {
    if MayTransition(db, id, version, to, actor, newHash, formatOk, n) then (MoveTo(db, id, to, newHash, n), true)
    else (db, false)
  }

  predicate MayExpire(db: Auth, id: Id, version: nat, actor: Actor, newHash: Id, formatOk: bool, n: Time) {
    && formatOk && !actor.User? && id in db.mandates
    && db.mandates[id].version == version && db.mandates[id].hash != newHash && db.mandates[id].expiresAt <= n
    && !db.mandates[id].status.Draft? && !db.mandates[id].status.Expired? && !db.mandates[id].status.Revoked?
  }

  function ExpireMandate(
      db: Auth, id: Id, version: nat, actor: Actor, newHash: Id, formatOk: bool, n: Time): (Auth, bool) {
    if MayExpire(db, id, version, actor, newHash, formatOk, n) then (MoveTo(db, id, Expired, newHash, n), true)
    else (db, false)
  }

  /** UPDATE of a binding row at n; the trigger and the CHECKs see the new row. */
  function MoveBinding(db: Auth, id: Id, row: Binding, n: Time): Outcome<Auth> {
    if MayStore(db, row, n) then Done(db.(bindings := db.bindings[id := row])) else Raised
  }

  function Reply(db: Auth, next: Outcome<Auth>): (Auth, Outcome<bool>) {
    match next
    case Done(d) => (d, Done(true))
    case Raised => (db, Raised)
  }

  predicate Pinned(db: Auth, mandate: Id, mandateVersion: nat, binding: Id, bindingVersion: nat, account: Id, n: Time) {
    && mandate in db.mandates && db.mandates[mandate].version == mandateVersion
    && db.mandates[mandate].account == account
    && db.mandates[mandate].expiresAt > n
    && binding in db.bindings && db.bindings[binding].version == bindingVersion
    && db.bindings[binding].account == Some(account)
    && db.bindings[binding].status.InForce? && db.bindings[binding].mode.Autonomous?
    && db.bindings[binding].expiresAt > n
    && db.bindings[binding].mandate == Some(Pin(mandate, mandateVersion))
  }

  /** The binding row that goes with the next version of its mandate. */
  function PairedRow(db: Auth, mandate: Id, binding: Id, paused: bool, newHash: Id): Binding
    requires mandate in db.mandates && binding in db.bindings
  {
    var b := db.bindings[binding];
    b.(version := b.version + 1, paused := paused, mandate := Some(Pin(mandate, db.mandates[mandate].version + 1)),
        hash := newHash)
  }

  /** A mandate and its binding move together. */
  function MovePair(
      db: Auth, mandate: Id, binding: Id, to: MandateStatus, paused: bool, newMandateHash: Id, newBindingHash: Id,
      n: Time): Outcome<Auth>
    requires mandate in db.mandates && binding in db.bindings
  {
    MoveBinding(MoveMandate(db, mandate, to, newMandateHash), binding,
        PairedRow(db, mandate, binding, paused, newBindingHash), n)
  }

  function PausePair(
      db: Auth, mandate: Id, binding: Id, account: Id, newMandateHash: Id, newBindingHash: Id, n: Time): Outcome<Auth>
    requires mandate in db.mandates && binding in db.bindings
  {
    var d := MovePair(db, mandate, binding, Suspended, true, newMandateHash, newBindingHash, n);
    if d.Done? then Done(Withdraw(d.value, Pin(mandate, db.mandates[mandate].version), Some(account), n)) else Raised
  }

  predicate MayPausePair(
      db: Auth, mandate: Id, mandateVersion: nat, binding: Id, bindingVersion: nat, account: Id, actor: Actor,
      newMandateHash: Id, newBindingHash: Id, formatOk: bool, n: Time) {
    && formatOk && actor.User? && Pinned(db, mandate, mandateVersion, binding, bindingVersion, account, n)
    && db.mandates[mandate].status.Active? && !db.bindings[binding].paused
    && newMandateHash != db.mandates[mandate].hash && newBindingHash != db.bindings[binding].hash
  }

  function CompositePause(
      db: Auth, mandate: Id, mandateVersion: nat, binding: Id, bindingVersion: nat, account: Id, actor: Actor,
      newMandateHash: Id, newBindingHash: Id, formatOk: bool, n: Time): (Auth, Outcome<bool>) {
    if MayPausePair(
         db, mandate, mandateVersion, binding, bindingVersion, account, actor, newMandateHash, newBindingHash, formatOk,
         n)
    then Reply(db, PausePair(db, mandate, binding, account, newMandateHash, newBindingHash, n))
    else (db, Done(false))
  }

  predicate MayResumePair(
      db: Auth, mandate: Id, mandateVersion: nat, binding: Id, bindingVersion: nat, account: Id, runHash: Id,
      policy: Id, actor: Actor, newMandateHash: Id, newBindingHash: Id, formatOk: bool, n: Time) {
    && formatOk && actor.User? && Pinned(db, mandate, mandateVersion, binding, bindingVersion, account, n)
    && db.mandates[mandate].status.Suspended? && db.bindings[binding].paused
    && db.bindings[binding].runHash == runHash && db.bindings[binding].qualified
    && Permitted(db, account, policy, n + 1)
    && newMandateHash != db.mandates[mandate].hash && newBindingHash != db.bindings[binding].hash
  }

  function CompositeResume(
      db: Auth, mandate: Id, mandateVersion: nat, binding: Id, bindingVersion: nat, account: Id, runHash: Id,
      policy: Id,
      actor: Actor, newMandateHash: Id, newBindingHash: Id, formatOk: bool, n: Time): (Auth, Outcome<bool>) {
    if MayResumePair(
         db, mandate, mandateVersion, binding, bindingVersion, account, runHash, policy, actor,
         newMandateHash, newBindingHash, formatOk, n)
    then Reply(db, MovePair(db, mandate, binding, Active, false, newMandateHash, newBindingHash, n))
    else (db, Done(false))
  }

  /** What pausing and retiring a binding takes down: its own receipts, and the
      bases and reservations of the mandate version it is pinned to. */
  function Detach(db: Auth, binding: Id, version: nat, pin: Option<Pin>, account: Option<Id>, n: Time): Auth {
    var d := db.(receipts := WithdrawByBinding(db.receipts, binding, version));
    if pin.None? || account.None? then d
    else
      d.(bases := StaleBases(db.bases, pin.value, account), reservations := ReleaseHeld(db, pin.value, account, n))
  }

  /** A binding leaves its mode; what it carried is detached. */
  function LeaveMode(db: Auth, binding: Id, row: Binding, n: Time): Outcome<Auth>
    requires binding in db.bindings
  {
    var b := db.bindings[binding];
    var d := MoveBinding(db, binding, row, n);
    if d.Done? then Done(Detach(d.value, binding, b.version, b.mandate, b.account, n)) else Raised
  }

  function PauseMode(
      db: Auth, binding: Id, version: nat, account: Id, actor: Actor, newHash: Id, formatOk: bool,
      n: Time): (Auth, Outcome<bool>) {
    if !formatOk || actor.User? || !InForceFor(db, binding, version, n) ||
       db.bindings[binding].account != Some(account) ||
       db.bindings[binding].hash == newHash
    then (db, Done(false))
    else Reply(db, LeaveMode(db, binding,
        db.bindings[binding].(version := version + 1, paused := true, hash := newHash), n))
  }

  function Retire(
      db: Auth, binding: Id, version: nat, account: Option<Id>, to: BindingStatus, actor: Actor, newHash: Id,
      formatOk: bool, n: Time): (Auth, Outcome<bool>) {
    if !formatOk || to.InForce? || !actor.Service? || binding !in db.bindings then (db, Done(false))
    else
      var b := db.bindings[binding];
      if b.version != version || !b.status.InForce? || b.account != account || b.hash == newHash ||
         (to.Lapsed? && n < b.expiresAt)
      then (db, Done(false))
      else Reply(db, LeaveMode(db, binding, b.(version := version + 1, status := to, hash := newHash), n))
  }

  // ---- Runs --------------------------------------------------------------------------------

  datatype Command =
    | DoAddMandate(id: Id, mandateRow: Mandate)
    | DoAddBinding(id: Id, bindingRow: Binding, n: Time)
    | DoAddAuthority(id: Id, authorityRow: Authority)
    | DoSetPermit(id: Id, permitRow: Permit)
    | DoRequest(id: Id, request: ApprovalRequest, mandate: Id, mandateVersion: nat, binding: Id, bindingVersion: nat,
                policy: Id, formatOk: bool, n: Time)
    | DoGrant(id: Id, version: nat, plan: PlanRef, actor: Actor, formatOk: bool, n: Time)
    | DoConsumeApproval(id: Id, version: nat, token: Id, basis: Id, basisRequest: BasisRequest, formatOk: bool, n: Time)
    | DoIssueBasis(basis: Id, mandate: Id, version: nat, basisRequest: BasisRequest, formatOk: bool, n: Time)
    | DoReserve(id: Id, reserve: ReserveRequest, formatOk: bool, n: Time)
    | DoIssueReceipt(id: Id, nonce: Id, terms: Terms, formatOk: bool, n: Time)
    | DoConsumeReceipt(id: Id, nonce: Id, n: Time)
    | DoConsumeReservation(id: Id, receipt: Id, n: Time)
    | DoTransition(id: Id, version: nat, to: MandateStatus, actor: Actor, newHash: Id, formatOk: bool, n: Time)
    | DoExpire(id: Id, version: nat, actor: Actor, newHash: Id, formatOk: bool, n: Time)
    | DoCompositePause(mandate: Id, mandateVersion: nat, binding: Id, bindingVersion: nat, account: Id, actor: Actor,
                       newMandateHash: Id, newBindingHash: Id, formatOk: bool, n: Time)
    | DoCompositeResume(mandate: Id, mandateVersion: nat, binding: Id, bindingVersion: nat, account: Id, runHash: Id,
                        policy: Id, actor: Actor, newMandateHash: Id, newBindingHash: Id, formatOk: bool, n: Time)
    | DoPauseMode(binding: Id, version: nat, account: Id, actor: Actor, newHash: Id, formatOk: bool, n: Time)
    | DoRetire(binding: Id, version: nat, owner: Option<Id>, status: BindingStatus, actor: Actor, newHash: Id,
               formatOk: bool, n: Time)

  ghost function Apply(db: Auth, c: Command): Auth {
    match c
    case DoAddMandate(id, row) => AddMandate(db, id, row)
    case DoAddBinding(id, row, n) => AddBinding(db, id, row, n)
    case DoAddAuthority(id, row) => AddAuthority(db, id, row)
    case DoSetPermit(id, row) => SetPermit(db, id, row)
    case DoRequest(id, q, m, mv, b, bv, policy, ok, n) => RequestApproval(db, id, q, m, mv, b, bv, policy, ok, n).0
    case DoGrant(id, v, plan, actor, ok, n) => GrantApproval(db, id, v, plan, actor, ok, n).0
    case DoConsumeApproval(id, v, token, basis, q, ok, n) => ConsumeApproval(db, id, v, token, basis, q, ok, n).0
    case DoIssueBasis(basis, m, v, q, ok, n) => IssueBasis(db, basis, m, v, q, ok, n).0
    case DoReserve(id, q, ok, n) => Reserve(db, id, q, ok, n).0
    case DoIssueReceipt(id, nonce, t, ok, n) => IssueReceipt(db, id, nonce, t, ok, n).0
    case DoConsumeReceipt(id, nonce, n) => ConsumeReceipt(db, id, nonce, n).0
    case DoConsumeReservation(id, receipt, n) => ConsumeReservation(db, id, receipt, n).0
    case DoTransition(id, v, to, actor, h, ok, n) => Transition(db, id, v, to, actor, h, ok, n).0
    case DoExpire(id, v, actor, h, ok, n) => ExpireMandate(db, id, v, actor, h, ok, n).0
    case DoCompositePause(m, mv, b, bv, account, actor, mh, bh, ok, n) =>
      CompositePause(db, m, mv, b, bv, account, actor, mh, bh, ok, n).0
    case DoCompositeResume(m, mv, b, bv, account, run, policy, actor, mh, bh, ok, n) =>
      CompositeResume(db, m, mv, b, bv, account, run, policy, actor, mh, bh, ok, n).0
    case DoPauseMode(b, v, account, actor, h, ok, n) => PauseMode(db, b, v, account, actor, h, ok, n).0
    case DoRetire(b, v, owner, status, actor, h, ok, n) => Retire(db, b, v, owner, status, actor, h, ok, n).0
  }

  ghost function Run(db: Auth, cs: seq<Command>): Auth {
    if cs == [] then db else Apply(Run(db, cs[..|cs| - 1]), cs[|cs| - 1])
  }
}
