/** Rows of the trading authority: what may be traded, under whose authority,
    against which risk budget.  One row per id; commands bump its version. */
module AuthorityModel {
  import opened Common

  /** Instrument, strategy and session names, numbered by their collation rank. */
  type Name = nat

  datatype Action = Close | Open | Reduce

  datatype Actor = User(name: Id) | Service(name: Id) | System(name: Id)

  datatype PlanRef = PlanRef(id: Id, version: nat, hash: Id)

  /** What is to be traded for which account. */
  datatype Order = Order(plan: PlanRef, account: Id, instrument: Name, strategy: Name, session: Name)

  datatype Window = Window(start: Time, end: Time)

  /** A canonical, non-expandable range; only approvals carry a window. */
  datatype Scope = Scope(
    account: Id, instruments: seq<Name>, strategies: seq<Name>, sessions: seq<Name>,
    actions: seq<Action>, ceiling: real, window: Option<Window>)

  function Rank(a: Action): nat {
    match a case Close => 0 case Open => 1 case Reduce => 2
  }

  predicate Sorted(xs: seq<nat>) {
    forall i, j | 0 <= i < j < |xs| :: xs[i] <= xs[j]
  }

  predicate Unrepeated<T(==)>(xs: seq<T>) {
    forall i, j | 0 <= i < j < |xs| :: xs[i] != xs[j]
  }

  predicate CanonicalList(xs: seq<nat>) {
    xs != [] && Unrepeated(xs) && Sorted(xs)
  }

  predicate CanonicalActions(xs: seq<Action>) {
    xs != [] && Unrepeated(xs) && forall i, j | 0 <= i < j < |xs| :: Rank(xs[i]) <= Rank(xs[j])
  }

  predicate ValidScope(s: Scope, account: Id, needWindow: bool) {
    && s.account == account
    && CanonicalList(s.instruments) && CanonicalList(s.strategies) && CanonicalList(s.sessions)
    && CanonicalActions(s.actions)
    && s.ceiling > 0.0
    && s.window.Some? == needWindow
    && (needWindow ==> s.window.value.start < s.window.value.end)
  }

  predicate ScopePermits(s: Scope, o: Order, action: Action, quantity: real, needWindow: bool) {
    && ValidScope(s, o.account, needWindow) && quantity > 0.0
    && o.instrument in s.instruments && o.strategy in s.strategies && o.session in s.sessions
    && action in s.actions && quantity <= s.ceiling
  }

  datatype MandateStatus =
    | Draft | Validated | Approved | Active | Suspended | Halted | Recovering | Expired | Revoked

  datatype Mandate = Mandate(
    version: nat, status: MandateStatus, account: Id, scope: Scope, scopeHash: Id, hash: Id,
    escalates: bool, expiresAt: Time)

  datatype ApprovalStatus = Requested | Granted | Spent(basis: Id, at: Time)

  datatype Approval = Approval(
    version: nat, status: ApprovalStatus, plan: PlanRef, scope: Scope, scopeHash: Id, hash: Id, token: Id,
    requestedBy: Actor, decidedBy: Option<Actor>, expiresAt: Time)

  /** Where a basis takes its authority from. */
  datatype Source =
    | FromMandate(mandate: Id, version: nat)
    | FromApproval(approval: Id, version: nat, token: Id, window: Window)

  /** The (kind, id) pair by which a reservation names that source. */
  datatype Ref = MandateRef(id: Id) | ApprovalRef(id: Id)

  function RefOf(s: Source): Ref {
    match s
    case FromMandate(m, _) => MandateRef(m)
    case FromApproval(a, _, _, _) => ApprovalRef(a)
  }

  datatype BasisStatus = Usable | Stale

  datatype Basis = Basis(
    status: BasisStatus, hash: Id, order: Order, action: Action, quantity: real, source: Source,
    sourceHash: Id, scope: Scope, scopeHash: Id, issuedBy: Actor, expiresAt: Time)

  datatype Constitution = Constitution(ref: Id, version: nat, hash: Id)

  /** The ceiling of an account; legacy rows are not trusted. */
  datatype Authority = Authority(constitution: Constitution, trusted: bool, ceiling: real)

  datatype ReservationStatus = Held | Used(at: Time) | Released(at: Time)

  datatype Reservation = Reservation(
    status: ReservationStatus, hash: Id, order: Order, basis: Id, basisHash: Id, constitution: Constitution,
    dimensions: Id, quantity: real, loss: real, margin: real, source: Ref, sourceHash: Id, expiresAt: Time)

  datatype Origin = Agent(binding: Id, version: nat, hash: Id) | ManualTest(actor: Actor)

  datatype Snapshots = Snapshots(refs: Id, asOf: Time, expiresAt: Time)

  datatype ReceiptStatus = Issued | Consumed(at: Time) | Withdrawn

  /** What a receipt says, apart from its id, nonce and status. */
  datatype Terms = Terms(
    basis: Id, basisHash: Id, order: Order, action: Action, origin: Origin, sourceHash: Id, scopeHash: Id,
    reservation: Id, reservationHash: Id, constitution: Constitution, snapshots: Snapshots, snapshotHash: Id,
    runHash: Id, expiresAt: Time, issuedBy: Actor, policy: Id)

  datatype Receipt = Receipt(status: ReceiptStatus, nonce: Id, terms: Terms, issuedAt: Time)

  datatype Mode = Observe | Shadow | Autonomous

  datatype BindingStatus = InForce | Lapsed | Superseded

  datatype Pin = Pin(mandate: Id, version: nat)

  /** paused: mode PAUSED, with the previous mode in mode. */
  datatype Binding = Binding(
    version: nat, status: BindingStatus, mode: Mode, paused: bool, account: Option<Id>, mandate: Option<Pin>,
    runHash: Id, hash: Id, scope: Scope, scopeHash: Id, qualified: bool, expiresAt: Time)

  datatype Permit = Permit(policy: Id, permits: bool, validUntil: Time)

  datatype Auth = Auth(
    mandates: map<Id, Mandate>, approvals: map<Id, Approval>, bases: map<Id, Basis>,
    authorities: map<Id, Authority>, reservations: map<Id, Reservation>, receipts: map<Id, Receipt>,
    bindings: map<Id, Binding>, permits: map<Id, Permit>)

  const NO_AUTHORITY := Auth(map[], map[], map[], map[], map[], map[], map[], map[])

  // ---- The assert_v014 triggers and CHECK constraints ------------------------

  /** assert_v014_reservation_binding */
  predicate BindsBasis(db: Auth, r: Reservation) {
    && r.basis in db.bases
    && r.order.account in db.authorities
    && var b := db.bases[r.basis];
       && db.authorities[r.order.account].constitution == r.constitution && db.authorities[r.order.account].trusted
       && r.basisHash == b.hash && r.order == b.order && r.quantity == b.quantity
       && r.source == RefOf(b.source) && r.sourceHash == b.sourceHash
  }

  /** assert_v014_receipt_binding */
  predicate BindsReservation(db: Auth, t: Terms) {
    && t.basis in db.bases && t.reservation in db.reservations
    && var b := db.bases[t.basis];
       var r := db.reservations[t.reservation];
       && t.basisHash == b.hash && t.order == b.order && t.action == b.action
       && t.sourceHash == b.sourceHash && t.scopeHash == b.scopeHash
       && t.reservationHash == r.hash && r.order == t.order && r.basis == t.basis && r.basisHash == t.basisHash
       && r.source == RefOf(b.source) && r.sourceHash == t.sourceHash && t.constitution == r.constitution
  }

  /** assert_v014_basis_scope, on insertion */
  predicate BindsSource(db: Auth, b: Basis) {
    && ScopePermits(b.scope, b.order, b.action, b.quantity, b.source.FromApproval?)
    && match b.source
       case FromMandate(m, v) =>
         && m in db.mandates && db.mandates[m].version == v && b.scope == db.mandates[m].scope
         && b.scopeHash == db.mandates[m].scopeHash && b.order.account == db.mandates[m].account
       case FromApproval(a, v, _, _) =>
         && a in db.approvals && (db.approvals[a].version == v || db.approvals[a].version == v + 1)
         && b.scope == db.approvals[a].scope && b.scopeHash == db.approvals[a].scopeHash
         && b.order.account == db.approvals[a].scope.account
  }

  /** assert_v014_binding_scope */
  predicate BindsMandate(db: Auth, b: Binding) {
    b.mode.Autonomous? ==>
      && b.mandate.Some? && b.account.Some?
      && b.mandate.value.mandate in db.mandates
      && var m := db.mandates[b.mandate.value.mandate];
         && m.version == b.mandate.value.version && ValidScope(b.scope, b.account.value, false)
         && b.scope == m.scope && b.scopeHash == m.scopeHash && b.account == Some(m.account)
  }

  /** The CHECK constraints of autonomy_mode_binding that involve its mode. */
  predicate ModeChecks(b: Binding) {
    && b.version > 0
    && (b.mode.Observe? || b.mode.Shadow? ==> b.mandate.None?)
    && (b.mode.Shadow? ==> b.account.Some?)
    && (b.mode.Autonomous? ==> b.account.Some? && b.mandate.Some? && (b.qualified || b.paused))
  }

  /** ck_v014_binding_temporal for a row written at n. */
  predicate TemporalCheck(b: Binding, n: Time) {
    match b.status
    case InForce => b.expiresAt > n
    case Lapsed => n >= b.expiresAt
    case Superseded => n < b.expiresAt
  }

  /** An INSERT or UPDATE of a binding at n passes the CHECKs and the trigger. */
  predicate MayStore(db: Auth, b: Binding, n: Time) {
    ModeChecks(b) && TemporalCheck(b, n) && BindsMandate(db, b)
  }

  // ---- Risk already taken ------------------------------------------------------

  /** The reservations of an account that count at time t. */
  function HeldOf(rs: map<Id, Reservation>, account: Id, t: Time): set<Id> {
    set id | id in rs && rs[id].order.account == account && rs[id].status.Held? && rs[id].expiresAt > t
  }

  ghost function LossOf(rs: map<Id, Reservation>, ids: set<Id>): real
    requires ids <= rs.Keys
  {
    if ids == {} then 0.0
    else
      var id :| id in ids;
      rs[id].loss + LossOf(rs, ids - {id})
  }

  ghost function HeldLoss(rs: map<Id, Reservation>, account: Id, t: Time): real {
    LossOf(rs, HeldOf(rs, account, t))
  }
}
