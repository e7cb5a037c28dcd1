/** The risk ceiling: what is held on an account never exceeds its ceiling, at
    any time and however late a command acts on the clock it has read. */
module RiskCeiling {
  import opened Common
  import opened AuthorityModel
  import opened AuthoritySteps
  import opened AuthorityInvariants
  import opened AuthoritySafety

  lemma {:induction false} LossTakes(rs: map<Id, Reservation>, ids: set<Id>, x: Id)
    requires ids <= rs.Keys && x in ids
    ensures LossOf(rs, ids) == rs[x].loss + LossOf(rs, ids - {x})
  {
    var y :| y in ids && LossOf(rs, ids) == rs[y].loss + LossOf(rs, ids - {y});
    if y != x {
      LossTakes(rs, ids - {y}, x);
      LossTakes(rs, ids - {x}, y);
      assert ids - {x} - {y} == ids - {y} - {x};
    }
  }

  lemma {:induction false} LossShrinks(rs: map<Id, Reservation>, small: set<Id>, large: set<Id>)
    requires small <= large <= rs.Keys && forall id :: id in large ==> rs[id].loss >= 0.0
    ensures LossOf(rs, small) <= LossOf(rs, large)
    decreases large
  {
    if small != large {
      assert large == small + (large - small);
      var x :| x in large - small;
      LossTakes(rs, large, x);
      LossShrinks(rs, small, large - {x});
    }
  }

  lemma {:induction false} LossSame(a: map<Id, Reservation>, b: map<Id, Reservation>, ids: set<Id>)
    requires ids <= a.Keys && ids <= b.Keys && forall id :: id in ids ==> a[id].loss == b[id].loss
    ensures LossOf(a, ids) == LossOf(b, ids)
  {
    if ids != {} {
      var x :| x in ids;
      LossTakes(a, ids, x);
      LossTakes(b, ids, x);
      LossSame(a, b, ids - {x});
    }
  }

  /** The loop behind SELECT COALESCE(sum(worst_case_loss), 0). */
  method SumHeld(rs: map<Id, Reservation>, account: Id, n: Time) returns (held: real)
    ensures held == HeldLoss(rs, account, n)
  {
    var rest := HeldOf(rs, account, n);
    held := 0.0;
    while rest != {}
      invariant rest <= HeldOf(rs, account, n)
      invariant held + LossOf(rs, rest) == HeldLoss(rs, account, n)
      decreases rest
    {
      var x :| x in rest;
      LossTakes(rs, rest, x);
      held := held + rs[x].loss;
      rest := rest - {x};
    }
  }

  // ---- One command -----------------------------------------------------------------

  ghost predicate Within(db: Auth, account: Id, t: Time) {
    account in db.authorities ==> HeldLoss(db.reservations, account, t) <= db.authorities[account].ceiling
  }

  ghost predicate NoNegativeLoss(rs: map<Id, Reservation>) {
    forall id :: id in rs ==> rs[id].loss >= 0.0
  }

  lemma LossesAreNotNegative(db: Auth)
    requires Inv(db)
    ensures NoNegativeLoss(db.reservations)
  {
    forall id | id in db.reservations ensures db.reservations[id].loss >= 0.0 {
      ReservationRowOf(db, id);
    }
  }

  /** Releasing, consuming and waiting only lower what is held. */
  lemma HeldFalls(a: map<Id, Reservation>, b: map<Id, Reservation>, account: Id, n: Time, t: Time)
    requires n <= t && NoNegativeLoss(a) && b.Keys <= a.Keys
    requires forall id :: id in b ==> ReservationGrown(a[id], b[id])
    ensures HeldLoss(b, account, t) <= HeldLoss(a, account, n)
  {
    assert forall id :: id in HeldOf(b, account, t) ==> id in HeldOf(a, account, n);
    assert HeldOf(b, account, t) <= HeldOf(a, account, n);
    LossSame(a, b, HeldOf(b, account, t));
    LossShrinks(a, HeldOf(b, account, t), HeldOf(a, account, n));
  }

  lemma NewHolding(rs: map<Id, Reservation>, id: Id, row: Reservation, account: Id, t: Time)
    requires id !in rs && row.status.Held?
    ensures HeldLoss(rs[id := row], account, t) ==
              HeldLoss(rs, account, t) + (if row.order.account == account && row.expiresAt > t then row.loss else 0.0)
  {
    var after := rs[id := row];
    if row.order.account == account && row.expiresAt > t {
      assert HeldOf(after, account, t) == HeldOf(rs, account, t) + {id};
      LossTakes(after, HeldOf(after, account, t), id);
      assert HeldOf(after, account, t) - {id} == HeldOf(rs, account, t);
    } else {
      assert HeldOf(after, account, t) == HeldOf(rs, account, t);
    }
    LossSame(rs, after, HeldOf(rs, account, t));
  }

  /** A reservation is checked at reading n; it keeps the ceiling at every t >= n. */
  lemma ReserveWithin(db: Auth, id: Id, q: ReserveRequest, formatOk: bool, n: Time, account: Id, t: Time)
    requires Inv(db) && n <= t && Within(db, account, t)
    ensures Within(Reserve(db, id, q, formatOk, n).0, account, t)
  {
    if Reserve(db, id, q, formatOk, n).0 != db {
      LossesAreNotNegative(db);
      var row := ReservationRow(q, db.bases[q.basis]);
      NewHolding(db.reservations, id, row, account, t);
      HeldFalls(db.reservations, db.reservations, account, n, t);
    }
  }

  lemma NewAccountHoldsNothing(db: Auth, account: Id, t: Time)
    requires Inv(db) && account !in db.authorities
    ensures HeldLoss(db.reservations, account, t) == 0.0
  {
    forall id | id in db.reservations ensures db.reservations[id].order.account != account {
      ReservationRowOf(db, id);
    }
    assert HeldOf(db.reservations, account, t) == {};
  }

  lemma AuthorityWithin(db: Auth, id: Id, row: Authority, account: Id, t: Time)
    requires Inv(db) && Within(db, account, t)
    ensures Within(AddAuthority(db, id, row), account, t)
  {
    if account !in db.authorities {
      NewAccountHoldsNothing(db, account, t);
    }
  }

  lemma StepWithin(db: Auth, c: Command, account: Id, t: Time)
    requires Inv(db) && Within(db, account, t) && (c.DoReserve? ==> c.n <= t)
    ensures Within(Apply(db, c), account, t)
  {
    if c.DoReserve? {
      ReserveWithin(db, c.id, c.reserve, c.formatOk, c.n, account, t);
    } else if c.DoAddAuthority? {
      AuthorityWithin(db, c.id, c.authorityRow, account, t);
    } else {
      var d := Apply(db, c);
      ApplyKeeps(db, c);
      OpenGrown(db, d);
      OnlyReservingReserves(db, c);
      LossesAreNotNegative(db);
      HeldFalls(db.reservations, d.reservations, account, t, t);
    }
  }

  /** At any time t not before the readings of the reservations made so far, and
      in whatever order they read and acted. */
  lemma {:induction false} CeilingHolds(cs: seq<Command>, account: Id, t: Time)
    requires forall c :: c in cs && c.DoReserve? ==> c.n <= t
    ensures var db := Run(NO_AUTHORITY, cs);
            account in db.authorities ==> HeldLoss(db.reservations, account, t) <= db.authorities[account].ceiling
  {
    if cs != [] {
      var front := cs[..|cs| - 1];
      CeilingHolds(front, account, t);
      ReachableIsSafe(front);
      StepWithin(Run(NO_AUTHORITY, front), cs[|cs| - 1], account, t);
    }
  }
}
