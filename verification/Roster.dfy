/** Freezing the evaluation rosters: unused candidates are dealt round-robin over
    the cells, then split into a diagnostic and a holdout roster. */
module Roster {
  import opened Common

  /** (instrument, stratum); both are numbered by their sort rank. */
  datatype Cell = Cell(instrument: nat, stratum: nat)

  /** cutoff is the rank of the recorded_at text. */
  datatype Candidate = Candidate(cell: Cell, cutoff: nat, payload: nat)

  datatype Key = Key(cell: Cell, cutoff: nat)

  function KeyOf(c: Candidate): Key {
    Key(c.cell, c.cutoff)
  }

  type Groups = map<Cell, seq<Candidate>>

  const ROUNDS := 10
  const DIAGNOSTIC := 30
  const SELECTED := 80

  // ---- Grouping ------------------------------------------------------------------

  /** The unused candidates of a cell, in input order. */
  function Unused(candidates: seq<Candidate>, prior: set<Key>, cell: Cell): (r: seq<Candidate>)
    ensures forall x <- r :: x.cell == cell && KeyOf(x) !in prior && x in candidates
  {
    if candidates == [] then []
    else
      var last := candidates[|candidates| - 1];
      Unused(candidates[..|candidates| - 1], prior, cell) +
      (if last.cell == cell && KeyOf(last) !in prior then [last] else [])
  }

  /** by_cell.setdefault(cell, []).append(candidate), for each unused candidate. */
  method GroupByCell(candidates: seq<Candidate>, prior: set<Key>) returns (groups: Groups)
    ensures forall c :: c in groups <==> Unused(candidates, prior, c) != []
    ensures forall c :: c in groups ==> groups[c] == Unused(candidates, prior, c)
  {
    groups := map[];
    for i := 0 to |candidates|
      invariant forall c :: c in groups <==> Unused(candidates[..i], prior, c) != []
      invariant forall c :: c in groups ==> groups[c] == Unused(candidates[..i], prior, c)
    {
      var x := candidates[i];
      assert candidates[..i + 1][..i] == candidates[..i] && candidates[..i + 1][i] == x;
      if KeyOf(x) !in prior {
        var so_far := if x.cell in groups then groups[x.cell] else [];
        groups := groups[x.cell := so_far + [x]];
      }
    }
    assert candidates[..|candidates|] == candidates;
  }

  // ---- Sorting -------------------------------------------------------------------

  predicate ByCutoff(s: seq<Candidate>) {
    forall i, j | 0 <= i < j < |s| :: s[i].cutoff <= s[j].cutoff
  }

  /** After every element that is not later. */
  function Insert(x: Candidate, s: seq<Candidate>): (r: seq<Candidate>)
    ensures |r| == |s| + 1 && forall y <- r :: y == x || y in s
  {
    if s == [] || s[|s| - 1].cutoff <= x.cutoff then s + [x]
    else
      var front := Insert(x, s[..|s| - 1]);
      assert forall y <- s[..|s| - 1] :: y in s;
      front + [s[|s| - 1]]
  }

  /** values.sort(key=cutoff): a stable insertion sort. */
  function SortByCutoff(s: seq<Candidate>): (r: seq<Candidate>)
    ensures |r| == |s|
  {
    if s == [] then [] else Insert(s[|s| - 1], SortByCutoff(s[..|s| - 1]))
  }

  lemma {:induction false} InsertAdds(x: Candidate, s: seq<Candidate>)
    ensures multiset(Insert(x, s)) == multiset(s) + multiset{x}
  {
    if s != [] && s[|s| - 1].cutoff > x.cutoff {
      InsertAdds(x, s[..|s| - 1]);
      assert s == s[..|s| - 1] + [s[|s| - 1]];
    }
  }

  lemma SortedSnoc(s: seq<Candidate>, last: Candidate)
    requires ByCutoff(s) && forall y <- s :: y.cutoff <= last.cutoff
    ensures ByCutoff(s + [last])
  {
  }

  lemma {:induction false} InsertSorts(x: Candidate, s: seq<Candidate>)
    requires ByCutoff(s)
    ensures ByCutoff(Insert(x, s))
  {
    if s != [] && s[|s| - 1].cutoff > x.cutoff {
      var front, last := s[..|s| - 1], s[|s| - 1];
      InsertSorts(x, front);
      SortedSnoc(Insert(x, front), last);
    } else if s != [] {
      SortedSnoc(s, x);
    }
  }

  /** Sorting permutes and puts cutoffs in order. */
  lemma {:induction false} SortSorts(s: seq<Candidate>)
    ensures ByCutoff(SortByCutoff(s)) && multiset(SortByCutoff(s)) == multiset(s)
  {
    if s != [] {
      SortSorts(s[..|s| - 1]);
      InsertSorts(s[|s| - 1], SortByCutoff(s[..|s| - 1]));
      InsertAdds(s[|s| - 1], SortByCutoff(s[..|s| - 1]));
      assert s == s[..|s| - 1] + [s[|s| - 1]];
    }
  }

  /** The candidates with one cutoff, in order. */
  function At(s: seq<Candidate>, cutoff: nat): seq<Candidate> {
    if s == [] then []
    else At(s[..|s| - 1], cutoff) + Only(s[|s| - 1], cutoff)
  }

  function Only(x: Candidate, cutoff: nat): seq<Candidate> {
    if x.cutoff == cutoff then [x] else []
  }

  lemma {:induction false} AtSnoc(s: seq<Candidate>, y: Candidate, cutoff: nat)
    ensures At(s + [y], cutoff) == At(s, cutoff) + Only(y, cutoff)
  {
    assert (s + [y])[..|s|] == s;
  }

  lemma {:induction false} InsertIsStable(x: Candidate, s: seq<Candidate>, cutoff: nat)
    ensures At(Insert(x, s), cutoff) == At(s, cutoff) + Only(x, cutoff)
  {
    if s == [] || s[|s| - 1].cutoff <= x.cutoff {
      AtSnoc(s, x, cutoff);
    } else {
      var front, last := s[..|s| - 1], s[|s| - 1];
      InsertIsStable(x, front, cutoff);
      AtSnoc(Insert(x, front), last, cutoff);
      assert Only(x, cutoff) == [] || Only(last, cutoff) == [];
      assert At(front, cutoff) + Only(x, cutoff) + Only(last, cutoff) ==
             At(front, cutoff) + Only(last, cutoff) + Only(x, cutoff);
    }
  }

  /** Equal cutoffs keep their order. */
  lemma {:induction false} SortIsStable(s: seq<Candidate>, cutoff: nat)
    ensures At(SortByCutoff(s), cutoff) == At(s, cutoff)
  {
    if s != [] {
      SortIsStable(s[..|s| - 1], cutoff);
      InsertIsStable(s[|s| - 1], SortByCutoff(s[..|s| - 1]), cutoff);
    }
  }

  predicate CellBefore(a: Cell, b: Cell) {
    a.instrument < b.instrument || (a.instrument == b.instrument && a.stratum < b.stratum)
  }

  predicate FirstCell(cells: set<Cell>, c: Cell) {
    c in cells && forall o | o in cells :: o != c ==> CellBefore(c, o)
  }

  lemma {:induction false} FirstCellExists(cells: set<Cell>)
    requires cells != {}
    ensures exists c :: FirstCell(cells, c)
    decreases |cells|
  {
    var x :| x in cells;
    if cells == {x} {
      assert FirstCell(cells, x);
    } else {
      FirstCellExists(cells - {x});
      var y :| FirstCell(cells - {x}, y);
      var c := if CellBefore(x, y) then x else y;
      forall o | o in cells && o != c ensures CellBefore(c, o) {
        assert o != x && o != y ==> CellBefore(y, o);
      }
      assert FirstCell(cells, c);
    }
  }

  /** sorted(by_cell) */
  function SortedCells(cells: set<Cell>): (r: seq<Cell>)
    ensures SeqSet(r) == cells && Distinct(r)
    ensures forall i, j :: 0 <= i < j < |r| ==> CellBefore(r[i], r[j])
  {
    if cells == {} then []
    else
      FirstCellExists(cells);
      var c :| FirstCell(cells, c);
      var rest := SortedCells(cells - {c});
      assert SeqSet([c] + rest) == {c} + SeqSet(rest);
      [c] + rest
  }

  // ---- Dealing -----------------------------------------------------------------------

  /** What one cell contributes to one round. */
  function Deal(groups: Groups, c: Cell, round: nat): seq<Candidate> {
    if c in groups && round < |groups[c]| then [groups[c][round]] else []
  }

  function Round(groups: Groups, cells: seq<Cell>, round: nat): seq<Candidate> {
    if cells == [] then [] else Round(groups, cells[..|cells| - 1], round) + Deal(groups, cells[|cells| - 1], round)
  }

  function Dealt(groups: Groups, cells: seq<Cell>, rounds: nat): seq<Candidate> {
    if rounds == 0 then [] else Dealt(groups, cells, rounds - 1) + Round(groups, cells, rounds - 1)
  }

  /** for offset in range(10): for cell in cells: ... */
  method DealAll(groups: Groups, cells: seq<Cell>) returns (ordered: seq<Candidate>)
    requires forall c <- cells :: c in groups
    ensures ordered == Dealt(groups, cells, ROUNDS)
  {
    ordered := [];
    for offset := 0 to ROUNDS
      invariant ordered == Dealt(groups, cells, offset)
    {
      assert cells[..0] == [];
      for i := 0 to |cells|
        invariant ordered == Dealt(groups, cells, offset) + Round(groups, cells[..i], offset)
      {
        assert cells[..i + 1][..i] == cells[..i] && cells[..i + 1][i] == cells[i];
        var values := groups[cells[i]];
        if offset < |values| {
          ordered := ordered + [values[offset]];
        }
      }
      assert cells[..|cells|] == cells;
    }
  }

  datatype Rosters = Rosters(diagnostic: seq<Candidate>, holdout: seq<Candidate>)

  function Keys(s: seq<Candidate>): set<Key> {
    set x | x in s :: KeyOf(x)
  }

  function Sorted(candidates: seq<Candidate>, prior: set<Key>, cell: Cell): seq<Candidate> {
    SortByCutoff(Unused(candidates, prior, cell))
  }

  /** The cells with an unused candidate. */
  function OpenCells(candidates: seq<Candidate>, prior: set<Key>): (cells: set<Cell>)
    ensures forall c :: c in cells <==> Unused(candidates, prior, c) != []
  {
    var cells := set x | x in candidates && KeyOf(x) !in prior :: x.cell;
    assert forall c :: c in cells <==> Unused(candidates, prior, c) != [] by {
      forall c ensures c in cells <==> Unused(candidates, prior, c) != [] {
        if c in cells {
          var x :| x in candidates && KeyOf(x) !in prior && x.cell == c;
          UnusedKeeps(candidates, prior, c, x);
        }
        if Unused(candidates, prior, c) != [] {
          var x := Unused(candidates, prior, c)[0];
          assert x in Unused(candidates, prior, c);
        }
      }
    }
    cells
  }

  /** The groups as the specification sees them. */
  function GroupsOf(candidates: seq<Candidate>, prior: set<Key>): (groups: Groups)
    ensures forall c :: c in groups <==> Unused(candidates, prior, c) != []
    ensures forall c :: c in groups ==> groups[c] == Sorted(candidates, prior, c)
  {
    map c | c in OpenCells(candidates, prior) :: Sorted(candidates, prior, c)
  }

  predicate Fits(x: Candidate, prior: set<Key>, c: Cell) {
    KeyOf(x) !in prior && x.cell == c
  }

  /** Every unused candidate of the cell is kept. */
  lemma {:induction false} UnusedKeeps(candidates: seq<Candidate>, prior: set<Key>, c: Cell, x: Candidate)
    requires x in candidates && Fits(x, prior, c)
    ensures x in Unused(candidates, prior, c)
  {
    var front, last := candidates[..|candidates| - 1], candidates[|candidates| - 1];
    assert candidates == front + [last];
    if x in front {
      UnusedKeeps(front, prior, c, x);
    }
  }

  function Ordered(candidates: seq<Candidate>, prior: set<Key>): seq<Candidate> {
    var groups := GroupsOf(candidates, prior);
    Dealt(groups, SortedCells(groups.Keys), ROUNDS)
  }

  /** for values in by_cell.values(): values.sort(...) */
  method SortGroups(unsorted: Groups) returns (groups: Groups)
    ensures groups.Keys == unsorted.Keys && forall c :: c in groups ==> groups[c] == SortByCutoff(unsorted[c])
  {
    groups := unsorted;
    var rest := groups.Keys;
    while rest != {}
      invariant groups.Keys == unsorted.Keys && rest <= groups.Keys
      invariant forall c :: c in groups ==> groups[c] == if c in rest then unsorted[c] else SortByCutoff(unsorted[c])
      decreases rest
    {
      var c :| c in rest;
      groups := groups[c := SortByCutoff(groups[c])];
      rest := rest - {c};
    }
  }

  lemma SameGroups(a: Groups, b: Groups)
    requires forall c :: c in a <==> c in b
    requires forall c :: c in a ==> a[c] == b[c]
    ensures a == b
  {
    assert a.Keys == b.Keys;
  }

  lemma {:induction false} GroupsAre(candidates: seq<Candidate>, prior: set<Key>, unsorted: Groups, groups: Groups)
    requires forall c :: c in unsorted <==> Unused(candidates, prior, c) != []
    requires forall c :: c in unsorted ==> unsorted[c] == Unused(candidates, prior, c)
    requires groups.Keys == unsorted.Keys && forall c :: c in groups ==> groups[c] == SortByCutoff(unsorted[c])
    ensures groups == GroupsOf(candidates, prior)
  {
    var g := GroupsOf(candidates, prior);
    forall c ensures c in groups <==> c in g {
      assert c in unsorted <==> Unused(candidates, prior, c) != [];
    }
    forall c | c in groups ensures groups[c] == g[c] {
      assert g[c] == Sorted(candidates, prior, c);
    }
    SameGroups(groups, g);
  }

  /** _freeze_rosters, from the candidates on. */
  method FreezeRosters(candidates: seq<Candidate>, prior: set<Key>) returns (r: Outcome<Rosters>)
    ensures var ordered := Ordered(candidates, prior);
            r == if |ordered| < SELECTED || Keys(ordered[..DIAGNOSTIC]) * Keys(ordered[DIAGNOSTIC..SELECTED]) != {}
                 then Raised
                 else Done(Rosters(ordered[..DIAGNOSTIC], ordered[DIAGNOSTIC..SELECTED]))
  {
    var unsorted := GroupByCell(candidates, prior);
    var groups := SortGroups(unsorted);
    GroupsAre(candidates, prior, unsorted, groups);
    var cells := SortedCells(groups.Keys);
    assert forall c <- cells :: c in SeqSet(cells);
    var ordered := DealAll(groups, cells);
    if |ordered| < SELECTED {
      return Raised;
    }
    var diagnostic, holdout := ordered[..DIAGNOSTIC], ordered[DIAGNOSTIC..SELECTED];
    if Keys(diagnostic) * Keys(holdout) != {} {
      return Raised;
    }
    r := Done(Rosters(diagnostic, holdout));
  }

  // ---- Counting ------------------------------------------------------------------------

  /** The candidates of one cell, in order. */
  function Of(s: seq<Candidate>, c: Cell): (r: seq<Candidate>) {
    if s == [] then [] else Of(s[..|s| - 1], c) + (if s[|s| - 1].cell == c then [s[|s| - 1]] else [])
  }

  lemma {:induction false} OfConcat(a: seq<Candidate>, b: seq<Candidate>, c: Cell)
    ensures Of(a + b, c) == Of(a, c) + Of(b, c)
  {
    if b == [] {
      assert a + b == a;
    } else {
      assert (a + b)[..|a + b| - 1] == a + b[..|b| - 1];
      OfConcat(a, b[..|b| - 1], c);
    }
  }

  ghost predicate OneCell(groups: Groups, c: Cell) {
    c in groups ==> forall x <- groups[c] :: x.cell == c
  }

  ghost predicate Grouped(groups: Groups) {
    forall c {:trigger OneCell(groups, c)} :: OneCell(groups, c)
  }

  lemma OfDeal(groups: Groups, d: Cell, round: nat, c: Cell)
    requires Grouped(groups)
    ensures Of(Deal(groups, d, round), c) == if c == d then Deal(groups, c, round) else []
  {
    var s := Deal(groups, d, round);
    assert OneCell(groups, d);
    if s != [] {
      assert s[..0] == [] && groups[d][round] in groups[d];
    }
  }

  lemma {:induction false} OfRound(groups: Groups, cells: seq<Cell>, round: nat, c: Cell)
    requires Grouped(groups) && Distinct(cells)
    ensures Of(Round(groups, cells, round), c) == if c in cells then Deal(groups, c, round) else []
  {
    if cells != [] {
      var front, d := cells[..|cells| - 1], cells[|cells| - 1];
      assert cells == front + [d];
      assert c in cells <==> c in front || c == d;
      OfRound(groups, front, round, c);
      OfDeal(groups, d, round, c);
      OfConcat(Round(groups, front, round), Deal(groups, d, round), c);
    }
  }

  lemma {:induction false} DealtStep(groups: Groups, cells: seq<Cell>, rounds: nat, c: Cell)
    requires Grouped(groups) && Distinct(cells) && rounds > 0
    ensures Of(Dealt(groups, cells, rounds), c) ==
              Of(Dealt(groups, cells, rounds - 1), c) + (if c in cells then Deal(groups, c, rounds - 1) else [])
  {
    var before, round := Dealt(groups, cells, rounds - 1), Round(groups, cells, rounds - 1);
    assert Dealt(groups, cells, rounds) == before + round;
    OfRound(groups, cells, rounds - 1, c);
    assert Of(round, c) == if c in cells then Deal(groups, c, rounds - 1) else [];
    OfConcat(before, round, c);
  }

  /** The first k values. */
  function Start(values: seq<Candidate>, k: nat): seq<Candidate> {
    values[..Least(k, |values|)]
  }

  lemma StartGrows(groups: Groups, c: Cell, k: nat)
    requires c in groups && k > 0
    ensures Start(groups[c], k - 1) + Deal(groups, c, k - 1) == Start(groups[c], k)
    ensures Start(groups[c], 0) == []
  {
  }

  lemma {:induction false} OfNextRound(groups: Groups, cells: seq<Cell>, k: nat, c: Cell)
    requires Grouped(groups) && Distinct(cells) && c in cells && c in groups
    requires Of(Dealt(groups, cells, k), c) == Start(groups[c], k)
    ensures Of(Dealt(groups, cells, k + 1), c) == Start(groups[c], k + 1)
  {
    DealtStep(groups, cells, k + 1, c);
    StartGrows(groups, c, k + 1);
  }

  /** After some rounds each cell has given its first candidates, once each. */
  lemma {:induction false} OfDealt(groups: Groups, cells: seq<Cell>, rounds: nat, c: Cell)
    requires Grouped(groups) && Distinct(cells) && c in cells && c in groups
    ensures Of(Dealt(groups, cells, rounds), c) == Start(groups[c], rounds)
  {
    if rounds == 0 {
      StartGrows(groups, c, 1);
    } else {
      OfDealt(groups, cells, rounds - 1, c);
      OfNextRound(groups, cells, rounds - 1, c);
    }
  }

  function Least(a: int, b: int): int {
    if a < b then a else b
  }

  // ---- Fairness --------------------------------------------------------------------------

  lemma {:induction false} PrefixOfRound(groups: Groups, cells: seq<Cell>, round: nat, n: nat) returns (i: nat)
    requires n <= |Round(groups, cells, round)|
    ensures i <= |cells| && Round(groups, cells, round)[..n] == Round(groups, cells[..i], round)
  {
    if cells == [] {
      i := 0;
    } else {
      var front := cells[..|cells| - 1];
      if n <= |Round(groups, front, round)| {
        i := PrefixOfRound(groups, front, round, n);
        assert front[..i] == cells[..i];
      } else {
        i := |cells|;
        assert cells[..i] == cells;
      }
    }
  }

  /** A prefix is some whole rounds and the beginning of one more. */
  lemma {:induction false} PrefixOfDealt(groups: Groups, cells: seq<Cell>, rounds: nat, n: nat) returns (o: nat, i: nat)
    requires n <= |Dealt(groups, cells, rounds)|
    ensures i <= |cells| && Dealt(groups, cells, rounds)[..n] == Dealt(groups, cells, o) + Round(groups, cells[..i], o)
    ensures o <= rounds && (o == rounds ==> i == 0)
  {
    if rounds == 0 {
      o, i := 0, 0;
    } else if n <= |Dealt(groups, cells, rounds - 1)| {
      o, i := PrefixOfDealt(groups, cells, rounds - 1, n);
      if o == rounds - 1 && i == 0 {
        assert cells[..0] == [];
      }
    } else {
      o := rounds - 1;
      i := PrefixOfRound(groups, cells, o, n - |Dealt(groups, cells, o)|);
    }
  }

  /** In every prefix of the deal two cells differ by at most one, unless the one
      behind has nothing left to give. */
  lemma DealIsFair(groups: Groups, cells: seq<Cell>, rounds: nat, n: nat, a: Cell, b: Cell)
    requires Grouped(groups) && Distinct(cells) && n <= |Dealt(groups, cells, rounds)|
    requires a in cells && b in cells && a in groups && b in groups
    ensures var p := Dealt(groups, cells, rounds)[..n];
            |Of(p, b)| <= |Of(p, a)| + 1 || |Of(p, a)| == |groups[a]|
  {
    var o, i := PrefixOfDealt(groups, cells, rounds, n);
    PrefixCount(groups, cells, o, i, a);
    PrefixCount(groups, cells, o, i, b);
  }

  lemma PrefixCount(groups: Groups, cells: seq<Cell>, o: nat, i: nat, c: Cell)
    requires Grouped(groups) && Distinct(cells) && i <= |cells| && c in cells && c in groups
    ensures var k := |Of(Dealt(groups, cells, o) + Round(groups, cells[..i], o), c)|;
            Least(o, |groups[c]|) <= k <= Least(o + 1, |groups[c]|)
  {
    OfDealt(groups, cells, o, c);
    OfRound(groups, cells[..i], o, c);
    OfConcat(Dealt(groups, cells, o), Round(groups, cells[..i], o), c);
  }

  // ---- What the rosters contain --------------------------------------------------------------

  lemma SortedMembers(candidates: seq<Candidate>, prior: set<Key>, c: Cell, x: Candidate)
    requires x in Sorted(candidates, prior, c)
    ensures x.cell == c && KeyOf(x) !in prior && x in candidates
  {
    SortSorts(Unused(candidates, prior, c));
    assert x in multiset(Sorted(candidates, prior, c));
    assert x in Unused(candidates, prior, c);
  }

  lemma GroupsAreGrouped(candidates: seq<Candidate>, prior: set<Key>)
    ensures var groups := GroupsOf(candidates, prior);
            Grouped(groups) && Distinct(SortedCells(groups.Keys)) &&
            (forall c :: c in SortedCells(groups.Keys) <==> c in groups)
  {
    var groups := GroupsOf(candidates, prior);
    forall c ensures OneCell(groups, c) {
      forall x: Candidate | c in groups && x in groups[c] ensures x.cell == c {
        SortedMembers(candidates, prior, c, x);
      }
    }
    assert forall c :: c in SortedCells(groups.Keys) <==> c in SeqSet(SortedCells(groups.Keys));
  }

  /** Each cell gives its first ten unused candidates by cutoff, once and in order. */
  lemma OrderedPerCell(candidates: seq<Candidate>, prior: set<Key>, c: Cell)
    ensures var unused := Sorted(candidates, prior, c);
            Of(Ordered(candidates, prior), c) == Start(unused, ROUNDS)
  {
    var groups := GroupsOf(candidates, prior);
    GroupsAreGrouped(candidates, prior);
    if c in groups {
      OfDealt(groups, SortedCells(groups.Keys), ROUNDS, c);
    } else {
      OfNoCell(groups, SortedCells(groups.Keys), ROUNDS, c);
    }
  }

  lemma {:induction false} NoCellNextRound(groups: Groups, cells: seq<Cell>, k: nat, c: Cell)
    requires Grouped(groups) && Distinct(cells) && c !in cells && Of(Dealt(groups, cells, k), c) == []
    ensures Of(Dealt(groups, cells, k + 1), c) == []
  {
    DealtStep(groups, cells, k + 1, c);
  }

  lemma {:induction false} OfNoCell(groups: Groups, cells: seq<Cell>, rounds: nat, c: Cell)
    requires Grouped(groups) && Distinct(cells) && c !in cells
    ensures Of(Dealt(groups, cells, rounds), c) == []
  {
    if rounds > 0 {
      OfNoCell(groups, cells, rounds - 1, c);
      NoCellNextRound(groups, cells, rounds - 1, c);
    }
  }

  /** In every prefix of the frozen order cells are served evenly. */
  lemma OrderedIsFair(candidates: seq<Candidate>, prior: set<Key>, n: nat, a: Cell, b: Cell)
    requires n <= |Ordered(candidates, prior)|
    requires Unused(candidates, prior, a) != [] && Unused(candidates, prior, b) != []
    ensures var p := Ordered(candidates, prior)[..n];
            |Of(p, b)| <= |Of(p, a)| + 1 || |Of(p, a)| == |Unused(candidates, prior, a)|
  {
    var groups := GroupsOf(candidates, prior);
    GroupsAreGrouped(candidates, prior);
    DealIsFair(groups, SortedCells(groups.Keys), ROUNDS, n, a, b);
  }

  lemma {:induction false} InOf(s: seq<Candidate>, x: Candidate)
    requires x in s
    ensures x in Of(s, x.cell)
  {
    if x != s[|s| - 1] {
      assert s == s[..|s| - 1] + [s[|s| - 1]];
      InOf(s[..|s| - 1], x);
    }
  }

  /** Only unused candidates are selected. */
  lemma OrderedIsUnused(candidates: seq<Candidate>, prior: set<Key>, x: Candidate)
    requires x in Ordered(candidates, prior)
    ensures x in candidates && KeyOf(x) !in prior
  {
    InOf(Ordered(candidates, prior), x);
    OrderedPerCell(candidates, prior, x.cell);
    assert x in Sorted(candidates, prior, x.cell);
    SortedMembers(candidates, prior, x.cell, x);
  }

  // ---- Disjoint rosters -------------------------------------------------------------------------

  ghost predicate DistinctCutoffs(s: seq<Candidate>) {
    forall i, j :: 0 <= i < j < |s| ==> KeyOf(s[i]) != KeyOf(s[j])
  }

  /** Positions of one cell in a sequence are positions in its subsequence. */
  lemma {:induction false} PlaceInOf(s: seq<Candidate>, i: nat)
    requires i < |s|
    ensures var k := |Of(s[..i], s[i].cell)|;
            k < |Of(s, s[i].cell)| && Of(s, s[i].cell)[k] == s[i]
  {
    assert s == s[..i] + ([s[i]] + s[i + 1..]);
    OfConcat(s[..i], [s[i]] + s[i + 1..], s[i].cell);
    OfConcat([s[i]], s[i + 1..], s[i].cell);
    assert [s[i]][..0] == [];
  }

  lemma {:induction false} OfGrows(s: seq<Candidate>, i: nat, j: nat)
    requires i < j <= |s|
    ensures |Of(s[..j], s[i].cell)| > |Of(s[..i], s[i].cell)|
  {
    PlaceInOf(s[..j], i);
    assert s[..j][..i] == s[..i] && s[..j][i] == s[i];
  }

  lemma {:induction false} UnusedKeys(candidates: seq<Candidate>, prior: set<Key>, c: Cell)
    requires DistinctCutoffs(candidates)
    ensures DistinctCutoffs(Unused(candidates, prior, c))
  {
    if candidates != [] {
      var front, last := candidates[..|candidates| - 1], candidates[|candidates| - 1];
      UnusedKeys(front, prior, c);
      var u := Unused(front, prior, c);
      forall i | 0 <= i < |u| ensures KeyOf(u[i]) != KeyOf(last) {
        assert u[i] in front;
      }
    }
  }

  lemma {:induction false} InsertKeys(x: Candidate, s: seq<Candidate>)
    requires DistinctCutoffs(s) && forall y <- s :: KeyOf(y) != KeyOf(x)
    ensures DistinctCutoffs(Insert(x, s))
  {
    if s != [] && x.cutoff < s[|s| - 1].cutoff {
      var front := s[..|s| - 1];
      InsertKeys(x, front);
      forall i | 0 <= i < |front| + 1 ensures KeyOf(Insert(x, front)[i]) != KeyOf(s[|s| - 1]) {
        assert Insert(x, front)[i] in Insert(x, front);
      }
    }
  }

  lemma {:induction false} SortKeys(s: seq<Candidate>)
    requires DistinctCutoffs(s)
    ensures DistinctCutoffs(SortByCutoff(s))
  {
    if s != [] {
      var front := s[..|s| - 1];
      SortKeys(front);
      forall y | y in SortByCutoff(front) ensures KeyOf(y) != KeyOf(s[|s| - 1]) {
        SortSorts(front);
        assert y in multiset(SortByCutoff(front));
        assert y in front;
      }
      InsertKeys(s[|s| - 1], SortByCutoff(front));
    }
  }

  /** Distinct candidate keys stay distinct in the frozen order. */
  lemma OrderedKeys(candidates: seq<Candidate>, prior: set<Key>)
    requires DistinctCutoffs(candidates)
    ensures DistinctCutoffs(Ordered(candidates, prior))
  {
    var s := Ordered(candidates, prior);
    forall i, j | 0 <= i < j < |s| ensures KeyOf(s[i]) != KeyOf(s[j]) {
      if s[i].cell == s[j].cell {
        var c := s[i].cell;
        PlaceInOf(s, i);
        PlaceInOf(s, j);
        OfGrows(s, i, j);
        OrderedPerCell(candidates, prior, c);
        UnusedKeys(candidates, prior, c);
        SortKeys(Unused(candidates, prior, c));
      }
    }
  }

  /** With distinct candidate keys the rosters never overlap: freezing fails only
      for want of candidates. */
  lemma RostersAreDisjoint(candidates: seq<Candidate>, prior: set<Key>)
    requires DistinctCutoffs(candidates) && |Ordered(candidates, prior)| >= SELECTED
    ensures var ordered := Ordered(candidates, prior);
            Keys(ordered[..DIAGNOSTIC]) * Keys(ordered[DIAGNOSTIC..SELECTED]) == {}
  {
    var ordered := Ordered(candidates, prior);
    OrderedKeys(candidates, prior);
    forall k ensures !(k in Keys(ordered[..DIAGNOSTIC]) && k in Keys(ordered[DIAGNOSTIC..SELECTED])) {
      if k in Keys(ordered[..DIAGNOSTIC]) {
        var x :| x in ordered[..DIAGNOSTIC] && KeyOf(x) == k;
        var i :| 0 <= i < DIAGNOSTIC && ordered[i] == x;
        forall y | y in ordered[DIAGNOSTIC..SELECTED] ensures KeyOf(y) != k {
          var j :| 0 <= j < SELECTED - DIAGNOSTIC && ordered[DIAGNOSTIC..SELECTED][j] == y;
          assert ordered[DIAGNOSTIC + j] == y;
        }
      }
    }
  }
}
