/** The decision journal: a projection of the events bound to one episode, which
    can be rebuilt at any time. */
module Journal {
  import opened Common

  // ---- Tables --------------------------------------------------------------------

  /** The immutable creation facts of an episode. */
  datatype Frame = Frame(cycle: Id, correlation: Id, cutoff: Time)

  /** What a journal entry repeats of its event. */
  datatype Fact = Fact(kind: Id, version: nat, hash: Id, occurredAt: Time, recordedAt: Time, correlation: Id)

  /** genuine: schema, actor and payload digest are those of a workflow event. */
  datatype Event = Event(cycle: Id, fact: Fact, genuine: bool)

  datatype Phase = DecisionTime | PostHoc

  /** A journal is bound to one episode, its correlation and its cutoff. */
  datatype Header = Header(episode: Id, correlation: Id, cutoff: Time)

  datatype Entry = Entry(phase: Phase, fact: Fact, projectedAt: Time, cutoff: Time)

  datatype Key = Key(journal: Id, event: Id)

  /** sources maps an event to the one episode it is bound to. */
  datatype Ledger = Ledger(
    episodes: map<Id, Frame>, events: map<Id, Event>, sources: map<Id, Id>,
    headers: map<Id, Header>, bindings: map<Id, Header>, identities: map<Id, Fact>, entries: map<Key, Entry>)

  const BLANK := Ledger(map[], map[], map[], map[], map[], map[], map[])

  // ---- Commands --------------------------------------------------------------------

  predicate Belongs(e: Event, f: Frame) {
    e.genuine && e.cycle == f.cycle && e.fact.correlation == f.correlation
  }

  function StartEpisode(l: Ledger, id: Id, frame: Frame): Ledger {
    if id in l.episodes then l else l.(episodes := l.episodes[id := frame])
  }

  function AppendEvent(l: Ledger, id: Id, event: Event): Ledger {
    if id in l.events then l else l.(events := l.events[id := event])
  }

  /** bind_workflow_source_episode: the first binding of an event stands. */
  function BindSource(l: Ledger, event: Id, ep: Id): (Ledger, bool) {
    var d := if event in l.events && ep in l.episodes && event !in l.sources && Belongs(l.events[event], l.episodes[ep])
             then l.(sources := l.sources[event := ep]) else l;
    (d, event in d.sources && d.sources[event] == ep)
  }

  function SourcesOf(l: Ledger, ep: Id): set<Id> {
    set e | e in l.sources && l.sources[e] == ep
  }

  function PhaseOf(fact: Fact, cutoff: Time): Phase {
    if fact.recordedAt <= cutoff then DecisionTime else PostHoc
  }

  predicate Known(l: Ledger, ep: Id, h: Header) {
    ep in l.episodes && h == Header(ep, l.episodes[ep].correlation, l.episodes[ep].cutoff)
  }

  /** Entries the INSERT adds: bound events that have none yet. */
  function Missing(l: Ledger, journal: Id, ep: Id): set<Id> {
    set e | e in l.sources && l.sources[e] == ep && e in l.events && Key(journal, e) !in l.entries
  }

  function NewEntries(l: Ledger, journal: Id, h: Header, projected: Time): map<Key, Entry> {
    map e | e in Missing(l, journal, h.episode) ::
      Key(journal, e) := Entry(PhaseOf(l.events[e].fact, h.cutoff), l.events[e].fact, projected, h.cutoff)
  }

  function NewIdentities(l: Ledger, ep: Id): map<Id, Fact> {
    map e | e in l.sources && l.sources[e] == ep && e in l.events && e !in l.identities :: l.events[e].fact
  }

  predicate SourcesGenuine(l: Ledger, ep: Id) {
    ep in l.episodes &&
    forall e | e in l.sources && l.sources[e] == ep :: e in l.events && Belongs(l.events[e], l.episodes[ep])
  }

  predicate IdentitiesHold(l: Ledger, ep: Id) {
    forall e | e in l.sources && l.sources[e] == ep && e in l.events &&
        e in l.identities :: l.identities[e] == l.events[e].fact
  }

  predicate EntryHolds(l: Ledger, h: Header, event: Id, x: Entry) {
    && event in l.sources && l.sources[event] == h.episode && event in l.events
    && x.fact == l.events[event].fact && x.fact.correlation == h.correlation && x.projectedAt >= x.fact.recordedAt
    && x.cutoff == h.cutoff && x.phase == PhaseOf(x.fact, h.cutoff)
  }

  predicate EntriesHold(l: Ledger, journal: Id, h: Header) {
    forall k | k in l.entries && k.journal == journal :: EntryHolds(l, h, k.event, l.entries[k])
  }

  /** CHECK (projected_at >= available_at) on the inserted rows. */
  predicate InTime(l: Ledger, journal: Id, ep: Id, projected: Time) {
    forall e | e in Missing(l, journal, ep) :: l.events[e].fact.recordedAt <= projected
  }

  /** Header and binding rows after ON CONFLICT DO NOTHING. */
  function Bound(l: Ledger, journal: Id, h: Header): Ledger {
    l.(headers := if journal in l.headers then l.headers else l.headers[journal := h],
       bindings := if journal in l.bindings then l.bindings else l.bindings[journal := h])
  }

  predicate IsBound(l: Ledger, journal: Id, h: Header) {
    journal in l.headers && l.headers[journal] == h && journal in l.bindings && l.bindings[journal] == h
  }

  function Filled(l: Ledger, journal: Id, h: Header, projected: Time): Ledger {
    l.(identities := l.identities + NewIdentities(l, h.episode),
        entries := l.entries + NewEntries(l, journal, h, projected))
  }

  /** rebuild_decision_journal_projection; the reply is the number of new entries. */
  function Rebuild(l: Ledger, journal: Id, h: Header, projected: Time): (Ledger, Outcome<nat>) {
    var b := Bound(l, journal, h);
    var d := Filled(b, journal, h, projected);
    if projected < h.cutoff || !Known(l, h.episode, h) || !IsBound(b, journal, h) || !SourcesGenuine(b, h.episode) ||
       !IdentitiesHold(d, h.episode) || !InTime(b, journal, h.episode, projected) || !EntriesHold(d, journal, h)
    then (l, Raised)
    else (d, Done(|Missing(b, journal, h.episode)|))
  }

  datatype Command =
    | DoEpisode(id: Id, frame: Frame)
    | DoEvent(id: Id, event: Event)
    | DoBind(source: Id, ep: Id)
    | DoRebuild(journal: Id, header: Header, projected: Time)

  function Apply(l: Ledger, c: Command): Ledger {
    match c
    case DoEpisode(id, frame) => StartEpisode(l, id, frame)
    case DoEvent(id, event) => AppendEvent(l, id, event)
    case DoBind(e, ep) => BindSource(l, e, ep).0
    case DoRebuild(j, h, projected) => Rebuild(l, j, h, projected).0
  }

  function Run(l: Ledger, cs: seq<Command>): Ledger {
    if cs == [] then l else Apply(Run(l, cs[..|cs| - 1]), cs[|cs| - 1])
  }

  // ---- The invariant ------------------------------------------------------------------

  ghost predicate SourceOk(l: Ledger, e: Id) {
    e in l.sources && l.sources[e] in l.episodes && e in l.events && Belongs(l.events[e], l.episodes[l.sources[e]])
  }

  ghost predicate EntryOk(l: Ledger, k: Key) {
    k in l.entries && k.journal in l.headers && EntryHolds(l, l.headers[k.journal], k.event, l.entries[k])
  }

  ghost predicate Inv(l: Ledger) {
    && (forall e {:trigger SourceOk(l, e)} :: e in l.sources ==> SourceOk(l, e))
    && l.bindings == l.headers
    && (forall j :: j in l.headers ==> Known(l, l.headers[j].episode, l.headers[j]))
    && (forall e :: e in l.identities ==> e in l.events && l.identities[e] == l.events[e].fact)
    && (forall k {:trigger EntryOk(l, k)} :: k in l.entries ==> EntryOk(l, k))
  }

  lemma BoundKeeps(l: Ledger, journal: Id, h: Header)
    requires Inv(l) && Known(l, h.episode, h)
    ensures Inv(Bound(l, journal, h))
  {
    var b := Bound(l, journal, h);
    forall e | e in b.sources ensures SourceOk(b, e) {
      assert SourceOk(l, e);
    }
    forall k | k in b.entries ensures EntryOk(b, k) {
      assert EntryOk(l, k);
    }
  }

  lemma FilledKeeps(l: Ledger, journal: Id, h: Header, projected: Time)
    requires Inv(l) && IsBound(l, journal, h) && EntriesHold(Filled(l, journal, h, projected), journal, h)
    ensures Inv(Filled(l, journal, h, projected))
  {
    var d := Filled(l, journal, h, projected);
    forall e | e in d.sources ensures SourceOk(d, e) {
      assert SourceOk(l, e);
    }
    forall k | k in d.entries ensures EntryOk(d, k) {
      if k.journal == journal {
        assert EntryHolds(d, h, k.event, d.entries[k]);
      } else {
        assert k in l.entries && EntryOk(l, k);
      }
    }
  }

  lemma RebuildKeeps(l: Ledger, journal: Id, h: Header, projected: Time)
    requires Inv(l)
    ensures Inv(Rebuild(l, journal, h, projected).0)
  {
    if Rebuild(l, journal, h, projected).1.Done? {
      BoundKeeps(l, journal, h);
      FilledKeeps(Bound(l, journal, h), journal, h, projected);
    }
  }

  lemma GrowingKeeps(l: Ledger, d: Ledger)
    requires Inv(l) && d.headers == l.headers && d.bindings == l.bindings && d.identities == l.identities
    requires d.entries == l.entries
    requires forall id :: id in l.episodes ==> id in d.episodes && d.episodes[id] == l.episodes[id]
    requires forall id :: id in l.events ==> id in d.events && d.events[id] == l.events[id]
    requires forall e :: e in l.sources ==> e in d.sources && d.sources[e] == l.sources[e]
    requires forall e :: e in d.sources && e !in l.sources ==> SourceOk(d, e)
    ensures Inv(d)
  {
    forall e | e in d.sources ensures SourceOk(d, e) {
      assert e in l.sources ==> SourceOk(l, e);
    }
    forall k | k in d.entries ensures EntryOk(d, k) {
      assert EntryOk(l, k);
    }
  }

  lemma StartKeeps(l: Ledger, id: Id, frame: Frame)
    requires Inv(l)
    ensures Inv(StartEpisode(l, id, frame))
  {
    GrowingKeeps(l, StartEpisode(l, id, frame));
  }

  lemma AppendKeeps(l: Ledger, id: Id, event: Event)
    requires Inv(l)
    ensures Inv(AppendEvent(l, id, event))
  {
    GrowingKeeps(l, AppendEvent(l, id, event));
  }

  lemma BindKeeps(l: Ledger, e: Id, ep: Id)
    requires Inv(l)
    ensures Inv(BindSource(l, e, ep).0)
  {
    GrowingKeeps(l, BindSource(l, e, ep).0);
  }

  lemma {:induction false} ApplyKeeps(l: Ledger, c: Command)
    requires Inv(l)
    ensures Inv(Apply(l, c))
  {
    match c
    case DoEpisode(id, frame) => StartKeeps(l, id, frame);
    case DoEvent(id, event) => AppendKeeps(l, id, event);
    case DoBind(e, ep) => BindKeeps(l, e, ep);
    case DoRebuild(j, h, projected) => RebuildKeeps(l, j, h, projected);
  }

  lemma {:induction false} RunKeeps(l: Ledger, cs: seq<Command>)
    requires Inv(l)
    ensures Inv(Run(l, cs))
  {
    if cs != [] {
      RunKeeps(l, cs[..|cs| - 1]);
      ApplyKeeps(Run(l, cs[..|cs| - 1]), cs[|cs| - 1]);
    }
  }

  // ---- When a rebuild raises --------------------------------------------------------------

  lemma BoundSourcesAreGenuine(l: Ledger, ep: Id)
    requires Inv(l) && ep in l.episodes
    ensures SourcesGenuine(l, ep)
  {
    forall e | e in l.sources && l.sources[e] == ep ensures e in l.events && Belongs(l.events[e], l.episodes[ep]) {
      assert SourceOk(l, e);
    }
  }

  lemma FilledHolds(l: Ledger, journal: Id, h: Header, projected: Time)
    requires Inv(l) && Known(l, h.episode, h) && (journal in l.headers ==> l.headers[journal] == h)
    requires InTime(l, journal, h.episode, projected)
    ensures EntriesHold(Filled(l, journal, h, projected), journal, h)
    ensures IdentitiesHold(Filled(l, journal, h, projected), h.episode)
  {
    var d := Filled(l, journal, h, projected);
    BoundSourcesAreGenuine(l, h.episode);
    forall k | k in d.entries && k.journal == journal ensures EntryHolds(d, h, k.event, d.entries[k]) {
      if k in l.entries {
        assert EntryOk(l, k);
      }
    }
  }

  /** The drift checks never fail: a rebuild raises only for wrong arguments, a
      journal bound otherwise, or an event recorded after the projection time. */
  lemma RebuildRaisesIff(l: Ledger, journal: Id, h: Header, projected: Time)
    requires Inv(l)
    ensures Rebuild(l, journal, h, projected).1.Raised? <==>
              projected < h.cutoff || !Known(l, h.episode, h) || (journal in l.headers && l.headers[journal] != h) ||
              !InTime(l, journal, h.episode, projected)
  {
    var b := Bound(l, journal, h);
    assert InTime(b, journal, h.episode, projected) <==> InTime(l, journal, h.episode, projected);
    assert IsBound(b, journal, h) <==> !(journal in l.headers && l.headers[journal] != h);
    if Known(l, h.episode, h) && IsBound(b, journal, h) && InTime(b, journal, h.episode, projected) {
      BoundKeeps(l, journal, h);
      BoundSourcesAreGenuine(b, h.episode);
      FilledHolds(b, journal, h, projected);
    }
  }

  // ---- The journal agrees with its source ----------------------------------------------------

  function EntriesOf(l: Ledger, journal: Id): set<Id> {
    set k | k in l.entries && k.journal == journal :: k.event
  }

  lemma EntriesAre(l: Ledger, journal: Id)
    ensures forall e :: e in EntriesOf(l, journal) <==> Key(journal, e) in l.entries
  {
    forall e ensures e in EntriesOf(l, journal) <==> Key(journal, e) in l.entries {
      if Key(journal, e) in l.entries {
        assert Key(journal, e).journal == journal && Key(journal, e).event == e;
      }
      if e in EntriesOf(l, journal) {
        var k :| k in l.entries && k.journal == journal && k.event == e;
        assert k == Key(journal, e);
      }
    }
  }

  /** The entries of journal are exactly the events bound to h.episode, each with
      the facts of its event and DECISION_TIME iff it was recorded by the cutoff. */
  ghost predicate Exact(d: Ledger, journal: Id, h: Header) {
    && EntriesOf(d, journal) == SourcesOf(d, h.episode)
    && (forall e :: e in SourcesOf(d, h.episode) ==>
          Key(journal, e) in d.entries && e in d.events && d.entries[Key(journal, e)].fact == d.events[e].fact &&
          d.entries[Key(journal, e)].cutoff == h.cutoff &&
          (d.entries[Key(journal, e)].phase.DecisionTime? <==> d.events[e].fact.recordedAt <= h.cutoff))
  }

  lemma FilledIsExact(l: Ledger, journal: Id, h: Header, projected: Time)
    requires SourcesGenuine(l, h.episode) && EntriesHold(Filled(l, journal, h, projected), journal, h)
    ensures Exact(Filled(l, journal, h, projected), journal, h)
  {
    var d := Filled(l, journal, h, projected);
    EntriesAre(d, journal);
    forall e ensures Key(journal, e) in d.entries <==> e in SourcesOf(d, h.episode) {
      if e in SourcesOf(d, h.episode) && Key(journal, e) !in l.entries {
        assert e in Missing(l, journal, h.episode);
      }
      if Key(journal, e) in d.entries {
        assert EntryHolds(d, h, Key(journal, e).event, d.entries[Key(journal, e)]);
      }
    }
    forall e | e in SourcesOf(d, h.episode) ensures EntryHolds(d, h, e, d.entries[Key(journal, e)]) {
      assert Key(journal, e).journal == journal && Key(journal, e).event == e;
    }
  }

  /** A rebuild that succeeds makes the journal exact. */
  lemma RebuildIsExact(l: Ledger, journal: Id, h: Header, projected: Time)
    requires Rebuild(l, journal, h, projected).1.Done?
    ensures Exact(Rebuild(l, journal, h, projected).0, journal, h)
  {
    FilledIsExact(Bound(l, journal, h), journal, h, projected);
  }

  /** The reply counts the new entries. */
  lemma RebuildCounts(l: Ledger, journal: Id, h: Header, projected: Time)
    requires Rebuild(l, journal, h, projected).1.Done?
    ensures var r := Rebuild(l, journal, h, projected);
            EntriesOf(l, journal) <= EntriesOf(r.0, journal) &&
            r.1.value == |EntriesOf(r.0, journal) - EntriesOf(l, journal)|
  {
    var d := Rebuild(l, journal, h, projected).0;
    EntriesAre(l, journal);
    EntriesAre(d, journal);
    assert EntriesOf(d, journal) - EntriesOf(l, journal) == Missing(Bound(l, journal, h), journal, h.episode);
  }

  lemma NothingMissing(d: Ledger, journal: Id, h: Header, again: Time)
    requires EntriesOf(d, journal) == SourcesOf(d, h.episode)
    requires forall e :: e in d.sources && d.sources[e] == h.episode && e in d.events ==> e in d.identities
    ensures Missing(d, journal, h.episode) == {} && Filled(d, journal, h, again) == d
  {
    EntriesAre(d, journal);
    assert forall e :: e in Missing(d, journal, h.episode) ==> e in SourcesOf(d, h.episode);
    assert Missing(d, journal, h.episode) == {};
    assert NewEntries(d, journal, h, again) == map[];
    assert NewIdentities(d, h.episode) == map[];
  }

  lemma RebuildIdentifies(l: Ledger, journal: Id, h: Header, projected: Time)
    requires Rebuild(l, journal, h, projected).1.Done?
    ensures var d := Rebuild(l, journal, h, projected).0;
            && IsBound(d, journal, h) && Known(d, h.episode, h) && Bound(d, journal, h) == d
            && forall e :: e in d.sources && d.sources[e] == h.episode && e in d.events ==> e in d.identities
  {
  }

  /** A second rebuild, even at another projection time, adds and changes nothing. */
  lemma SecondRebuildAddsNothing(l: Ledger, journal: Id, h: Header, projected: Time, again: Time)
    requires Inv(l) && Rebuild(l, journal, h, projected).1.Done? && again >= h.cutoff
    ensures var d := Rebuild(l, journal, h, projected).0;
            Rebuild(d, journal, h, again) == (d, Done(0))
  {
    var d := Rebuild(l, journal, h, projected).0;
    RebuildKeeps(l, journal, h, projected);
    RebuildIsExact(l, journal, h, projected);
    RebuildIdentifies(l, journal, h, projected);
    NothingMissing(d, journal, h, again);
    RebuildRaisesIff(d, journal, h, again);
  }

  // ---- Rebuilding step by step and at once ------------------------------------------------------

  /** An entry without its id and projection time. */
  datatype Line = Line(phase: Phase, fact: Fact, cutoff: Time)

  function LinesOf(l: Ledger, journal: Id): map<Id, Line> {
    map e | e in EntriesOf(l, journal) && Key(journal, e) in l.entries ::
      Line(l.entries[Key(journal, e)].phase, l.entries[Key(journal, e)].fact, l.entries[Key(journal, e)].cutoff)
  }

  /** What the journal of an episode should say: a function of its bound events. */
  function Expected(l: Ledger, ep: Id, cutoff: Time): map<Id, Line> {
    map e | e in l.sources && l.sources[e] == ep && e in l.events ::
      Line(PhaseOf(l.events[e].fact, cutoff), l.events[e].fact, cutoff)
  }

  lemma RebuildIsExpected(l: Ledger, journal: Id, h: Header, projected: Time)
    requires Rebuild(l, journal, h, projected).1.Done?
    ensures LinesOf(Rebuild(l, journal, h, projected).0, journal) == Expected(l, h.episode, h.cutoff)
  {
    var d := Rebuild(l, journal, h, projected).0;
    RebuildIsExact(l, journal, h, projected);
    EntriesAre(d, journal);
    RebuildLeavesSources(l, journal, h, projected);
    LinesAreExpected(d, journal, h);
  }

  lemma RebuildLeavesSources(l: Ledger, journal: Id, h: Header, projected: Time)
    ensures SameSources(l, Rebuild(l, journal, h, projected).0)
  {
  }

  lemma LinesAreExpected(d: Ledger, journal: Id, h: Header)
    requires Exact(d, journal, h)
    ensures LinesOf(d, journal) == Expected(d, h.episode, h.cutoff)
  {
    assert LinesOf(d, journal).Keys == SourcesOf(d, h.episode);
    assert Expected(d, h.episode, h.cutoff).Keys == SourcesOf(d, h.episode);
  }

  function WithoutRebuilds(cs: seq<Command>): seq<Command> {
    if cs == [] then []
    else WithoutRebuilds(cs[..|cs| - 1]) + (if cs[|cs| - 1].DoRebuild? then [] else [cs[|cs| - 1]])
  }

  predicate SameSources(a: Ledger, b: Ledger) {
    a.episodes == b.episodes && a.events == b.events && a.sources == b.sources
  }

  lemma {:induction false} RunSnoc(l: Ledger, cs: seq<Command>, c: Command)
    ensures Run(l, cs + [c]) == Apply(Run(l, cs), c)
  {
    assert (cs + [c])[..|cs|] == cs;
  }

  lemma SameBind(a: Ledger, b: Ledger, e: Id, ep: Id)
    requires SameSources(a, b)
    ensures SameSources(BindSource(a, e, ep).0, BindSource(b, e, ep).0)
  {
  }

  lemma SameStart(a: Ledger, b: Ledger, id: Id, frame: Frame, event: Event)
    requires SameSources(a, b)
    ensures SameSources(StartEpisode(a, id, frame), StartEpisode(b, id, frame))
    ensures SameSources(AppendEvent(a, id, event), AppendEvent(b, id, event))
  {
  }

  lemma SameSourcesStep(a: Ledger, b: Ledger, c: Command)
    requires SameSources(a, b)
    ensures if c.DoRebuild? then SameSources(Apply(a, c), b) else SameSources(Apply(a, c), Apply(b, c))
  {
    match c
    case DoEpisode(id, frame) => SameStart(a, b, id, frame, Event(0, Fact(0, 0, 0, 0, 0, 0), true));
    case DoEvent(id, event) => SameStart(a, b, id, Frame(0, 0, 0), event);
    case DoBind(e, ep) => SameBind(a, b, e, ep);
    case DoRebuild(j, h, projected) => RebuildLeavesSources(a, j, h, projected);
  }

  lemma OnlyRebuildsWrite(l: Ledger, c: Command)
    requires !c.DoRebuild?
    ensures Apply(l, c).headers == l.headers && Apply(l, c).entries == l.entries
  {
  }

  /** Rebuilding leaves the sources alone. */
  lemma {:induction false} RebuildsDoNotMatter(a: Ledger, b: Ledger, cs: seq<Command>)
    requires SameSources(a, b)
    ensures SameSources(Run(a, cs), Run(b, WithoutRebuilds(cs)))
  {
    if cs != [] {
      var front, c := cs[..|cs| - 1], cs[|cs| - 1];
      RebuildsDoNotMatter(a, b, front);
      SameSourcesStep(Run(a, front), Run(b, WithoutRebuilds(front)), c);
      RunSnoc(b, WithoutRebuilds(front), c);
      assert WithoutRebuilds(front) + [] == WithoutRebuilds(front);
    }
  }

  /** However often a journal was rebuilt on the way, its last rebuild says what a
      single one at the end says, and succeeds whenever that one does. */
  lemma {:induction false} IncrementalAgrees(cs: seq<Command>, journal: Id, h: Header, projected: Time, once: Time)
    requires Rebuild(Run(BLANK, WithoutRebuilds(cs)), journal, h, once).1.Done?
    ensures var l := Run(BLANK, cs);
            var single := Rebuild(Run(BLANK, WithoutRebuilds(cs)), journal, h, once).0;
            && (Rebuild(l, journal, h, projected).1.Done? ==>
                  LinesOf(Rebuild(l, journal, h, projected).0, journal) == LinesOf(single, journal))
            && (journal !in l.headers || l.headers[journal] == h ==> Rebuild(l, journal, h, once).1.Done?)
  {
    var l, r := Run(BLANK, cs), Run(BLANK, WithoutRebuilds(cs));
    RebuildsDoNotMatter(BLANK, BLANK, cs);
    RunKeeps(BLANK, cs);
    RunKeeps(BLANK, WithoutRebuilds(cs));
    RebuildIsExpected(r, journal, h, once);
    assert Expected(l, h.episode, h.cutoff) == Expected(r, h.episode, h.cutoff);
    if Rebuild(l, journal, h, projected).1.Done? {
      RebuildIsExpected(l, journal, h, projected);
    }
    NoHeadersWithoutRebuilds(BLANK, cs);
    RebuildRaisesIff(r, journal, h, once);
    RebuildRaisesIff(l, journal, h, once);
    forall e | e in Missing(l, journal, h.episode) ensures l.events[e].fact.recordedAt <= once {
      assert e in Missing(r, journal, h.episode);
    }
  }

  lemma {:induction false} NoHeadersWithoutRebuilds(l: Ledger, cs: seq<Command>)
    requires l.headers == map[] && l.entries == map[]
    ensures Run(l, WithoutRebuilds(cs)).headers == map[] && Run(l, WithoutRebuilds(cs)).entries == map[]
  {
    if cs != [] {
      var front, c := cs[..|cs| - 1], cs[|cs| - 1];
      NoHeadersWithoutRebuilds(l, front);
      RunSnoc(l, WithoutRebuilds(front), c);
      if !c.DoRebuild? {
        OnlyRebuildsWrite(Run(l, WithoutRebuilds(front)), c);
      }
      assert WithoutRebuilds(front) + [] == WithoutRebuilds(front);
    }
  }

  lemma EntryIsBound(l: Ledger, journal: Id, e: Id)
    requires Inv(l) && e in EntriesOf(l, journal)
    ensures journal in l.headers && e in l.sources && l.sources[e] == l.headers[journal].episode
  {
    var k :| k in l.entries && k.journal == journal && k.event == e;
    assert EntryOk(l, k);
  }

  /** Journals of different episodes share no event, in any run. */
  lemma {:induction false} JournalsAreDisjoint(cs: seq<Command>, a: Id, b: Id)
    requires var l := Run(BLANK, cs);
             a in l.headers && b in l.headers && l.headers[a].episode != l.headers[b].episode
    ensures EntriesOf(Run(BLANK, cs), a) * EntriesOf(Run(BLANK, cs), b) == {}
  {
    var l := Run(BLANK, cs);
    RunKeeps(BLANK, cs);
    forall e ensures !(e in EntriesOf(l, a) && e in EntriesOf(l, b)) {
      if e in EntriesOf(l, a) {
        EntryIsBound(l, a, e);
        if e in EntriesOf(l, b) {
          EntryIsBound(l, b, e);
        }
      }
    }
  }

  // ---- The tables updated in place ------------------------------------------------------------------

  class Store {
    var episodes: map<Id, Frame>
    var events: map<Id, Event>
    var sources: map<Id, Id>
    var headers: map<Id, Header>
    var bindings: map<Id, Header>
    var identities: map<Id, Fact>
    var entries: map<Key, Entry>

    function State(): Ledger
      reads this
    {
      Ledger(episodes, events, sources, headers, bindings, identities, entries)
    }

    constructor ()
      ensures State() == BLANK
    {
      episodes, events, sources, headers, bindings, identities, entries := map[], map[], map[], map[], map[], map[],
      map[];
    }

    method BindWorkflowSource(event: Id, ep: Id) returns (ok: bool)
      modifies this`sources
      ensures (State(), ok) == BindSource(old(State()), event, ep)
    {
      if event in events && ep in episodes && event !in sources && Belongs(events[event], episodes[ep]) {
        sources := sources[event := ep];
      }
      ok := event in sources && sources[event] == ep;
    }

    /** Every INSERT happens before the checks that may undo it. */
    method RebuildProjection(journal: Id, h: Header, projected: Time) returns (r: Outcome<nat>)
      modifies this`headers, this`bindings, this`identities, this`entries
      ensures (State(), r) == Rebuild(old(State()), journal, h, projected)
    {
      if projected < h.cutoff || !Known(State(), h.episode, h) {
        return Raised;
      }
      var savedHeaders, savedBindings, savedIdentities, savedEntries := headers, bindings, identities, entries;
      if journal !in headers {
        headers := headers[journal := h];
      }
      if journal !in bindings {
        bindings := bindings[journal := h];
      }
      assert State() == Bound(old(State()), journal, h);
      var added := |Missing(State(), journal, h.episode)|;
      r := Raised;
      if IsBound(State(), journal, h) && SourcesGenuine(State(), h.episode) &&
         InTime(State(), journal, h.episode, projected) {
        var extra := NewEntries(State(), journal, h, projected);
        identities := identities + NewIdentities(State(), h.episode);
        entries := entries + extra;
        assert State() == Filled(Bound(old(State()), journal, h), journal, h, projected);
        if IdentitiesHold(State(), h.episode) && EntriesHold(State(), journal, h) {
          r := Done(added);
        }
      }
      if r.Raised? {
        headers, bindings, identities, entries := savedHeaders, savedBindings, savedIdentities, savedEntries;
      }
    }
  }
}
