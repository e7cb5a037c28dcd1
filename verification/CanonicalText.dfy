/** Canonical text sets: JSON arrays of trimmed texts, sorted by code point and
    without repetition. */
module CanonicalText {
  import opened Common
  import opened CanonicalJson

  /** btrim strips blanks only. */
  predicate Clean(s: string) {
    s != "" && s[0] != ' ' && s[|s| - 1] != ' '
  }

  predicate CleanTexts(items: seq<Json>) {
    forall i | 0 <= i < |items| :: items[i].Str? && Clean(items[i].s)
  }

  function TextsOf(items: seq<Json>): set<string> {
    set i | 0 <= i < |items| && items[i].Str? :: items[i].s
  }

  function AsJson(texts: seq<string>): Json {
    Arr(seq(|texts|, i requires 0 <= i < |texts| => Str(texts[i])))
  }

  /** jsonb_agg(to_jsonb(v) ORDER BY v COLLATE "C") over the distinct texts. */
  function Normalized(items: seq<Json>): Json {
    AsJson(SortedKeys(TextsOf(items)))
  }

  /** v1006_valid_canonical_text_set */
  predicate ValidTextSet(p: Json, required: bool) {
    p.Arr? && (required ==> p.items != []) && CleanTexts(p.items) && p == Normalized(p.items)
  }

  predicate Ascending(items: seq<Json>) {
    forall i, j | 0 <= i < j < |items| :: items[i].Str? && items[j].Str? && Before(items[i].s, items[j].s)
  }

  function Plain(items: seq<Json>): seq<string>
    requires CleanTexts(items)
  {
    seq(|items|, i requires 0 <= i < |items| => items[i].s)
  }

  predicate Rising(s: seq<string>) {
    forall i, j | 0 <= i < j < |s| :: Before(s[i], s[j])
  }

  lemma EmptySet(a: seq<string>)
    ensures SeqSet(a) == {} <==> a == []
  {
    if a != [] {
      assert a[0] in SeqSet(a);
    }
  }

  /** A set of texts has one rising list. */
  lemma {:induction false} RisingIsUnique(a: seq<string>, b: seq<string>)
    requires Rising(a) && Rising(b) && SeqSet(a) == SeqSet(b)
    ensures a == b
  {
    if a == [] {
      EmptySet(b);
    } else if b == [] {
      EmptySet(a);
    } else {
      assert a[0] in SeqSet(b) && b[0] in SeqSet(a);
      var i :| 0 <= i < |b| && b[i] == a[0];
      var j :| 0 <= j < |a| && a[j] == b[0];
      BeforeTotal(a[0], b[0]);
      assert a[0] == b[0];
      TailSet(a);
      TailSet(b);
      RisingIsUnique(a[1..], b[1..]);
      assert a == [a[0]] + a[1..] && b == [b[0]] + b[1..];
    }
  }

  lemma TailSet(a: seq<string>)
    requires Rising(a) && a != []
    ensures SeqSet(a[1..]) == SeqSet(a) - {a[0]} && Rising(a[1..])
  {
    forall x ensures x in SeqSet(a[1..]) <==> x in SeqSet(a) - {a[0]} {
      if x in SeqSet(a) && x != a[0] {
        var i :| 0 <= i < |a| && a[i] == x;
        assert a[1..][i - 1] == x;
      }
      if x in a[1..] {
        var i :| 0 <= i < |a[1..]| && a[1..][i] == x;
        assert a[i + 1] == x && Before(a[0], a[i + 1]);
        BeforeTotal(a[0], a[0]);
      }
    }
  }

  lemma PlainTexts(items: seq<Json>)
    requires CleanTexts(items)
    ensures SeqSet(Plain(items)) == TextsOf(items) && AsJson(Plain(items)) == Arr(items)
  {
    forall x ensures x in SeqSet(Plain(items)) <==> x in TextsOf(items) {
      if x in TextsOf(items) {
        var i :| 0 <= i < |items| && items[i].Str? && items[i].s == x;
        assert Plain(items)[i] == x;
      }
    }
    assert AsJson(Plain(items)).items == items;
  }

  /** Valid means: clean texts in strictly ascending order. */
  lemma ValidIffAscending(p: Json, required: bool)
    ensures ValidTextSet(p, required) <==>
              p.Arr? && (required ==> p.items != []) && CleanTexts(p.items) && Ascending(p.items)
  {
    if p.Arr? && CleanTexts(p.items) {
      PlainTexts(p.items);
      var sorted := SortedKeys(TextsOf(p.items));
      if Ascending(p.items) {
        RisingIsUnique(Plain(p.items), sorted);
      }
      if p == AsJson(sorted) {
        assert forall i :: 0 <= i < |p.items| ==> p.items[i].s == sorted[i];
      }
    }
  }

  /** Normalising forgets order and repetition, and nothing else. */
  lemma NormalizedIsValid(items: seq<Json>, required: bool)
    requires CleanTexts(items) && (required ==> items != [])
    ensures ValidTextSet(Normalized(items), required) && TextsOf(Normalized(items).items) == TextsOf(items)
  {
    var sorted := SortedKeys(TextsOf(items));
    var p := Normalized(items);
    assert forall i :: 0 <= i < |p.items| ==> p.items[i] == Str(sorted[i]);
    forall i | 0 <= i < |p.items| ensures Clean(p.items[i].s) {
      assert sorted[i] in SeqSet(sorted);
      var k :| 0 <= k < |items| && items[k].Str? && items[k].s == sorted[i];
    }
    PlainTexts(p.items);
    assert Plain(p.items) == sorted;
    if items != [] {
      assert items[0].s in TextsOf(items);
      EmptySet(sorted);
    }
    ValidIffAscending(p, required);
  }

  /** Two valid arrays with the same members are the same array. */
  lemma SameMembersSameArray(p: Json, q: Json, required: bool)
    requires ValidTextSet(p, required) && ValidTextSet(q, required)
    ensures p == q <==> TextsOf(p.items) == TextsOf(q.items)
  {
  }
}
