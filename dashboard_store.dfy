/** The card collection (app/models/DashboardStore.ts): append, remove and
    update by id on the ordered list of cards, and the de-duplicated list of
    the topics the cards listen to. */
module Dashboard {
  import opened Options
  import opened Js
  import opened Cards

  /** The position of the first `x` in `s`, or `|s|` when `x` is absent. */
  function IndexOf(s: seq<string>, x: string): (k: nat)
    ensures k <= |s|
    ensures k < |s| ==> s[k] == x
    ensures forall j :: 0 <= j < k ==> s[j] != x
    ensures k == |s| <==> x !in s
  {
    if s == [] then 0 else if s[0] == x then 0 else 1 + IndexOf(s[1..], x)
  }

  predicate NoDuplicates(s: seq<string>)
  {
    forall i, j :: 0 <= i < j < |s| ==> s[i] != s[j]
  }

  /** The elements of `s` in order of first occurrence, each once: what a
      `Set` filled from `s` lists. */
  function Dedup(s: seq<string>): seq<string>
  {
    if s == [] then []
    else
      var d := Dedup(s[..|s| - 1]);
      if s[|s| - 1] in d then d else d + [s[|s| - 1]]
  }

  /** A topic is listed iff it occurs. */
  lemma {:induction false} DedupMembers(s: seq<string>)
    ensures forall x :: x in Dedup(s) <==> x in s
  {
    if s != [] {
      var p := s[..|s| - 1];
      DedupMembers(p);
      assert s == p + [s[|s| - 1]];
    }
  }

  /** No topic is listed twice. */
  lemma {:induction false} DedupNoDuplicates(s: seq<string>)
    ensures NoDuplicates(Dedup(s))
  {
    if s != [] {
      DedupNoDuplicates(s[..|s| - 1]);
    }
  }

  lemma {:induction false} IndexOfPrefix(p: seq<string>, q: seq<string>, x: string)
    requires x in p
    ensures IndexOf(p + q, x) == IndexOf(p, x)
  {
    var k := IndexOf(p, x);
    assert (p + q)[k] == x;
    assert forall j :: 0 <= j < k ==> (p + q)[j] == p[j];
  }

  lemma {:induction false} IndexOfLast(p: seq<string>, x: string)
    requires x !in p
    ensures IndexOf(p + [x], x) == |p|
  {
    assert (p + [x])[|p|] == x;
    assert forall j :: 0 <= j < |p| ==> (p + [x])[j] == p[j];
  }

  /** Topics are listed in the order in which they first occur. */
  lemma {:induction false} DedupFirstOccurrenceOrder(s: seq<string>)
    ensures forall i, j :: 0 <= i < j < |Dedup(s)| ==> IndexOf(s, Dedup(s)[i]) < IndexOf(s, Dedup(s)[j])
  {
    if s != [] {
      var p, x := s[..|s| - 1], s[|s| - 1];
      var d := Dedup(p);
      assert s == p + [x];
      DedupFirstOccurrenceOrder(p);
      DedupMembers(p);
      forall y | y in d ensures IndexOf(s, y) == IndexOf(p, y) && IndexOf(p, y) < |p| {
        IndexOfPrefix(p, [x], y);
      }
      if x !in d {
        IndexOfLast(p, x);
        var d' := d + [x];
        forall i, j | 0 <= i < j < |d'|
          ensures IndexOf(s, d'[i]) < IndexOf(s, d'[j])
        {
          assert d'[i] == d[i] && d[i] in d;
          if j < |d| {
            assert d'[j] == d[j] && d[j] in d;
          }
        }
      } else {
        forall i, j | 0 <= i < j < |d|
          ensures IndexOf(s, d[i]) < IndexOf(s, d[j])
        {
          assert d[i] in d && d[j] in d;
        }
      }
    }
  }

  /** The ids of `cs`, in order. */
  function IdsOf(cs: seq<Card>): (ids: seq<string>)
    ensures |ids| == |cs|
    ensures forall i :: 0 <= i < |cs| ==> ids[i] == cs[i].id
  {
    if cs == [] then [] else IdsOf(cs[..|cs| - 1]) + [cs[|cs| - 1].id]
  }

  /** The topics of `cs`, in order and with repetitions. */
  function TopicsOf(cs: seq<Card>): (ts: seq<string>)
    reads cs
    ensures |ts| == |cs|
    ensures forall i :: 0 <= i < |cs| ==> ts[i] == cs[i].config.topic
  {
    if cs == [] then [] else TopicsOf(cs[..|cs| - 1]) + [cs[|cs| - 1].config.topic]
  }

  /** Each card object occurs once in `cs`. */
  ghost predicate Distinct(cs: seq<Card>)
  {
    forall i, j :: 0 <= i < j < |cs| ==> cs[i] != cs[j]
  }

  lemma DistinctWithout(cs: seq<Card>, k: nat)
    requires Distinct(cs) && k < |cs|
    ensures Distinct(cs[..k] + cs[k + 1..])
  {
    var r := cs[..k] + cs[k + 1..];
    forall i, j | 0 <= i < j < |r| ensures r[i] != r[j] {
      var i', j' := if i < k then i else i + 1, if j < k then j else j + 1;
      assert r[i] == cs[i'] && r[j] == cs[j'] && i' < j';
    }
  }

  class DashboardStore {
    var cards: seq<Card>

    /** Each card object occurs once in the list. */
    ghost predicate Valid()
      reads this
    {
      Distinct(cards)
    }

    constructor ()
      ensures cards == [] && Valid()
    {
      cards := [];
    }

    /** `cards.findIndex(c => c.id === id)`. */
    method FindIndex(id: string) returns (idx: int)
      ensures idx == if id in IdsOf(cards) then IndexOf(IdsOf(cards), id) else -1
    {
      var i := 0;
      while i < |cards|
        invariant 0 <= i <= |cards|
        invariant forall j :: 0 <= j < i ==> cards[j].id != id
      {
        if cards[i].id == id {
          return i;
        }
        i := i + 1;
      }
      return -1;
    }

    /** `cards.find(c => c.id === id)`. */
    method Find(id: string) returns (c: Card?)
      ensures c == if id in IdsOf(cards) then cards[IndexOf(IdsOf(cards), id)] else null
    {
      var idx := FindIndex(id);
      c := if idx == -1 then null else cards[idx];
    }

    /** `addCard(snapshot)`: a new card goes to the end of the list. */
    method AddCard(id: string, config: CardConfig) returns (card: Card)
      requires Valid()
      modifies this
      ensures Valid() && fresh(card)
      ensures cards == old(cards) + [card]
      ensures card.id == id && card.State() == CardState(config, Str("--"), [], 0)
    {
      card := new Card(id, config);
      cards := cards + [card];
    }

    /** `removeCard(id)`: the first card with that id leaves the list; an
        unknown id leaves the list as it was. The card objects themselves are
        not modified. */
    method RemoveCard(id: string)
      requires Valid()
      modifies this
      ensures Valid()
      ensures var k := IndexOf(IdsOf(old(cards)), id);
        cards == if k < |old(cards)| then old(cards)[..k] + old(cards)[k + 1..] else old(cards)
    {
      var idx := FindIndex(id);
      if idx > -1 {
        DistinctWithout(cards, idx);
        cards := cards[..idx] + cards[idx + 1..];
      }
    }

    /** `updateCard(id, updates)`: the properties are assigned on the first
        card with that id; the list itself and every other card are left as
        they were. */
    method UpdateCard(id: string, p: CardPatch)
      requires Valid()
      modifies cards
      ensures var k := IndexOf(IdsOf(cards), id);
        forall i :: 0 <= i < |cards| ==>
          cards[i].State() ==
            if i == k then old(cards[i].State()).(config := Patched(old(cards[i].config), p))
            else old(cards[i].State())
    {
      var card := Find(id);
      if card != null {
        card.Assign(p);
      }
    }

    /** `activeTopics`: the topics of the cards, each once, in order of first
        occurrence. */
    method ActiveTopics() returns (topics: seq<string>)
      ensures topics == Dedup(TopicsOf(cards))
      ensures NoDuplicates(topics)
      ensures forall t :: t in topics <==> exists i :: 0 <= i < |cards| && cards[i].config.topic == t
    {
      var seen: set<string> := {};
      topics := [];
      var i := 0;
      ghost var all := TopicsOf(cards);
      while i < |cards|
        invariant 0 <= i <= |cards|
        invariant topics == Dedup(all[..i])
        invariant forall t :: t in seen <==> t in topics
      {
        var t := cards[i].config.topic;
        assert all[..i + 1][..i] == all[..i] && all[..i + 1][i] == t;
        if t !in seen {
          seen := seen + {t};
          topics := topics + [t];
        }
        i := i + 1;
      }
      assert all[..|cards|] == all;
      DedupNoDuplicates(all);
      DedupMembers(all);
      forall t ensures t in all <==> exists i :: 0 <= i < |cards| && cards[i].config.topic == t {
        if t in all {
          var i :| 0 <= i < |all| && all[i] == t;
          assert cards[i].config.topic == t;
        }
      }
    }
  }

  /** The list `activeTopics` gives is in first-occurrence order among the
      cards' topics. */
  lemma ActiveTopicsInFirstOccurrenceOrder(cs: seq<Card>)
    ensures var d := Dedup(TopicsOf(cs));
      forall i, j :: 0 <= i < j < |d| ==> IndexOf(TopicsOf(cs), d[i]) < IndexOf(TopicsOf(cs), d[j])
  {
    DedupFirstOccurrenceOrder(TopicsOf(cs));
  }
}
