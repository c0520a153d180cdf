/** The release sample: from each submode a fixed number of cases, taken from its strata in turn. */
module SampleSelector {
  import opened Arithmetic
  import opened Prelude

  /** Identifiers and stratum names are given by their places in the order of their texts. */
  datatype Case = Case(id: int, submode: string, stratum: int, prompt: string)

  datatype Trait = Submode(name: string) | Stratum(place: int)
  {
    predicate Of(c: Case) { if Submode? then c.submode == name else c.stratum == place }
  }

  /** Submodes and how many cases each of them contributes. */
  const QUOTAS: seq<(string, nat)> :=
      [("slack", 28), ("email", 14), ("report", 24), ("proposal", 20), ("presentation", 10)]
  const SAMPLE_SIZE := 96

  // ---- Filtering and sorting ----

  function Filter(cs: seq<Case>, t: Trait): seq<Case> {
    if cs == [] then [] else
    var rest, c := Filter(cs[..|cs| - 1], t), cs[|cs| - 1];
    if t.Of(c) then rest + [c] else rest
  }

  /** By the digest of the id, given as its place among the digests, and then by the id. */
  predicate Leq(rank: int -> int, a: Case, b: Case) {
    rank(a.id) < rank(b.id) || (rank(a.id) == rank(b.id) && a.id <= b.id)
  }

  const BY_ID: int -> int := (id: int) => 0

  predicate Ordered(rank: int -> int, cs: seq<Case>) {
    forall i, j | 0 <= i < j < |cs| :: Leq(rank, cs[i], cs[j])
  }

  /** After everything that is not greater, as a stable sort does. */
  function Insert(rank: int -> int, cs: seq<Case>, c: Case): seq<Case> {
    if cs == [] || Leq(rank, cs[|cs| - 1], c) then cs + [c]
    else Insert(rank, cs[..|cs| - 1], c) + [cs[|cs| - 1]]
  }

  function Sort(rank: int -> int, cs: seq<Case>): seq<Case> {
    if cs == [] then [] else Insert(rank, Sort(rank, cs[..|cs| - 1]), cs[|cs| - 1])
  }

  lemma {:induction false} InsertCounts(rank: int -> int, cs: seq<Case>, c: Case)
    ensures multiset(Insert(rank, cs, c)) == multiset(cs) + multiset{c}
  {
    if cs != [] {
      assert cs == cs[..|cs| - 1] + [cs[|cs| - 1]];
      if !Leq(rank, cs[|cs| - 1], c) { InsertCounts(rank, cs[..|cs| - 1], c); }
    }
  }

  lemma {:induction false} InsertOrdered(rank: int -> int, cs: seq<Case>, c: Case)
    requires Ordered(rank, cs)
    ensures Ordered(rank, Insert(rank, cs, c))
  {
    if cs != [] {
      var last, front := cs[|cs| - 1], cs[..|cs| - 1];
      if Leq(rank, last, c) {
        forall i | 0 <= i < |cs| ensures Leq(rank, cs[i], c) { assert i == |cs| - 1 || Leq(rank, cs[i], last); }
      } else {
        InsertOrdered(rank, front, c);
        InsertCounts(rank, front, c);
        var r := Insert(rank, front, c);
        forall i | 0 <= i < |r| ensures Leq(rank, r[i], last) {
          assert r[i] in multiset(r);
          assert r[i] == c || r[i] in front;
        }
      }
    }
  }

  lemma {:induction false} SortCorrect(rank: int -> int, cs: seq<Case>)
    ensures multiset(Sort(rank, cs)) == multiset(cs) && Ordered(rank, Sort(rank, cs))
  {
    if cs != [] {
      var front := cs[..|cs| - 1];
      assert cs == front + [cs[|cs| - 1]];
      SortCorrect(rank, front);
      InsertCounts(rank, Sort(rank, front), cs[|cs| - 1]);
      InsertOrdered(rank, Sort(rank, front), cs[|cs| - 1]);
    }
  }

  predicate UniqueIds(cs: seq<Case>) { forall i, j | 0 <= i < j < |cs| :: cs[i].id != cs[j].id }

  lemma {:induction false} FilterCounts(cs: seq<Case>, t: Trait, c: Case)
    ensures multiset(Filter(cs, t))[c] == if t.Of(c) then multiset(cs)[c] else 0
  {
    if cs != [] {
      FilterCounts(cs[..|cs| - 1], t, c);
      assert cs == cs[..|cs| - 1] + [cs[|cs| - 1]];
    }
  }

  lemma {:induction false} FilterConcat(cs: seq<Case>, ds: seq<Case>, t: Trait)
    ensures Filter(cs + ds, t) == Filter(cs, t) + Filter(ds, t)
  {
    if ds == [] {
      assert cs + ds == cs;
    } else {
      assert (cs + ds)[..|cs + ds| - 1] == cs + ds[..|ds| - 1];
      FilterConcat(cs, ds[..|ds| - 1], t);
    }
  }

  // ---- Strata and buckets ----

  predicate Ascending(s: seq<int>) { forall i, j | 0 <= i < j < |s| :: s[i] < s[j] }

  function Place(s: seq<int>, x: int): (r: seq<int>)
    ensures forall y :: y in r <==> y in s || y == x
  {
    if s == [] || s[|s| - 1] < x then s + [x]
    else if s[|s| - 1] == x then s
    else
      assert s == s[..|s| - 1] + [s[|s| - 1]];
      Place(s[..|s| - 1], x) + [s[|s| - 1]]
  }

  lemma {:induction false} PlaceAscending(s: seq<int>, x: int)
    requires Ascending(s)
    ensures Ascending(Place(s, x))
  {
    if s != [] && s[|s| - 1] > x {
      PlaceAscending(s[..|s| - 1], x);
      var r := Place(s[..|s| - 1], x);
      forall i | 0 <= i < |r| ensures r[i] < s[|s| - 1] { assert r[i] in r; }
    }
  }

  /** The names of the strata, sorted. */
  function Strata(pool: seq<Case>): seq<int> {
    if pool == [] then [] else Place(Strata(pool[..|pool| - 1]), pool[|pool| - 1].stratum)
  }

  lemma {:induction false} StrataAscend(pool: seq<Case>)
    ensures Ascending(Strata(pool))
  {
    if pool != [] {
      StrataAscend(pool[..|pool| - 1]);
      PlaceAscending(Strata(pool[..|pool| - 1]), pool[|pool| - 1].stratum);
    }
  }

  lemma {:induction false} StratumListed(pool: seq<Case>, c: Case)
    requires c in pool
    ensures c.stratum in Strata(pool)
  {
    if c != pool[|pool| - 1] {
      assert c in pool[..|pool| - 1];
      StratumListed(pool[..|pool| - 1], c);
    }
  }

  function Buckets(pool: seq<Case>): (r: seq<seq<Case>>)
    ensures |r| == |Strata(pool)|
  {
    var strata := Strata(pool);
    seq(|strata|, j requires 0 <= j < |strata| => Filter(pool, Stratum(strata[j])))
  }

  // ---- Turns ----

  /** `i % n` and `i / n`. */
  function Slot(i: nat, n: nat): (j: nat)
    requires n > 0
    ensures j < n
  {
    if i < n then i else Slot(i - n, n)
  }

  function Round(i: nat, n: nat): nat
    requires n > 0
  {
    if i < n then 0 else Round(i - n, n) + 1
  }

  lemma {:induction false} SlotIsRemainder(i: nat, n: nat)
    requires n > 0
    ensures Slot(i, n) == i % n && Round(i, n) == i / n
  {
    if i < n {
      Quotient(0, n, i);
    } else {
      SlotIsRemainder(i - n, n);
      DivMod(i - n, n);
      Distribute((i - n) / n, -1, n);
      Quotient((i - n) / n + 1, n, (i - n) % n);
    }
  }

  /** Turn `i` is offered to bucket `i % n` and takes its case number `i / n`, if there is one. */
  function Turn(buckets: seq<seq<Case>>, i: nat): (r: seq<Case>)
    requires buckets != []
  {
    var b, k := buckets[Slot(i, |buckets|)], Round(i, |buckets|);
    if k < |b| then [b[k]] else []
  }

  function Taken(buckets: seq<seq<Case>>, turns: nat): seq<Case>
    requires buckets != []
  {
    if turns == 0 then [] else Taken(buckets, turns - 1) + Turn(buckets, turns - 1)
  }

  /** How many of the first `i` turns went to bucket `j`. */
  function Rounds(i: nat, j: nat, n: nat): nat
    requires n > 0
  {
    Round(i, n) + if j < Slot(i, n) then 1 else 0
  }

  lemma {:induction false} NextTurn(i: nat, j: nat, n: nat)
    requires j < n
    ensures Rounds(i + 1, j, n) == Rounds(i, j, n) + if j == Slot(i, n) then 1 else 0
    ensures j == Slot(i, n) ==> Rounds(i, j, n) == Round(i, n)
  {
    if i >= n { NextTurn(i - n, j, n); } else { assert i + 1 == n ==> Slot(0, n) == 0 && Round(0, n) == 0; }
  }

  function Min(a: nat, b: nat): nat { if a < b then a else b }

  lemma FilterMembers(cs: seq<Case>, t: Trait, c: Case)
    requires c in Filter(cs, t)
    ensures c in cs && t.Of(c)
  {
    FilterCounts(cs, t, c);
    assert c in multiset(Filter(cs, t));
    assert c in multiset(cs);
  }

  /** Bucket `j` holds cases of stratum `strata[j]`, and no stratum has two buckets. */
  ghost predicate Sorts(buckets: seq<seq<Case>>, strata: seq<int>) {
    && |buckets| == |strata| && Ascending(strata)
    && forall j, k | 0 <= j < |buckets| && 0 <= k < |buckets[j]| :: buckets[j][k].stratum == strata[j]
  }

  lemma TurnFilter(buckets: seq<seq<Case>>, strata: seq<int>, i: nat, j: nat)
    requires Sorts(buckets, strata) && j < |buckets|
    ensures Filter(Turn(buckets, i), Stratum(strata[j])) == if j == Slot(i, |buckets|) then Turn(buckets, i) else []
  {
    var more := Turn(buckets, i);
    if more != [] {
      assert more[..0] == [] && more == [more[0]];
      assert Filter(more, Stratum(strata[j])) == if Stratum(strata[j]).Of(more[0]) then [more[0]] else [];
    }
  }

  function First(b: seq<Case>, k: nat): seq<Case> { b[..Min(|b|, k)] }

  lemma FirstGrows(buckets: seq<seq<Case>>, i: nat, j: nat)
    requires j < |buckets|
    ensures First(buckets[j], Rounds(i + 1, j, |buckets|))
         == First(buckets[j], Rounds(i, j, |buckets|)) + if j == Slot(i, |buckets|) then Turn(buckets, i) else []
  {
    NextTurn(i, j, |buckets|);
  }

  lemma TurnTaken(buckets: seq<seq<Case>>, strata: seq<int>, i: nat, j: nat)
    requires Sorts(buckets, strata) && j < |buckets|
    ensures Filter(Taken(buckets, i + 1), Stratum(strata[j]))
         == Filter(Taken(buckets, i), Stratum(strata[j])) + if j == Slot(i, |buckets|) then Turn(buckets, i) else []
  {
    FilterConcat(Taken(buckets, i), Turn(buckets, i), Stratum(strata[j]));
    TurnFilter(buckets, strata, i, j);
  }

  /** Whatever the number of turns, each stratum has given the first cases of its bucket, in order. */
  lemma {:induction false} TakenIsPrefix(buckets: seq<seq<Case>>, strata: seq<int>, turns: nat, j: nat)
    requires Sorts(buckets, strata) && j < |buckets|
    ensures Filter(Taken(buckets, turns), Stratum(strata[j])) == First(buckets[j], Rounds(turns, j, |buckets|))
  {
    if turns != 0 {
      var i: nat := turns - 1;
      var more := if j == Slot(i, |buckets|) then Turn(buckets, i) else [];
      calc {
        Filter(Taken(buckets, i + 1), Stratum(strata[j]));
        { TurnTaken(buckets, strata, i, j); }
        Filter(Taken(buckets, i), Stratum(strata[j])) + more;
        { TakenIsPrefix(buckets, strata, i, j); }
        First(buckets[j], Rounds(i, j, |buckets|)) + more;
        { FirstGrows(buckets, i, j); }
        First(buckets[j], Rounds(i + 1, j, |buckets|));
      }
    }
  }

  lemma {:induction false} TakenFrom(buckets: seq<seq<Case>>, turns: nat, c: Case)
    requires buckets != [] && c in Taken(buckets, turns)
    ensures exists j | 0 <= j < |buckets| :: c in buckets[j]
  {
    if c in Turn(buckets, turns - 1) {
      assert c in buckets[Slot(turns - 1, |buckets|)];
    } else {
      TakenFrom(buckets, turns - 1, c);
    }
  }

  lemma BucketsSort(pool: seq<Case>)
    ensures Sorts(Buckets(pool), Strata(pool))
  {
    var buckets: seq<seq<Case>>, strata := Buckets(pool), Strata(pool);
    StrataAscend(pool);
    forall j, k | 0 <= j < |buckets| && 0 <= k < |buckets[j]| ensures buckets[j][k].stratum == strata[j] {
      FilterMembers(pool, Stratum(strata[j]), buckets[j][k]);
    }
  }

  lemma FirstCounts(b: seq<Case>, k: nat, c: Case)
    ensures multiset(First(b, k))[c] <= multiset(b)[c]
    ensures k >= |b| ==> First(b, k) == b
  {
    assert b == First(b, k) + b[|First(b, k)|..];
  }

  lemma TakenCount(buckets: seq<seq<Case>>, strata: seq<int>, turns: nat, j: nat, c: Case)
    requires Sorts(buckets, strata) && j < |buckets| && c.stratum == strata[j]
    ensures multiset(Taken(buckets, turns))[c] <= multiset(buckets[j])[c]
    ensures Round(turns, |buckets|) >= |buckets[j]| ==> multiset(Taken(buckets, turns))[c] == multiset(buckets[j])[c]
  {
    TakenIsPrefix(buckets, strata, turns, j);
    FilterCounts(Taken(buckets, turns), Stratum(strata[j]), c);
    FirstCounts(buckets[j], Rounds(turns, j, |buckets|), c);
  }

  lemma EnoughRounds(turns: nat, n: nat, m: nat)
    requires n > 0 && turns >= n * m
    ensures Round(turns, n) >= m
  {
    SlotIsRemainder(turns, n);
    DivMod(turns, n);
    Bound(turns / n, turns % n, n, m);
  }

  lemma {:induction false} FilterShorter(cs: seq<Case>, t: Trait)
    ensures |Filter(cs, t)| <= |cs|
  {
    if cs != [] { FilterShorter(cs[..|cs| - 1], t); }
  }

  /** No case is taken more often than it occurs; after enough turns every case has been taken. */
  lemma TakenCounts(pool: seq<Case>, turns: nat, c: Case)
    requires Buckets(pool) != []
    ensures multiset(Taken(Buckets(pool), turns))[c] <= multiset(pool)[c]
    ensures turns >= |Buckets(pool)| * |pool| ==> multiset(Taken(Buckets(pool), turns))[c] == multiset(pool)[c]
  {
    var buckets, strata := Buckets(pool), Strata(pool);
    BucketsSort(pool);
    if c in pool {
      StratumListed(pool, c);
      var j :| 0 <= j < |strata| && strata[j] == c.stratum;
      TakenCount(buckets, strata, turns, j, c);
      FilterCounts(pool, Stratum(strata[j]), c);
      FilterShorter(pool, Stratum(strata[j]));
      if turns >= |buckets| * |pool| { EnoughRounds(turns, |buckets|, |pool|); }
    } else if c in Taken(buckets, turns) {
      TakenFrom(buckets, turns, c);
      var j :| 0 <= j < |buckets| && c in buckets[j];
      FilterMembers(pool, Stratum(strata[j]), c);
    }
  }

  /** After this many turns every bucket is empty. */
  function Full(pool: seq<Case>): nat { |Buckets(pool)| * |pool| }

  lemma AllTaken(pool: seq<Case>, turns: nat)
    requires Buckets(pool) != []
    ensures |Taken(Buckets(pool), turns)| <= |pool| && multiset(Taken(Buckets(pool), turns)) <= multiset(pool)
    ensures turns >= Full(pool) ==> |Taken(Buckets(pool), turns)| == |pool|
  {
    var taken := Taken(Buckets(pool), turns);
    forall c ensures multiset(taken)[c] <= multiset(pool)[c] { TakenCounts(pool, turns, c); }
    assert multiset(taken) <= multiset(pool);
    assert multiset(pool) == multiset(taken) + (multiset(pool) - multiset(taken));
    if turns >= Full(pool) {
      forall c ensures multiset(taken)[c] == multiset(pool)[c] { TakenCounts(pool, turns, c); }
      assert multiset(taken) == multiset(pool);
    }
  }

  lemma {:induction false} TakenGrows(buckets: seq<seq<Case>>, some: nat, more: nat)
    requires buckets != [] && some <= more
    ensures Taken(buckets, some) <= Taken(buckets, more)
    decreases more
  {
    if some < more { TakenGrows(buckets, some, more - 1); }
  }

  // ---- The selection ----

  function Pool(rank: int -> int, cases: seq<Case>, submode: string): seq<Case> {
    Sort(rank, Filter(cases, Submode(submode)))
  }

  /** What the turns take until the quota is met. */
  function Chosen(pool: seq<Case>, quota: nat): seq<Case> {
    var buckets := Buckets(pool);
    if buckets == [] then [] else First(Taken(buckets, Full(pool)), quota)
  }

  function ChosenAll(rank: int -> int, cases: seq<Case>, quotas: seq<(string, nat)>): seq<Case> {
    if quotas == [] then [] else
    var last := quotas[|quotas| - 1];
    ChosenAll(rank, cases, quotas[..|quotas| - 1]) + Chosen(Pool(rank, cases, last.0), last.1)
  }

  function Selection(rank: int -> int, cases: seq<Case>): seq<Case> {
    Sort(BY_ID, ChosenAll(rank, cases, QUOTAS))
  }

  predicate Enough(cases: seq<Case>, quotas: seq<(string, nat)>) {
    forall q | q in quotas :: |Filter(cases, Submode(q.0))| >= q.1
  }

  lemma BucketsEmpty(pool: seq<Case>)
    ensures Buckets(pool) == [] <==> pool == []
  {
    if pool != [] { StratumListed(pool, pool[0]); }
  }

  /** The turns reach a quota exactly when the pool is large enough; then they stop. */
  lemma {:induction false} QuotaReached(buckets: seq<seq<Case>>, quota: nat, turns: nat) returns (stop: nat)
    requires buckets != [] && quota <= |Taken(buckets, turns)|
    ensures stop <= turns && |Taken(buckets, stop)| == quota
    ensures forall t: nat | t < stop :: |Taken(buckets, t)| < quota
    decreases turns
  {
    if turns == 0 {
      stop := 0;
    } else if |Taken(buckets, turns - 1)| < quota {
      stop := turns;
      forall t: nat | t < turns ensures |Taken(buckets, t)| < quota { TakenGrows(buckets, t, turns - 1); }
    } else {
      stop := QuotaReached(buckets, quota, turns - 1);
    }
  }

  lemma Stops(pool: seq<Case>, quota: nat)
    requires pool != []
    ensures (exists turns: nat :: |Taken(Buckets(pool), turns)| == quota) <==> quota <= |pool|
  {
    BucketsEmpty(pool);
    var full := Full(pool);
    AllTaken(pool, full);
    if quota <= |pool| {
      var stop := QuotaReached(Buckets(pool), quota, full);
    } else {
      forall turns: nat ensures |Taken(Buckets(pool), turns)| != quota { AllTaken(pool, turns); }
    }
  }

  lemma ChosenIs(pool: seq<Case>, quota: nat, stop: nat)
    requires Buckets(pool) != [] && |Taken(Buckets(pool), stop)| == quota
    ensures Taken(Buckets(pool), stop) == Chosen(pool, quota)
  {
    AllTaken(pool, stop);
    AllTaken(pool, Full(pool));
    if stop <= Full(pool) {
      TakenGrows(Buckets(pool), stop, Full(pool));
    } else {
      TakenGrows(Buckets(pool), Full(pool), stop);
    }
  }

  lemma ChosenAtStop(pool: seq<Case>, quota: nat) returns (stop: nat)
    requires pool != [] && quota <= |pool|
    ensures Buckets(pool) != [] && Taken(Buckets(pool), stop) == Chosen(pool, quota) && |Chosen(pool, quota)| == quota
  {
    BucketsEmpty(pool);
    AllTaken(pool, Full(pool));
    stop := QuotaReached(Buckets(pool), quota, Full(pool));
    ChosenIs(pool, quota, stop);
  }

  /** From each stratum the selection takes the first cases in key order, and as many as from any
      other stratum, give or take one, unless the stratum is used up. */
  lemma Stratified(pool: seq<Case>, quota: nat, j: nat, k: nat)
    requires quota <= |pool| && j < |Strata(pool)| && k < |Strata(pool)|
    ensures var a, b := Filter(Chosen(pool, quota), Stratum(Strata(pool)[j])),
        Filter(Chosen(pool, quota), Stratum(Strata(pool)[k]));
      && a <= Filter(pool, Stratum(Strata(pool)[j]))
      && (|a| < |Filter(pool, Stratum(Strata(pool)[j]))| ==> |b| <= |a| + 1)
  {
    BucketsEmpty(pool);
    BucketsSort(pool);
    var stop := ChosenAtStop(pool, quota);
    TakenIsPrefix(Buckets(pool), Strata(pool), stop, j);
    TakenIsPrefix(Buckets(pool), Strata(pool), stop, k);
  }

  lemma ChosenFacts(pool: seq<Case>, quota: nat)
    requires quota <= |pool|
    ensures |Chosen(pool, quota)| == quota && multiset(Chosen(pool, quota)) <= multiset(pool)
  {
    BucketsEmpty(pool);
    if pool != [] {
      var stop := ChosenAtStop(pool, quota);
      AllTaken(pool, stop);
    }
  }

  // ---- Quotas, repetition, order ----

  lemma PoolFacts(rank: int -> int, cases: seq<Case>, submode: string, c: Case)
    ensures multiset(Pool(rank, cases, submode))[c] == if c.submode == submode then multiset(cases)[c] else 0
    ensures |Pool(rank, cases, submode)| == |Filter(cases, Submode(submode))|
  {
    var f := Filter(cases, Submode(submode));
    SortCorrect(rank, f);
    FilterCounts(cases, Submode(submode), c);
    assert |multiset(f)| == |f| && |multiset(Pool(rank, cases, submode))| == |Pool(rank, cases, submode)|;
  }

  predicate DistinctNames(quotas: seq<(string, nat)>) {
    forall i, j | 0 <= i < j < |quotas| :: quotas[i].0 != quotas[j].0
  }

  function Total(quotas: seq<(string, nat)>): nat {
    if quotas == [] then 0 else Total(quotas[..|quotas| - 1]) + quotas[|quotas| - 1].1
  }

  lemma {:induction false} ChosenCounts(rank: int -> int, cases: seq<Case>, quotas: seq<(string, nat)>, c: Case)
    requires Enough(cases, quotas) && DistinctNames(quotas)
    ensures |ChosenAll(rank, cases, quotas)| == Total(quotas)
    ensures multiset(ChosenAll(rank, cases, quotas))[c] <= multiset(cases)[c]
    ensures (forall q | q in quotas :: q.0 != c.submode) ==> multiset(ChosenAll(rank, cases, quotas))[c] == 0
  {
    if quotas != [] {
      var front, last := quotas[..|quotas| - 1], quotas[|quotas| - 1];
      assert forall i | 0 <= i < |front| :: front[i].0 != last.0;
      ChosenCounts(rank, cases, front, c);
      var pool := Pool(rank, cases, last.0);
      PoolFacts(rank, cases, last.0, c);
      assert last in quotas;
      ChosenFacts(pool, last.1);
    }
  }

  lemma {:induction false} FilterAll(cs: seq<Case>, t: Trait)
    ensures (forall c | c in cs :: t.Of(c)) ==> Filter(cs, t) == cs
    ensures (forall c | c in cs :: !t.Of(c)) ==> Filter(cs, t) == []
  {
    if cs != [] {
      FilterAll(cs[..|cs| - 1], t);
      assert cs == cs[..|cs| - 1] + [cs[|cs| - 1]];
    }
  }

  lemma ChosenOfSubmode(rank: int -> int, cases: seq<Case>, submode: string, quota: nat, c: Case)
    requires quota <= |Filter(cases, Submode(submode))| && c in Chosen(Pool(rank, cases, submode), quota)
    ensures c.submode == submode
  {
    PoolFacts(rank, cases, submode, c);
    ChosenFacts(Pool(rank, cases, submode), quota);
    assert c in multiset(Chosen(Pool(rank, cases, submode), quota));
  }

  lemma ChosenPart(rank: int -> int, cases: seq<Case>, submode: string, quota: nat, other: string)
    requires quota <= |Filter(cases, Submode(submode))|
    ensures var b := Chosen(Pool(rank, cases, submode), quota);
      Filter(b, Submode(other)) == if other == submode then b else []
  {
    var b := Chosen(Pool(rank, cases, submode), quota);
    forall c | c in b ensures c.submode == submode { ChosenOfSubmode(rank, cases, submode, quota, c); }
    FilterAll(b, Submode(other));
  }

  /** The last quota adds its own cases, and none for any other submode. */
  lemma ChosenFront(rank: int -> int, cases: seq<Case>, quotas: seq<(string, nat)>, n: nat, submode: string)
    requires n + 1 == |quotas| && quotas[n].1 <= |Filter(cases, Submode(quotas[n].0))|
    ensures Filter(ChosenAll(rank, cases, quotas), Submode(submode))
         == Filter(ChosenAll(rank, cases, quotas[..n]), Submode(submode))
            + if submode == quotas[n].0 then Chosen(Pool(rank, cases, submode), quotas[n].1) else []
  {
    var last := quotas[n];
    FilterConcat(ChosenAll(rank, cases, quotas[..n]), Chosen(Pool(rank, cases, last.0), last.1), Submode(submode));
    ChosenPart(rank, cases, last.0, last.1, submode);
  }

  lemma FrontOf(cases: seq<Case>, quotas: seq<(string, nat)>, n: nat)
    requires n + 1 == |quotas|
    ensures Enough(cases, quotas)
        <==> Enough(cases, quotas[..n]) && |Filter(cases, Submode(quotas[n].0))| >= quotas[n].1
    ensures DistinctNames(quotas) ==> DistinctNames(quotas[..n])
  {
    assert quotas == quotas[..n] + [quotas[n]];
  }

  lemma OtherName(quotas: seq<(string, nat)>, n: nat, q: (string, nat))
    requires n + 1 == |quotas| && DistinctNames(quotas) && q in quotas && q != quotas[n]
    ensures q in quotas[..n] && q.0 != quotas[n].0
  {
    var i :| 0 <= i < |quotas| && quotas[i] == q;
    assert quotas[..n][i] == q;
  }

  lemma NoneYet(rank: int -> int, cases: seq<Case>, quotas: seq<(string, nat)>, n: nat)
    requires n < |quotas| && Enough(cases, quotas[..n]) && DistinctNames(quotas)
    ensures Filter(ChosenAll(rank, cases, quotas[..n]), Submode(quotas[n].0)) == []
  {
    var a := ChosenAll(rank, cases, quotas[..n]);
    forall c | c in a ensures c.submode != quotas[n].0 {
      assert c in multiset(a);
      ChosenCounts(rank, cases, quotas[..n], c);
    }
    FilterAll(a, Submode(quotas[n].0));
  }

  /** Of each submode the selection has what was chosen from its pool. */
  lemma {:induction false} ChosenQuota(rank: int -> int, cases: seq<Case>, quotas: seq<(string, nat)>, q: (string, nat))
    requires Enough(cases, quotas) && DistinctNames(quotas) && q in quotas
    ensures Filter(ChosenAll(rank, cases, quotas), Submode(q.0)) == Chosen(Pool(rank, cases, q.0), q.1)
  {
    var n := |quotas| - 1;
    FrontOf(cases, quotas, n);
    ChosenFront(rank, cases, quotas, n, q.0);
    if q == quotas[n] {
      NoneYet(rank, cases, quotas, n);
    } else {
      OtherName(quotas, n, q);
      ChosenQuota(rank, cases, quotas[..n], q);
    }
  }

  lemma {:induction false} SameCounts(cs: seq<Case>, ds: seq<Case>, t: Trait)
    requires multiset(cs) == multiset(ds)
    ensures multiset(Filter(cs, t)) == multiset(Filter(ds, t))
  {
    forall c ensures multiset(Filter(cs, t))[c] == multiset(Filter(ds, t))[c] {
      FilterCounts(cs, t, c);
      FilterCounts(ds, t, c);
    }
  }

  lemma SortedExact(rank: int -> int, cases: seq<Case>, quotas: seq<(string, nat)>, q: (string, nat))
    requires Enough(cases, quotas) && DistinctNames(quotas) && q in quotas
    ensures var r := Sort(BY_ID, ChosenAll(rank, cases, quotas));
      |r| == Total(quotas) && |Filter(r, Submode(q.0))| == q.1 && multiset(r) <= multiset(cases)
  {
    var all := ChosenAll(rank, cases, quotas);
    var r := Sort(BY_ID, all);
    SortCorrect(BY_ID, all);
    SameCounts(all, r, Submode(q.0));
    ChosenQuota(rank, cases, quotas, q);
    PoolFacts(rank, cases, q.0, Case(0, "", 0, ""));
    ChosenFacts(Pool(rank, cases, q.0), q.1);
    assert |Filter(r, Submode(q.0))| == |multiset(Filter(r, Submode(q.0)))|;
    forall c ensures multiset(all)[c] <= multiset(cases)[c] { ChosenCounts(rank, cases, quotas, c); }
    ChosenCounts(rank, cases, quotas, Case(0, "", 0, ""));
    assert |r| == |multiset(r)| == |all|;
  }

  lemma TotalNext(quotas: seq<(string, nat)>, n: nat)
    requires n < |quotas|
    ensures Total(quotas[..n + 1]) == Total(quotas[..n]) + quotas[n].1
  {
    assert quotas[..n + 1][..n] == quotas[..n];
  }

  lemma QuotasTotal()
    ensures Total(QUOTAS) == SAMPLE_SIZE && DistinctNames(QUOTAS)
  {
    TotalNext(QUOTAS, 0);
    TotalNext(QUOTAS, 1);
    TotalNext(QUOTAS, 2);
    TotalNext(QUOTAS, 3);
    TotalNext(QUOTAS, 4);
    assert QUOTAS[..0] == [] && QUOTAS[..5] == QUOTAS;
  }

  lemma CountTwo(cs: seq<Case>, i: nat, j: nat)
    requires i < j < |cs| && cs[i] == cs[j]
    ensures multiset(cs)[cs[i]] >= 2
  {
    assert cs == cs[..j] + cs[j..];
    assert cs[i] in cs[..j] && cs[j] in cs[j..];
  }

  lemma {:induction false} CountOnce(cs: seq<Case>, c: Case)
    requires UniqueIds(cs)
    ensures multiset(cs)[c] <= 1
  {
    if cs != [] {
      CountOnce(cs[..|cs| - 1], c);
      assert cs == cs[..|cs| - 1] + [cs[|cs| - 1]];
      if c == cs[|cs| - 1] { assert c !in cs[..|cs| - 1]; }
    }
  }

  lemma UniqueCounts(cs: seq<Case>, ds: seq<Case>)
    requires multiset(cs) <= multiset(ds) && UniqueIds(ds)
    ensures UniqueIds(cs)
  {
    forall i, j | 0 <= i < j < |cs| ensures cs[i].id != cs[j].id {
      var c, d := cs[i], cs[j];
      assert c in multiset(cs) && d in multiset(cs);
      if c == d {
        CountTwo(cs, i, j);
        CountOnce(ds, c);
        assert false;
      } else {
        assert c in ds && d in ds;
      }
    }
  }

  /** The sample meets every quota and the total, and repeats nothing. */
  lemma SampleExact(rank: int -> int, cases: seq<Case>, q: (string, nat))
    requires Enough(cases, QUOTAS) && q in QUOTAS
    ensures |Selection(rank, cases)| == SAMPLE_SIZE
    ensures |Filter(Selection(rank, cases), Submode(q.0))| == q.1
    ensures multiset(Selection(rank, cases)) <= multiset(cases)
    ensures UniqueIds(cases) ==> UniqueIds(Selection(rank, cases))
  {
    QuotasTotal();
    SortedExact(rank, cases, QUOTAS, q);
    if UniqueIds(cases) { UniqueCounts(Selection(rank, cases), cases); }
  }

  /** The cases of one submode and stratum in the sample. */
  function Share(rank: int -> int, cases: seq<Case>, submode: string, stratum: int): seq<Case> {
    Filter(Filter(Selection(rank, cases), Submode(submode)), Stratum(stratum))
  }

  lemma ShareIsChosen(rank: int -> int, cases: seq<Case>, q: (string, nat), stratum: int)
    requires Enough(cases, QUOTAS) && q in QUOTAS
    ensures multiset(Share(rank, cases, q.0, stratum))
        == multiset(Filter(Chosen(Pool(rank, cases, q.0), q.1), Stratum(stratum)))
    ensures |Share(rank, cases, q.0, stratum)| == |Filter(Chosen(Pool(rank, cases, q.0), q.1), Stratum(stratum))|
  {
    var all := ChosenAll(rank, cases, QUOTAS);
    QuotasTotal();
    SortCorrect(BY_ID, all);
    SameCounts(Selection(rank, cases), all, Submode(q.0));
    ChosenQuota(rank, cases, QUOTAS, q);
    var chosen := Chosen(Pool(rank, cases, q.0), q.1);
    SameCounts(Filter(Selection(rank, cases), Submode(q.0)), chosen, Stratum(stratum));
    var share, part := Share(rank, cases, q.0, stratum), Filter(chosen, Stratum(stratum));
    assert |share| == |multiset(share)| && |part| == |multiset(part)|;
  }

  /** The returned sample: of each submode and each of its strata it holds the first cases in key order, and
      as many as of any other stratum of the submode, give or take one, unless the stratum is used up. */
  lemma SampleStratified(rank: int -> int, cases: seq<Case>, q: (string, nat), j: nat, k: nat)
    requires Enough(cases, QUOTAS) && q in QUOTAS
    requires j < |Strata(Pool(rank, cases, q.0))| && k < |Strata(Pool(rank, cases, q.0))|
    ensures var pool := Pool(rank, cases, q.0);
      var s, t := Strata(pool)[j], Strata(pool)[k];
      var bucket, a, b := Filter(pool, Stratum(s)), Share(rank, cases, q.0, s), Share(rank, cases, q.0, t);
      && multiset(a) == multiset(First(bucket, |a|)) && |a| <= |bucket|
      && (|a| < |bucket| ==> |b| <= |a| + 1)
  {
    var pool := Pool(rank, cases, q.0);
    PoolFacts(rank, cases, q.0, Case(0, "", 0, ""));
    Stratified(pool, q.1, j, k);
    ShareIsChosen(rank, cases, q, Strata(pool)[j]);
    ShareIsChosen(rank, cases, q, Strata(pool)[k]);
    var a, bucket := Filter(Chosen(pool, q.1), Stratum(Strata(pool)[j])), Filter(pool, Stratum(Strata(pool)[j]));
    assert a == First(bucket, |a|);
  }

  lemma Tail(rank: int -> int, cs: seq<Case>)
    requires Ordered(rank, cs) && cs != []
    ensures Ordered(rank, cs[1..]) && (UniqueIds(cs) ==> UniqueIds(cs[1..]))
    ensures multiset(cs[1..]) == multiset(cs) - multiset{cs[0]}
  {
    assert cs == [cs[0]] + cs[1..];
  }

  lemma SameFirst(rank: int -> int, cs: seq<Case>, ds: seq<Case>)
    requires Ordered(rank, cs) && Ordered(rank, ds) && multiset(cs) == multiset(ds) && UniqueIds(cs) && cs != []
        && ds != []
    ensures cs[0] == ds[0]
  {
    assert cs[0] in multiset(ds) && ds[0] in multiset(cs);
    var i :| 0 <= i < |ds| && ds[i] == cs[0];
    var j :| 0 <= j < |cs| && cs[j] == ds[0];
    assert Leq(rank, cs[0], cs[j]) && Leq(rank, ds[0], ds[i]);
  }

  /** A list with unique ids has only one sorted arrangement. */
  lemma {:induction false} SortedOnce(rank: int -> int, cs: seq<Case>, ds: seq<Case>)
    requires Ordered(rank, cs) && Ordered(rank, ds) && multiset(cs) == multiset(ds) && UniqueIds(cs)
    ensures cs == ds
  {
    assert |cs| == |multiset(cs)| == |ds|;
    if cs != [] {
      SameFirst(rank, cs, ds);
      Tail(rank, cs);
      Tail(rank, ds);
      assert multiset(ds[1..]) == multiset(ds) - multiset{ds[0]};
      SortedOnce(rank, cs[1..], ds[1..]);
      assert cs == [cs[0]] + cs[1..] && ds == [ds[0]] + ds[1..];
    }
  }

  lemma PoolOrder(rank: int -> int, cs: seq<Case>, ds: seq<Case>, submode: string)
    requires multiset(cs) == multiset(ds) && UniqueIds(cs)
    ensures Pool(rank, cs, submode) == Pool(rank, ds, submode)
  {
    var a, b := Filter(cs, Submode(submode)), Filter(ds, Submode(submode));
    SameCounts(cs, ds, Submode(submode));
    SortCorrect(rank, a);
    SortCorrect(rank, b);
    forall c ensures multiset(a)[c] <= multiset(cs)[c] { FilterCounts(cs, Submode(submode), c); }
    UniqueCounts(Sort(rank, a), cs);
    SortedOnce(rank, Sort(rank, a), Sort(rank, b));
  }

  lemma {:induction false} ChosenOrder(rank: int -> int, cs: seq<Case>, ds: seq<Case>, quotas: seq<(string, nat)>)
    requires multiset(cs) == multiset(ds) && UniqueIds(cs)
    ensures ChosenAll(rank, cs, quotas) == ChosenAll(rank, ds, quotas)
  {
    if quotas != [] {
      ChosenOrder(rank, cs, ds, quotas[..|quotas| - 1]);
      PoolOrder(rank, cs, ds, quotas[|quotas| - 1].0);
    }
  }

  /** With unique ids the sample does not depend on the order of the input, and is in id order. */
  lemma OrderIrrelevant(rank: int -> int, cs: seq<Case>, ds: seq<Case>)
    requires multiset(cs) == multiset(ds) && UniqueIds(cs)
    ensures Selection(rank, cs) == Selection(rank, ds)
    ensures Ordered(BY_ID, Selection(rank, cs))
  {
    ChosenOrder(rank, cs, ds, QUOTAS);
    SortCorrect(BY_ID, ChosenAll(rank, cs, QUOTAS));
  }

  // ---- The program ----

  method GroupBySubmode(cases: seq<Case>) returns (groups: map<string, seq<Case>>)
    ensures forall m :: (if m in groups then groups[m] else []) == Filter(cases, Submode(m))
  {
    groups := map[];
    var n := 0;
    while n < |cases|
      invariant n <= |cases|
      invariant forall m :: (if m in groups then groups[m] else []) == Filter(cases[..n], Submode(m))
    {
      var m := cases[n].submode;
      assert cases[..n + 1][..n] == cases[..n];
      groups := groups[m := (if m in groups then groups[m] else []) + [cases[n]]];
      n := n + 1;
    }
    assert cases[..n] == cases;
  }

  method GroupByStratum(pool: seq<Case>) returns (groups: map<int, seq<Case>>)
    ensures forall t :: t in groups <==> t in Strata(pool)
    ensures forall t | t in groups :: groups[t] == Filter(pool, Stratum(t))
  {
    groups := map[];
    var n := 0;
    while n < |pool|
      invariant n <= |pool|
      invariant forall t :: t in groups <==> t in Strata(pool[..n])
      invariant forall t :: (if t in groups then groups[t] else []) == Filter(pool[..n], Stratum(t))
    {
      var t := pool[n].stratum;
      assert pool[..n + 1][..n] == pool[..n];
      groups := groups[t := (if t in groups then groups[t] else []) + [pool[n]]];
      n := n + 1;
    }
    assert pool[..n] == pool;
  }

  function Rest(b: seq<Case>, k: nat): seq<Case> { b[Min(|b|, k)..] }

  /** A turn takes the first case that is left in its bucket and leaves the other buckets alone. */
  lemma RestStep(buckets: seq<seq<Case>>, i: nat, j: nat)
    requires j < |buckets|
    ensures var n := |buckets|;
      var rest := Rest(buckets[j], Rounds(i, j, n));
      && Rest(buckets[j], Rounds(i + 1, j, n)) == (if j == Slot(i, n) && rest != [] then rest[1..] else rest)
      && (j == Slot(i, n) ==> Turn(buckets, i) == if rest == [] then [] else [rest[0]])
  {
    NextTurn(i, j, |buckets|);
  }

  /** In the map of buckets is left whatever has not been taken. */
  ghost predicate Left(groups: map<int, seq<Case>>, strata: seq<int>, buckets: seq<seq<Case>>, taken: seq<Case>)
    requires |strata| == |buckets|
  {
    forall j: nat | j < |strata| ::
      strata[j] in groups && groups[strata[j]] == Rest(buckets[j], |Filter(taken, Stratum(strata[j]))|)
  }

  lemma RestTaken(strata: seq<int>, buckets: seq<seq<Case>>, turns: nat, j: nat)
    requires Sorts(buckets, strata) && j < |buckets|
    ensures Rest(buckets[j], |Filter(Taken(buckets, turns), Stratum(strata[j]))|)
         == Rest(buckets[j], Rounds(turns, j, |buckets|))
  {
    TakenIsPrefix(buckets, strata, turns, j);
  }

  lemma LeftNext(strata: seq<int>, buckets: seq<seq<Case>>, turn: nat, j: nat)
    requires Sorts(buckets, strata) && j < |buckets|
    ensures var rest := Rest(buckets[j], |Filter(Taken(buckets, turn), Stratum(strata[j]))|);
      && Rest(buckets[j], |Filter(Taken(buckets, turn + 1), Stratum(strata[j]))|)
         == (if j == Slot(turn, |buckets|) && rest != [] then rest[1..] else rest)
      && (j == Slot(turn, |buckets|) ==> Turn(buckets, turn) == if rest == [] then [] else [rest[0]])
  {
    RestTaken(strata, buckets, turn, j);
    RestTaken(strata, buckets, turn + 1, j);
    RestStep(buckets, turn, j);
  }

  method TakeTurn(groups: map<int, seq<Case>>, strata: seq<int>, turn: nat, ghost buckets: seq<seq<Case>>)
    returns (left: map<int, seq<Case>>, more: seq<Case>)
    requires strata != [] && Sorts(buckets, strata) && Left(groups, strata, buckets, Taken(buckets, turn))
    ensures Left(left, strata, buckets, Taken(buckets, turn + 1)) && more == Turn(buckets, turn)
  {
    var j := turn % |strata|;
    SlotIsRemainder(turn, |strata|);
    var bucket := groups[strata[j]];
    left, more := groups, [];
    if bucket != [] {
      more := [bucket[0]];
      left := groups[strata[j] := bucket[1..]];
    }
    LeftNext(strata, buckets, turn, j);
    forall k: nat | k < |strata|
      ensures strata[k] in left
          && left[strata[k]] == Rest(buckets[k], |Filter(Taken(buckets, turn + 1), Stratum(strata[k]))|)
    {
      LeftNext(strata, buckets, turn, k);
    }
  }

  lemma AllLeft(pool: seq<Case>, groups: map<int, seq<Case>>)
    requires forall t :: t in groups <==> t in Strata(pool)
    requires forall t | t in groups :: groups[t] == Filter(pool, Stratum(t))
    ensures Left(groups, Strata(pool), Buckets(pool), [])
  {
    var strata := Strata(pool);
    forall j: nat | j < |strata| ensures strata[j] in groups && groups[strata[j]] == Rest(Buckets(pool)[j], 0) {
      assert strata[j] in strata;
    }
  }

  lemma AllOfSubmode(before: seq<Case>, pool: seq<Case>, turns: nat, submode: string)
    requires Buckets(pool) != [] && (forall c | c in pool :: c.submode == submode)
        && Filter(before, Submode(submode)) == []
    ensures Filter(before + Taken(Buckets(pool), turns), Submode(submode)) == Taken(Buckets(pool), turns)
  {
    var taken := Taken(Buckets(pool), turns);
    FilterConcat(before, taken, Submode(submode));
    AllTaken(pool, turns);
    forall c | c in taken ensures c.submode == submode { assert c in multiset(taken); assert c in multiset(pool); }
    FilterAll(taken, Submode(submode));
  }

  /** What the loop over the strata keeps. */
  ghost predicate Progress(before: seq<Case>, pool: seq<Case>, submode: string, groups: map<int, seq<Case>>,
                           selected: seq<Case>, turn: nat) {
    && Buckets(pool) != []
    && Left(groups, Strata(pool), Buckets(pool), Taken(Buckets(pool), turn))
    && selected == before + Taken(Buckets(pool), turn)
    && Filter(selected, Submode(submode)) == Taken(Buckets(pool), turn)
  }

  method Start(ghost before: seq<Case>, pool: seq<Case>, ghost submode: string) returns (groups: map<int, seq<Case>>)
    requires pool != [] && Filter(before, Submode(submode)) == [] && forall c | c in pool :: c.submode == submode
    ensures Progress(before, pool, submode, groups, before, 0)
  {
    groups := GroupByStratum(pool);
    BucketsEmpty(pool);
    assert before == before + Taken(Buckets(pool), 0);
    AllLeft(pool, groups);
  }

  lemma Reached(before: seq<Case>, pool: seq<Case>, submode: string, groups: map<int, seq<Case>>, selected: seq<Case>,
                turn: nat, quota: nat)
    requires Progress(before, pool, submode, groups, selected, turn) && quota <= |pool|
    ensures |Filter(selected, Submode(submode))| == |selected| - |before|
    ensures |selected| - |before| < quota ==> turn < Full(pool)
    ensures |selected| - |before| == quota ==> selected == before + Chosen(pool, quota)
  {
    AllTaken(pool, turn);
    if |selected| - |before| == quota { ChosenIs(pool, quota, turn); }
  }

  lemma TakenNext(before: seq<Case>, pool: seq<Case>, turn: nat, submode: string)
    requires Buckets(pool) != [] && Filter(before, Submode(submode)) == []
    requires forall c | c in pool :: c.submode == submode
    ensures var taken, more, next := Taken(Buckets(pool), turn), Turn(Buckets(pool), turn),
        Taken(Buckets(pool), turn + 1);
      && before + taken + more == before + next
      && Filter(before + next, Submode(submode)) == next
  {
    AllOfSubmode(before, pool, turn + 1, submode);
    assert Taken(Buckets(pool), turn + 1) == Taken(Buckets(pool), turn) + Turn(Buckets(pool), turn);
  }

  method Advance(ghost before: seq<Case>, ghost pool: seq<Case>, ghost submode: string, groups: map<int, seq<Case>>,
                 strata: seq<int>, selected: seq<Case>, turn: nat)
    returns (left: map<int, seq<Case>>, next: seq<Case>)
    requires strata == Strata(pool) && Progress(before, pool, submode, groups, selected, turn)
    requires Filter(before, Submode(submode)) == [] && forall c | c in pool :: c.submode == submode
    ensures Progress(before, pool, submode, left, next, turn + 1) && |next| <= |selected| + 1
  {
    BucketsSort(pool);
    var more;
    left, more := TakeTurn(groups, strata, turn, Buckets(pool));
    next := selected + more;
    TakenNext(before, pool, turn, submode);
  }

  /** The loop over the strata. It counts what is selected so far by filtering the whole list. */
  method TakeTurns(before: seq<Case>, pool: seq<Case>, submode: string, quota: nat) returns (selected: seq<Case>)
    requires pool != [] && quota <= |pool|
    requires Filter(before, Submode(submode)) == [] && forall c | c in pool :: c.submode == submode
    ensures selected == before + Chosen(pool, quota)
  {
    var groups := Start(before, pool, submode);
    var strata := Strata(pool);
    var turn := 0;
    selected := before;
    ghost var full: int := Full(pool);
    Reached(before, pool, submode, groups, selected, turn, quota);
    while |Filter(selected, Submode(submode))| < quota
      invariant Progress(before, pool, submode, groups, selected, turn)
      invariant |Filter(selected, Submode(submode))| == |selected| - |before| <= quota
      invariant |selected| - |before| < quota ==> turn < full
      invariant |selected| - |before| == quota ==> selected == before + Chosen(pool, quota)
      decreases full - turn
    {
      groups, selected := Advance(before, pool, submode, groups, strata, selected, turn);
      turn := turn + 1;
      Reached(before, pool, submode, groups, selected, turn, quota);
    }
  }

  datatype Failure = WrongSize | DivisionByZero

  predicate Empty(cases: seq<Case>, q: (string, nat)) { Filter(cases, Submode(q.0)) == [] && q.1 > 0 }

  /** The first submode with fewer cases than its quota, if there is one, has none at all. With some but too
      few, the turns go round for ever (see Stops); with none, the first turn divides by zero. */
  predicate Ends(cases: seq<Case>, quotas: seq<(string, nat)>) {
    forall n | 0 <= n < |quotas| && |Filter(cases, Submode(quotas[n].0))| < quotas[n].1 ::
      Filter(cases, Submode(quotas[n].0)) == [] || exists m | 0 <= m < n :: Empty(cases, quotas[m])
  }

  lemma TooFew(cases: seq<Case>, quotas: seq<(string, nat)>, n: nat)
    requires n < |quotas| && Empty(cases, quotas[n])
    ensures !Enough(cases, quotas)
  {
    assert quotas[n] in quotas;
  }

  /** As long as every submode had enough, the next one has none or enough. */
  lemma NoneEmptyYet(cases: seq<Case>, quotas: seq<(string, nat)>, n: nat)
    requires Ends(cases, quotas) && n < |quotas| && Enough(cases, quotas[..n])
    requires Filter(cases, Submode(quotas[n].0)) != []
    ensures |Filter(cases, Submode(quotas[n].0))| >= quotas[n].1
  {
    forall m | 0 <= m < n ensures !Empty(cases, quotas[m]) { assert quotas[m] in quotas[..n]; }
  }

  lemma NextQuota(rank: int -> int, cases: seq<Case>, quotas: seq<(string, nat)>, n: nat)
    requires Ends(cases, quotas) && DistinctNames(quotas) && n < |quotas| && Enough(cases, quotas[..n])
    requires Filter(cases, Submode(quotas[n].0)) != []
    ensures |Filter(cases, Submode(quotas[n].0))| >= quotas[n].1 && Enough(cases, quotas[..n + 1])
    ensures Filter(ChosenAll(rank, cases, quotas[..n]), Submode(quotas[n].0)) == []
    ensures ChosenAll(rank, cases, quotas[..n + 1])
         == ChosenAll(rank, cases, quotas[..n]) + Chosen(Pool(rank, cases, quotas[n].0), quotas[n].1)
  {
    assert quotas[..n + 1][..n] == quotas[..n];
    NoneEmptyYet(cases, quotas, n);
    NoneYet(rank, cases, quotas, n);
    FrontOf(cases, quotas[..n + 1], n);
  }

  lemma PoolOfSubmode(rank: int -> int, cases: seq<Case>, submode: string)
    ensures |Pool(rank, cases, submode)| == |Filter(cases, Submode(submode))|
    ensures forall c | c in Pool(rank, cases, submode) :: c.submode == submode
  {
    PoolFacts(rank, cases, submode, Case(0, "", 0, ""));
    forall c | c in Pool(rank, cases, submode) ensures c.submode == submode {
      assert c in multiset(Pool(rank, cases, submode));
      PoolFacts(rank, cases, submode, c);
    }
  }

  method SelectQuotas(rank: int -> int, cases: seq<Case>, quotas: seq<(string, nat)>)
    returns (r: Result<seq<Case>, Failure>)
    requires Ends(cases, quotas) && DistinctNames(quotas) && forall q | q in quotas :: q.1 > 0
    ensures r.Ok? <==> Enough(cases, quotas)
    ensures r.Ok? ==> r.value == ChosenAll(rank, cases, quotas)
    ensures r.Err? ==> r.error == DivisionByZero
  {
    var groups := GroupBySubmode(cases);
    var selected := [];
    var n := 0;
    while n < |quotas|
      invariant n <= |quotas| && Enough(cases, quotas[..n]) && selected == ChosenAll(rank, cases, quotas[..n])
    {
      var submode, quota := quotas[n].0, quotas[n].1;
      var pool := Sort(rank, if submode in groups then groups[submode] else []);
      assert quotas[n] in quotas;
      PoolOfSubmode(rank, cases, submode);
      if pool == [] {
        TooFew(cases, quotas, n);
        return Err(DivisionByZero);
      }
      NextQuota(rank, cases, quotas, n);
      selected := TakeTurns(selected, pool, submode, quota);
      n := n + 1;
    }
    assert quotas[..n] == quotas;
    r := Ok(selected);
  }

  /** Selects the sample; any size but the tracked one is refused. */
  method SelectCases(rank: int -> int, cases: seq<Case>, size: int) returns (r: Result<seq<Case>, Failure>)
    requires size == SAMPLE_SIZE ==> Ends(cases, QUOTAS)
    ensures r.Ok? <==> size == SAMPLE_SIZE && Enough(cases, QUOTAS)
    ensures r.Ok? ==> r.value == Selection(rank, cases)
    ensures r.Err? ==> r.error == if size == SAMPLE_SIZE then DivisionByZero else WrongSize
  {
    if size != SAMPLE_SIZE { return Err(WrongSize); }
    QuotasTotal();
    r := SelectQuotas(rank, cases, QUOTAS);
    if r.Ok? { r := Ok(Sort(BY_ID, r.value)); }
  }
}
