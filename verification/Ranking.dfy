/** Best opportunity first: tier, then score, then ratio, then expected profit. */
module Ranking {

  /** What an outcome is ranked by. */
  datatype Merit = Merit(grade: nat, score: real, riskReward: real, expectedProfit: real)

  predicate Better(a: Merit, b: Merit) {
    if a.grade != b.grade then a.grade > b.grade
    else if a.score != b.score then a.score > b.score
    else if a.riskReward != b.riskReward then a.riskReward > b.riskReward
    else a.expectedProfit > b.expectedProfit
  }

  /** Each criterion decides only between outcomes that tie on all before it. */
  lemma BetterComparesInTurn(a: Merit, b: Merit)
    ensures Better(a, b) <==>
      || a.grade > b.grade
      || (a.grade == b.grade && a.score > b.score)
      || (a.grade == b.grade && a.score == b.score && a.riskReward > b.riskReward)
      || (a.grade == b.grade && a.score == b.score && a.riskReward == b.riskReward && a.expectedProfit > b.expectedProfit)
  {
  }

  /** Puts an outcome after every one it does not beat. */
  function Place<X>(ranked: seq<(Merit, X)>, x: (Merit, X)): seq<(Merit, X)> {
    if ranked == [] || !Better(x.0, ranked[|ranked| - 1].0) then ranked + [x]
    else Place(ranked[..|ranked| - 1], x) + [ranked[|ranked| - 1]]
  }

  /** The stable descending sort. */
  function Ranked<X>(outcomes: seq<(Merit, X)>): seq<(Merit, X)> {
    if outcomes == [] then []
    else Place(Ranked(outcomes[..|outcomes| - 1]), outcomes[|outcomes| - 1])
  }

  ghost predicate BestFirst<X>(ranked: seq<(Merit, X)>) {
    forall i, j :: 0 <= i < j < |ranked| ==> !Better(ranked[j].0, ranked[i].0)
  }

  /** The outcomes of one merit, in order. */
  function Ties<X>(outcomes: seq<(Merit, X)>, merit: Merit): seq<(Merit, X)> {
    if outcomes == [] then []
    else
      var n := |outcomes| - 1;
      if outcomes[n].0 == merit then Ties(outcomes[..n], merit) + [outcomes[n]] else Ties(outcomes[..n], merit)
  }

  lemma AppendKeepsBestFirst<X>(ranked: seq<(Merit, X)>, x: (Merit, X))
    requires BestFirst(ranked) && forall y :: y in ranked ==> !Better(x.0, y.0)
    ensures BestFirst(ranked + [x])
  {
  }

  lemma {:induction false} PlaceAddsOne<X>(ranked: seq<(Merit, X)>, x: (Merit, X))
    ensures multiset(Place(ranked, x)) == multiset(ranked) + multiset{x}
  {
    if ranked != [] && Better(x.0, ranked[|ranked| - 1].0) {
      var n := |ranked| - 1;
      PlaceAddsOne(ranked[..n], x);
      assert ranked == ranked[..n] + [ranked[n]];
    }
  }

  lemma {:induction false} PlaceKeepsBestFirst<X>(ranked: seq<(Merit, X)>, x: (Merit, X))
    requires BestFirst(ranked)
    ensures BestFirst(Place(ranked, x))
  {
    hide Better;
    if ranked == [] || !Better(x.0, ranked[|ranked| - 1].0) {
      forall y | y in ranked ensures !Better(x.0, y.0) {
        NoneBeatenBelow(ranked, x.0, y);
      }
      AppendKeepsBestFirst(ranked, x);
    } else {
      var n := |ranked| - 1;
      PlaceKeepsBestFirst(ranked[..n], x);
      PlaceAddsOne(ranked[..n], x);
      var rest := Place(ranked[..n], x);
      forall y | y in rest ensures !Better(ranked[n].0, y.0) {
        assert y in multiset(rest);
        BetterIsAnOrder(x.0, ranked[n].0, x.0);
      }
      AppendKeepsBestFirst(rest, ranked[n]);
    }
  }

  lemma NoneBeatenBelow<X>(ranked: seq<(Merit, X)>, m: Merit, y: (Merit, X))
    requires BestFirst(ranked) && ranked != [] && !Better(m, ranked[|ranked| - 1].0) && y in ranked
    ensures !Better(m, y.0)
  {
  }

  /** Irreflexive and asymmetric, and what is not beaten by the worst is not beaten by anything above it. */
  lemma BetterIsAnOrder(a: Merit, b: Merit, c: Merit)
    ensures !Better(a, a)
    ensures Better(a, b) ==> !Better(b, a)
    ensures !Better(a, c) && !Better(c, b) ==> !Better(a, b)
  {
  }

  lemma {:induction false} PlaceKeepsTies<X>(ranked: seq<(Merit, X)>, x: (Merit, X), merit: Merit)
    requires BestFirst(ranked)
    ensures Ties(Place(ranked, x), merit) == if x.0 == merit then Ties(ranked, merit) + [x] else Ties(ranked, merit)
  {
    if ranked == [] || !Better(x.0, ranked[|ranked| - 1].0) {
      assert (ranked + [x])[..|ranked|] == ranked;
    } else {
      var n := |ranked| - 1;
      var rest := Place(ranked[..n], x);
      PlaceKeepsTies(ranked[..n], x, merit);
      assert (rest + [ranked[n]])[..|rest|] == rest;
      BetterIsAnOrder(x.0, ranked[n].0, x.0);
    }
  }

  /** The ranking is a stable descending permutation. */
  lemma {:induction false} RankingRanks<X>(outcomes: seq<(Merit, X)>)
    ensures multiset(Ranked(outcomes)) == multiset(outcomes)
    ensures BestFirst(Ranked(outcomes))
    ensures forall merit :: Ties(Ranked(outcomes), merit) == Ties(outcomes, merit)
  {
    if outcomes != [] {
      hide Place, BestFirst;
      var n := |outcomes| - 1;
      var x, rest := outcomes[n], Ranked(outcomes[..n]);
      RankingRanks(outcomes[..n]);
      PlaceAddsOne(rest, x);
      PlaceKeepsBestFirst(rest, x);
      assert outcomes == outcomes[..n] + [x];
      forall merit ensures Ties(Ranked(outcomes), merit) == Ties(outcomes, merit) {
        PlaceKeepsTies(rest, x, merit);
      }
    }
  }
}
