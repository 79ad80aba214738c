/** The decision engine of `src/lib/decisions.ts`: weighted pro/contra scoring
    into a three-way verdict, and the saved-decision list. */
module Decisions {
  import opened Seqs

  type Id = string

  /** An argument; the form offers weights 1 to 5. */
  datatype Argument = Argument(id: Id, text: string, weight: int)

  datatype Verdict = Pro | Contra | Neutral

  datatype Score = Score(proScore: int, contraScore: int, result: Verdict, resultText: string)

  datatype Decision = Decision(
    id: Id,
    title: string,
    pros: seq<Argument>,
    contras: seq<Argument>,
    proScore: int,
    contraScore: int,
    result: Verdict,
    resultText: string,
    createdAt: string)

  /** `args.reduce((sum, a) => sum + a.weight, 0)`, folded from the left. */
  function SumWeights(args: seq<Argument>): int
  {
    if args == [] then 0 else SumWeights(args[..|args| - 1]) + args[|args| - 1].weight
  }

  /** The fixed German text shown for each verdict. */
  function ResultText(v: Verdict): string
  {
    match v
    case Pro => "Rational sinnvoll"
    case Contra => "Eher nicht sinnvoll"
    case Neutral => "Unentschieden – Bauchgefühl prüfen"
  }

  /** `calculateResult`: the side with the larger weight sum wins; equal sums are neutral. */
  function CalculateResult(pros: seq<Argument>, contras: seq<Argument>): (r: Score)
    ensures r.proScore == SumWeights(pros) && r.contraScore == SumWeights(contras)
    ensures r.result == Pro <==> r.proScore > r.contraScore
    ensures r.result == Contra <==> r.contraScore > r.proScore
    ensures r.result == Neutral <==> r.proScore == r.contraScore
    ensures r.resultText == ResultText(r.result)
  {
    var proScore := SumWeights(pros);
    var contraScore := SumWeights(contras);
    if proScore > contraScore then Score(proScore, contraScore, Pro, ResultText(Pro))
    else if contraScore > proScore then Score(proScore, contraScore, Contra, ResultText(Contra))
    else Score(proScore, contraScore, Neutral, ResultText(Neutral))
  }

  /** The three texts are distinct, so the text alone tells the verdict. */
  lemma ResultTextDistinct(a: Verdict, b: Verdict)
    ensures ResultText(a) == ResultText(b) <==> a == b
  {
  }

  lemma {:induction false} SumWeightsAppend(a: seq<Argument>, b: seq<Argument>)
    ensures SumWeights(a + b) == SumWeights(a) + SumWeights(b)
  {
    if b == [] {
      assert a + b == a;
    } else {
      assert (a + b)[..|a + b| - 1] == a + b[..|b| - 1];
      SumWeightsAppend(a, b[..|b| - 1]);
    }
  }

  /** With weights between 1 and 5, a side scores between its argument count and five times it. */
  lemma {:induction false} SumWeightsBounds(args: seq<Argument>)
    requires forall i :: 0 <= i < |args| ==> 1 <= args[i].weight <= 5
    ensures |args| <= SumWeights(args) <= 5 * |args|
  {
    if args != [] {
      SumWeightsBounds(args[..|args| - 1]);
    }
  }

  /** A pro argument added to a verdict that is not contra makes it pro. */
  lemma {:induction false} ProArgumentHelps(pros: seq<Argument>, contras: seq<Argument>, a: Argument)
    requires a.weight >= 1
    requires CalculateResult(pros, contras).result != Contra
    ensures CalculateResult(pros + [a], contras).result == Pro
  {
    SumWeightsAppend(pros, [a]);
    assert SumWeights([a]) == a.weight by {
      assert [a][..0] == [];
    }
  }

  /** A contra argument added to a verdict that is not pro makes it contra. */
  lemma {:induction false} ContraArgumentHelps(pros: seq<Argument>, contras: seq<Argument>, a: Argument)
    requires a.weight >= 1
    requires CalculateResult(pros, contras).result != Pro
    ensures CalculateResult(pros, contras + [a]).result == Contra
  {
    SumWeightsAppend(contras, [a]);
    assert SumWeights([a]) == a.weight by {
      assert [a][..0] == [];
    }
  }

  /** No arguments at all: 0 to 0, neutral. */
  lemma EmptyIsNeutral()
    ensures CalculateResult([], []) == Score(0, 0, Neutral, ResultText(Neutral))
  {
  }

  /** Pros weighted 3 and 2 against a contra weighted 4: 5 to 4, pro. */
  lemma WeightedExample(p1: Argument, p2: Argument, c1: Argument)
    requires p1.weight == 3 && p2.weight == 2 && c1.weight == 4
    ensures CalculateResult([p1, p2], [c1]).proScore == 5
    ensures CalculateResult([p1, p2], [c1]).contraScore == 4
    ensures CalculateResult([p1, p2], [c1]).result == Pro
  {
    assert [p1, p2][..1] == [p1];
    assert [p1][..0] == [] && [c1][..0] == [];
    assert SumWeights([p1]) == 3;
    assert SumWeights([p1, p2]) == 5;
    assert SumWeights([c1]) == 4;
  }

  /** The saved decisions as `loadDecisions` returns them. */
  class DecisionStore {
    var decisions: seq<Decision>

    constructor ()
      ensures decisions == []
    {
      decisions := [];
    }

    /** `saveDecision`: the new decision goes first. */
    method SaveDecision(decision: Decision)
      modifies this
      ensures decisions == [decision] + old(decisions)
      ensures decisions[0] == decision && |decisions| == |old(decisions)| + 1
    {
      decisions := [decision] + decisions;
    }

    /** `deleteDecision`: drops every decision with that id, keeping the others in order. */
    method DeleteDecision(id: Id)
      modifies this
      ensures decisions == Filter(old(decisions), (d: Decision) => d.id != id)
      ensures forall i :: 0 <= i < |decisions| ==> decisions[i].id != id
      ensures IsSubseq(decisions, old(decisions))
      ensures forall i :: 0 <= i < |old(decisions)| && old(decisions)[i].id != id ==> old(decisions)[i] in decisions
    {
      decisions := Filter(decisions, (d: Decision) => d.id != id);
    }
  }
}
