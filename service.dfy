/** The question-answering service of kg_rag/service.py: it runs the retriever, hands the
    retrieved context and the question to the answer generator, adds up the two
    environmental-impact measurements and assembles the response. */
module Service {
  import opened Wrappers
  import opened EnvImpacts
  import opened LlmRetriever

  /** The generator's output dictionary: the answer and the impacts of its completion. */
  datatype GeneratorOutput = GeneratorOutput(answer: string, envImpacts: Impacts)

  /** The response dictionary.  The merged impacts are a list of name/value/unit entries. */
  datatype RunResult = RunResult(executionTime: real, llmQuery: string, context: string,
                                 answer: string, envImpacts: seq<Measurement>)

  // ---------------------------------------------------------------------------
  // Merging the two impact measurements

  /** What the retriever adds to quantity `q`: its value when its output carries impacts,
      0 otherwise. */
  function Contribution(retrieverImpacts: Option<Impacts>, q: Quantity): real
  {
    if retrieverImpacts.Some? then Pick(retrieverImpacts.value, q).value else 0.0
  }

  /** The merged entry for `q`: the generator's name and unit, the sum of the values. */
  function MergedEntry(retrieverImpacts: Option<Impacts>, generatorImpacts: Impacts, q: Quantity): Measurement
  {
    var m := Pick(generatorImpacts, q);
    Measurement(m.name, m.value + Contribution(retrieverImpacts, q), m.unit)
  }

  /** The merged list, one entry per quantity in the reporting order. */
  function MergedImpacts(retrieverImpacts: Option<Impacts>, generatorImpacts: Impacts): seq<Measurement>
  {
    seq(|Order|, i requires 0 <= i < |Order| => MergedEntry(retrieverImpacts, generatorImpacts, Order[i]))
  }

  /** The sum of the values of a list of measurements. */
  function Total(ms: seq<Measurement>): real
  {
    if ms == [] then 0.0 else ms[0].value + Total(ms[1..])
  }

  /** The four quantities of a measurement, in the reporting order. */
  function Listed(impacts: Impacts): seq<Measurement>
  {
    seq(|Order|, i requires 0 <= i < |Order| => Pick(impacts, Order[i]))
  }

  /** Four entries, in the order energy, gwp, adpe, pe, each named and united as the
      generator's measurement of that quantity. */
  lemma MergeLayout(retrieverImpacts: Option<Impacts>, generatorImpacts: Impacts)
    ensures |MergedImpacts(retrieverImpacts, generatorImpacts)| == |Order| == 4
    ensures forall i :: 0 <= i < 4 ==>
              MergedImpacts(retrieverImpacts, generatorImpacts)[i].name == Pick(generatorImpacts, Order[i]).name
              && MergedImpacts(retrieverImpacts, generatorImpacts)[i].unit == Pick(generatorImpacts, Order[i]).unit
  {
  }

  /** With a retriever measurement, every quantity is the sum of the two values. */
  lemma MergeAdds(retrieverImpacts: Impacts, generatorImpacts: Impacts)
    ensures forall i :: 0 <= i < 4 ==>
              MergedImpacts(Some(retrieverImpacts), generatorImpacts)[i].value
              == Pick(generatorImpacts, Order[i]).value + Pick(retrieverImpacts, Order[i]).value
  {
  }

  /** Without a retriever measurement, the generator's measurement comes out unchanged. */
  lemma MergeWithoutRetrieverImpacts(generatorImpacts: Impacts)
    ensures MergedImpacts(None, generatorImpacts) == Listed(generatorImpacts)
  {
  }

  /** A missing retriever measurement counts as one whose four values are 0. */
  lemma MergeMissingIsZero(zero: Impacts, generatorImpacts: Impacts)
    requires forall q :: Pick(zero, q).value == 0.0
    ensures MergedImpacts(None, generatorImpacts) == MergedImpacts(Some(zero), generatorImpacts)
  {
  }

  /** The retriever's names and units are never read: two retriever measurements with the
      same values merge alike. */
  lemma MergeIgnoresRetrieverLabels(r1: Impacts, r2: Impacts, generatorImpacts: Impacts)
    requires forall q :: Pick(r1, q).value == Pick(r2, q).value
    ensures MergedImpacts(Some(r1), generatorImpacts) == MergedImpacts(Some(r2), generatorImpacts)
  {
  }

  /** Nothing is lost or counted twice: the merged values add up to the generator's total
      plus the retriever's total. */
  lemma MergePreservesTotal(retrieverImpacts: Impacts, generatorImpacts: Impacts)
    ensures Total(MergedImpacts(Some(retrieverImpacts), generatorImpacts))
            == Total(Listed(generatorImpacts)) + Total(Listed(retrieverImpacts))
  {
    var g, r := generatorImpacts, retrieverImpacts;
    assert MergedImpacts(Some(r), g) == [MergedEntry(Some(r), g, Energy), MergedEntry(Some(r), g, Gwp),
                                         MergedEntry(Some(r), g, Adpe), MergedEntry(Some(r), g, Pe)];
    assert Listed(g) == [g.energy, g.gwp, g.adpe, g.pe];
    assert Listed(r) == [r.energy, r.gwp, r.adpe, r.pe];
    TotalOfFour(MergedEntry(Some(r), g, Energy), MergedEntry(Some(r), g, Gwp),
                MergedEntry(Some(r), g, Adpe), MergedEntry(Some(r), g, Pe));
    TotalOfFour(g.energy, g.gwp, g.adpe, g.pe);
    TotalOfFour(r.energy, r.gwp, r.adpe, r.pe);
  }

  lemma TotalOfFour(a: Measurement, b: Measurement, c: Measurement, d: Measurement)
    ensures Total([a, b, c, d]) == a.value + b.value + c.value + d.value
  {
    assert [d][1..] == [];
    assert Total([d]) == d.value;
    assert [c, d][1..] == [d];
    assert Total([c, d]) == c.value + d.value;
    assert [b, c, d][1..] == [c, d];
    assert Total([b, c, d]) == b.value + c.value + d.value;
    assert [a, b, c, d][1..] == [b, c, d];
  }

  /** A worked example: retriever (1, 2, 0.1, 3) and generator (2, 3, 0.2, 4) merge into
      (3, 5, 0.3, 7), named and united as the generator's. */
  lemma MergeExample(names: seq<string>, units: seq<string>)
    requires |names| == 4 && |units| == 4
    ensures var retriever := Impacts(Measurement("r", 1.0, "x"), Measurement("r", 2.0, "x"),
                                     Measurement("r", 0.1, "x"), Measurement("r", 3.0, "x"));
            var generator := Impacts(Measurement(names[0], 2.0, units[0]), Measurement(names[1], 3.0, units[1]),
                                     Measurement(names[2], 0.2, units[2]), Measurement(names[3], 4.0, units[3]));
            MergedImpacts(Some(retriever), generator)
            == [Measurement(names[0], 3.0, units[0]), Measurement(names[1], 5.0, units[1]),
                Measurement(names[2], 0.3, units[2]), Measurement(names[3], 7.0, units[3])]
  {
  }

  // ---------------------------------------------------------------------------
  // The service

  /** The service's collaborators are fixed when it is built: the retriever and the answer
      generator (context and question give an answer with its impacts, or fail). */
  class KGRAG {
    const retriever: LLMRetriever
    const generate: (string, string) -> Result<GeneratorOutput>

    constructor (retriever: LLMRetriever, generate: (string, string) -> Result<GeneratorOutput>)
      ensures this.retriever == retriever && this.generate == generate
    {
      this.retriever := retriever;
      this.generate := generate;
    }

    /** The response holds its five arguments unchanged. */
    function FormatOutput(executionTime: real, llmQuery: string, context: string, answer: string,
                          envImpacts: seq<Measurement>): (output: RunResult)
      ensures output.executionTime == executionTime && output.llmQuery == llmQuery
      ensures output.context == context && output.answer == answer && output.envImpacts == envImpacts
    {
      RunResult(executionTime, llmQuery, context, answer, envImpacts)
    }

    /** Builds the merged list by appending the energy, gwp, adpe and pe entries in turn;
        the retriever's value is added only when its output has impacts. */
    method MergeEnvImpact(retrieverOutput: RetrieverOutput, generatorOutput: GeneratorOutput)
      returns (envImpacts: seq<Measurement>)
      ensures envImpacts == MergedImpacts(retrieverOutput.envImpacts, generatorOutput.envImpacts)
      ensures |envImpacts| == 4
      ensures forall i :: 0 <= i < 4 ==>
                envImpacts[i].value == Pick(generatorOutput.envImpacts, Order[i]).value
                                       + Contribution(retrieverOutput.envImpacts, Order[i])
    {
      var generated := generatorOutput.envImpacts;
      var present := retrieverOutput.envImpacts.Some?;
      envImpacts := [];
      envImpacts := envImpacts + [Measurement(generated.energy.name,
        generated.energy.value + (if present then retrieverOutput.envImpacts.value.energy.value else 0.0),
        generated.energy.unit)];
      envImpacts := envImpacts + [Measurement(generated.gwp.name,
        generated.gwp.value + (if present then retrieverOutput.envImpacts.value.gwp.value else 0.0),
        generated.gwp.unit)];
      envImpacts := envImpacts + [Measurement(generated.adpe.name,
        generated.adpe.value + (if present then retrieverOutput.envImpacts.value.adpe.value else 0.0),
        generated.adpe.unit)];
      envImpacts := envImpacts + [Measurement(generated.pe.name,
        generated.pe.value + (if present then retrieverOutput.envImpacts.value.pe.value else 0.0),
        generated.pe.unit)];
    }

    /** Retriever first, then the generator on the retrieved context and the original
        question.  The response carries the retriever's query and context, the generator's
        answer, the elapsed time read from the clock, and the sum of both measurements.
        Nothing is caught: a failing retriever ends the run before the generator, and a
        failing generator ends it without a response. */
    method Run(question: string, startTime: real, endTime: real) returns (r: Result<RunResult>)
      ensures retriever.Retrieval(question).Err? ==> r == Err(retriever.Retrieval(question).error)
      ensures retriever.Retrieval(question).Ok? ==>
                var retrieved := retriever.Retrieval(question).value;
                match generate(retrieved.context, question)
                case Err(e) => r == Err(e)
                case Ok(generated) =>
                  r.Ok? && r.value.executionTime == endTime - startTime
                  && r.value.llmQuery == retrieved.query && r.value.context == retrieved.context
                  && r.value.answer == generated.answer
                  && r.value.envImpacts == MergedImpacts(retrieved.envImpacts, generated.envImpacts)
      ensures r.Ok? ==> retriever.Retrieval(question).Ok? && retriever.Retrieval(question).value.envImpacts.Some?
    {
      var retrieverOutput := retriever.Run(question);
      if retrieverOutput.Err? {
        return Err(retrieverOutput.error);
      }
      var generatorOutput := generate(retrieverOutput.value.context, question);
      if generatorOutput.Err? {
        return Err(generatorOutput.error);
      }
      var executionTime := endTime - startTime;
      var envImpacts := MergeEnvImpact(retrieverOutput.value, generatorOutput.value);
      r := Ok(FormatOutput(executionTime, retrieverOutput.value.query, retrieverOutput.value.context,
                           generatorOutput.value.answer, envImpacts));
    }
  }
}
