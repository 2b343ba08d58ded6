/** The knowledge-graph retriever of kg_rag/llm_retriever.py: it asks a language model to
    translate a question into a Cypher query, runs that query on the Neo4j graph and
    renders the returned rows as the text context handed to the answer generator. */
module LlmRetriever {
  import opened Wrappers
  import opened EnvImpacts

  datatype Role = System | User

  /** One entry of the chat prompt, a `{"role": ..., "content": ...}` dictionary. */
  datatype Message = Message(role: Role, content: string)

  /** One row returned by the graph: each returned variable, in the order of the query's
      RETURN clause, bound to its value.  The model never looks inside a value, so values
      are kept as text. */
  type Record = seq<(string, string)>

  /** What the completion service returns: the text of the first choice and the
      environmental impacts the accounting library attached to the response. */
  datatype Completion = Completion(content: string, impacts: Impacts)

  /** The dictionary `_generate_query` returns. */
  datatype QueryOutput = QueryOutput(query: string, envImpacts: Impacts)

  /** The dictionary `run` returns.  `envImpacts` is `None` for a dictionary without the
      `env_impacts` key; the retriever itself always sets the key. */
  datatype RetrieverOutput = RetrieverOutput(query: string, context: string, envImpacts: Option<Impacts>)

  /** The query model is always called with temperature 0. */
  const Temperature: real := 0.0

  /** The context given for a query that returned no rows. */
  const EmptySentinel: string := "[]"

  /** Written after every rendered row: a space, then a newline. */
  const RowEnd: string := " \n"

  const SchemaHeader: string := "Schéma du graphe : "
  const QuestionHeader: string := "Question : "

  /** The node labels of the graph and the one relation type that links them. */
  const NodeLabels: seq<string> := ["PieceIdentite", "Demande", "Etape", "Information"]
  const RelationType: string := "CONCERNE"

  /** `word` occurs in `text` starting at position `i`. */
  predicate OccursAt(text: string, word: string, i: int)
  {
    0 <= i <= |text| - |word| && forall k :: 0 <= k < |word| ==> text[i + k] == word[k]
  }

  /** `word` occurs somewhere in `text`. */
  ghost predicate Mentions(text: string, word: string)
  {
    exists i :: OccursAt(text, word, i)
  }

  /** A word found in a text is still found once something is written before it. */
  lemma MentionsAfter(front: string, text: string, word: string)
    requires Mentions(text, word)
    ensures Mentions(front + text, word)
  {
    var i :| OccursAt(text, word, i);
    assert OccursAt(front + text, word, |front| + i);
  }

  /** A word found in a text is still found once something is written after it. */
  lemma MentionsBefore(text: string, back: string, word: string)
    requires Mentions(text, word)
    ensures Mentions(text + back, word)
  {
    var i :| OccursAt(text, word, i);
    assert OccursAt(text + back, word, i);
  }

  lemma StepRelationNames()
    ensures OccursAt(StepRelation, "Etape", 11) && OccursAt(StepRelation, "CONCERNE", 20)
  {
  }

  lemma InformationRelationNames()
    ensures OccursAt(InformationRelation, "Information", 11)
  {
  }

  lemma RequestRelationNames()
    ensures OccursAt(RequestRelation, "Demande", 11) && OccursAt(RequestRelation, "PieceIdentite", 32)
  {
  }

  /** The hand-written description of the graph: first the node types with their
      properties and allowed values, then the relations. */
  const SchemaNodes: string :=
    "Labels des noeuds et propriétés :\n" +
    "        Le type de noeud PieceIdentite a pour propriétés nom, infos\n" +
    "        PieceIdentite.nom peut prendre pour valeurs \"Passeport\" ou \"Carte d'identité\"}\n" +
    "        Le type de noeud Demande a pour propriétés nom, personne, lieu, infos\n" +
    "        Pour une carte d'identité, Demande.nom peut prendre pour valeurs \"Première demande\", \"Renouvellement\", \"Carte perdue\", \"Carte volée\"\n" +
    "        Pour un passeport, Demande.nom peut prendre pour valeurs \"Première demande\", \"Renouvellement\", \"Passeport perdu\", \"Passeport volé\", \"Passeport en urgence\"\n" +
    "        Demande.personne peut prendre pour valeurs \"majeure\" ou \"mineure\"\n" +
    "        Demande.lieu peut prendre pour valeurs \"en France\" ou \"à l'étranger\"\n" +
    "        Le type de noeud Etape a pour propriétés nom, numero, infos\n" +
    "        Le type de noeud Information a pour propriétés nom, infos\n" +
    "        \n"

  const RelationsHeading: string := "        Relations :\n"
  const StepRelation: string := "        (e:Etape)-[:CONCERNE]->(d:Demande)\n"
  const InformationRelation: string := "        (i:Information)-[CONCERNE]->(d:Demande)\n"
  const RequestRelation: string := "        (d:Demande)-[CONCERNE]->PieceIdentite"

  const SystemDirective: string :=
    "Tu es un assistant qui aide à formuler des requêtes Cypher."

  const Instructions: string :=
    "Ecrit une requête Cypher pour répondre à la question de l'utilisateur en te basant sur le schéma du graphe Neo4j donné.  \n" +
    "                Utilise uniquement les labels, les propriétés et les types de relation fournis dans le schéma.\n" +
    "                Respecte le sens des relations fournies indiqué par ->.\n" +
    "                N'ajoute aucun texte, tu dois uniquement répondre avec la requête Cypher générée.\n" +
    "                N'ajoute pas de majuscules aux entités extraites de la question."

  /** The worked question/query pairs, reproduced as the source has them (the last query
      is left unterminated there too). */
  const Examples: string :=
    "Voici quelques exemples : \n" +
    "                Question : J'ai 17 ans et je voudrais demander ma première carte d'identité, aide moi !\n" +
    "                MATCH (n)-[:CONCERNE]->(d:Demande {nom:\"Première demande\", personne:\"mineure\"})-[:CONCERNE]->(p:PieceIdentite {nom:\"Carte d'identité\"})\n" +
    "                RETURN n\n" +
    "\n" +
    "                Question : Comment refaire ma carte d'identité si je suis une personne majeure résidant en France ?\n" +
    "                MATCH (n)-[:CONCERNE]->(d:Demande {nom:\"Renouvellement\", personne:\"majeure\", lieu:\"en France\"})-[:CONCERNE]->(p:PieceIdentite {nom:\"Carte d'identité\"})\n" +
    "                RETURN n\n" +
    "                \n" +
    "                Question : Quelles sont les informations à connaître pour refaire son passeport en urgence à l'étranger ?\n" +
    "                MATCH (i:Information)-[:CONCERNE]->(d:Demande {nom:\"Passeport en urgence\", lieu:\"à l'étranger\"})-[:CONCERNE]->(p:PieceIdentite {nom:\"Passeport\"})\n" +
    "                RETURN i\n" +
    "                \n" +
    "                Question : Ma fille mineure s'est faite volée son passeport à Paris, qu'est ce qu'on doit faire ?\n" +
    "                MATCH (n)-[:CONCERNE]->(d:Demande {nom:\"Passeport volé, personne:\"mineure\", lieu:\"en France\"})-[:CONCERNE]->(p:PieceIdentite{nom:\"Passeport\"})"

  // ---------------------------------------------------------------------------
  // Rendering of the facts

  /** The rows written one after another, each as its text followed by `RowEnd`;
      built from the left, as the rendering loop accumulates it. */
  function Lines(show: Record -> string, facts: seq<Record>): string
  {
    if facts == [] then ""
    else Lines(show, facts[..|facts| - 1]) + show(facts[|facts| - 1]) + RowEnd
  }

  /** The context for a list of rows: the sentinel for no rows, otherwise their lines. */
  function Rendered(show: Record -> string, facts: seq<Record>): string
  {
    if |facts| == 0 then EmptySentinel else Lines(show, facts)
  }

  /** The total width of the rows: each row's text plus the two characters of `RowEnd`. */
  function Width(show: Record -> string, facts: seq<Record>): nat
  {
    if facts == [] then 0
    else Width(show, facts[..|facts| - 1]) + |show(facts[|facts| - 1])| + |RowEnd|
  }

  /** Rendering two lists one after the other gives the rendering of their concatenation:
      the rows keep their order and none is dropped, merged or repeated. */
  lemma {:induction false} LinesAppend(show: Record -> string, a: seq<Record>, b: seq<Record>)
    ensures Lines(show, a + b) == Lines(show, a) + Lines(show, b)
    decreases |b|
  {
    if b == [] {
      assert a + b == a;
    } else {
      var front := b[..|b| - 1];
      assert (a + b)[..|a + b| - 1] == a + front;
      LinesAppend(show, a, front);
    }
  }

  /** Nothing is truncated: the lines are exactly as long as the rows' texts plus two
      characters per row. */
  lemma {:induction false} LinesLength(show: Record -> string, facts: seq<Record>)
    ensures |Lines(show, facts)| == Width(show, facts)
    decreases |facts|
  {
    if facts != [] {
      LinesLength(show, facts[..|facts| - 1]);
    }
  }

  /** Row `i` occupies its own segment of the lines: after the segments of the rows before
      it comes its text, followed by `RowEnd`. */
  lemma LinesSegment(show: Record -> string, facts: seq<Record>, i: nat)
    requires i < |facts|
    ensures Width(show, facts[..i]) + |show(facts[i])| + |RowEnd| <= |Lines(show, facts)|
    ensures Lines(show, facts)[Width(show, facts[..i]) .. Width(show, facts[..i]) + |show(facts[i])| + |RowEnd|]
            == show(facts[i]) + RowEnd
  {
    var upTo := facts[..i + 1];
    assert upTo[..|upTo| - 1] == facts[..i];
    assert facts == upTo + facts[i + 1..];
    LinesAppend(show, upTo, facts[i + 1..]);
    LinesLength(show, facts[..i]);
  }

  /** One line per row: when no row's text holds a newline, the lines hold exactly as
      many newlines as there are rows. */
  lemma {:induction false} LinesNewlines(show: Record -> string, facts: seq<Record>)
    requires forall i :: 0 <= i < |facts| ==> '\n' !in show(facts[i])
    ensures multiset(Lines(show, facts))['\n'] == |facts|
    decreases |facts|
  {
    if facts != [] {
      var front := facts[..|facts| - 1];
      var last := facts[|facts| - 1];
      assert forall i :: 0 <= i < |front| ==> front[i] == facts[i];
      LinesNewlines(show, front);
      assert multiset(show(last))['\n'] == 0;
      assert multiset(RowEnd)['\n'] == 1;
    }
  }

  /** The context is the sentinel exactly when there are no rows: a non-empty rendering
      ends with `RowEnd`, which the sentinel does not. */
  lemma RenderedSentinel(show: Record -> string, facts: seq<Record>)
    ensures Rendered(show, facts) == EmptySentinel <==> |facts| == 0
    ensures |facts| > 0 ==> |Rendered(show, facts)| >= |RowEnd|
    ensures |facts| > 0 ==> Rendered(show, facts)[|Rendered(show, facts)| - |RowEnd|..] == RowEnd
  {
    if |facts| > 0 {
      var r := Rendered(show, facts);
      var head := Lines(show, facts[..|facts| - 1]) + show(facts[|facts| - 1]);
      assert r == head + RowEnd;
      assert r[|r| - |RowEnd|..] == RowEnd;
      assert r[|r| - 1] == '\n';
      assert EmptySentinel[|EmptySentinel| - 1] == ']';
    }
  }

  // ---------------------------------------------------------------------------
  // The retriever

  /** The retriever's external collaborators are fixed when it is built: the model name
      from the environment, the Neo4j graph (a query gives its rows or fails), and the
      completion service (model name, messages and temperature give a completion or
      fail).  `lower` and `show` stand for Python's `str.lower` and `str` of a row. */
  class LLMRetriever {
    const modelName: string
    const graph: string -> Result<seq<Record>>
    const complete: (string, seq<Message>, real) -> Result<Completion>
    const lower: string -> string
    const show: Record -> string

    constructor (modelName: string, graph: string -> Result<seq<Record>>,
                 complete: (string, seq<Message>, real) -> Result<Completion>,
                 lower: string -> string, show: Record -> string)
      ensures this.modelName == modelName && this.graph == graph && this.complete == complete
      ensures this.lower == lower && this.show == show
    {
      this.modelName := modelName;
      this.graph := graph;
      this.complete := complete;
      this.lower := lower;
      this.show := show;
    }

    /** The schema text handed to the query model: node types, then relations. */
    function GetKgSchema(): string
    {
      SchemaNodes + RelationsHeading + StepRelation + InformationRelation + RequestRelation
    }

    /** The schema is a constant, no question reaches it, and it names every node label
        and the relation type. */
    lemma SchemaNamesVocabulary()
      ensures forall name <- NodeLabels :: Mentions(GetKgSchema(), name)
      ensures Mentions(GetKgSchema(), RelationType)
    {
      var head := SchemaNodes + RelationsHeading;
      StepRelationNames();
      assert Mentions(StepRelation, "Etape") && Mentions(StepRelation, "CONCERNE");
      InformationRelationNames();
      assert Mentions(InformationRelation, "Information");
      RequestRelationNames();
      assert Mentions(RequestRelation, "Demande") && Mentions(RequestRelation, "PieceIdentite");
      forall name | name in ["Etape", "CONCERNE"]
        ensures Mentions(GetKgSchema(), name)
      {
        MentionsAfter(head, StepRelation, name);
        MentionsBefore(head + StepRelation, InformationRelation, name);
        MentionsBefore(head + StepRelation + InformationRelation, RequestRelation, name);
      }
      MentionsAfter(head + StepRelation, InformationRelation, "Information");
      MentionsBefore(head + StepRelation + InformationRelation, RequestRelation, "Information");
      forall name | name in ["Demande", "PieceIdentite"]
        ensures Mentions(GetKgSchema(), name)
      {
        MentionsAfter(head + StepRelation + InformationRelation, RequestRelation, name);
      }
    }

    /** The five-message prompt: one system message then four user messages (the
        instructions, the schema, the worked examples, the lower-cased question). */
    function GeneratePrompt(question: string): (prompt: seq<Message>)
      ensures |prompt| == 5
      ensures prompt[0].role == System
      ensures forall i :: 1 <= i < 5 ==> prompt[i].role == User
      ensures prompt[0].content == SystemDirective && prompt[1].content == Instructions
      ensures prompt[2].content == SchemaHeader + GetKgSchema()
      ensures prompt[3].content == Examples
      ensures prompt[4].content == QuestionHeader + lower(question)
    {
      [ Message(System, SystemDirective),
        Message(User, Instructions),
        Message(User, SchemaHeader + GetKgSchema()),
        Message(User, Examples),
        Message(User, QuestionHeader + lower(question)) ]
    }

    /** Only the last message depends on the question, and only through its lower-cased
        form: two questions give the same prompt exactly when they lower-case alike. */
    lemma PromptDependsOnlyOnLoweredQuestion(q1: string, q2: string)
      ensures GeneratePrompt(q1)[..4] == GeneratePrompt(q2)[..4]
      ensures GeneratePrompt(q1) == GeneratePrompt(q2) <==> lower(q1) == lower(q2)
    {
      var p1, p2 := GeneratePrompt(q1), GeneratePrompt(q2);
      if p1 == p2 {
        var c1, c2 := p1[4].content, p2[4].content;
        assert c1[|QuestionHeader|..] == lower(q1);
        assert c2[|QuestionHeader|..] == lower(q2);
      }
    }

    /** One completion at temperature 0 with the configured model; the answer's text is
        taken verbatim as the query and the response's impacts are kept with it. */
    method GenerateQuery(prompt: seq<Message>) returns (r: Result<QueryOutput>)
      ensures complete(modelName, prompt, Temperature).Err? ==>
                r == Err(complete(modelName, prompt, Temperature).error)
      ensures complete(modelName, prompt, Temperature).Ok? ==>
                r.Ok? && r.value.query == complete(modelName, prompt, Temperature).value.content
                && r.value.envImpacts == complete(modelName, prompt, Temperature).value.impacts
    {
      var response := complete(modelName, prompt, Temperature);
      if response.Err? {
        return Err(response.error);
      }
      r := Ok(QueryOutput(response.value.content, response.value.impacts));
    }

    /** The query string goes to the graph exactly as given; a failure of the graph is
        passed on, not caught. */
    method ExecuteQuery(query: string) returns (r: Result<seq<Record>>)
      ensures r == graph(query)
    {
      r := graph(query);
    }

    /** Renders the rows by appending each row's text and `RowEnd` to the context in turn;
        no rows give the sentinel. */
    method FormatFacts(facts: seq<Record>) returns (context: string)
      ensures context == Rendered(show, facts)
      ensures context == EmptySentinel <==> |facts| == 0
    {
      context := "";
      if |facts| == 0 {
        context := EmptySentinel;
      } else {
        for i := 0 to |facts|
          invariant context == Lines(show, facts[..i])
        {
          assert facts[..i + 1][..i] == facts[..i];
          context := context + show(facts[i]) + RowEnd;
        }
        assert facts[..|facts|] == facts;
      }
      RenderedSentinel(show, facts);
    }

    /** What `Run` returns: prompt, then completion, then query execution, then rendering;
        the first failure ends the pipeline. */
    function Retrieval(question: string): Result<RetrieverOutput>
    {
      match complete(modelName, GeneratePrompt(question), Temperature)
      case Err(e) => Err(e)
      case Ok(completion) =>
        match graph(completion.content)
        case Err(e) => Err(e)
        case Ok(facts) =>
          Ok(RetrieverOutput(completion.content, Rendered(show, facts), Some(completion.impacts)))
    }

    /** Question to context.  The query is the completion's text verbatim and is the very
        string run on the graph; the context renders that query's rows; the impacts are
        the completion's.  A failed completion or query is passed on unchanged. */
    method Run(question: string) returns (r: Result<RetrieverOutput>)
      ensures r == Retrieval(question)
      ensures r.Ok? <==> complete(modelName, GeneratePrompt(question), Temperature).Ok?
                         && graph(complete(modelName, GeneratePrompt(question), Temperature).value.content).Ok?
      ensures r.Ok? ==> r.value.query == complete(modelName, GeneratePrompt(question), Temperature).value.content
      ensures r.Ok? ==> graph(r.value.query).Ok? && r.value.context == Rendered(show, graph(r.value.query).value)
      ensures r.Ok? ==> r.value.envImpacts == Some(complete(modelName, GeneratePrompt(question), Temperature).value.impacts)
      ensures complete(modelName, GeneratePrompt(question), Temperature).Err? ==>
                r == Err(complete(modelName, GeneratePrompt(question), Temperature).error)
    {
      var prompt := GeneratePrompt(question);
      var queryOutput := GenerateQuery(prompt);
      if queryOutput.Err? {
        return Err(queryOutput.error);
      }
      var graphContext := ExecuteQuery(queryOutput.value.query);
      if graphContext.Err? {
        return Err(graphContext.error);
      }
      var context := FormatFacts(graphContext.value);
      r := Ok(RetrieverOutput(queryOutput.value.query, context, Some(queryOutput.value.envImpacts)));
    }
  }
}
