# kg_rag: a Dafny model of the knowledge-graph question-answering pipeline

The system answers a French question about identity documents in two steps. First, a
language model turns the question into a Cypher query, guided by a fixed description of
the Neo4j graph. The query runs on the graph, and the rows it returns are rendered as a
text context. Then an answer generator turns that context and the question into an
answer. Both model calls report an environmental-impact measurement (energy, gwp, adpe,
pe), and the service adds the two measurements together per quantity.

The model has four modules:

- `Wrappers` (`wrappers.dfy`): `Option` and `Result`. Python exceptions that nothing catches
  become `Err(message)` values that are passed on unchanged.
- `EnvImpacts` (`env_impacts.dfy`): the four-quantity measurement. Values are `real`.
- `LlmRetriever` (`llm_retriever.dfy`): models `kg_rag/llm_retriever.py`.
  - The schema text, the five-message prompt, the rendering of rows and the retrieval
    pipeline.
  - Class `LLMRetriever`. Its collaborators are const fields fixed by the constructor:
    - the model name;
    - the graph, a function from a query string to rows or a failure;
    - the completion service, a function from model, messages and temperature to a
      completion or a failure;
    - Python's `str.lower` and `str` of a row, both left uninterpreted.
  - The prompt and schema strings are reproduced character for character, including
    their indentation and trailing spaces.
  - `FormatFacts` is a loop that appends to the context, as in the source. It is proved
    equal to the specification function `Rendered`. The lemmas beside it state what
    `Rendered` means.
- `Service` (`service.dfy`): models `kg_rag/service.py`.
  - The merge of the two measurements and its specification `MergedImpacts`.
  - Class `KGRAG`, holding the retriever and the answer generator.
  - `MergeEnvImpact` builds its list with four successive appends, as the source does.

In the source, the check `"env_impacts" in retriever_output.keys()` looks at a dictionary
that `LLMRetriever.run` always builds with that key. The model keeps the check:
`RetrieverOutput.envImpacts` is an `Option`, and `None` stands for a dictionary without
the key. `MergeEnvImpact` taken alone counts a missing retriever measurement as zero
(`MergeMissingIsZero`), but `run` never produces one: `KGRAG.Run`'s contract shows that
the "+ 0" fallback is never taken along the real pipeline.

The code writes a space and a newline after every record, and the model does the same.
The source's four worked examples have no empty-result pattern. The model reproduces
them as they are, including the last query, which is left unterminated.

A graph row is a sequence of (variable, value) pairs in the order of the query's RETURN
clause. That is the order in which `str` prints a row's keys.

## Model

| member | source | states |
|---|---|---|
| `LlmRetriever.LLMRetriever.constructor` | kg_rag/llm_retriever.py:11-18 | the model name and the graph connection are fixed once when the retriever is built |
| `LlmRetriever.LLMRetriever.SchemaNamesVocabulary` | kg_rag/llm_retriever.py:20-37 | `GetKgSchema` returns a fixed text that no question reaches; that text names each node label (PieceIdentite, Demande, Etape, Information) and the relation type CONCERNE |
| `LlmRetriever.LLMRetriever.GeneratePrompt` | kg_rag/llm_retriever.py:39-81 | exactly five messages with roles system, user, user, user, user; the third is "Schéma du graphe : " followed by the constant schema text verbatim; the last is "Question : " followed by the lower-cased question |
| `LlmRetriever.LLMRetriever.PromptDependsOnlyOnLoweredQuestion` | kg_rag/llm_retriever.py:41-80 | the first four messages are the same for every question; two prompts are equal exactly when the two questions lower-case to the same text |
| `LlmRetriever.LLMRetriever.GenerateQuery` | kg_rag/llm_retriever.py:83-93 | the completion is requested with the configured model at temperature 0; its text becomes the query verbatim and its impacts are kept; a failed completion is passed on |
| `LlmRetriever.LLMRetriever.ExecuteQuery` | kg_rag/llm_retriever.py:95-98 | the query string goes to the graph exactly as given; a graph failure is passed on |
| `LlmRetriever.LLMRetriever.FormatFacts` | kg_rag/llm_retriever.py:100-108 | the appending loop computes `Rendered`; the result is "[]" exactly when there are no rows |
| `LlmRetriever.LinesAppend` | kg_rag/llm_retriever.py:105-107 | rendering is order-preserving concatenation: rendering a + b is rendering a followed by rendering b, with nothing dropped, merged or repeated |
| `LlmRetriever.LinesLength` | kg_rag/llm_retriever.py:105-107 | no truncation: the length is the sum over rows of the row's text length plus 2 |
| `LlmRetriever.LinesSegment` | kg_rag/llm_retriever.py:105-107 | row i occupies its own segment, right after the segments of rows 0..i-1: its text followed by a space and a newline |
| `LlmRetriever.LinesNewlines` | kg_rag/llm_retriever.py:105-107 | when no row's text holds a newline, the rendering holds exactly one newline per row |
| `LlmRetriever.RenderedSentinel` | kg_rag/llm_retriever.py:102-108 | the context is "[]" if and only if there are no rows; a non-empty rendering ends with a space and a newline |
| `LlmRetriever.LLMRetriever.Run` | kg_rag/llm_retriever.py:110-120 | `Run` returns `Retrieval(question)`, the same pipeline written as a function: prompt, then completion, then execution, then rendering; the output query is the completion text verbatim and is the string run on the graph; the context renders that query's rows; the impacts are the completion's, always present; the first failure is returned unchanged |
| `Service.KGRAG.constructor` | kg_rag/service.py:10-12 | the retriever and the generator are fixed once when the service is built |
| `Service.KGRAG.FormatOutput` | kg_rag/service.py:14-31 | the response holds its five arguments unchanged |
| `Service.KGRAG.MergeEnvImpact` | kg_rag/service.py:33-86 | the four appends build `MergedImpacts`: four entries, each value being the generator's value plus the retriever's value, or plus 0 without retriever impacts |
| `Service.MergeLayout` | kg_rag/service.py:37-86 | exactly four entries in the order energy, gwp, adpe, pe; each name and unit is the generator's for that quantity |
| `Service.MergeAdds` | kg_rag/service.py:38-85 | with retriever impacts, each value is the generator's value plus the retriever's value for that same quantity |
| `Service.MergeWithoutRetrieverImpacts` | kg_rag/service.py:42-46 | without retriever impacts, the merged list is the generator's measurement unchanged |
| `Service.MergeMissingIsZero` | kg_rag/service.py:42-46 | a missing retriever measurement merges like one whose four values are 0 |
| `Service.MergeIgnoresRetrieverLabels` | kg_rag/service.py:38-86 | the retriever's names and units are never read: retriever measurements with equal values merge alike |
| `Service.MergePreservesTotal` | kg_rag/service.py:37-86 | the merge is additive: the merged values sum to the generator's total plus the retriever's total |
| `Service.MergeExample` | kg_rag/service.py:37-86 | retriever (1, 2, 0.1, 3) and generator (2, 3, 0.2, 4) merge to (3, 5, 0.3, 7), with the generator's names and units |
| `Service.KGRAG.Run` | kg_rag/service.py:88-101 | the retriever runs first; the generator gets the retrieved context and the original question, not the lower-cased one; the response carries the retriever's query and context, the generator's answer and the merge of both measurements, which always includes the retriever's; a retriever failure ends the run, whatever the generator would do; a generator failure ends it with no response |

## Left out

- `kg_rag/main.py`, the chat page and its console output, is presentation and is not part of this model.
- Reading `GENERATION_MODEL` and the graph credentials from the environment is left out. The model name and the graph are constructor arguments.
- `EcoLogits.init` is left out. It only switches on impact accounting inside the completion library.
- The completion service is a parameter. Its impacts are modelled as always present; a response whose `impacts` is None, which the source would fail on in the merge, is not modelled.
- The Neo4j connection is a parameter: a fixed function from a query to rows or a failure. Changes to the graph between calls and the connection's lifetime are not modelled.
- `str` of a row and `str.lower` are uninterpreted. The model does not capture Python's dictionary printing or Unicode case mapping. Rows keep their column order, so two rows that bind the same variables in a different order may print differently, as they do in Python.
- `LLMGenerator` is not part of this model. It appears only as a function from context and question to an answer with impacts, or a failure.
- The wall clock is left out. `KGRAG.Run` takes the two clock readings as arguments, and the elapsed time is their difference.
- Impact values are reals. Floating-point rounding of the sums is not modelled.
- The schema text is a constant. Whether the generated Cypher respects it is not checked, because the source does not check it either.
