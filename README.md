# mcp-code-qna core, modelled in Dafny

The system answers natural-language questions about a Python code base. It
indexes the repository first:

- it walks the repository for `.py` files;
- it parses each file and cuts it into chunks, one per class, function and
  method;
- it embeds each chunk with a sentence encoder;
- it puts the embeddings in a flat nearest-neighbour index;
- it saves the chunks, the embeddings and the index as three files.

To answer a question, the retriever searches the index for the chunks
nearest the question and scores each one by cosine similarity. It then sorts
them by descending score. The answer generator picks one of five Markdown
answers by the question's pattern:

- class purpose;
- implementation;
- parameter usage;
- class methods;
- general.

It fills the answer from the sorted chunks.

The model has these modules:

- `Wrappers` (`wrappers.dfy`): `Option` and `Result`.
- `Text` (`text.dfy`): the parts of Python's `str` the core relies on:
  - `split` and `join`;
  - `strip`;
  - `lower` and `capitalize`, for ASCII letters only;
  - substring tests and `count`;
  - slicing with Python's clamping;
  - `str(n)`.
- `Lists` (`lists.dfy`): list comprehensions with an `if` clause, and `min`.
- `Chunks` (`chunks.dfy`): the `CodeChunk` record, `to_dict`, the chunk id
  and the `chunk_by_id` table.
- `Visitor` (`visitor.dfy`): the class `PythonCodeVisitor`, which walks a
  parse tree. The specification of that walk is the function `Extract`, and
  the lemmas about it are in this module too.
- `Indexer` (`indexer.dfy`): the class `CodeIndexer`, and the class
  `IndexStore` for the three saved files (`chunks.json`, `embeddings.pkl`,
  `faiss.index`). It also holds:
  - the functions that specify the file walk, chunking, save and load;
  - the save/load round trip.
- `Retrieval` (`retriever.dfy`): the class `Retriever`, the relevance score,
  and the stable descending sort with its correctness lemma.
- `Answers` (`answers.dfy`): the answer generator.
  - Each answer is a method that builds a list of paragraphs step by step,
    as the source does.
  - Each method is proved equal to a function that states the paragraphs.
  - Lemmas state what those paragraphs show.

Collaborators the core calls but does not implement become parameters:

- the file system: a `Repository` value, holding the walk and the file
  reads;
- `ast.parse`;
- MD5;
- the sentence encoder;
- the FAISS search;
- numpy's cosine;
- the regular expressions of the answer generator.

## Model

| member | source | states |
|---|---|---|
| Chunks.ToDict | app/indexer/code_indexer.py:34-40 | the dictionary holds every field of the chunk except the embedding: rebuilding a chunk from it gives the chunk back with no embedding |
| Chunks.ChunkId | app/indexer/code_indexer.py:71-74 | the id is the digest of `type:name:path`; `ExtractOk` and `EditKeepsIds` state what follows for the chunks |
| Chunks.IndexById | app/indexer/code_indexer.py:218 | `chunk_by_id` built by inserting the chunks from first to last; its properties are `IndexByIdLastWins` |
| Chunks.IndexByIdLastWins | app/indexer/code_indexer.py:218 | every chunk's id is a key of `chunk_by_id`, every key is some chunk's id, and a key maps to the last chunk carrying that id |
| Chunks.IndexByIdHasAll | app/indexer/code_indexer.py:218 | every chunk's id is a key of `chunk_by_id` |
| Chunks.IndexByIdLast | app/indexer/code_indexer.py:218 | every key of `chunk_by_id` maps to the last chunk carrying that id |
| Text.Strip | app/indexer/code_indexer.py:68 | `str.strip()`: the result is a slice of the input with only whitespace cut from both ends, and it neither starts nor ends with whitespace |
| Text.NatToString | app/generator/answer_generator.py:286 | `str(n)`: decimal digits without a leading zero that spell `n` |
| Text.PySlice | app/indexer/code_indexer.py:58 | a Python slice: it equals the plain slice for in-range bounds, and it clamps an end bound past the length |
| Text.LinesExcerpt | app/indexer/code_indexer.py:56-59 | lines `a..b-1` re-joined with newlines split back into exactly those lines, and they occur in the text |
| Text.FirstLines | app/generator/answer_generator.py:303 | the first `n` lines re-joined form a prefix of the text, whose lines are exactly those `n` lines |
| Lists.Filter | app/generator/answer_generator.py:67-69 | the comprehension keeps exactly the elements that satisfy the condition; it is empty iff none does; its first element is the first one that does |
| Lists.FilterAppend | app/generator/answer_generator.py:67-69 | filtering a concatenation filters each part in turn, so the comprehension keeps the order and the multiplicity of the elements it keeps |
| Lists.FilterSnoc | app/generator/answer_generator.py:67-69 | one more element is kept, at the end, exactly when it satisfies the condition |
| Visitor.SourceSegment | app/indexer/code_indexer.py:53-60 | the text of lines `lineno .. end_lineno` re-joined with newlines, empty without a position; its properties are `SegmentIsSourceText` |
| Visitor.Extract | app/indexer/code_indexer.py:76-128 | the chunks a walk of one node emits, in pre-order; what they satisfy is `ExtractOk`, `ExtractResolves` and `EditKeepsIds` |
| Visitor.ExtractSeq | app/indexer/code_indexer.py:98 | the chunks of a sequence of nodes, one node after another; its properties are `ExtractSeqOk`, `ExtractSeqResolves` and `EditsKeepIds` |
| Visitor.GetDocstring | app/indexer/code_indexer.py:62-69 | a docstring exists iff the node is a class, a function or a module whose body starts with a string expression; it is that string, stripped |
| Visitor.PythonCodeVisitor.constructor | app/indexer/code_indexer.py:46-51 | the visitor starts with the file's lines, no chunks and no current class |
| Visitor.PythonCodeVisitor.Visit | app/indexer/code_indexer.py:76-128 | visiting a node appends exactly the chunks `Extract` gives, in pre-order, and restores the current class |
| Visitor.PythonCodeVisitor.VisitClassDef | app/indexer/code_indexer.py:76-99 | appends the class chunk, whose parent is the enclosing class, then the chunks of its body with the class as the current class; the old current class is restored |
| Visitor.PythonCodeVisitor.VisitFunctionDef | app/indexer/code_indexer.py:101-124 | appends a `method` chunk inside a class and a `function` chunk outside one, then the chunks of its body |
| Visitor.PythonCodeVisitor.VisitAsyncFunctionDef | app/indexer/code_indexer.py:126-128 | an async definition is chunked exactly as a plain one |
| Visitor.PythonCodeVisitor.GenericVisit | app/indexer/code_indexer.py:98 | visiting the children appends their chunks in child order |
| Visitor.ExtractOk | app/indexer/code_indexer.py:71-124 | every chunk of a walk belongs to the file; its id hashes its own type, name and path; its content is the text of its own lines; it has no embedding; it is a class, a method iff it has a parent, or a function |
| Visitor.ExtractSeqOk | app/indexer/code_indexer.py:98 | the same holds for the chunks of a sequence of nodes |
| Visitor.HasClassGrows | app/indexer/code_indexer.py:95 | a class chunk stays in the list as more chunks are appended |
| Visitor.ResolvesAppend | app/indexer/code_indexer.py:95 | appending a chunk whose parent names an earlier class chunk keeps every parent resolved |
| Visitor.ExtractResolves | app/indexer/code_indexer.py:76-124 | every parent name the walk emits names a class chunk emitted before it, because a class is appended before its body is visited |
| Visitor.DefinitionResolves | app/indexer/code_indexer.py:95-98 | appending a definition's chunk whose parent resolves, then the chunks of its body, keeps every parent resolved |
| Visitor.ExtractSeqResolves | app/indexer/code_indexer.py:98 | the same for a sequence of nodes |
| Visitor.FileParentsResolve | app/indexer/code_indexer.py:93 | in the chunks of one file, every `parent_name` names an earlier class chunk |
| Visitor.SameIdentityAppend | app/indexer/code_indexer.py:95 | chunk lists with matching identities stay matched when concatenated |
| Visitor.EditKeepsIds | app/indexer/code_indexer.py:71-74 | editing a file without changing the names and nesting of its definitions keeps every chunk's id, type, name and parent |
| Visitor.EditsKeepIds | app/indexer/code_indexer.py:71-74 | the same for a sequence of nodes |
| Visitor.SegmentIsSourceText | app/indexer/code_indexer.py:53-60 | a definition's content occurs in the file's text, and it splits into exactly the lines `lineno-1 .. end_lineno-1` |
| Indexer.PathJoin | app/indexer/code_indexer.py:154 | `os.path.join`: an absolute second part replaces the first; otherwise the result starts with the first part and ends with the second |
| Indexer.DirFilesMembers | app/indexer/code_indexer.py:152-161 | a path is kept from one directory iff it joins the directory with a `.py` name there and is not skipped |
| Indexer.PythonFilesMembers | app/indexer/code_indexer.py:148-162 | the file list is sound and complete: a path is listed iff it is a walked `.py` file whose full path contains none of the index directory, `venv`, `env` and `__pycache__` |
| Indexer.PythonFilesSound | app/indexer/code_indexer.py:148-162 | every listed path joins a walked directory with a kept `.py` name in it |
| Indexer.PythonFilesComplete | app/indexer/code_indexer.py:148-162 | every kept `.py` name of every walked directory is listed, joined with its directory |
| Indexer.PythonFilesArePython | app/indexer/code_indexer.py:153 | every listed path ends in `.py` |
| Indexer.FileChunks | app/indexer/code_indexer.py:164-178 | a file's chunks: none when it cannot be read or does not parse, else the walk of its tree; its properties are `FileChunksOk` |
| Indexer.FilesChunks | app/indexer/code_indexer.py:209-212 | the chunks of the files, concatenated in file order |
| Indexer.FileChunksOk | app/indexer/code_indexer.py:164-178 | every chunk of a file belongs to that file and has no embedding, and all its parents resolve |
| Indexer.EmbeddingText | app/indexer/code_indexer.py:185-188 | the embedded text starts with the name and the type, contains a non-empty docstring, and ends with the code |
| Indexer.Rows | app/indexer/code_indexer.py:236-238 | the index rows are the chunks' embeddings, one per chunk in order |
| Indexer.Records | app/indexer/code_indexer.py:243-245 | `chunks.json` holds `to_dict` of every chunk, in order |
| Indexer.Embeddings | app/indexer/code_indexer.py:248-250 | `embeddings.pkl` holds every chunk's embedding, in order |
| Indexer.Reattach | app/indexer/code_indexer.py:274-279 | the load rebuilds one chunk per record, each with the embedding at the same position, up to the shorter of the two lists |
| Indexer.EmbeddingKeepsRecords | app/indexer/code_indexer.py:190-198 | embedding the chunks changes none of their saved records and leaves every chunk embedded |
| Indexer.ReattachSaved | app/indexer/code_indexer.py:240-282 | saving the chunks as records and embeddings and reattaching them gives back the same chunks |
| Indexer.LoadArtifacts | app/indexer/code_indexer.py:256-291 | the load succeeds only with all three files present and enough embeddings; it then installs the saved index and a table built from the chunks; it keeps the old index on failure; and it rebuilds the chunks whenever both lists were read |
| Indexer.SaveLoadRoundTrip | app/indexer/code_indexer.py:240-291 | a load after a save restores the chunks and `chunk_by_id` exactly; it succeeds iff an index was saved or an earlier `faiss.index` is loadable; it restores that index |
| Indexer.PyIndex | app/indexer/code_indexer.py:311 | a Python list index: negative positions count from the end |
| Indexer.IndexStore.constructor | app/indexer/code_indexer.py:240-254 | the three files of the index directory start as given |
| Indexer.CodeIndexer.constructor | app/indexer/code_indexer.py:134-146 | the index directory defaults to `.code_index` in the repository; the indexer starts with no chunks, an empty table and no index |
| Indexer.CodeIndexer.GetPythonFiles | app/indexer/code_indexer.py:148-162 | returns exactly `PythonFiles` of the walk, so `PythonFilesMembers` applies to it |
| Indexer.CodeIndexer.ProcessFile | app/indexer/code_indexer.py:164-178 | returns the visitor's chunks for a readable file that parses, and no chunks otherwise |
| Indexer.CodeIndexer.CreateEmbeddings | app/indexer/code_indexer.py:180-198 | every chunk gets the encoding of its own embedding text, and nothing else about it changes |
| Indexer.CodeIndexer.CreateFaissIndex | app/indexer/code_indexer.py:226-238 | with chunks, the index holds their embeddings in order; with none, the old index stays |
| Indexer.CodeIndexer.SaveIndex | app/indexer/code_indexer.py:240-254 | writes the records and the embeddings, and writes `faiss.index` only when there is an index |
| Indexer.CodeIndexer.CollectChunks | app/indexer/code_indexer.py:209-212 | the chunks of every file, concatenated in the order of the files |
| Indexer.CodeIndexer.BuildIndex | app/indexer/code_indexer.py:200-224 | the chunks are the embedded chunks of every listed file, in order; the table is built from them; with chunks, the index is aligned with them; all of it is saved |
| Indexer.CodeIndexer.LoadIndex | app/indexer/code_indexer.py:256-291 | the verdict and the new chunks, table and index are those of `LoadArtifacts` on the stored files |
| Indexer.CodeIndexer.LoadOrBuildIndex | app/indexer/code_indexer.py:293-296 | a successful load leaves the loaded state and does not touch the files; a failed load leaves a freshly built and saved index: the built chunks and table; an index aligned with them, or the index left by the failed load when there are no chunks; `faiss.index` rewritten only when there is an index |
| Indexer.CodeIndexer.Search | app/indexer/code_indexer.py:298-311 | fails as not ready exactly when there is no index; fails as a failed search exactly when FAISS gives no answer; otherwise asks for `min(k, len(chunks))` neighbours of the encoded query and returns the chunk at each returned row; a row out of range fails |
| Indexer.CodeIndexer.SearchAligned | app/indexer/code_indexer.py:298-311 | on an aligned index with a well-formed FAISS answer, the search succeeds with `min(k, len(chunks))` chunks, taken from distinct rows, each the chunk at its row |
| Retrieval.ToScoredDict | app/retriever/retriever.py:18-22 | the scored dictionary is the chunk's record plus its score |
| Retrieval.EffectiveK | app/retriever/retriever.py:43 | `k or top_k`: an absent or zero `k` falls back to `top_k` |
| Retrieval.Relevance | app/retriever/retriever.py:84-97 | the score is non-zero only for a present, non-empty embedding with both norms non-zero, and then it is the cosine |
| Retrieval.Zip | app/retriever/retriever.py:52-55 | pairs each chunk with the score at the same position, as long as the shorter list |
| Retrieval.SortByScore | app/retriever/retriever.py:58 | `sort(key=score, reverse=True)` as an insertion sort, the same length as its input; its properties are `SortByScoreCorrect` |
| Retrieval.InsertPerm | app/retriever/retriever.py:58 | an insertion adds the new element and nothing else |
| Retrieval.InsertSorted | app/retriever/retriever.py:58 | inserting into a list sorted by descending score keeps it sorted |
| Retrieval.InsertWithScore | app/retriever/retriever.py:58 | an insertion puts the new element behind every earlier one with the same score |
| Retrieval.SortByScoreOrdered | app/retriever/retriever.py:58 | the sorted list is non-increasing by score and a permutation of its input |
| Retrieval.SortByScoreStable | app/retriever/retriever.py:58 | for every score, the elements with that score appear in the sorted list in their input order |
| Retrieval.SortByScoreCorrect | app/retriever/retriever.py:58 | the sort is non-increasing by score, a permutation of its input, and stable |
| Retrieval.Retriever.constructor | app/retriever/retriever.py:28-30 | keeps the indexer and `top_k`, which defaults to 5 |
| Retrieval.Retriever.CalculateRelevanceScores | app/retriever/retriever.py:62-99 | one score per candidate, in order, each the candidate's `Relevance` |
| Retrieval.Retriever.Retrieve | app/retriever/retriever.py:32-60 | a failed search fails; otherwise the candidates with their scores, sorted by descending score, as a stable permutation of the zipped pairs |
| Retrieval.Scores | app/retriever/retriever.py:75-99 | one score per chunk, each its `Relevance` |
| Retrieval.ZipScores | app/retriever/retriever.py:52-55 | every zipped pair holds its own chunk and that chunk's score |
| Answers.CodePreviewShows | app/generator/answer_generator.py:297-308 | up to ten lines are shown whole; longer code shows a prefix of exactly its first ten lines and the count of lines not shown, then the full code collapsed |
| Answers.ChunkSectionShows | app/generator/answer_generator.py:286-308 | a section names the parent class right after the header when there is one; it gives the file and any docstring; it ends with a paragraph holding the whole code |
| Answers.Sections | app/generator/answer_generator.py:283 | one section for each of the first three chunks, numbered from 1 |
| Answers.SectionsStep | app/generator/answer_generator.py:283-308 | the sections up to one more chunk are the earlier sections followed by that chunk's section, numbered by its position |
| Answers.GeneralTextStart | app/generator/answer_generator.py:280 | the general answer opens with the introduction |
| Answers.AppendChunkSection | app/generator/answer_generator.py:284-308 | one loop turn appends exactly the chunk's section |
| Answers.GeneralAnswer | app/generator/answer_generator.py:277-310 | the general answer is the introduction followed by the sections of the first three chunks, joined by newlines |
| Answers.ClassChunksNamed | app/generator/answer_generator.py:67-69 | keeps exactly the class chunks whose name matches, ignoring the case of ASCII letters |
| Answers.MethodsOf | app/generator/answer_generator.py:81-83 | keeps exactly the method chunks whose parent is exactly the class's name |
| Answers.KeyMethods | app/generator/answer_generator.py:85-89 | lists the first three of those methods, in order |
| Answers.ClassDefinition | app/generator/answer_generator.py:92-99 | shows a prefix of the class made of its first fifteen lines at most; the truncation note appears iff the class is longer |
| Answers.ClassOpening | app/generator/answer_generator.py:75-78 | the class's heading, followed by its docstring exactly when it has one |
| Answers.KeyMethodLines | app/generator/answer_generator.py:87-89 | one line per key method, in order |
| Answers.KeyMethodsPart | app/generator/answer_generator.py:85-89 | nothing when the class has no method; otherwise the heading and one line per key method |
| Answers.AppendKeyMethods | app/generator/answer_generator.py:85-89 | the loop over the methods appends exactly the key-methods part for the first three of them |
| Answers.AnswerClassPurpose | app/generator/answer_generator.py:59-104 | with no matching class chunk, the general answer; otherwise the opening, the key methods and the definition of the first match |
| Answers.AppendClassDefinition | app/generator/answer_generator.py:92-99 | appends exactly the class-definition part |
| Answers.ImplementationChunks | app/generator/answer_generator.py:115-123 | for a service or a component, keeps the chunks named so, ignoring the case of ASCII letters; otherwise only the functions and methods named so |
| Answers.ImplementationLines | app/generator/answer_generator.py:129-142 | the implementation answer opens with its heading and holds the full fenced code |
| Answers.AnswerImplementation | app/generator/answer_generator.py:106-145 | with no matching chunk, the general answer; otherwise the implementation answer for the first match |
| Answers.FunctionChunksNamed | app/generator/answer_generator.py:156-158 | keeps exactly the functions and methods whose name matches, ignoring the case of ASCII letters |
| Answers.LineOf | app/generator/answer_generator.py:190-191 | the line a match starts on is a line of the text |
| Answers.WindowAround | app/generator/answer_generator.py:202-203 | the context window holds its line, stays within the text and spans at most three lines |
| Answers.LineRange | app/generator/answer_generator.py:206 | `range(a, b)` as a set |
| Answers.CoveredSome | app/generator/answer_generator.py:199 | a line is covered iff some window holds it |
| Answers.EmitWindow | app/generator/answer_generator.py:202-210 | emitting the window around a line no window covers yet keeps the loop's state: one window per centre, every taken line covered, the processed lines exactly the covered ones, no centre inside an earlier window |
| Answers.SkipLine | app/generator/answer_generator.py:199-200 | skipping a line that an earlier window covers keeps the loop's state |
| Answers.FinishWindows | app/generator/answer_generator.py:195-210 | once every parameter line is taken, the windows meet `ContextWindowsSpec` |
| Answers.TakeLine | app/generator/answer_generator.py:198-210 | one turn takes some remaining line, emits its window unless one covers it, and keeps the loop's state |
| Answers.ContextWindows | app/generator/answer_generator.py:195-210 | every window is centred on a parameter line; every parameter line is covered; no window is centred on a line an earlier one covered; there is a window whenever there is a line |
| Answers.MatchLines | app/generator/answer_generator.py:186-192 | the set of parameter lines is exactly the lines that the matches start on |
| Answers.ParamLines | app/generator/answer_generator.py:188-192 | the loop over the matches collects exactly the lines they start on |
| Answers.UsageExample | app/generator/answer_generator.py:209-210 | a usage example fences a piece of the code made of exactly the window's lines |
| Answers.UsageExamples | app/generator/answer_generator.py:209-213 | one example per window, in window order |
| Answers.ContextExamples | app/generator/answer_generator.py:209-213 | the loop over the windows fences exactly the usage example of each, in order |
| Answers.ParameterUsageLines | app/generator/answer_generator.py:170-215 | opens with the heading, holds the method's full fenced code, and ends with the usage examples when there are any |
| Answers.AnswerParameterUsage | app/generator/answer_generator.py:147-218 | with no matching function or no mention of the parameter, the general answer; otherwise the parameter-usage answer built from windows that meet `ContextWindowsSpec` |
| Answers.MembersOf | app/generator/answer_generator.py:233-236 | keeps exactly the methods and functions whose non-empty parent matches the class, ignoring the case of ASCII letters |
| Answers.CapSignature | app/generator/answer_generator.py:253-254 | a signature longer than 80 characters keeps its first 77 and gains `...`; the result never exceeds 80 |
| Answers.Signature | app/generator/answer_generator.py:252-254 | the signature shown never exceeds 80 characters |
| Answers.FirstSentence | app/generator/answer_generator.py:260 | the docstring up to and including its first full stop, or the whole docstring and a full stop when it has none: the result ends with its only full stop and is a prefix of the docstring followed by a full stop |
| Answers.MethodCodeShows | app/generator/answer_generator.py:264-270 | a method over five lines shows its signature and then the collapsed code; a shorter one shows its code; either way the last paragraph holds the whole code |
| Answers.MethodEntryShows | app/generator/answer_generator.py:256-270 | a method's entry has its heading; the first sentence of any docstring; the signature for methods over five lines; a last paragraph holding the whole code |
| Answers.MethodEntries | app/generator/answer_generator.py:250 | one entry per member, in order |
| Answers.ClassMethodsOpening | app/generator/answer_generator.py:242-247 | the class's heading, the class purpose exactly when there is a docstring, and the list introduction |
| Answers.AnswerClassMethods | app/generator/answer_generator.py:220-275 | with no class chunk or no member, the general answer; otherwise the opening and every member's entry, joined by newlines |
| Answers.AppendMethodEntries | app/generator/answer_generator.py:250-270 | the loop over the members appends every member's entry, in order |
| Answers.AppendMethodEntry | app/generator/answer_generator.py:250-270 | one loop turn appends exactly the member's entry |
| Answers.ProcessQuestion | app/generator/answer_generator.py:38-57 | each pattern gets its own answer (`AnswerFor`): the class-purpose, implementation, parameter-usage or class-methods answer when its chunks are found, otherwise the general answer; every answer opens with a `## ` heading or is the general answer |
| Answers.AnswerShape | app/generator/answer_generator.py:38-57 | an answer that `AnswerFor` allows opens with a `## ` heading or is the general answer |
| Answers.ParameterUsageShape | app/generator/answer_generator.py:170-218 | a parameter-usage answer opens with a `## ` heading or is the general answer, whichever windows were chosen |
| Answers.HeaderStart | app/generator/answer_generator.py:101 | paragraphs whose first one is a heading join into text that starts with it |
| Answers.ClassPurposeHeading | app/generator/answer_generator.py:75 | the class-purpose answer opens with a heading |
| Answers.ImplementationHeading | app/generator/answer_generator.py:129 | the implementation answer opens with a heading |
| Answers.ParameterUsageHeading | app/generator/answer_generator.py:167 | the parameter-usage answer opens with a heading |
| Answers.ClassMethodsHeading | app/generator/answer_generator.py:242 | the class-methods answer opens with a heading |
| Answers.Generate | app/generator/answer_generator.py:19-36 | the answer is the no-code message iff no chunk was retrieved; otherwise it is the answer `AnswerFor` gives the question |
| Answers.NotNoCode | app/generator/answer_generator.py:19-36 | no answer to a question with chunks is the no-code message |

## Left out

- The file system is not modelled.
  - Reads and walks are a `Repository` value.
  - The three saved files are fields of an `IndexStore`.
  - JSON, pickle and FAISS serialisation are not modelled.
  - `os.makedirs` and `os.path.abspath` are not modelled; the repository path is taken as already absolute.
- Several collaborators are function-valued parameters, not modelled:
  - the sentence encoder;
  - `ast.parse`;
  - MD5;
  - FAISS's search;
  - numpy's cosine.
- The model does not compute the norm, the dot product or floating-point rounding.
  - Scores are reals.
  - `Relevance` tests a norm for zero through `NormSq`, the squared norm.
  - `NormSq`: the model does not state that the norm is zero exactly when every component is zero.
- The float32 conversion of embeddings is not modelled.
- The embedding dimension, and FAISS's check that the dimensions match, are not modelled.
- The regular expressions of the answer generator are collaborators:
  - which pattern matched, and the names it captured, arrive as a `Question`;
  - the word-boundary search for a parameter is a `WordFinder`;
  - the search for a parameter's description in a docstring is a `ParamDocFinder`.
- Python's iteration order over a set of line numbers is not modelled. `ContextWindows` takes the lines in any order.
- AnswerParameterUsage: the contract states that some windows meeting `ContextWindowsSpec` produce the answer, not which ones, because that choice depends on the set's iteration order.
- Retrieval.SortByScore: `list.sort` is modelled as a stable insertion sort. The result is the same as timsort's, but the way timsort computes it is not modelled.
- Logging and progress printing are left out. So are the web server, the command-line interface, question understanding and the evaluation scripts, because they are outside the core.
- `_general_answer` computes a five-line `preview_lines` and never uses it; the model omits it.
- Text.Lower: lowers ASCII letters only, and Capitalize raises ASCII letters only. Python's `str.lower()` folds all of Unicode, and some characters become two. So `ClassChunksNamed`, `ImplementationChunks`, `FunctionChunksNamed` and `MembersOf` treat non-ASCII names differently: `Äpfel` does not match `äpfel` in the model.
- Answers.ClassChunksNamed: name matching lowers ASCII letters only (see Text.Lower).
- Answers.ImplementationChunks: name matching lowers ASCII letters only (see Text.Lower).
- Answers.FunctionChunksNamed: name matching lowers ASCII letters only (see Text.Lower).
- Answers.MembersOf: parent matching lowers ASCII letters only (see Text.Lower).
- Where the code differs from the system's written description, the model follows the code:
  - No module chunks are ever emitted. The visitor has no module handler, so a module's docstring is never chunked.
  - `build_index` with no chunks creates no index. The old index, if any, stays in memory and is written to `faiss.index` again, next to an empty `chunks.json` and `embeddings.pkl`. With no old index, `faiss.index` is left as it was.
  - `load_index` does not check that the number of embeddings matches the number of records. Fewer embeddings make it fail after it has already replaced the chunks.
  - An unloadable `faiss.index` makes it fail after it has rebuilt the chunks and the table.
  - The three files are written one after another, with no atomic staging.
  - The `venv` test in `get_python_files` is subsumed by the `env` test, so both are modelled as written.
