/**
 * `AnswerGenerator` of app/generator/answer_generator.py: it turns a
 * question and its retrieved chunks into a Markdown answer. The answer is a
 * list of paragraphs grown by appending and joined at the end; which of the
 * five answers is built depends on which question pattern matched.
 *
 * Regular expressions are collaborators: the question's pattern and its
 * captured names arrive as a `Question`, the word-boundary search for a
 * parameter as a `WordFinder` and the docstring search for its description
 * as a `ParamDocFinder`.
 */
module Answers {
  import opened Wrappers
  import opened Text
  import opened Lists
  import opened Chunks
  import opened Retrieval

  /** Which pattern of `_process_question` matched, with the names it captured (lower-cased). */
  datatype Question =
    | ClassPurpose(className: string)
    | Implementation(itemType: string, itemName: string)
    | ParameterUsage(methodName: string, paramName: string)
    | ClassMethods(className: string)
    | General

  /** `re.finditer(r'\b' + re.escape(param) + r'\b', text)`: the start offsets of the matches. */
  type WordFinder = (string, string) -> seq<int>

  /** The docstring search for a parameter's description: its first group, if it matched. */
  type ParamDocFinder = (string, string) -> Option<string>

  // NoCodeMessage and TruncationNote are written as a short head and the
  // rest: that keeps their first characters visible to the verifier, which
  // tells them apart from other paragraphs by those characters.
  const NoCodeMessage: string := "I couldn't" + " find any relevant code to answer your question."
  const Intro: string := "I found the following code that might help answer your question:"
  const TruncationNote: string := "*(" + "Class implementation truncated for brevity)*"
  const NoDescription: string := "No description available"

  // ---------------------------------------------------------------------
  // The general answer

  /** `"```python\n" + code + "\n```"`. */
  function Fenced(code: string): string
  {
    "```python\n" + code + "\n```"
  }

  /** The code of one chunk in the general answer. */
  function CodePreview(content: string): seq<string>
  {
    var total := |Split(content, '\n')|;
    if total > 10 then [PreviewBlock(FirstLines(content, 10), total - 10), FullCodeBlock(content)]
    else [Fenced(content)]
  }

  /**
   * For more than ten lines, the preview shows the first ten and a note
   * giving how many more there are, followed by the full code in a collapsed
   * block; otherwise it shows the full code.
   */
  lemma CodePreviewShows(content: string)
    ensures |Split(content, '\n')| <= 10 ==> CodePreview(content) == [Fenced(content)]
    ensures |Split(content, '\n')| > 10 ==>
              var r := CodePreview(content);
              |r| == 2 && r[1] == FullCodeBlock(content)
              && exists preview :: Split(preview, '\n') == Split(content, '\n')[..10] && StartsWith(content, preview)
                   && r[0] == PreviewBlock(preview, |Split(content, '\n')| - 10)
  {
  }

  /** The first lines of a long chunk and how many lines are not shown. */
  function PreviewBlock(preview: string, more: nat): string
  {
    "```python\n" + preview + "\n# ... (" + NatToString(more) + " more lines not shown)\n```"
  }

  /** A long chunk's full code, collapsed. */
  function FullCodeBlock(content: string): string
  {
    "<details>\n<summary>Show full code</summary>\n\n" + Fenced(content) + "\n</details>"
  }

  /** The header of the `i`-th chunk of the general answer. */
  function SectionHeader(i: nat, c: CodeChunk): string
  {
    "\n## " + NatToString(i) + ". " + Capitalize(c.kind) + ": `" + c.name + "`"
  }

  function FromClassLine(parent: string): string
  {
    "From class: `" + parent + "`"
  }

  function FileLine(c: CodeChunk): string
  {
    "File: `" + c.filePath + "`"
  }

  function DescriptionLine(doc: string): string
  {
    "\n**Description:** " + doc
  }

  /** The paragraphs before a chunk's code: its header, class, file and description. */
  function ChunkFacts(i: nat, c: CodeChunk): seq<string>
  {
    [SectionHeader(i, c)]
    + (if Truthy(c.parentName) then [FromClassLine(c.parentName.value)] else [])
    + [FileLine(c)]
    + (if Truthy(c.docstring) then [DescriptionLine(c.docstring.value)] else [])
  }

  /** The paragraphs the general answer gives the `i`-th chunk. */
  function ChunkSection(i: nat, c: CodeChunk): seq<string>
  {
    ChunkFacts(i, c) + CodePreview(c.content)
  }

  /**
   * A chunk's section opens with its header, names its class right after when
   * it has one, gives its file and its description when it has one, and ends
   * with a paragraph holding its whole code.
   */
  lemma ChunkSectionShows(i: nat, c: CodeChunk)
    ensures var r := ChunkSection(i, c);
            && |r| >= 3 && r[0] == SectionHeader(i, c)
            && (Truthy(c.parentName) ==> r[1] == FromClassLine(c.parentName.value))
            && FileLine(c) in r
            && (Truthy(c.docstring) ==> DescriptionLine(c.docstring.value) in r)
            && Contains(r[|r| - 1], Fenced(c.content))
  {
    ContainsMiddle("<details>\n<summary>Show full code</summary>\n\n", Fenced(c.content), "\n</details>");
    ContainsMiddle("", Fenced(c.content), "");
    assert "" + Fenced(c.content) + "" == Fenced(c.content);
  }

  /** The sections of the general answer: one per chunk among the first three, numbered from 1. */
  function Sections(chunks: seq<RetrievedChunk>): (r: seq<seq<string>>)
    ensures |r| == Min(3, |chunks|) && |r| <= 3
    ensures forall i :: 0 <= i < |r| ==> r[i] == ChunkSection(i + 1, chunks[i].chunk)
  {
    seq(Min(3, |chunks|), i requires 0 <= i < Min(3, |chunks|) => ChunkSection(i + 1, chunks[i].chunk))
  }

  /** The text of `_general_answer`. */
  function GeneralText(chunks: seq<RetrievedChunk>): string
  {
    Join([Intro] + Flatten(Sections(chunks)), "\n")
  }

  /** The general answer opens with the introduction. */
  lemma GeneralTextStart(chunks: seq<RetrievedChunk>)
    ensures StartsWith(GeneralText(chunks), Intro)
  {
    JoinStartsWith([Intro] + Flatten(Sections(chunks)), "\n");
  }

  /**
   * One turn of `_general_answer`'s loop: the paragraphs for the `i`-th chunk
   * appended to the answer so far.
   */
  method AppendChunkSection(answer: seq<string>, i: nat, chunk: CodeChunk) returns (r: seq<string>)
    ensures r == answer + ChunkSection(i, chunk)
  {
    ghost var facts: seq<string> := [SectionHeader(i, chunk)];
    r := answer + [SectionHeader(i, chunk)];
    if Truthy(chunk.parentName) {
      r := r + [FromClassLine(chunk.parentName.value)];
      facts := facts + [FromClassLine(chunk.parentName.value)];
    }
    r := r + [FileLine(chunk)];
    facts := facts + [FileLine(chunk)];
    if Truthy(chunk.docstring) {
      r := r + [DescriptionLine(chunk.docstring.value)];
      facts := facts + [DescriptionLine(chunk.docstring.value)];
    }
    assert facts == ChunkFacts(i, chunk);
    assert r == answer + facts;
    ghost var before := r;
    var codeLines := Split(chunk.content, '\n');
    var totalLines := |codeLines|;
    if totalLines > 10 {
      var preview := FirstLines(chunk.content, 10);
      r := r + [PreviewBlock(preview, totalLines - 10), FullCodeBlock(chunk.content)];
    } else {
      r := r + [Fenced(chunk.content)];
    }
    assert r == before + CodePreview(chunk.content);
    AppendAssoc(answer, facts, CodePreview(chunk.content));
  }

  /** `_general_answer`: the introduction, then a section for each of the first three chunks. */
  method GeneralAnswer(chunks: seq<RetrievedChunk>) returns (r: string)
    ensures r == GeneralText(chunks)
  {
    var answer := [Intro];
    var shown := Min(3, |chunks|);
    for i := 0 to shown
      invariant answer == [Intro] + Flatten(Sections(chunks)[..i])
    {
      answer := AppendChunkSection(answer, i + 1, chunks[i].chunk);
      SectionsStep(chunks, i);
      AppendAssoc([Intro], Flatten(Sections(chunks)[..i]), ChunkSection(i + 1, chunks[i].chunk));
    }
    assert Sections(chunks)[..shown] == Sections(chunks);
    r := Join(answer, "\n");
  }

  /** The sections up to the `i`-th, flattened, are those before it and then its own. */
  lemma SectionsStep(chunks: seq<RetrievedChunk>, i: nat)
    requires i < Min(3, |chunks|)
    ensures Flatten(Sections(chunks)[..i + 1]) == Flatten(Sections(chunks)[..i]) + ChunkSection(i + 1, chunks[i].chunk)
  {
    FlattenSnoc(Sections(chunks), i);
  }

  // ---------------------------------------------------------------------
  // What does the class ... do

  /** The class chunks named `className`, ignoring case. */
  function ClassChunksNamed(chunks: seq<RetrievedChunk>, className: string): (r: seq<RetrievedChunk>)
    ensures forall c :: c in r <==> c in chunks && Lower(c.chunk.name) == Lower(className) && c.chunk.kind == ClassType
  {
    Filter(chunks, (c: RetrievedChunk) => Lower(c.chunk.name) == Lower(className) && c.chunk.kind == ClassType)
  }

  /** The method chunks whose `parent_name` is exactly `className`. */
  function MethodsOf(chunks: seq<RetrievedChunk>, className: string): (r: seq<RetrievedChunk>)
    ensures forall c :: c in r <==> c in chunks && c.chunk.parentName == Some(className) && c.chunk.kind == MethodType
  {
    Filter(chunks, (c: RetrievedChunk) => c.chunk.parentName == Some(className) && c.chunk.kind == MethodType)
  }

  /** The methods the class-purpose answer lists: the first three of `MethodsOf`. */
  function KeyMethods(chunks: seq<RetrievedChunk>, className: string): (r: seq<RetrievedChunk>)
    ensures |r| == Min(3, |MethodsOf(chunks, className)|) && |r| <= 3
    ensures r == MethodsOf(chunks, className)[..|r|]
    ensures forall m :: m in r ==> m in chunks && m.chunk.parentName == Some(className) && m.chunk.kind == MethodType
  {
    var all := MethodsOf(chunks, className);
    assert forall m :: m in all[..Min(3, |all|)] ==> m in all;
    all[..Min(3, |all|)]
  }

  function KeyMethodLine(m: RetrievedChunk): string
  {
    "- `" + m.chunk.name + "`: " + (if Truthy(m.chunk.docstring) then m.chunk.docstring.value else NoDescription)
  }

  /**
   * The class-definition part of the class-purpose answer: at most the first
   * fifteen lines of the class, and the truncation note exactly when the
   * class has more than fifteen lines.
   */
  function ClassDefinition(content: string): (r: seq<string>)
    ensures |r| >= 2 && r[0] == "\n### Class Definition:"
    ensures exists shown :: r[1] == Fenced(shown) && StartsWith(content, shown)
              && Split(shown, '\n') == Split(content, '\n')[..Min(15, |Split(content, '\n')|)]
    ensures TruncationNote in r <==> |Split(content, '\n')| > 15
  {
    var codeLines := Split(content, '\n');
    var shown := FirstLines(content, Min(15, |codeLines|));
    assert Fenced(shown)[0] == '`' && TruncationNote[0] == '*';
    assert "\n### Class Definition:"[0] == '\n';
    ["\n### Class Definition:", Fenced(shown)] + (if |codeLines| > 15 then [TruncationNote] else [])
  }

  /** The heading of the class-purpose answer and the class's docstring, if it has one. */
  function ClassOpening(main: CodeChunk): (r: seq<string>)
    ensures |r| == if Truthy(main.docstring) then 2 else 1
    ensures r[0] == "## " + main.name
  {
    ["## " + main.name] + (if Truthy(main.docstring) then [main.docstring.value] else [])
  }

  /** One line per key method, in order. */
  function KeyMethodLines(methods: seq<RetrievedChunk>): (r: seq<string>)
    ensures |r| == |methods|
    ensures forall i :: 0 <= i < |methods| ==> r[i] == KeyMethodLine(methods[i])
  {
    seq(|methods|, i requires 0 <= i < |methods| => KeyMethodLine(methods[i]))
  }

  /** The key-methods part: nothing when the class has no method among the chunks. */
  function KeyMethodsPart(methods: seq<RetrievedChunk>): (r: seq<string>)
    ensures methods == [] ==> r == []
    ensures methods != [] ==> |r| == |methods| + 1 && r[0] == "\n### Key Methods:" && r[1..] == KeyMethodLines(methods)
  {
    if methods != [] then ["\n### Key Methods:"] + KeyMethodLines(methods) else []
  }

  /** The paragraphs of the class-purpose answer for the class chunk `main`. */
  function ClassPurposeLines(main: CodeChunk, chunks: seq<RetrievedChunk>): seq<string>
  {
    ClassOpening(main) + KeyMethodsPart(KeyMethods(chunks, main.name)) + ClassDefinition(main.content)
  }

  /**
   * `_answer_class_purpose`: describe the first class chunk named in the
   * question, or fall back to the general answer when there is none.
   */
  method AnswerClassPurpose(className: string, chunks: seq<RetrievedChunk>) returns (r: string)
    ensures ClassChunksNamed(chunks, className) == [] ==> r == GeneralText(chunks)
    ensures ClassChunksNamed(chunks, className) != [] ==>
              r == Join(ClassPurposeLines(ClassChunksNamed(chunks, className)[0].chunk, chunks), "\n\n")
  {
    var classChunks := ClassChunksNamed(chunks, className);
    if classChunks == [] {
      r := GeneralAnswer(chunks);
      return;
    }
    var main := classChunks[0].chunk;
    var answer := ["## " + main.name];
    if Truthy(main.docstring) {
      answer := answer + [main.docstring.value];
    }
    ghost var opening := answer;
    var methodChunks := MethodsOf(chunks, main.name);
    answer := AppendKeyMethods(answer, methodChunks);
    assert opening == ClassOpening(main);
    assert answer == opening + KeyMethodsPart(KeyMethods(chunks, main.name));
    answer := AppendClassDefinition(answer, main.content);
    r := Join(answer, "\n\n");
  }

  /** The key-methods part of `_answer_class_purpose`: a line for each of the first three methods. */
  method AppendKeyMethods(answer: seq<string>, methods: seq<RetrievedChunk>) returns (r: seq<string>)
    ensures r == answer + KeyMethodsPart(methods[..Min(3, |methods|)])
  {
    r := answer;
    if methods != [] {
      r := r + ["\n### Key Methods:"];
      ghost var listed: seq<string> := [];
      for i := 0 to Min(3, |methods|)
        invariant |listed| == i && forall k :: 0 <= k < i ==> listed[k] == KeyMethodLine(methods[k])
        invariant r == answer + ["\n### Key Methods:"] + listed
      {
        AppendAssoc(answer + ["\n### Key Methods:"], listed, [KeyMethodLine(methods[i])]);
        r := r + [KeyMethodLine(methods[i])];
        listed := listed + [KeyMethodLine(methods[i])];
      }
      assert listed == KeyMethodLines(methods[..Min(3, |methods|)]);
      AppendAssoc(answer, ["\n### Key Methods:"], listed);
    }
  }

  /**
   * The end of `_answer_class_purpose`: the class-definition heading, the
   * first lines of the class and, for a long class, the truncation note.
   */
  method AppendClassDefinition(answer: seq<string>, content: string) returns (r: seq<string>)
    ensures r == answer + ClassDefinition(content)
  {
    ghost var definition: seq<string> := ["\n### Class Definition:"];
    r := answer + ["\n### Class Definition:"];
    var codeLines := Split(content, '\n');
    var displayLines := codeLines[..Min(15, |codeLines|)];
    r := r + ["```python\n" + Join(displayLines, "\n") + "\n```"];
    definition := definition + ["```python\n" + Join(displayLines, "\n") + "\n```"];
    if |codeLines| > 15 {
      r := r + [TruncationNote];
      definition := definition + [TruncationNote];
    }
    assert r == answer + definition;
    assert "```python\n" + Join(displayLines, "\n") + "\n```" == Fenced(FirstLines(content, Min(15, |codeLines|)));
  }

  // ---------------------------------------------------------------------
  // How is ... implemented

  /** The chunks an implementation question is about: by name alone for a service or component, else functions and methods by name. */
  function ImplementationChunks(itemType: string, itemName: string, chunks: seq<RetrievedChunk>): (r: seq<RetrievedChunk>)
    ensures itemType == "service" || itemType == "component" ==>
              forall c :: c in r <==> c in chunks && Lower(c.chunk.name) == Lower(itemName)
    ensures !(itemType == "service" || itemType == "component") ==>
              forall c :: c in r <==> c in chunks && Lower(c.chunk.name) == Lower(itemName)
                                      && (c.chunk.kind == FunctionType || c.chunk.kind == MethodType)
  {
    if itemType == "service" || itemType == "component" then
      Filter(chunks, (c: RetrievedChunk) => Lower(c.chunk.name) == Lower(itemName))
    else
      Filter(chunks, (c: RetrievedChunk) => Lower(c.chunk.name) == Lower(itemName)
                                            && (c.chunk.kind == FunctionType || c.chunk.kind == MethodType))
  }

  /** The paragraphs of the implementation answer for `main`. */
  function ImplementationLines(main: CodeChunk): (r: seq<string>)
    ensures |r| >= 1 && r[0] == "## Implementation of " + main.name
    ensures Fenced(main.content) in r
  {
    ["## Implementation of " + main.name]
    + (if Truthy(main.docstring) then [main.docstring.value] else [])
    + ["\n### Implementation:", Fenced(main.content)]
    + (if main.kind == MethodType && Truthy(main.parentName)
       then ["\nThis is a method of the `" + main.parentName.value + "` class."] else [])
  }

  /** `_answer_implementation`: show the first matching chunk in full, or fall back to the general answer. */
  method AnswerImplementation(itemType: string, itemName: string, chunks: seq<RetrievedChunk>) returns (r: string)
    ensures ImplementationChunks(itemType, itemName, chunks) == [] ==> r == GeneralText(chunks)
    ensures ImplementationChunks(itemType, itemName, chunks) != [] ==>
              r == Join(ImplementationLines(ImplementationChunks(itemType, itemName, chunks)[0].chunk), "\n\n")
  {
    var implChunks := ImplementationChunks(itemType, itemName, chunks);
    if implChunks == [] {
      r := GeneralAnswer(chunks);
      return;
    }
    r := Join(ImplementationLines(implChunks[0].chunk), "\n\n");
  }

  // ---------------------------------------------------------------------
  // How does ... use the parameter ...

  /** The function and method chunks named `methodName`, ignoring case. */
  function FunctionChunksNamed(chunks: seq<RetrievedChunk>, methodName: string): (r: seq<RetrievedChunk>)
    ensures forall c :: c in r <==> c in chunks && Lower(c.chunk.name) == Lower(methodName)
                                    && (c.chunk.kind == FunctionType || c.chunk.kind == MethodType)
  {
    Filter(chunks, (c: RetrievedChunk) => Lower(c.chunk.name) == Lower(methodName)
                                          && (c.chunk.kind == FunctionType || c.chunk.kind == MethodType))
  }

  /** The 0-based line of `text` that offset `pos` falls on: the newlines before it. */
  function LineOf(text: string, pos: int): (l: nat)
    ensures l < |Split(text, '\n')|
  {
    var prefix := PySlice(text, 0, pos);
    assert prefix == text[..|prefix|];
    CountCharPrefix(text, |prefix|, '\n');
    CountChar(prefix, '\n')
  }

  /** Lines `start .. end-1` of the method's code shown as one usage example. */
  datatype Window = Window(start: int, end: int)

  /** The window `_answer_parameter_usage` shows around line `l` of an `n`-line text. */
  function WindowAround(l: int, n: int): (w: Window)
    ensures 0 <= l < n ==> 0 <= w.start <= l < w.end <= n && w.end - w.start <= 3
  {
    Window(Max(0, l - 1), Min(n, l + 2))
  }

  /** `max` on two ints. */
  function Max(a: int, b: int): int
  {
    if a >= b then a else b
  }

  /** `set(range(a, b))`. */
  function LineRange(a: int, b: int): (r: set<int>)
    ensures forall k :: k in r <==> a <= k < b
    decreases b - a
  {
    if a >= b then {} else {a} + LineRange(a + 1, b)
  }

  /** Some window of `windows` holds line `l`. */
  predicate Covered(windows: seq<Window>, l: int)
  {
    windows != [] && (Covered(windows[..|windows| - 1], l) || windows[|windows| - 1].start <= l < windows[|windows| - 1].end)
  }

  /** `Covered` is "some window holds the line". */
  lemma {:induction false} CoveredSome(windows: seq<Window>, l: int)
    ensures Covered(windows, l) <==> exists i :: 0 <= i < |windows| && windows[i].start <= l < windows[i].end
  {
    if windows != [] {
      var n := |windows| - 1;
      CoveredSome(windows[..n], l);
      if exists i :: 0 <= i < |windows| && windows[i].start <= l < windows[i].end {
        var i :| 0 <= i < |windows| && windows[i].start <= l < windows[i].end;
        if i < n { assert windows[..n][i] == windows[i]; }
      }
      if exists i :: 0 <= i < n && windows[..n][i].start <= l < windows[..n][i].end {
        var i :| 0 <= i < n && windows[..n][i].start <= l < windows[..n][i].end;
        assert windows[i] == windows[..n][i];
      }
    }
  }

  /**
   * What the context loop of `_answer_parameter_usage` produces from the
   * parameter's lines of an `n`-line text: one window per centre, each centre
   * a parameter line, each window the one around its centre; each window
   * stays within the text and spans at most three lines; every parameter
   * line is covered by some window; and no window is centred on a line an
   * earlier window covers.
   */
  ghost predicate ContextWindowsSpec(paramLines: set<int>, n: int, centers: seq<int>, windows: seq<Window>)
  {
    && |centers| == |windows| <= |paramLines|
    && (forall i :: 0 <= i < |windows| ==> centers[i] in paramLines && windows[i] == WindowAround(centers[i], n))
    && (forall i :: 0 <= i < |windows| ==>
          0 <= windows[i].start <= centers[i] < windows[i].end <= n && windows[i].end - windows[i].start <= 3)
    && (forall l :: l in paramLines ==> Covered(windows, l))
    && (forall i, j :: 0 <= j < i < |windows| ==> !(windows[j].start <= centers[i] < windows[j].end))
  }

  /**
   * The context loop of `_answer_parameter_usage`: take the parameter's lines
   * in any order, skip a line an earlier window already covers, and otherwise
   * emit the window around it and mark its lines covered.
   */
  method ContextWindows(paramLines: set<int>, n: int) returns (centers: seq<int>, windows: seq<Window>)
    requires forall l :: l in paramLines ==> 0 <= l < n
    ensures ContextWindowsSpec(paramLines, n, centers, windows)
    ensures paramLines != {} ==> windows != []
  {
    var remaining := paramLines;
    var processed: set<int> := {};
    ghost var done: set<int> := {};
    centers, windows := [], [];
    while remaining != {}
      invariant done + remaining == paramLines && done !! remaining
      invariant WindowsSoFar(done, processed, n, centers, windows)
      decreases |remaining|
    {
      remaining, processed, done, centers, windows := TakeLine(remaining, processed, done, n, centers, windows);
    }
    FinishWindows(paramLines, processed, n, centers, windows);
    if paramLines != {} {
      var l := Pick(paramLines);
      assert Covered(windows, l);
    }
  }

  /** One turn of the context loop: take some remaining line and emit its window unless one already covers it. */
  method TakeLine(remaining: set<int>, processed: set<int>, ghost done: set<int>, n: int, centers: seq<int>, windows: seq<Window>)
    returns (remaining': set<int>, processed': set<int>, ghost done': set<int>, centers': seq<int>, windows': seq<Window>)
    requires remaining != {} && done !! remaining
    requires forall l :: l in remaining ==> 0 <= l < n
    requires WindowsSoFar(done, processed, n, centers, windows)
    ensures done' + remaining' == done + remaining && done' !! remaining'
    ensures |remaining'| < |remaining|
    ensures WindowsSoFar(done', processed', n, centers', windows')
  {
    var l := Pick(remaining);
    remaining' := remaining - {l};
    done' := done + {l};
    if l in processed {
      SkipLine(done, processed, n, centers, windows, l);
      processed', centers', windows' := processed, centers, windows;
    } else {
      var startLine := Max(0, l - 1);
      var endLine := Min(n, l + 2);
      EmitWindow(done, processed, n, centers, windows, l);
      processed' := processed + LineRange(startLine, endLine);
      centers' := centers + [l];
      windows' := windows + [Window(startLine, endLine)];
    }
  }

  /**
   * The state of the context loop once the lines of `done` are taken: one
   * window per centre, each centre a taken line, every taken line covered,
   * `processed` exactly the covered lines, and no centre inside an earlier
   * window.
   */
  ghost predicate WindowsSoFar(done: set<int>, processed: set<int>, n: int, centers: seq<int>, windows: seq<Window>)
  {
    && |centers| == |windows| <= |done|
    && (forall i :: 0 <= i < |windows| ==> centers[i] in done && windows[i] == WindowAround(centers[i], n))
    && (forall l :: l in done ==> Covered(windows, l))
    && (forall k :: k in processed <==> Covered(windows, k))
    && (forall i, j :: 0 <= j < i < |windows| ==> !(windows[j].start <= centers[i] < windows[j].end))
  }

  /** Taking a line no window covers yet and emitting the window around it keeps the loop's state. */
  lemma EmitWindow(done: set<int>, processed: set<int>, n: int, centers: seq<int>, windows: seq<Window>, l: int)
    requires WindowsSoFar(done, processed, n, centers, windows)
    requires l !in done && l !in processed && 0 <= l < n
    ensures var w := WindowAround(l, n);
            WindowsSoFar(done + {l}, processed + LineRange(w.start, w.end), n, centers + [l], windows + [w])
  {
    var w := WindowAround(l, n);
    var ws, cs := windows + [w], centers + [l];
    CoveredSome(windows, l);
    assert ws[..|windows|] == windows;
    assert |done + {l}| == |done| + 1;
    forall k ensures Covered(ws, k) <==> Covered(windows, k) || w.start <= k < w.end {
    }
    forall i | 0 <= i < |ws| ensures cs[i] in done + {l} && ws[i] == WindowAround(cs[i], n) {
      if i < |windows| { assert ws[i] == windows[i] && cs[i] == centers[i]; }
    }
    forall i, j | 0 <= j < i < |ws| ensures !(ws[j].start <= cs[i] < ws[j].end) {
      assert ws[j] == windows[j];
      if i < |windows| { assert ws[i] == windows[i] && cs[i] == centers[i]; }
    }
  }

  /** Taking a line an earlier window already covers keeps the loop's state. */
  lemma SkipLine(done: set<int>, processed: set<int>, n: int, centers: seq<int>, windows: seq<Window>, l: int)
    requires WindowsSoFar(done, processed, n, centers, windows)
    requires l !in done && l in processed
    ensures WindowsSoFar(done + {l}, processed, n, centers, windows)
  {
    assert |done + {l}| == |done| + 1;
  }

  /** Once every parameter line is taken, the windows meet `ContextWindowsSpec`. */
  lemma FinishWindows(paramLines: set<int>, processed: set<int>, n: int, centers: seq<int>, windows: seq<Window>)
    requires forall l :: l in paramLines ==> 0 <= l < n
    requires WindowsSoFar(paramLines, processed, n, centers, windows)
    ensures ContextWindowsSpec(paramLines, n, centers, windows)
  {
    forall i | 0 <= i < |windows|
      ensures 0 <= windows[i].start <= centers[i] < windows[i].end <= n && windows[i].end - windows[i].start <= 3
    {
      assert centers[i] in paramLines;
    }
  }

  /** The lines, counted from 0, on which the parameter's matches start. */
  function MatchLines(text: string, matches: seq<int>): (r: set<int>)
    ensures forall l :: l in r ==> 0 <= l < |Split(text, '\n')|
    ensures forall k :: 0 <= k < |matches| ==> LineOf(text, matches[k]) in r
    ensures forall l :: l in r ==> exists k :: 0 <= k < |matches| && LineOf(text, matches[k]) == l
  {
    if matches == [] then {}
    else
      var n := |matches| - 1;
      assert forall k :: 0 <= k < n ==> matches[..n][k] == matches[k];
      MatchLines(text, matches[..n]) + {LineOf(text, matches[n])}
  }

  /**
   * One usage example: lines `w.start .. w.end-1` of the code, fenced. The
   * fenced text is a piece of the code made of exactly those lines.
   */
  function UsageExample(content: string, w: Window): (r: string)
    requires 0 <= w.start < w.end <= |Split(content, '\n')|
    ensures exists context :: r == Fenced(context) && Contains(content, context)
              && Split(context, '\n') == Split(content, '\n')[w.start..w.end]
  {
    LinesExcerpt(content, w.start, w.end);
    Fenced(Join(Split(content, '\n')[w.start..w.end], "\n"))
  }

  /** The usage examples for `windows`, in window order. */
  function UsageExamples(content: string, windows: seq<Window>): (r: seq<string>)
    requires forall i :: 0 <= i < |windows| ==> 0 <= windows[i].start < windows[i].end <= |Split(content, '\n')|
    ensures |r| == |windows|
    ensures forall i :: 0 <= i < |windows| ==> r[i] == UsageExample(content, windows[i])
  {
    seq(|windows|, i requires 0 <= i < |windows| => UsageExample(content, windows[i]))
  }

  /** The paragraphs of the parameter-usage answer, the usage examples given. */
  function ParameterUsageLines(paramName: string, target: CodeChunk, description: Option<string>, examples: seq<string>): (r: seq<string>)
    ensures |r| >= 1 && r[0] == "## Parameter `" + paramName + "` in `" + target.name + "`"
    ensures Fenced(target.content) in r
    ensures examples != [] ==> r[|r| - 1] == Join(examples, "\n")
  {
    ["## Parameter `" + paramName + "` in `" + target.name + "`"]
    + (if description.Some? then ["**Parameter Description:** " + Strip(description.value)] else [])
    + ["\n### Method Implementation:", Fenced(target.content), "\n### Parameter Usage:"]
    + (if examples != [] then [Join(examples, "\n")] else [])
  }

  /** The description of `paramName` found in a non-empty docstring, if any. */
  function Description(paramDoc: ParamDocFinder, target: CodeChunk, paramName: string): Option<string>
  {
    if Truthy(target.docstring) then paramDoc(target.docstring.value, paramName) else None
  }

  /** The loop of `_answer_parameter_usage` that collects the line of every match. */
  method ParamLines(content: string, matches: seq<int>) returns (paramLines: set<int>)
    ensures paramLines == MatchLines(content, matches)
  {
    paramLines := {};
    for i := 0 to |matches|
      invariant paramLines == MatchLines(content, matches[..i])
    {
      assert matches[..i + 1][..i] == matches[..i];
      paramLines := paramLines + {LineOf(content, matches[i])};
    }
    assert matches[..|matches|] == matches;
  }

  /** The loop of `_answer_parameter_usage` that fences the lines of every window. */
  method ContextExamples(content: string, windows: seq<Window>) returns (examples: seq<string>)
    requires forall i :: 0 <= i < |windows| ==> 0 <= windows[i].start < windows[i].end <= |Split(content, '\n')|
    ensures examples == UsageExamples(content, windows)
  {
    var lines := Split(content, '\n');
    examples := [];
    for i := 0 to |windows|
      invariant examples == UsageExamples(content, windows[..i])
    {
      var context := Join(lines[windows[i].start..windows[i].end], "\n");
      examples := examples + [Fenced(context)];
    }
    assert windows[..|windows|] == windows;
  }

  /**
   * `_answer_parameter_usage`: for the first function or method with the
   * name in the question, its code and the lines around the mentions of the
   * parameter. With no such function, or when that first one does not
   * mention the parameter, the general answer; later functions with the
   * same name are not searched.
   */
  method AnswerParameterUsage(methodName: string, paramName: string, chunks: seq<RetrievedChunk>,
                              finder: WordFinder, paramDoc: ParamDocFinder) returns (r: string)
    ensures FunctionChunksNamed(chunks, methodName) == [] ==> r == GeneralText(chunks)
    ensures FunctionChunksNamed(chunks, methodName) != [] ==>
              var m := FunctionChunksNamed(chunks, methodName)[0].chunk;
              var matches := finder(paramName, m.content);
              (matches == [] ==> r == GeneralText(chunks))
              && (matches != [] ==>
                    exists centers, windows ::
                      && ContextWindowsSpec(MatchLines(m.content, matches), |Split(m.content, '\n')|, centers, windows)
                      && windows != []
                      && r == Join(ParameterUsageLines(paramName, m, Description(paramDoc, m, paramName),
                                                       UsageExamples(m.content, windows)), "\n\n"))
  {
    var methodChunks := FunctionChunksNamed(chunks, methodName);
    if methodChunks == [] {
      r := GeneralAnswer(chunks);
      return;
    }
    var target := methodChunks[0].chunk;
    var content := target.content;
    var matches := finder(paramName, content);
    if matches == [] {
      r := GeneralAnswer(chunks);
      return;
    }
    var lines := Split(content, '\n');
    var paramLines := ParamLines(content, matches);
    assert LineOf(content, matches[0]) in paramLines;
    var centers, windows := ContextWindows(paramLines, |lines|);
    var examples := ContextExamples(content, windows);
    r := Join(ParameterUsageLines(paramName, target, Description(paramDoc, target, paramName), examples), "\n\n");
  }

  // ---------------------------------------------------------------------
  // What methods does the class ... have

  /** The chunks a class-methods question lists: functions and methods whose parent matches, ignoring case. */
  function MembersOf(chunks: seq<RetrievedChunk>, className: string): (r: seq<RetrievedChunk>)
    ensures forall c :: c in r <==> c in chunks && Truthy(c.chunk.parentName)
                                    && Lower(c.chunk.parentName.value) == Lower(className)
                                    && (c.chunk.kind == MethodType || c.chunk.kind == FunctionType)
  {
    Filter(chunks, (c: RetrievedChunk) => Truthy(c.chunk.parentName)
                                          && Lower(c.chunk.parentName.value) == Lower(className)
                                          && (c.chunk.kind == MethodType || c.chunk.kind == FunctionType))
  }

  /** A signature longer than 80 characters keeps its first 77 and gains `...`. */
  function CapSignature(s: string): (r: string)
    ensures |r| <= 80
    ensures |s| <= 80 ==> r == s
    ensures |s| > 80 ==> |r| == 80 && r[..77] == s[..77] && r[77..] == "..."
  {
    if |s| > 80 then s[..77] + "..." else s
  }

  /** A method's signature: its first line, stripped, capped at 80 characters. */
  function Signature(content: string): (r: string)
    ensures |r| <= 80
  {
    CapSignature(Strip(Split(content, '\n')[0]))
  }

  /**
   * `docstring.split('.')[0] + '.'`: the docstring up to and including its
   * first full stop, or the whole docstring and a full stop when it has none.
   */
  function FirstSentence(doc: string): (r: string)
    ensures r != [] && r[|r| - 1] == '.' && '.' !in r[..|r| - 1]
    ensures StartsWith(doc + ".", r)
  {
    var first := Split(doc, '.')[0];
    SplitFirst(doc, '.');
    assert (first + ".")[..|first|] == first;
    assert (doc + ".")[..|first| + 1] == first + ".";
    first + "."
  }

  /** The heading of a method's entry and the first sentence of its docstring, if it has one. */
  function MethodHeading(m: CodeChunk): seq<string>
  {
    ["### `" + m.name + "`"] + (if Truthy(m.docstring) then [FirstSentence(m.docstring.value) + "\n"] else [])
  }

  /** A long method's code, collapsed. */
  function MethodCodeBlock(content: string): string
  {
    "<details>\n<summary>View method code</summary>\n\n" + Fenced(content) + "\n</details>\n"
  }

  /** A method's code: folded under its signature when it has more than five lines, else in full. */
  function MethodCode(m: CodeChunk): seq<string>
  {
    if |Split(m.content, '\n')| > 5
    then ["**`" + Signature(m.content) + "`**", MethodCodeBlock(m.content)]
    else [Fenced(m.content) + "\n"]
  }

  /** The paragraphs listed for one method. */
  function MethodEntry(m: CodeChunk): seq<string>
  {
    MethodHeading(m) + MethodCode(m)
  }

  /** The code part of an entry ends with the whole code, after the signature when it is folded. */
  lemma MethodCodeShows(m: CodeChunk)
    ensures var c := MethodCode(m);
            && |c| >= 1 && Contains(c[|c| - 1], Fenced(m.content))
            && (|Split(m.content, '\n')| > 5 ==> |c| == 2 && c[0] == "**`" + Signature(m.content) + "`**")
  {
    if |Split(m.content, '\n')| > 5 {
      ContainsMiddle("<details>\n<summary>View method code</summary>\n\n", Fenced(m.content), "\n</details>\n");
    } else {
      ContainsMiddle("", Fenced(m.content), "\n");
      assert "" + Fenced(m.content) + "\n" == Fenced(m.content) + "\n";
    }
  }

  /**
   * A method's entry has its heading, the first sentence of its docstring,
   * and its code, in full or folded under its signature when it has more
   * than five lines. The last paragraph always holds the whole code.
   */
  lemma MethodEntryShows(m: CodeChunk)
    ensures var r := MethodEntry(m);
            && |r| >= 2 && r[0] == "### `" + m.name + "`"
            && (Truthy(m.docstring) ==> r[1] == FirstSentence(m.docstring.value) + "\n")
            && (|Split(m.content, '\n')| > 5 ==> r[|r| - 2] == "**`" + Signature(m.content) + "`**")
            && Contains(r[|r| - 1], Fenced(m.content))
  {
    var h, c := MethodHeading(m), MethodCode(m);
    MethodCodeShows(m);
    var r := h + c;
    assert r[0] == h[0];
    assert Truthy(m.docstring) ==> r[1] == h[1];
    assert r[|r| - 1] == c[|c| - 1];
    assert |c| == 2 ==> r[|r| - 2] == c[0];
  }

  function MethodEntries(methods: seq<RetrievedChunk>): (r: seq<seq<string>>)
    ensures |r| == |methods| && forall i :: 0 <= i < |methods| ==> r[i] == MethodEntry(methods[i].chunk)
  {
    seq(|methods|, i requires 0 <= i < |methods| => MethodEntry(methods[i].chunk))
  }

  /** The paragraphs of the class-methods answer before the methods. */
  function ClassMethodsOpening(cls: CodeChunk): (r: seq<string>)
    ensures |r| == if Truthy(cls.docstring) then 3 else 2
    ensures r[0] == "## Methods in class `" + cls.name + "`"
  {
    ["## Methods in class `" + cls.name + "`"]
    + (if Truthy(cls.docstring) then ["**Class purpose:** " + cls.docstring.value + "\n"] else [])
    + ["The `" + cls.name + "` class has the following methods:\n"]
  }

  /** The paragraphs of the class-methods answer. */
  function ClassMethodsLines(cls: CodeChunk, methods: seq<RetrievedChunk>): seq<string>
  {
    ClassMethodsOpening(cls) + Flatten(MethodEntries(methods))
  }

  /**
   * `_answer_class_methods`: when the question's class has a class chunk and
   * at least one member, list every member; otherwise the general answer.
   */
  method AnswerClassMethods(className: string, chunks: seq<RetrievedChunk>) returns (r: string)
    ensures ClassChunksNamed(chunks, className) == [] || MembersOf(chunks, className) == [] ==>
              r == GeneralText(chunks)
    ensures ClassChunksNamed(chunks, className) != [] && MembersOf(chunks, className) != [] ==>
              r == Join(ClassMethodsLines(ClassChunksNamed(chunks, className)[0].chunk, MembersOf(chunks, className)), "\n")
  {
    var classChunks := ClassChunksNamed(chunks, className);
    var methodChunks := MembersOf(chunks, className);
    if classChunks == [] || methodChunks == [] {
      r := GeneralAnswer(chunks);
      return;
    }
    var cls := classChunks[0].chunk;
    var answer := ["## Methods in class `" + cls.name + "`"];
    if Truthy(cls.docstring) {
      answer := answer + ["**Class purpose:** " + cls.docstring.value + "\n"];
    }
    answer := answer + ["The `" + cls.name + "` class has the following methods:\n"];
    assert answer == ClassMethodsOpening(cls);
    answer := AppendMethodEntries(answer, methodChunks);
    r := Join(answer, "\n");
  }

  /** The loop of `_answer_class_methods`: an entry for every member, in order. */
  method AppendMethodEntries(head: seq<string>, methods: seq<RetrievedChunk>) returns (r: seq<string>)
    ensures r == head + Flatten(MethodEntries(methods))
  {
    r := head;
    ghost var entries := MethodEntries(methods);
    for i := 0 to |methods|
      invariant r == head + Flatten(entries[..i])
    {
      r := AppendMethodEntry(r, methods[i].chunk);
      FlattenSnoc(entries, i);
      AppendAssoc(head, Flatten(entries[..i]), entries[i]);
    }
    assert entries[..|methods|] == entries;
  }

  /** One turn of `_answer_class_methods`'s loop: the paragraphs for method `m` appended. */
  method AppendMethodEntry(answer: seq<string>, m: CodeChunk) returns (r: seq<string>)
    ensures r == answer + MethodEntry(m)
  {
    var signature := Strip(Split(m.content, '\n')[0]);
    if |signature| > 80 {
      signature := signature[..77] + "...";
    }
    assert signature == Signature(m.content);
    r := answer + ["### `" + m.name + "`"];
    if Truthy(m.docstring) {
      var docstring := Split(m.docstring.value, '.')[0] + ".";
      r := r + [docstring + "\n"];
    }
    assert r == answer + MethodHeading(m);
    ghost var before := r;
    if |Split(m.content, '\n')| > 5 {
      r := r + ["**`" + signature + "`**"];
      r := r + [MethodCodeBlock(m.content)];
    } else {
      r := r + [Fenced(m.content) + "\n"];
    }
    assert r == before + MethodCode(m);
    AppendAssoc(answer, MethodHeading(m), MethodCode(m));
  }

  // ---------------------------------------------------------------------
  // Dispatch

  /**
   * The answer `_process_question` gives each pattern: the pattern's own
   * answer when its chunks are found, otherwise the general answer.
   */
  ghost predicate AnswerFor(question: Question, chunks: seq<RetrievedChunk>,
                            finder: WordFinder, paramDoc: ParamDocFinder, r: string)
  {
    match question
    case ClassPurpose(name) => ClassPurposeAnswer(name, chunks, r)
    case Implementation(kind, name) => ImplementationAnswer(kind, name, chunks, r)
    case ParameterUsage(name, param) => ParameterUsageAnswer(name, param, chunks, finder, paramDoc, r)
    case ClassMethods(name) => ClassMethodsAnswer(name, chunks, r)
    case General => r == GeneralText(chunks)
  }

  ghost predicate ClassPurposeAnswer(name: string, chunks: seq<RetrievedChunk>, r: string)
  {
    var found := ClassChunksNamed(chunks, name);
    if found == [] then r == GeneralText(chunks)
    else r == Join(ClassPurposeLines(found[0].chunk, chunks), "\n\n")
  }

  ghost predicate ImplementationAnswer(kind: string, name: string, chunks: seq<RetrievedChunk>, r: string)
  {
    var found := ImplementationChunks(kind, name, chunks);
    if found == [] then r == GeneralText(chunks)
    else r == Join(ImplementationLines(found[0].chunk), "\n\n")
  }

  /** For parameter usage the windows are any that meet `ContextWindowsSpec`. */
  ghost predicate ParameterUsageAnswer(name: string, param: string, chunks: seq<RetrievedChunk>,
                                       finder: WordFinder, paramDoc: ParamDocFinder, r: string)
  {
    var found := FunctionChunksNamed(chunks, name);
    if found == [] || finder(param, found[0].chunk.content) == [] then r == GeneralText(chunks)
    else
      var m := found[0].chunk;
      exists centers, windows ::
        && ContextWindowsSpec(MatchLines(m.content, finder(param, m.content)), |Split(m.content, '\n')|, centers, windows)
        && windows != []
        && r == Join(ParameterUsageLines(param, m, Description(paramDoc, m, param),
                                         UsageExamples(m.content, windows)), "\n\n")
  }

  ghost predicate ClassMethodsAnswer(name: string, chunks: seq<RetrievedChunk>, r: string)
  {
    var found, members := ClassChunksNamed(chunks, name), MembersOf(chunks, name);
    if found == [] || members == [] then r == GeneralText(chunks)
    else r == Join(ClassMethodsLines(found[0].chunk, members), "\n")
  }

  /** `_process_question`: the answer for the matched pattern. */
  method ProcessQuestion(question: Question, chunks: seq<RetrievedChunk>,
                         finder: WordFinder, paramDoc: ParamDocFinder) returns (r: string)
    ensures AnswerFor(question, chunks, finder, paramDoc, r)
    ensures StartsWith(r, "## ") || r == GeneralText(chunks)
  {
    match question {
      case ClassPurpose(name) =>
        r := AnswerClassPurpose(name, chunks);
      case Implementation(kind, name) =>
        r := AnswerImplementation(kind, name, chunks);
      case ParameterUsage(name, param) =>
        r := AnswerParameterUsage(name, param, chunks, finder, paramDoc);
      case ClassMethods(name) =>
        r := AnswerClassMethods(name, chunks);
      case General =>
        r := GeneralAnswer(chunks);
    }
    AnswerShape(question, chunks, finder, paramDoc, r);
  }

  /** Every answer either opens with a `## ` heading or is the general answer. */
  lemma AnswerShape(question: Question, chunks: seq<RetrievedChunk>,
                    finder: WordFinder, paramDoc: ParamDocFinder, r: string)
    requires AnswerFor(question, chunks, finder, paramDoc, r)
    ensures StartsWith(r, "## ") || r == GeneralText(chunks)
  {
    match question {
      case ClassPurpose(name) =>
        var found := ClassChunksNamed(chunks, name);
        if found != [] {
          ClassPurposeHeading(found[0].chunk, chunks);
        }
      case Implementation(kind, name) =>
        var found := ImplementationChunks(kind, name, chunks);
        if found != [] {
          ImplementationHeading(found[0].chunk);
        }
      case ParameterUsage(name, param) =>
        ParameterUsageShape(name, param, chunks, finder, paramDoc, r);
      case ClassMethods(name) =>
        var found, members := ClassChunksNamed(chunks, name), MembersOf(chunks, name);
        if found != [] && members != [] {
          ClassMethodsHeading(found[0].chunk, members);
        }
      case General =>
    }
  }

  lemma ParameterUsageShape(name: string, param: string, chunks: seq<RetrievedChunk>,
                            finder: WordFinder, paramDoc: ParamDocFinder, r: string)
    requires ParameterUsageAnswer(name, param, chunks, finder, paramDoc, r)
    ensures StartsWith(r, "## ") || r == GeneralText(chunks)
  {
    var found := FunctionChunksNamed(chunks, name);
    if found != [] && finder(param, found[0].chunk.content) != [] {
      var m := found[0].chunk;
      var centers, windows :| && ContextWindowsSpec(MatchLines(m.content, finder(param, m.content)), |Split(m.content, '\n')|, centers, windows)
                              && windows != []
                              && r == Join(ParameterUsageLines(param, m, Description(paramDoc, m, param),
                                                               UsageExamples(m.content, windows)), "\n\n");
      ParameterUsageHeading(param, m, Description(paramDoc, m, param), UsageExamples(m.content, windows));
    }
  }

  /** A join whose first paragraph is a `## ` heading starts with `## `. */
  lemma HeaderStart(parts: seq<string>, sep: string)
    requires parts != [] && StartsWith(parts[0], "## ")
    ensures StartsWith(Join(parts, sep), "## ")
  {
    JoinStartsWith(parts, sep);
    StartsWithTrans(Join(parts, sep), parts[0], "## ");
  }

  lemma ClassPurposeHeading(main: CodeChunk, chunks: seq<RetrievedChunk>)
    ensures StartsWith(Join(ClassPurposeLines(main, chunks), "\n\n"), "## ")
  {
    HeaderStart(ClassPurposeLines(main, chunks), "\n\n");
  }

  lemma ImplementationHeading(main: CodeChunk)
    ensures StartsWith(Join(ImplementationLines(main), "\n\n"), "## ")
  {
    HeaderStart(ImplementationLines(main), "\n\n");
  }

  lemma ParameterUsageHeading(paramName: string, target: CodeChunk, description: Option<string>, examples: seq<string>)
    ensures StartsWith(Join(ParameterUsageLines(paramName, target, description, examples), "\n\n"), "## ")
  {
    HeaderStart(ParameterUsageLines(paramName, target, description, examples), "\n\n");
  }

  lemma ClassMethodsHeading(cls: CodeChunk, methods: seq<RetrievedChunk>)
    ensures StartsWith(Join(ClassMethodsLines(cls, methods), "\n"), "## ")
  {
    HeaderStart(ClassMethodsLines(cls, methods), "\n");
  }

  /**
   * `generate`: the fixed no-code message exactly when no chunk was
   * retrieved; otherwise the answer for the question.
   */
  method Generate(question: Question, chunks: seq<RetrievedChunk>,
                  finder: WordFinder, paramDoc: ParamDocFinder) returns (r: string)
    ensures r == NoCodeMessage <==> chunks == []
    ensures chunks != [] ==> AnswerFor(question, chunks, finder, paramDoc, r)
  {
    if chunks == [] {
      return NoCodeMessage;
    }
    r := ProcessQuestion(question, chunks, finder, paramDoc);
    NotNoCode(r, chunks);
  }

  /** No answer to a question with chunks is the no-code message. */
  lemma NotNoCode(r: string, chunks: seq<RetrievedChunk>)
    requires chunks != [] && (StartsWith(r, "## ") || r == GeneralText(chunks))
    ensures r != NoCodeMessage
  {
    if StartsWith(r, "## ") {
      assert r[0] == '#' != NoCodeMessage[0];
    } else {
      GeneralTextStart(chunks);
      assert |r| >= |Intro| > |NoCodeMessage|;
    }
  }
}
