/**
 * `CodeIndexer` of app/indexer/code_indexer.py: it walks a repository for
 * Python files, turns each file into chunks, embeds every chunk, builds a
 * flat nearest-neighbour index over the embeddings, saves all of it as three
 * files in the index directory and loads it back, and answers a query with
 * the chunks the index finds nearest.
 *
 * The file system, the parser, the hash, the sentence encoder and FAISS are
 * collaborators: the walk and the file reads are a `Repository` value, the
 * three saved files are the fields of an `IndexStore`, and the others are
 * function-valued fields of the indexer.
 */
module Indexer {
  import opened Wrappers
  import opened Text
  import opened Lists
  import opened Chunks
  import opened Visitor

  /** One entry of `os.walk`: a directory and the names of the files directly in it. */
  datatype WalkDir = WalkDir(root: string, files: seq<string>)

  /**
   * The repository as the indexer sees it: what `os.walk(repo_path)` yields,
   * in its order, and the UTF-8 text of a path (`None` when opening or
   * decoding the file fails).
   */
  datatype Repository = Repository(walk: seq<WalkDir>, read: string -> Option<string>)

  /** `ast.parse`: a parse tree, or `None` for a syntax error. */
  type Parser = string -> Option<Node>

  /** The sentence encoder applied to one text. */
  type Encoder = string -> Vector

  /** A FAISS `IndexFlatL2`: the vectors added to it, row by row. */
  datatype FlatIndex = FlatIndex(rows: seq<Vector>)

  /**
   * `index.search(q, k)` for one query: the row numbers of the first result
   * row, or `None` when FAISS raises.
   */
  type Knn = (FlatIndex, Vector, int) -> Option<seq<int>>

  /** A file of the index directory: absent, present but not loadable, or holding `data`. */
  datatype Artifact<T> = Missing | Unreadable | Present(data: T)

  /** `os.path.join(a, b)` on POSIX paths. */
  function PathJoin(a: string, b: string): (r: string)
    ensures b != [] && b[0] == '/' ==> r == b
    ensures (b == [] || b[0] != '/') ==> StartsWith(r, a) && EndsWith(r, b)
    ensures (b == [] || b[0] != '/') ==> |r| <= |a| + 1 + |b|
  {
    if b != [] && b[0] == '/' then b
    else if a == [] || a[|a| - 1] == '/' then a + b
    else a + "/" + b
  }

  /** The substring tests `get_python_files` skips a path for. */
  predicate Skipped(path: string, indexDir: string)
  {
    Contains(path, indexDir) || Contains(path, "venv") || Contains(path, "env")
    || Contains(path, "__pycache__")
  }

  /** The file at position `j` of `d` is a `.py` file whose full path is not skipped. */
  predicate Keeps(d: WalkDir, j: int, indexDir: string)
  {
    0 <= j < |d.files| && EndsWith(d.files[j], ".py") && !Skipped(PathJoin(d.root, d.files[j]), indexDir)
  }

  /** The full paths `get_python_files` keeps from the first `n` names of `d`. */
  function DirFiles(d: WalkDir, n: nat, indexDir: string): seq<string>
    requires n <= |d.files|
  {
    if n == 0 then []
    else DirFiles(d, n - 1, indexDir)
         + (if Keeps(d, n - 1, indexDir) then [PathJoin(d.root, d.files[n - 1])] else [])
  }

  /** The list `get_python_files` returns for a walk: directory by directory, in walk order. */
  function PythonFiles(walk: seq<WalkDir>, indexDir: string): seq<string>
  {
    if walk == [] then []
    else PythonFiles(walk[..|walk| - 1], indexDir) + DirFiles(walk[|walk| - 1], |walk[|walk| - 1].files|, indexDir)
  }

  /** A path is listed exactly when some kept name of some walked directory joins to it. */
  lemma {:induction false} DirFilesMembers(d: WalkDir, n: nat, indexDir: string)
    requires n <= |d.files|
    ensures forall f :: f in DirFiles(d, n, indexDir) <==>
              exists j :: 0 <= j < n && Keeps(d, j, indexDir) && f == PathJoin(d.root, d.files[j])
  {
    if n > 0 {
      DirFilesMembers(d, n - 1, indexDir);
    }
  }

  /**
   * `get_python_files` is sound and complete: a path is in the list exactly
   * when it is the join of a walked directory and a `.py` name in it, and the
   * joined path contains none of the index directory, `venv`, `env` and
   * `__pycache__`.
   */
  lemma PythonFilesMembers(walk: seq<WalkDir>, indexDir: string)
    ensures forall f :: f in PythonFiles(walk, indexDir) <==>
              exists i, j :: 0 <= i < |walk| && Keeps(walk[i], j, indexDir) && f == PathJoin(walk[i].root, walk[i].files[j])
  {
    PythonFilesSound(walk, indexDir);
    PythonFilesComplete(walk, indexDir);
  }

  /** Every listed path is the join of a kept file with its directory. */
  lemma {:induction false} PythonFilesSound(walk: seq<WalkDir>, indexDir: string)
    ensures forall f :: f in PythonFiles(walk, indexDir) ==>
              exists i, j :: 0 <= i < |walk| && Keeps(walk[i], j, indexDir) && f == PathJoin(walk[i].root, walk[i].files[j])
  {
    if walk != [] {
      var n := |walk| - 1;
      PythonFilesSound(walk[..n], indexDir);
      DirFilesMembers(walk[n], |walk[n].files|, indexDir);
      forall f | f in PythonFiles(walk, indexDir)
        ensures exists i, j :: 0 <= i < |walk| && Keeps(walk[i], j, indexDir) && f == PathJoin(walk[i].root, walk[i].files[j])
      {
        if f in PythonFiles(walk[..n], indexDir) {
          var i, j :| 0 <= i < n && Keeps(walk[..n][i], j, indexDir) && f == PathJoin(walk[..n][i].root, walk[..n][i].files[j]);
          assert walk[..n][i] == walk[i];
        } else {
          var j :| 0 <= j < |walk[n].files| && Keeps(walk[n], j, indexDir) && f == PathJoin(walk[n].root, walk[n].files[j]);
        }
      }
    }
  }

  /** Every kept file of every directory is listed. */
  lemma {:induction false} PythonFilesComplete(walk: seq<WalkDir>, indexDir: string)
    ensures forall i, j :: 0 <= i < |walk| && Keeps(walk[i], j, indexDir) ==>
              PathJoin(walk[i].root, walk[i].files[j]) in PythonFiles(walk, indexDir)
  {
    if walk != [] {
      var n := |walk| - 1;
      PythonFilesComplete(walk[..n], indexDir);
      DirFilesMembers(walk[n], |walk[n].files|, indexDir);
      forall i, j | 0 <= i < |walk| && Keeps(walk[i], j, indexDir)
        ensures PathJoin(walk[i].root, walk[i].files[j]) in PythonFiles(walk, indexDir)
      {
        if i < n {
          assert walk[..n][i] == walk[i];
        }
      }
    }
  }

  /** Every listed path ends in `.py`. */
  lemma PythonFilesArePython(walk: seq<WalkDir>, indexDir: string)
    ensures forall f :: f in PythonFiles(walk, indexDir) ==> EndsWith(f, ".py")
  {
    PythonFilesMembers(walk, indexDir);
    forall f | f in PythonFiles(walk, indexDir) ensures EndsWith(f, ".py") {
      var i, j :| 0 <= i < |walk| && Keeps(walk[i], j, indexDir) && f == PathJoin(walk[i].root, walk[i].files[j]);
      var name := walk[i].files[j];
      if name != [] && name[0] == '/' {
      } else {
        assert f[|f| - 3..] == f[|f| - |name|..][|name| - 3..];
      }
    }
  }

  /**
   * `process_file`: the chunks of one file, or none when the file cannot be
   * read or does not parse.
   */
  function FileChunks(repo: Repository, parse: Parser, md5: Hasher, path: string): seq<CodeChunk>
  {
    match repo.read(path)
    case None => []
    case Some(code) =>
      match parse(code)
      case None => []
      case Some(tree) => Extract(Env(Split(code, '\n'), path, md5), tree, None)
  }

  /** Every chunk of a file belongs to it, and every parent it names is a class chunk before it. */
  lemma FileChunksOk(repo: Repository, parse: Parser, md5: Hasher, path: string)
    ensures forall c :: c in FileChunks(repo, parse, md5, path) ==> c.filePath == path && c.embedding.None?
    ensures ParentsResolve(FileChunks(repo, parse, md5, path))
  {
    if repo.read(path).Some? && parse(repo.read(path).value).Some? {
      var code := repo.read(path).value;
      var env := Env(Split(code, '\n'), path, md5);
      ExtractOk(env, parse(code).value, None);
      FileParentsResolve(env, parse(code).value);
    }
  }

  /** The chunks of the files, concatenated in the order of the files. */
  function FilesChunks(repo: Repository, parse: Parser, md5: Hasher, files: seq<string>): seq<CodeChunk>
  {
    if files == [] then []
    else FilesChunks(repo, parse, md5, files[..|files| - 1]) + FileChunks(repo, parse, md5, files[|files| - 1])
  }

  /** The text embedded for a chunk: name and type, the docstring when non-empty, then the code. */
  function EmbeddingText(c: CodeChunk): (r: string)
    ensures StartsWith(r, c.name + " " + c.kind + "\n")
    ensures EndsWith(r, c.content)
    ensures Truthy(c.docstring) ==> Contains(r, c.docstring.value)
  {
    var head := c.name + " " + c.kind + "\n";
    var doc := if Truthy(c.docstring) then c.docstring.value + "\n" else "";
    var r := head + doc + c.content;
    assert r[..|head|] == head;
    assert r[|r| - |c.content|..] == c.content;
    assert Truthy(c.docstring) ==> OccursAt(r, c.docstring.value, |head|) by {
      if Truthy(c.docstring) {
        assert r[|head|..|head| + |c.docstring.value|] == c.docstring.value;
      }
    }
    r
  }

  /** Every chunk carries the encoding of its embedding text; nothing else changes. */
  ghost predicate EmbeddedFrom(embed: Encoder, before: seq<CodeChunk>, after: seq<CodeChunk>)
  {
    |after| == |before|
    && forall i :: 0 <= i < |before| ==> after[i] == before[i].(embedding := Some(embed(EmbeddingText(before[i]))))
  }

  predicate AllEmbedded(chunks: seq<CodeChunk>)
  {
    forall i :: 0 <= i < |chunks| ==> chunks[i].embedding.Some?
  }

  /** The embeddings of the chunks in order: the vectors added to the index. */
  function Rows(chunks: seq<CodeChunk>): (r: seq<Vector>)
    requires AllEmbedded(chunks)
    ensures |r| == |chunks| && forall i :: 0 <= i < |chunks| ==> Some(r[i]) == chunks[i].embedding
  {
    seq(|chunks|, i requires 0 <= i < |chunks| => chunks[i].embedding.value)
  }

  /** `[chunk.to_dict() for chunk in chunks]`: the content of `chunks.json`. */
  function Records(chunks: seq<CodeChunk>): (r: seq<ChunkRecord>)
    ensures |r| == |chunks| && forall i :: 0 <= i < |chunks| ==> r[i] == ToDict(chunks[i])
  {
    seq(|chunks|, i requires 0 <= i < |chunks| => ToDict(chunks[i]))
  }

  /** `[chunk.embedding for chunk in chunks]`: the content of `embeddings.pkl`. */
  function Embeddings(chunks: seq<CodeChunk>): (r: seq<Option<Vector>>)
    ensures |r| == |chunks| && forall i :: 0 <= i < |chunks| ==> r[i] == chunks[i].embedding
  {
    seq(|chunks|, i requires 0 <= i < |chunks| => chunks[i].embedding)
  }

  /**
   * The chunks `load_index` rebuilds before it stops: one per record, each
   * with the embedding at the same position, as far as there are embeddings.
   */
  function Reattach(records: seq<ChunkRecord>, embeddings: seq<Option<Vector>>): (r: seq<CodeChunk>)
    ensures |r| == Min(|records|, |embeddings|)
    ensures forall i :: 0 <= i < |r| ==> ToDict(r[i]) == records[i] && r[i].embedding == embeddings[i]
  {
    seq(Min(|records|, |embeddings|), i requires 0 <= i < Min(|records|, |embeddings|) =>
      FromRecord(records[i]).(embedding := embeddings[i]))
  }

  /** Embedding the chunks leaves their saved records as they were. */
  lemma EmbeddingKeepsRecords(embed: Encoder, before: seq<CodeChunk>, after: seq<CodeChunk>)
    requires EmbeddedFrom(embed, before, after)
    ensures Records(after) == Records(before)
    ensures AllEmbedded(after)
  {
  }

  /** Saving the chunks as records and embeddings and reading both back gives the same chunks. */
  lemma ReattachSaved(chunks: seq<CodeChunk>)
    ensures Reattach(Records(chunks), Embeddings(chunks)) == chunks
  {
    var r := Reattach(Records(chunks), Embeddings(chunks));
    forall i | 0 <= i < |chunks| ensures r[i] == chunks[i] {
      assert ToDict(r[i]) == ToDict(chunks[i]);
      assert FromRecord(ToDict(r[i])) == r[i].(embedding := None);
    }
  }

  /** What `load_index` leaves: its verdict and the three fields it may have set. */
  datatype Loaded = Loaded(ok: bool, chunks: seq<CodeChunk>, chunkById: map<string, CodeChunk>, index: Option<FlatIndex>)

  /**
   * `load_index` on the three files of the index directory, starting from the
   * given fields. A missing file fails before anything is read; an unreadable
   * `chunks.json` or `embeddings.pkl` fails before anything changes; fewer
   * embeddings than records fail half-way through the rebuild (the chunks
   * then hold the records that had an embedding); an unreadable
   * `faiss.index` fails after the chunks and the table are rebuilt.
   */
  function LoadArtifacts(json: Artifact<seq<ChunkRecord>>, pkl: Artifact<seq<Option<Vector>>>,
                         faiss: Artifact<FlatIndex>, chunks0: seq<CodeChunk>,
                         byId0: map<string, CodeChunk>, index0: Option<FlatIndex>): (l: Loaded)
    ensures l.ok ==> json.Present? && pkl.Present? && faiss.Present? && |json.data| <= |pkl.data|
    ensures l.ok ==> l.index == Some(faiss.data) && l.chunkById == IndexById(l.chunks)
    ensures !l.ok ==> l.index == index0
    ensures (json.Present? && pkl.Present? && !faiss.Missing?) ==> l.chunks == Reattach(json.data, pkl.data)
  {
    if json.Missing? || pkl.Missing? || faiss.Missing? then Loaded(false, chunks0, byId0, index0)
    else if json.Unreadable? || pkl.Unreadable? then Loaded(false, chunks0, byId0, index0)
    else
      var chunks := Reattach(json.data, pkl.data);
      if |pkl.data| < |json.data| then Loaded(false, chunks, byId0, index0)
      else if faiss.Unreadable? then Loaded(false, chunks, IndexById(chunks), index0)
      else Loaded(true, chunks, IndexById(chunks), Some(faiss.data))
  }

  /** What `faiss.index` holds after `save_index`: the index when there is one, else the old file. */
  function SavedFaiss(index: Option<FlatIndex>, old0: Artifact<FlatIndex>): Artifact<FlatIndex>
  {
    if index.Some? then Present(index.value) else old0
  }

  /**
   * Save then load: the chunks (with their embeddings) and the `chunk_by_id`
   * table come back exactly. Loading succeeds exactly when an index was
   * saved or an earlier `faiss.index` is still loadable, and then restores the
   * saved index, or that earlier one when none was saved.
   */
  lemma SaveLoadRoundTrip(chunks: seq<CodeChunk>, index: Option<FlatIndex>, faiss0: Artifact<FlatIndex>,
                          chunks0: seq<CodeChunk>, byId0: map<string, CodeChunk>, index0: Option<FlatIndex>)
    ensures var l := LoadArtifacts(Present(Records(chunks)), Present(Embeddings(chunks)),
                                   SavedFaiss(index, faiss0), chunks0, byId0, index0);
            (l.ok <==> index.Some? || faiss0.Present?)
            && (l.ok ==> l.chunks == chunks && l.chunkById == IndexById(chunks))
            && (l.ok && index.Some? ==> l.index == index)
            && (l.ok && index.None? ==> l.index == Some(faiss0.data))
  {
    ReattachSaved(chunks);
  }

  /** `search` failures: no index (`ValueError`), FAISS raising, or a row number out of range (`IndexError`). */
  datatype SearchError = IndexNotReady | SearchFailed | RowOutOfRange

  /** `s[i]` for a Python index, `-|s| <= i < |s|`: negative indices count from the end. */
  function PyIndex<T>(s: seq<T>, i: int): (r: T)
    requires -|s| <= i < |s|
    ensures 0 <= i ==> r == s[i]
    ensures i < 0 ==> r == s[|s| + i]
  {
    if i < 0 then s[|s| + i] else s[i]
  }

  /**
   * What FAISS promises of a flat-index search for `want` neighbours among
   * `rows` vectors: `want` answers, the first `min(want, rows)` distinct row
   * numbers, the rest padded with -1.
   */
  predicate KnnAnswer(hits: seq<int>, rows: nat, want: int)
  {
    |hits| == want
    && (forall j :: 0 <= j < |hits| ==> (j < rows ==> 0 <= hits[j] < rows) && (j >= rows ==> hits[j] == -1))
    && (forall j, j' :: 0 <= j < j' < |hits| && j' < rows ==> hits[j] != hits[j'])
  }

  /** The files of the index directory: `chunks.json`, `embeddings.pkl` and `faiss.index`. */
  class IndexStore {
    var chunksJson: Artifact<seq<ChunkRecord>>
    var embeddingsPkl: Artifact<seq<Option<Vector>>>
    var faissIndex: Artifact<FlatIndex>

    constructor (json: Artifact<seq<ChunkRecord>>, pkl: Artifact<seq<Option<Vector>>>, faiss: Artifact<FlatIndex>)
      ensures chunksJson == json && embeddingsPkl == pkl && faissIndex == faiss
    {
      chunksJson := json;
      embeddingsPkl := pkl;
      faissIndex := faiss;
    }
  }

  class CodeIndexer {
    const repoPath: string
    const indexDir: string
    const store: IndexStore
    const parse: Parser
    const md5: Hasher
    const embed: Encoder
    const knn: Knn
    var chunks: seq<CodeChunk>
    var chunkById: map<string, CodeChunk>
    var index: Option<FlatIndex>

    /**
     * The state `search` relies on: every chunk has an embedding, the index
     * holds exactly those embeddings in chunk order, and `chunk_by_id` is
     * built from the chunks.
     */
    ghost predicate Aligned()
      reads this
    {
      AllEmbedded(chunks) && index == Some(FlatIndex(Rows(chunks))) && chunkById == IndexById(chunks)
    }

    /**
     * `__init__`: `repoPath` is taken as already absolute; the index
     * directory defaults to `.code_index` inside it when none (or an empty
     * one) is given.
     */
    constructor (repoPath: string, indexDir: Option<string>, store: IndexStore,
                 parse: Parser, md5: Hasher, embed: Encoder, knn: Knn)
      ensures this.repoPath == repoPath && this.store == store
      ensures this.indexDir == if Truthy(indexDir) then indexDir.value else PathJoin(repoPath, ".code_index")
      ensures this.parse == parse && this.md5 == md5 && this.embed == embed && this.knn == knn
      ensures chunks == [] && chunkById == map[] && index == None
    {
      this.repoPath := repoPath;
      this.indexDir := if Truthy(indexDir) then indexDir.value else PathJoin(repoPath, ".code_index");
      this.store := store;
      this.parse := parse;
      this.md5 := md5;
      this.embed := embed;
      this.knn := knn;
      chunks := [];
      chunkById := map[];
      index := None;
    }

    /** `get_python_files`: walk the repository and keep the `.py` paths that are not skipped. */
    method GetPythonFiles(repo: Repository) returns (files: seq<string>)
      ensures files == PythonFiles(repo.walk, indexDir)
    {
      files := [];
      var i := 0;
      while i < |repo.walk|
        invariant 0 <= i <= |repo.walk|
        invariant files == PythonFiles(repo.walk[..i], indexDir)
      {
        var d := repo.walk[i];
        var j := 0;
        while j < |d.files|
          invariant 0 <= j <= |d.files|
          invariant files == PythonFiles(repo.walk[..i], indexDir) + DirFiles(d, j, indexDir)
        {
          var name := d.files[j];
          if EndsWith(name, ".py") {
            var fullPath := PathJoin(d.root, name);
            if !Skipped(fullPath, indexDir) {
              files := files + [fullPath];
            }
          }
          j := j + 1;
        }
        assert repo.walk[..i + 1][..i] == repo.walk[..i];
        i := i + 1;
      }
      assert repo.walk[..i] == repo.walk;
    }

    /** `process_file`: parse one file and collect the chunks the visitor emits. */
    method ProcessFile(repo: Repository, path: string) returns (result: seq<CodeChunk>)
      ensures result == FileChunks(repo, parse, md5, path)
    {
      var code := repo.read(path);
      if code.None? {
        return [];
      }
      var visitor := new PythonCodeVisitor(code.value, path, md5);
      var tree := parse(code.value);
      if tree.None? {
        return [];
      }
      visitor.Visit(tree.value);
      result := visitor.chunks;
    }

    /**
     * `create_embeddings`: build the text of every chunk, encode them, and
     * give each chunk the vector at its position.
     */
    method CreateEmbeddings(input: seq<CodeChunk>) returns (result: seq<CodeChunk>)
      ensures EmbeddedFrom(embed, input, result)
    {
      var texts: seq<string> := [];
      for i := 0 to |input|
        invariant |texts| == i
        invariant forall k :: 0 <= k < i ==> texts[k] == EmbeddingText(input[k])
      {
        texts := texts + [EmbeddingText(input[i])];
      }
      var embeddings := seq(|texts|, k requires 0 <= k < |texts| => embed(texts[k]));
      result := input;
      for i := 0 to |input|
        invariant |result| == |input|
        invariant forall k :: 0 <= k < i ==> result[k] == input[k].(embedding := Some(embeddings[k]))
        invariant forall k :: i <= k < |input| ==> result[k] == input[k]
      {
        result := result[i := result[i].(embedding := Some(embeddings[i]))];
      }
    }

    /** `_create_faiss_index`: a new flat index over the chunks' embeddings, unless there are no chunks. */
    method CreateFaissIndex()
      requires AllEmbedded(chunks)
      modifies this
      ensures chunks == old(chunks) && chunkById == old(chunkById)
      ensures index == if chunks == [] then old(index) else Some(FlatIndex(Rows(chunks)))
    {
      if chunks == [] {
        return;
      }
      var rows := [];
      for i := 0 to |chunks|
        invariant rows == Rows(chunks)[..i]
      {
        rows := rows + [chunks[i].embedding.value];
      }
      assert rows == Rows(chunks);
      index := Some(FlatIndex(rows));
    }

    /** `save_index`: write the records and the embeddings, and the index when there is one. */
    method SaveIndex()
      modifies store
      ensures store.chunksJson == Present(Records(chunks))
      ensures store.embeddingsPkl == Present(Embeddings(chunks))
      ensures store.faissIndex == SavedFaiss(index, old(store.faissIndex))
    {
      store.chunksJson := Present(Records(chunks));
      store.embeddingsPkl := Present(Embeddings(chunks));
      if index.Some? {
        store.faissIndex := Present(index.value);
      }
    }

    /** The loop of `build_index` over the files: every file's chunks, in the order of the files. */
    method CollectChunks(repo: Repository, files: seq<string>) returns (all: seq<CodeChunk>)
      ensures all == FilesChunks(repo, parse, md5, files)
    {
      all := [];
      for i := 0 to |files|
        invariant all == FilesChunks(repo, parse, md5, files[..i])
      {
        var fileChunks := ProcessFile(repo, files[i]);
        assert files[..i + 1][..i] == files[..i];
        all := all + fileChunks;
      }
      assert files[..|files|] == files;
    }

    /** `build_index`: index the repository from scratch and save the result. */
    method BuildIndex(repo: Repository)
      modifies this, store
      ensures EmbeddedFrom(embed, FilesChunks(repo, parse, md5, PythonFiles(repo.walk, indexDir)), chunks)
      ensures chunkById == IndexById(chunks)
      ensures index == if chunks == [] then old(index) else Some(FlatIndex(Rows(chunks)))
      ensures chunks != [] ==> Aligned()
      ensures store.chunksJson == Present(Records(chunks))
      ensures store.embeddingsPkl == Present(Embeddings(chunks))
      ensures store.faissIndex == SavedFaiss(index, old(store.faissIndex))
    {
      var files := GetPythonFiles(repo);
      var all := CollectChunks(repo, files);
      var embedded := CreateEmbeddings(all);
      EmbeddingKeepsRecords(embed, all, embedded);
      chunks := embedded;
      chunkById := IndexById(chunks);
      CreateFaissIndex();
      SaveIndex();
    }

    /** `load_index`: rebuild the chunks, the table and the index from the index directory. */
    method LoadIndex() returns (ok: bool)
      modifies this
      ensures var l := LoadArtifacts(store.chunksJson, store.embeddingsPkl, store.faissIndex,
                                     old(chunks), old(chunkById), old(index));
              ok == l.ok && chunks == l.chunks && chunkById == l.chunkById && index == l.index
    {
      var json, pkl, faiss := store.chunksJson, store.embeddingsPkl, store.faissIndex;
      if json.Missing? || pkl.Missing? || faiss.Missing? {
        return false;
      }
      if json.Unreadable? || pkl.Unreadable? {
        return false;
      }
      var records, embeddings := json.data, pkl.data;
      chunks := [];
      var i := 0;
      while i < |records|
        invariant 0 <= i <= |records| && i <= |embeddings|
        invariant chunks == Reattach(records[..i], embeddings[..i])
        invariant chunkById == old(chunkById) && index == old(index)
      {
        if i >= |embeddings| {
          assert chunks == Reattach(records, embeddings);
          return false;
        }
        var chunk := FromRecord(records[i]).(embedding := embeddings[i]);
        chunks := chunks + [chunk];
        i := i + 1;
      }
      assert chunks == Reattach(records, embeddings);
      chunkById := IndexById(chunks);
      if faiss.Unreadable? {
        return false;
      }
      index := Some(faiss.data);
      return true;
    }

    /** `load_or_build_index`: load the saved index, and build one when loading fails. */
    method LoadOrBuildIndex(repo: Repository)
      modifies this, store
      ensures var l := LoadArtifacts(old(store.chunksJson), old(store.embeddingsPkl), old(store.faissIndex),
                                     old(chunks), old(chunkById), old(index));
              l.ok ==> chunks == l.chunks && chunkById == l.chunkById && index == l.index
                       && unchanged(store)
    ensures var l := LoadArtifacts(old(store.chunksJson), old(store.embeddingsPkl), old(store.faissIndex),
                                   old(chunks), old(chunkById), old(index));
              !l.ok ==> EmbeddedFrom(embed, FilesChunks(repo, parse, md5, PythonFiles(repo.walk, indexDir)), chunks)
                        && chunkById == IndexById(chunks)
                        && (chunks != [] ==> Aligned())
                        && store.chunksJson == Present(Records(chunks))
                        && store.embeddingsPkl == Present(Embeddings(chunks))
                        && index == (if chunks == [] then l.index else Some(FlatIndex(Rows(chunks))))
                        && store.faissIndex == SavedFaiss(index, old(store.faissIndex))
    {
      var ok := LoadIndex();
      if !ok {
        BuildIndex(repo);
      }
    }

    /**
     * `search`: the chunks at the row numbers FAISS returns for the encoded
     * query, asking for `min(k, len(chunks))` neighbours.
     */
    function Search(query: string, k: int): (r: Result<seq<CodeChunk>, SearchError>)
      reads this
      ensures index.None? <==> r == Failure(IndexNotReady)
      ensures r == Failure(SearchFailed) <==> index.Some? && knn(index.value, embed(query), Min(k, |chunks|)).None?
      ensures r.Success? ==> index.Some? && knn(index.value, embed(query), Min(k, |chunks|)).Some?
      ensures r.Success? ==> var hits := knn(index.value, embed(query), Min(k, |chunks|)).value;
                             |r.value| == |hits|
                             && forall j :: 0 <= j < |hits| ==> -|chunks| <= hits[j] < |chunks| && r.value[j] == PyIndex(chunks, hits[j])
      ensures r == Failure(RowOutOfRange) ==>
                index.Some? && knn(index.value, embed(query), Min(k, |chunks|)).Some? &&
                var hits := knn(index.value, embed(query), Min(k, |chunks|)).value;
                exists j :: 0 <= j < |hits| && !(-|chunks| <= hits[j] < |chunks|)
    {
      if index.None? then Failure(IndexNotReady)
      else
        match knn(index.value, embed(query), Min(k, |chunks|))
        case None => Failure(SearchFailed)
        case Some(hits) =>
          var cs := chunks;
          if forall j :: 0 <= j < |hits| ==> -|cs| <= hits[j] < |cs| then
            Success(seq(|hits|, j requires 0 <= j < |hits| => PyIndex(cs, hits[j])))
          else Failure(RowOutOfRange)
    }

    /**
     * On an aligned index, a search FAISS answers returns `min(k, len(chunks))`
     * chunks, each the chunk at a distinct position of `chunks`.
     */
    lemma SearchAligned(query: string, k: int, hits: seq<int>)
      requires Aligned()
      requires knn(index.value, embed(query), Min(k, |chunks|)) == Some(hits)
      requires KnnAnswer(hits, |index.value.rows|, Min(k, |chunks|))
      ensures Search(query, k).Success?
      ensures |Search(query, k).value| == Min(k, |chunks|)
      ensures forall j :: 0 <= j < |hits| ==> 0 <= hits[j] < |chunks| && Search(query, k).value[j] == chunks[hits[j]]
      ensures forall j, j' :: 0 <= j < j' < |hits| ==> hits[j] != hits[j']
    {
    }
  }
}
