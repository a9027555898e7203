/**
 * The `CodeChunk` record of app/indexer/code_indexer.py, its serialised form
 * (`to_dict`, which drops the embedding), the chunk id and the `chunk_by_id`
 * table.
 */
module Chunks {
  import opened Wrappers

  /** An embedding: the list of floats the encoder produced, as reals. */
  type Vector = seq<real>

  /** `hashlib.md5(s.encode()).hexdigest()`, left uninterpreted. */
  type Hasher = string -> string

  const ClassType: string := "class"
  const FunctionType: string := "function"
  const MethodType: string := "method"

  /** A structural unit of source code; `kind` is the Python field `type`. */
  datatype CodeChunk = CodeChunk(
    id: string,
    filePath: string,
    kind: string,
    name: string,
    content: string,
    docstring: Option<string>,
    startLine: int,
    endLine: int,
    parentName: Option<string>,
    embedding: Option<Vector>)

  /** The dictionary `to_dict` returns: every field but the embedding. */
  datatype ChunkRecord = ChunkRecord(
    id: string,
    filePath: string,
    kind: string,
    name: string,
    content: string,
    docstring: Option<string>,
    startLine: int,
    endLine: int,
    parentName: Option<string>)

  /** `CodeChunk(**chunk_data)`: the embedding takes its default, `None`. */
  function FromRecord(r: ChunkRecord): CodeChunk
  {
    CodeChunk(r.id, r.filePath, r.kind, r.name, r.content, r.docstring,
              r.startLine, r.endLine, r.parentName, None)
  }

  /** `CodeChunk.to_dict`: the chunk loses its embedding and nothing else. */
  function ToDict(c: CodeChunk): (r: ChunkRecord)
    ensures FromRecord(r) == c.(embedding := None)
  {
    ChunkRecord(c.id, c.filePath, c.kind, c.name, c.content, c.docstring,
                c.startLine, c.endLine, c.parentName)
  }

  /** Python truthiness of an optional string: present and not empty. */
  predicate Truthy(s: Option<string>)
  {
    s.Some? && s.value != ""
  }

  /** `create_chunk_id`: the digest of `"{type}:{name}:{file_path}"`. */
  function ChunkId(md5: Hasher, kind: string, name: string, filePath: string): string
  {
    md5(kind + ":" + name + ":" + filePath)
  }

  /** `i` is the last position of `chunks` whose id is `id`. */
  ghost predicate IsLastWithId(chunks: seq<CodeChunk>, i: int, id: string)
  {
    0 <= i < |chunks| && chunks[i].id == id
    && forall j :: i < j < |chunks| ==> chunks[j].id != id
  }

  /** `{chunk.id: chunk for chunk in chunks}`, inserting from first to last. */
  function IndexById(chunks: seq<CodeChunk>): map<string, CodeChunk>
  {
    if chunks == [] then map[]
    else IndexById(chunks[..|chunks| - 1])[chunks[|chunks| - 1].id := chunks[|chunks| - 1]]
  }

  /**
   * Every id of the list is a key of `chunk_by_id`, every key is an id of
   * the list, and a key maps to the last chunk carrying it (later writes win).
   */
  lemma IndexByIdLastWins(chunks: seq<CodeChunk>)
    ensures forall k :: 0 <= k < |chunks| ==> chunks[k].id in IndexById(chunks)
    ensures forall id :: id in IndexById(chunks) ==>
              exists i :: IsLastWithId(chunks, i, id) && IndexById(chunks)[id] == chunks[i]
  {
    IndexByIdHasAll(chunks);
    IndexByIdLast(chunks);
  }

  /** Every id of the list is a key of the index. */
  lemma {:induction false} IndexByIdHasAll(chunks: seq<CodeChunk>)
    ensures forall k :: 0 <= k < |chunks| ==> chunks[k].id in IndexById(chunks)
  {
    if chunks != [] {
      var n := |chunks| - 1;
      IndexByIdHasAll(chunks[..n]);
      forall k | 0 <= k < |chunks| ensures chunks[k].id in IndexById(chunks) {
        if k < n { assert chunks[k] == chunks[..n][k]; }
      }
    }
  }

  /** Every key of the index maps to the last chunk carrying it. */
  lemma {:induction false} IndexByIdLast(chunks: seq<CodeChunk>)
    ensures forall id :: id in IndexById(chunks) ==>
              exists i :: IsLastWithId(chunks, i, id) && IndexById(chunks)[id] == chunks[i]
  {
    if chunks != [] {
      var n := |chunks| - 1;
      var prev := IndexById(chunks[..n]);
      var m := IndexById(chunks);
      IndexByIdLast(chunks[..n]);
      assert m == prev[chunks[n].id := chunks[n]];
      forall id | id in m
        ensures exists i :: IsLastWithId(chunks, i, id) && m[id] == chunks[i]
      {
        if id == chunks[n].id {
          assert IsLastWithId(chunks, n, id);
        } else {
          var i :| IsLastWithId(chunks[..n], i, id) && prev[id] == chunks[..n][i];
          assert IsLastWithId(chunks, i, id);
        }
      }
    }
  }
}
