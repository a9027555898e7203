/**
 * `PythonCodeVisitor` of app/indexer/code_indexer.py: a pre-order walk of a
 * parsed Python module that emits one chunk per class and per (async)
 * function definition, keeping the name of the enclosing class in a single
 * `current_class` field.
 *
 * The parse tree is an input (`ast.parse` is not modelled); the specification
 * of the walk is the function `Extract`, and the class's methods are proved
 * to append exactly `Extract`'s chunks.
 */
module Visitor {
  import opened Wrappers
  import opened Text
  import opened Chunks

  /** `lineno` and `end_lineno` of a definition, both 1-indexed and inclusive. */
  datatype Span = Span(lineno: int, endLineno: int)

  /**
   * The nodes of a Python parse tree that the walk distinguishes. `StrExpr`
   * is an expression statement whose value is a string constant (a
   * docstring when it comes first in a body); `Other` is any other node, with
   * its child nodes in the order `generic_visit` visits them.
   */
  datatype Node =
    | Module(body: seq<Node>)
    | ClassDef(name: string, span: Span, body: seq<Node>)
    | FunctionDef(name: string, span: Span, body: seq<Node>)
    | AsyncFunctionDef(name: string, span: Span, body: seq<Node>)
    | StrExpr(value: string)
    | Other(body: seq<Node>)

  /** The nodes `generic_visit` visits below `node`. */
  function Children(node: Node): seq<Node>
  {
    if node.StrExpr? then [] else node.body
  }

  predicate IsFunction(node: Node)
  {
    node.FunctionDef? || node.AsyncFunctionDef?
  }

  /** What the walk needs from the visitor's construction: the text's lines, the path and the hash. */
  datatype Env = Env(lines: seq<string>, path: string, md5: Hasher)

  /**
   * `get_source_segment`: lines `lineno-1 .. end_lineno-1` of the original
   * text re-joined with newlines, or `""` for a node without a position.
   */
  function SourceSegment(lines: seq<string>, span: Option<Span>): string
  {
    if span.None? then "" else Join(PySlice(lines, span.value.lineno - 1, span.value.endLineno), "\n")
  }

  /**
   * `get_docstring`: for a class, a function or a module whose body starts
   * with a string-constant expression, that string stripped; otherwise none.
   */
  function GetDocstring(node: Node): (r: Option<string>)
    ensures r.Some? <==> (node.Module? || node.ClassDef? || IsFunction(node))
                         && node.body != [] && node.body[0].StrExpr?
    ensures r.Some? ==> r.value == Strip(node.body[0].value)
  {
    if (node.Module? || node.ClassDef? || IsFunction(node)) && node.body != [] && node.body[0].StrExpr?
    then Some(Strip(node.body[0].value))
    else None
  }

  /** The chunk `visit_ClassDef` appends, `parent` being the class around it. */
  function ClassChunk(env: Env, node: Node, parent: Option<string>): CodeChunk
    requires node.ClassDef?
  {
    CodeChunk(ChunkId(env.md5, ClassType, node.name, env.path), env.path, ClassType, node.name,
              SourceSegment(env.lines, Some(node.span)), GetDocstring(node),
              node.span.lineno, node.span.endLineno, parent, None)
  }

  /** The chunk `visit_FunctionDef` appends while `cur` is the current class. */
  function FunctionChunk(env: Env, node: Node, cur: Option<string>): CodeChunk
    requires IsFunction(node)
  {
    var kind := if Truthy(cur) then MethodType else FunctionType;
    CodeChunk(ChunkId(env.md5, kind, node.name, env.path), env.path, kind, node.name,
              SourceSegment(env.lines, Some(node.span)), GetDocstring(node),
              node.span.lineno, node.span.endLineno, cur, None)
  }

  /** The chunks visiting `node` appends when `cur` is the current class. */
  function Extract(env: Env, node: Node, cur: Option<string>): seq<CodeChunk>
    decreases node
  {
    match node
    case ClassDef(name, _, body) => [ClassChunk(env, node, cur)] + ExtractSeq(env, body, Some(name))
    case FunctionDef(_, _, body) => [FunctionChunk(env, node, cur)] + ExtractSeq(env, body, cur)
    case AsyncFunctionDef(_, _, body) => [FunctionChunk(env, node, cur)] + ExtractSeq(env, body, cur)
    case Module(body) => ExtractSeq(env, body, cur)
    case Other(body) => ExtractSeq(env, body, cur)
    case StrExpr(_) => []
  }

  /** The chunks visiting `nodes` from first to last appends. */
  function ExtractSeq(env: Env, nodes: seq<Node>, cur: Option<string>): seq<CodeChunk>
    decreases nodes
  {
    if nodes == [] then []
    else ExtractSeq(env, nodes[..|nodes| - 1], cur) + Extract(env, nodes[|nodes| - 1], cur)
  }

  class PythonCodeVisitor {
    const code: string
    const filePath: string
    const md5: Hasher
    const lines: seq<string>
    var chunks: seq<CodeChunk>
    var currentClass: Option<string>

    function Environment(): Env
    {
      Env(lines, filePath, md5)
    }

    constructor (code: string, filePath: string, md5: Hasher)
      ensures this.code == code && this.filePath == filePath && this.md5 == md5
      ensures lines == Split(code, '\n')
      ensures chunks == [] && currentClass == None
    {
      this.code := code;
      this.filePath := filePath;
      this.md5 := md5;
      this.lines := Split(code, '\n');
      chunks := [];
      currentClass := None;
    }

    /** `NodeVisitor.visit`: dispatch on the node's class. */
    method Visit(node: Node)
      modifies this
      decreases node, 3
      ensures chunks == old(chunks) + Extract(Environment(), node, old(currentClass))
      ensures currentClass == old(currentClass)
    {
      match node {
        case ClassDef(_, _, _) => VisitClassDef(node);
        case FunctionDef(_, _, _) => VisitFunctionDef(node);
        case AsyncFunctionDef(_, _, _) => VisitAsyncFunctionDef(node);
        case _ => GenericVisit(node);
      }
    }

    method VisitClassDef(node: Node)
      requires node.ClassDef?
      modifies this
      decreases node, 1
      ensures chunks == old(chunks) + Extract(Environment(), node, old(currentClass))
      ensures currentClass == old(currentClass)
    {
      var oldClass := currentClass;
      currentClass := Some(node.name);
      var docstring := GetDocstring(node);
      var content := SourceSegment(lines, Some(node.span));
      var chunk := CodeChunk(ChunkId(md5, ClassType, node.name, filePath), filePath, ClassType,
                             node.name, content, docstring, node.span.lineno, node.span.endLineno,
                             oldClass, None);
      chunks := chunks + [chunk];
      GenericVisit(node);
      currentClass := oldClass;
    }

    method VisitFunctionDef(node: Node)
      requires IsFunction(node)
      modifies this
      decreases node, 1
      ensures chunks == old(chunks) + Extract(Environment(), node, old(currentClass))
      ensures currentClass == old(currentClass)
    {
      var docstring := GetDocstring(node);
      var content := SourceSegment(lines, Some(node.span));
      var kind := if Truthy(currentClass) then MethodType else FunctionType;
      var chunk := CodeChunk(ChunkId(md5, kind, node.name, filePath), filePath, kind,
                             node.name, content, docstring, node.span.lineno, node.span.endLineno,
                             currentClass, None);
      chunks := chunks + [chunk];
      GenericVisit(node);
    }

    method VisitAsyncFunctionDef(node: Node)
      requires node.AsyncFunctionDef?
      modifies this
      decreases node, 2
      ensures chunks == old(chunks) + Extract(Environment(), node, old(currentClass))
      ensures currentClass == old(currentClass)
    {
      VisitFunctionDef(node);
    }

    /** `NodeVisitor.generic_visit`: visit the children in order. */
    method GenericVisit(node: Node)
      modifies this
      decreases node, 0
      ensures chunks == old(chunks) + ExtractSeq(Environment(), Children(node), old(currentClass))
      ensures currentClass == old(currentClass)
    {
      var kids := Children(node);
      ghost var env, cur := Environment(), currentClass;
      var i := 0;
      while i < |kids|
        invariant 0 <= i <= |kids|
        invariant chunks == old(chunks) + ExtractSeq(env, kids[..i], cur)
        invariant currentClass == cur
      {
        ghost var before := chunks;
        Visit(kids[i]);
        ExtractSeqSnoc(env, kids, i, cur);
        assert chunks == (old(chunks) + ExtractSeq(env, kids[..i], cur)) + Extract(env, kids[i], cur);
        i := i + 1;
      }
      assert kids[..i] == kids;
    }
  }

  /** Visiting one more node appends its chunks. */
  lemma ExtractSeqSnoc(env: Env, nodes: seq<Node>, i: nat, cur: Option<string>)
    requires i < |nodes|
    ensures ExtractSeq(env, nodes[..i + 1], cur) == ExtractSeq(env, nodes[..i], cur) + Extract(env, nodes[i], cur)
  {
    assert nodes[..i + 1][..i] == nodes[..i];
  }

  /**
   * What every emitted chunk satisfies: it belongs to the visited file, its
   * id hashes its own `type` and `name`, its content is the source text of its
   * own line range, it has no embedding yet, and it is a class, a method
   * (when it has an enclosing class) or a function (when it has none).
   */
  ghost predicate ChunkOk(env: Env, c: CodeChunk)
  {
    && c.filePath == env.path
    && c.id == ChunkId(env.md5, c.kind, c.name, env.path)
    && c.content == SourceSegment(env.lines, Some(Span(c.startLine, c.endLine)))
    && c.embedding.None?
    && (c.kind == ClassType || c.kind == (if Truthy(c.parentName) then MethodType else FunctionType))
  }

  lemma {:induction false} ExtractOk(env: Env, node: Node, cur: Option<string>)
    ensures forall c :: c in Extract(env, node, cur) ==> ChunkOk(env, c)
    decreases node
  {
    match node
    case ClassDef(name, _, body) => ExtractSeqOk(env, body, Some(name));
    case FunctionDef(_, _, body) => ExtractSeqOk(env, body, cur);
    case AsyncFunctionDef(_, _, body) => ExtractSeqOk(env, body, cur);
    case Module(body) => ExtractSeqOk(env, body, cur);
    case Other(body) => ExtractSeqOk(env, body, cur);
    case StrExpr(_) =>
  }

  lemma {:induction false} ExtractSeqOk(env: Env, nodes: seq<Node>, cur: Option<string>)
    ensures forall c :: c in ExtractSeq(env, nodes, cur) ==> ChunkOk(env, c)
    decreases nodes
  {
    if nodes != [] {
      ExtractSeqOk(env, nodes[..|nodes| - 1], cur);
      ExtractOk(env, nodes[|nodes| - 1], cur);
    }
  }

  /** `s` holds a class chunk called `name`. */
  ghost predicate HasClass(s: seq<CodeChunk>, name: string)
  {
    exists j :: 0 <= j < |s| && s[j].kind == ClassType && s[j].name == name
  }

  /** Every `parent_name` in `s` names a class chunk that comes before it. */
  ghost predicate ParentsResolve(s: seq<CodeChunk>)
  {
    forall i :: 0 <= i < |s| && s[i].parentName.Some? ==> HasClass(s[..i], s[i].parentName.value)
  }

  /** The current class, if any, names a class chunk already emitted. */
  ghost predicate InScope(s: seq<CodeChunk>, cur: Option<string>)
  {
    cur.Some? ==> HasClass(s, cur.value)
  }

  lemma HasClassGrows(s: seq<CodeChunk>, t: seq<CodeChunk>, name: string)
    requires HasClass(s, name)
    ensures HasClass(s + t, name)
  {
    var j :| 0 <= j < |s| && s[j].kind == ClassType && s[j].name == name;
    assert (s + t)[j] == s[j];
  }

  lemma ResolvesAppend(s: seq<CodeChunk>, c: CodeChunk)
    requires ParentsResolve(s)
    requires c.parentName.Some? ==> HasClass(s, c.parentName.value)
    ensures ParentsResolve(s + [c])
  {
    var t := s + [c];
    forall i | 0 <= i < |t| && t[i].parentName.Some?
      ensures HasClass(t[..i], t[i].parentName.value)
    {
      if i < |s| {
        assert t[..i] == s[..i];
      } else {
        assert t[..i] == s;
      }
    }
  }

  /**
   * Appending what a visit emits keeps every parent resolved, because each
   * chunk is appended before the children of its node are visited.
   */
  lemma {:induction false} ExtractResolves(env: Env, node: Node, cur: Option<string>, prefix: seq<CodeChunk>)
    requires ParentsResolve(prefix) && InScope(prefix, cur)
    ensures ParentsResolve(prefix + Extract(env, node, cur))
    decreases node
  {
    match node
    case ClassDef(name, _, body) =>
      var c := ClassChunk(env, node, cur);
      assert (prefix + [c])[|prefix|] == c;
      DefinitionResolves(env, c, body, Some(name), prefix);
    case FunctionDef(_, _, body) =>
      var c := FunctionChunk(env, node, cur);
      if cur.Some? { HasClassGrows(prefix, [c], cur.value); }
      DefinitionResolves(env, c, body, cur, prefix);
    case AsyncFunctionDef(_, _, body) =>
      var c := FunctionChunk(env, node, cur);
      if cur.Some? { HasClassGrows(prefix, [c], cur.value); }
      DefinitionResolves(env, c, body, cur, prefix);
    case Module(body) => ExtractSeqResolves(env, body, cur, prefix);
    case Other(body) => ExtractSeqResolves(env, body, cur, prefix);
    case StrExpr(_) => assert prefix + Extract(env, node, cur) == prefix;
  }

  /** A definition's chunk, whose parent is resolved, followed by the chunks of its body. */
  lemma {:induction false} DefinitionResolves(env: Env, c: CodeChunk, body: seq<Node>, inner: Option<string>,
                                              prefix: seq<CodeChunk>)
    requires ParentsResolve(prefix)
    requires c.parentName.Some? ==> HasClass(prefix, c.parentName.value)
    requires InScope(prefix + [c], inner)
    ensures ParentsResolve(prefix + ([c] + ExtractSeq(env, body, inner)))
    decreases body, 1
  {
    ResolvesAppend(prefix, c);
    ExtractSeqResolves(env, body, inner, prefix + [c]);
    assert prefix + ([c] + ExtractSeq(env, body, inner)) == (prefix + [c]) + ExtractSeq(env, body, inner);
  }

  lemma {:induction false} ExtractSeqResolves(env: Env, nodes: seq<Node>, cur: Option<string>, prefix: seq<CodeChunk>)
    requires ParentsResolve(prefix) && InScope(prefix, cur)
    ensures ParentsResolve(prefix + ExtractSeq(env, nodes, cur))
    decreases nodes, 0
  {
    if nodes == [] {
      assert prefix + ExtractSeq(env, nodes, cur) == prefix;
    } else {
      var init := ExtractSeq(env, nodes[..|nodes| - 1], cur);
      ExtractSeqResolves(env, nodes[..|nodes| - 1], cur, prefix);
      if cur.Some? { HasClassGrows(prefix, init, cur.value); }
      ExtractResolves(env, nodes[|nodes| - 1], cur, prefix + init);
      assert prefix + ExtractSeq(env, nodes, cur) == (prefix + init) + Extract(env, nodes[|nodes| - 1], cur);
    }
  }

  /** In the chunks of one file, every `parent_name` names an earlier class chunk. */
  lemma FileParentsResolve(env: Env, tree: Node)
    ensures ParentsResolve(Extract(env, tree, None))
  {
    ExtractResolves(env, tree, None, []);
    assert [] + Extract(env, tree, None) == Extract(env, tree, None);
  }

  /**
   * Two trees with the same definitions in the same places: names and
   * nesting agree, while positions and string constants (docstrings) may
   * differ.
   */
  ghost predicate SameShape(a: Node, b: Node)
    decreases a
  {
    match a
    case Module(body) => b.Module? && SameShapes(body, b.body)
    case ClassDef(name, _, body) => b.ClassDef? && b.name == name && SameShapes(body, b.body)
    case FunctionDef(name, _, body) => b.FunctionDef? && b.name == name && SameShapes(body, b.body)
    case AsyncFunctionDef(name, _, body) => b.AsyncFunctionDef? && b.name == name && SameShapes(body, b.body)
    case StrExpr(_) => b.StrExpr?
    case Other(body) => b.Other? && SameShapes(body, b.body)
  }

  ghost predicate SameShapes(a: seq<Node>, b: seq<Node>)
    decreases a
  {
    |a| == |b| && (a != [] ==> SameShapes(a[..|a| - 1], b[..|b| - 1]) && SameShape(a[|a| - 1], b[|b| - 1]))
  }

  /** Two chunk lists that agree on every chunk's id, type, name and parent. */
  ghost predicate SameIdentity(s: seq<CodeChunk>, t: seq<CodeChunk>)
  {
    |s| == |t| && forall i :: 0 <= i < |s| ==>
      s[i].id == t[i].id && s[i].kind == t[i].kind && s[i].name == t[i].name && s[i].parentName == t[i].parentName
  }

  lemma SameIdentityAppend(s: seq<CodeChunk>, t: seq<CodeChunk>, s': seq<CodeChunk>, t': seq<CodeChunk>)
    requires SameIdentity(s, t) && SameIdentity(s', t')
    ensures SameIdentity(s + s', t + t')
  {
  }

  /**
   * Editing a file's text without changing its definitions (their names and
   * nesting) keeps every chunk's id: ids hash only the type, the name and the
   * path, never the content or the docstring.
   */
  lemma {:induction false} EditKeepsIds(lines1: seq<string>, lines2: seq<string>, path: string, md5: Hasher,
                                        a: Node, b: Node, cur: Option<string>)
    requires SameShape(a, b)
    ensures SameIdentity(Extract(Env(lines1, path, md5), a, cur), Extract(Env(lines2, path, md5), b, cur))
    decreases a
  {
    var e1, e2 := Env(lines1, path, md5), Env(lines2, path, md5);
    match a
    case ClassDef(name, _, body) =>
      EditsKeepIds(lines1, lines2, path, md5, body, b.body, Some(name));
      SameIdentityAppend([ClassChunk(e1, a, cur)], [ClassChunk(e2, b, cur)],
                         ExtractSeq(e1, body, Some(name)), ExtractSeq(e2, b.body, Some(name)));
    case FunctionDef(_, _, body) =>
      EditsKeepIds(lines1, lines2, path, md5, body, b.body, cur);
      SameIdentityAppend([FunctionChunk(e1, a, cur)], [FunctionChunk(e2, b, cur)],
                         ExtractSeq(e1, body, cur), ExtractSeq(e2, b.body, cur));
    case AsyncFunctionDef(_, _, body) =>
      EditsKeepIds(lines1, lines2, path, md5, body, b.body, cur);
      SameIdentityAppend([FunctionChunk(e1, a, cur)], [FunctionChunk(e2, b, cur)],
                         ExtractSeq(e1, body, cur), ExtractSeq(e2, b.body, cur));
    case Module(body) => EditsKeepIds(lines1, lines2, path, md5, body, b.body, cur);
    case Other(body) => EditsKeepIds(lines1, lines2, path, md5, body, b.body, cur);
    case StrExpr(_) =>
  }

  lemma {:induction false} EditsKeepIds(lines1: seq<string>, lines2: seq<string>, path: string, md5: Hasher,
                                        a: seq<Node>, b: seq<Node>, cur: Option<string>)
    requires SameShapes(a, b)
    ensures SameIdentity(ExtractSeq(Env(lines1, path, md5), a, cur), ExtractSeq(Env(lines2, path, md5), b, cur))
    decreases a
  {
    if a != [] {
      var n := |a| - 1;
      EditsKeepIds(lines1, lines2, path, md5, a[..n], b[..n], cur);
      EditKeepsIds(lines1, lines2, path, md5, a[n], b[n], cur);
      SameIdentityAppend(ExtractSeq(Env(lines1, path, md5), a[..n], cur),
                         ExtractSeq(Env(lines2, path, md5), b[..n], cur),
                         Extract(Env(lines1, path, md5), a[n], cur),
                         Extract(Env(lines2, path, md5), b[n], cur));
    }
  }

  /**
   * A definition's content is the original text of its lines, byte for byte:
   * split into lines it gives exactly lines `lineno-1 .. end_lineno-1` of the
   * file, and it occurs in the file's text.
   */
  lemma SegmentIsSourceText(code: string, span: Span)
    requires 1 <= span.lineno <= span.endLineno <= |Split(code, '\n')|
    ensures Split(SourceSegment(Split(code, '\n'), Some(span)), '\n') == Split(code, '\n')[span.lineno - 1..span.endLineno]
    ensures Contains(code, SourceSegment(Split(code, '\n'), Some(span)))
  {
    var lines := Split(code, '\n');
    var a, b := span.lineno - 1, span.endLineno;
    assert SourceSegment(lines, Some(span)) == Join(lines[a..b], "\n");
    LinesExcerpt(code, a, b);
  }
}
