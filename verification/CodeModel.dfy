/** The code graph's vocabulary: nodes, edges and the part of the graph one file contributes. */
module CodeModel {

  type FileId = string

  datatype NodeKind =
    | File | DataFile | Module | Class | Function | Method | Variable | Import | Struct | Enum | Trait

  /** A node id starts with the path of its file; for a symbol, a colon and `key` follow. */
  datatype NodeId = NodeId(file: FileId, key: string)

  /** The id of a symbol as text. */
  function SymbolId(f: FileId, key: string): string {
    f + ":" + key
  }

  /** An identifier in a node's text, and whether `(` follows it. */
  datatype Token = Token(name: string, call: bool)

  /** `tokens` are the identifiers of `text`; `covered` says that a callable of the same file
      encloses the node. Both are fixed when the file is parsed. */
  datatype CodeNode = CodeNode(
    id: NodeId, kind: NodeKind, name: string, tokens: seq<Token>, covered: bool, text: string)

  datatype EdgeKind =
    | Calls | CallAmbiguous | CallInferred | Defines | Imports | ImportAmbiguous
    | Contains | Inherits | Reads | Writes | References

  datatype Edge = Edge(source: NodeId, target: NodeId, kind: EdgeKind)

  /** What parsing one file contributes: its nodes and the edges among them. */
  datatype Part = Part(nodes: seq<CodeNode>, structure: set<Edge>)

  const EMPTY_PART := Part([], {})
}
