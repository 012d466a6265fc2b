/**
 * The parsed XML document the client inspects, standing in for libxml2's
 * node tree: element nodes with their attributes and children, text nodes,
 * and every other node kind (comments, processing instructions) as Other.
 * Names are local names; namespaces are not represented.
 */
module XmlTree {
  datatype Node =
    | Element(name: string, attributes: seq<Attribute>, children: seq<Node>)
    | Text(content: string)
    | Other

  /** An attribute node; its value is held by its text children, as in libxml2. */
  datatype Attribute = Attribute(name: string, children: seq<Node>)

  /** The top-level nodes of a document (doc->children). */
  type Document = seq<Node>
}
