/** The input of the translator: a Singer stream schema, that is a
    JSON-Schema-shaped dictionary, and the way the translator inspects it. */
module SingerSchema {
  import opened Wrappers

  /** The value of a "type" key: one name, or a list of names. */
  datatype TypeDecl = Name(name: string) | Names(names: seq<string>)

  /** The value of a "properties" key, or its absence. An ordered sequence
      stands for the insertion-ordered dictionary. (A datatype of its own
      rather than an Option, so that nested entries are structurally smaller
      than the node that holds them.) */
  datatype Properties = Missing | Given(entries: seq<Property>)

  /** One schema dictionary. Each Option is a key that may be absent;
      `otherKeys` records whether any key not listed here is present
      ("description", ...), which matters only for the dictionary's
      truthiness. */
  datatype Node = Node(
    typ: Option<TypeDecl>,
    format: Option<string>,
    anyOf: Option<seq<Node>>,
    items: Option<Node>,
    properties: Properties,
    otherKeys: bool)

  /** One `key: value` pair of a "properties" dictionary. */
  datatype Property = Property(name: string, schema: Node)

  /** Python's `part in s` on two strings: `part` occurs contiguously in `s`. */
  predicate HasSubstring(s: string, part: string)
    decreases |s|
  {
    |part| <= |s| && (s[..|part|] == part || HasSubstring(s[1..], part))
  }

  /** Python's `name in type`: a substring test when "type" is a string,
      membership when it is a list. */
  predicate Declares(d: TypeDecl, name: string)
  {
    match d
    case Name(s) => HasSubstring(s, name)
    case Names(ns) => name in ns
  }

  /** Python's truthiness of a dictionary: it is truthy unless it is empty. */
  predicate Truthy(n: Node)
  {
    n.typ.Some? || n.format.Some? || n.anyOf.Some? || n.items.Some?
    || n.properties.Given? || n.otherKeys
  }

  /** Python's truthiness of a "format" value: present and not "". */
  predicate HasFormat(f: Option<string>)
  {
    f.Some? && f.value != ""
  }

  /** The JSON-Schema type names the translator dispatches on. */
  datatype TypeName = Integer | Number | Boolean | String | Array | Object

  function Spelling(t: TypeName): string
  {
    match t
    case Integer => "integer"
    case Number => "number"
    case Boolean => "boolean"
    case String => "string"
    case Array => "array"
    case Object => "object"
  }

  /** Where `part` occurs in `s`, its first two characters do. */
  lemma {:induction false} SubstringStart(s: string, part: string)
    requires |part| > 1
    ensures HasSubstring(s, part) ==> exists i :: 0 <= i <= |s| - |part| && s[i] == part[0] && s[i + 1] == part[1]
  {
    if |part| <= |s| && s[..|part|] == part {
      assert s[0] == part[0] && s[1] == part[1];
    } else if |part| <= |s| && HasSubstring(s[1..], part) {
      SubstringStart(s[1..], part);
      var i :| 0 <= i <= |s[1..]| - |part| && s[1..][i] == part[0] && s[1..][i + 1] == part[1];
      assert s[i + 1] == part[0] && s[i + 2] == part[1];
    }
  }

  /** A "type" string naming one type declares exactly that type: no type
      name occurs inside another, so the substring test agrees with
      equality here. */
  lemma SingleNameDeclaresItself(a: TypeName, b: TypeName)
    ensures Declares(Name(Spelling(a)), Spelling(b)) <==> a == b
  {
    var s := Spelling(a);
    if a == b {
      assert s[..|s|] == s;
    } else {
      NoOtherNameInside(a, b);
    }
  }

  lemma NoOtherNameInside(a: TypeName, b: TypeName)
    requires a != b
    ensures !HasSubstring(Spelling(a), Spelling(b))
  {
    SubstringStart(Spelling(a), Spelling(b));
    match a {
      case Integer =>
      case Number =>
      case Boolean =>
      case String =>
      case Array =>
      case Object =>
    }
  }

  /** The position in `order` of the first name that `d` declares, or
      `|order|` when it declares none: the branch an if/elif chain that
      tests the names of `order` in turn takes. */
  function FirstDeclared(order: seq<TypeName>, d: TypeDecl): (k: nat)
    ensures k <= |order|
    ensures k < |order| ==> Declares(d, Spelling(order[k]))
    ensures forall j :: 0 <= j < k ==> !Declares(d, Spelling(order[j]))
  {
    if order == [] then 0
    else if Declares(d, Spelling(order[0])) then 0
    else 1 + FirstDeclared(order[1..], d)
  }

  /** The type name an if/elif chain over `order` dispatches `d` to; None
      when no branch matches and the chain falls through. */
  function Dispatch(order: seq<TypeName>, d: TypeDecl): Option<TypeName>
  {
    var k := FirstDeclared(order, d);
    if k < |order| then Some(order[k]) else None
  }

  /** A size measure for the nesting of "items" and "properties". */
  function NodeSize(n: Node): nat
  {
    1 + (if n.items.Some? then NodeSize(n.items.value) else 0)
      + (if n.properties.Given? then PropertiesSize(n.properties.entries) else 0)
  }

  function PropertiesSize(ps: seq<Property>): nat
  {
    if ps == [] then 0 else 1 + NodeSize(ps[0].schema) + PropertiesSize(ps[1..])
  }

  /** Each entry is smaller than the entries around it. */
  lemma {:induction false} EntrySmaller(ps: seq<Property>, i: nat)
    requires i < |ps|
    ensures NodeSize(ps[i].schema) < PropertiesSize(ps)
  {
    if i > 0 {
      EntrySmaller(ps[1..], i - 1);
    }
  }
}
