/**
 * Model of xml_newline.py: `write_xml` turns a JSON-like nested mapping into
 * XML text in which every attribute of an element sits on its own line,
 * aligned under the end of the element's opening "<name".
 *
 * The pure functions below (ElementLines, Document, ...) specify the output;
 * the methods ProcessElement and WriteXml follow the source's loops and are
 * proved to produce exactly that output.
 */
module XmlNewline {

  /** A JSON-like value. A mapping keeps its insertion order as a sequence of fields. */
  datatype Value =
    | Obj(fields: seq<Field>)
    | Arr(items: seq<Value>)
    | Scalar(text: string)

  /** One key/value entry of a mapping. */
  datatype Field = Field(key: string, value: Value)

  datatype Option<T> = None | Some(value: T)

  /** Why `write_xml` raises instead of returning text. */
  datatype XmlError =
    | EmptyDocument   // `next(iter(data))` on an empty mapping
    | RootNotMapping  // the first top-level value has no `.items()`

  datatype Result<T> = Ok(value: T) | Err(error: XmlError)

  const Declaration: string := "<?xml version=\"1.0\" encoding=\"UTF-8\"?>"
  const AttributesKey: string := "@attributes"
  const CommentKey: string := "Comment"
  /** The default of write_xml's `indent_size` parameter. */
  const DefaultIndentSize: int := 2

  // ---------------------------------------------------------------------------
  // Python string operations

  /** Python's `s * n`: n copies of s, and the empty string when n <= 0. */
  function Repeat(s: string, n: int): (r: string)
    ensures |r| == if n <= 0 then 0 else n * |s|
    ensures forall i :: 0 <= i < |r| ==> r[i] in s
    decreases n
  {
    if n <= 0 then "" else s + Repeat(s, n - 1)
  }

  /** `" " * n` */
  function Spaces(n: int): (r: string)
    ensures |r| == if n <= 0 then 0 else n
    ensures forall i :: 0 <= i < |r| ==> r[i] == ' '
  {
    Repeat(" ", n)
  }

  /** `"    " * indent_level`: the indentation of an element's own lines. */
  function Indent(level: int): (r: string)
    ensures |r| == if level <= 0 then 0 else 4 * level
    ensures forall i :: 0 <= i < |r| ==> r[i] == ' '
  {
    Repeat("    ", level)
  }

  /** Python's `"\n".join(lines)`. */
  function JoinLines(lines: seq<string>): string
  {
    if |lines| == 0 then ""
    else if |lines| == 1 then lines[0]
    else lines[0] + "\n" + JoinLines(lines[1..])
  }

  // ---------------------------------------------------------------------------
  // The inputs the source can render

  /** A Python dict never holds one key twice. */
  predicate DistinctKeys(fields: seq<Field>)
  {
    forall i, j :: 0 <= i < j < |fields| ==> fields[i].key != fields[j].key
  }

  /** The value of "@attributes": a mapping from attribute name to string. */
  predicate AttributeValueOk(v: Value)
  {
    && v.Obj?
    && DistinctKeys(v.fields)
    && forall i :: 0 <= i < |v.fields| ==> v.fields[i].value.Scalar?
  }

  /** An element mapping: distinct keys, each entry of a renderable shape. */
  predicate WellFormedFields(fields: seq<Field>)
    decreases fields, 1
  {
    DistinctKeys(fields) && FieldsOk(fields)
  }

  predicate FieldsOk(fields: seq<Field>)
    decreases fields, 0
  {
    forall i :: 0 <= i < |fields| ==> WellFormedField(fields[i])
  }

  /** List items are element mappings. */
  predicate ItemsOk(items: seq<Value>)
    decreases items
  {
    forall j :: 0 <= j < |items| ==> items[j].Obj? && WellFormedFields(items[j].fields)
  }

  /**
   * The entry shapes `_process_element` handles without a Python exception
   * and without falling back on `str()` of a container.
   */
  predicate WellFormedField(f: Field)
    decreases f
  {
    if f.key == AttributesKey then AttributeValueOk(f.value)
    else if f.key == CommentKey then f.value.Scalar?
    else match f.value
      case Obj(fields) => WellFormedFields(fields)
      case Arr(items) => ItemsOk(items)
      case Scalar(_) => true
  }

  /** A top-level mapping whose first value, when it is a mapping, can be rendered. */
  predicate WellFormedDocument(data: seq<Field>)
  {
    && DistinctKeys(data)
    && (|data| > 0 && data[0].value.Obj? ==> WellFormedFields(data[0].value.fields))
  }

  // ---------------------------------------------------------------------------
  // Specification of the rendered lines

  /** `element_data[key]` when `key in element_data`. */
  function Lookup(fields: seq<Field>, key: string): (r: Option<Value>)
    ensures r.None? <==> forall i :: 0 <= i < |fields| ==> fields[i].key != key
    ensures r.Some? ==> exists i :: 0 <= i < |fields| && fields[i] == Field(key, r.value)
  {
    if |fields| == 0 then None
    else if fields[0].key == key then Some(fields[0].value)
    else
      var r := Lookup(fields[1..], key);
      assert r.Some? ==> exists i :: 0 <= i < |fields[1..]| && fields[1..][i] == Field(key, r.value);
      r
  }

  /** `list(attributes.items())` for a mapping of string values. */
  function AttributePairs(fields: seq<Field>): (attrs: seq<(string, string)>)
    requires forall i :: 0 <= i < |fields| ==> fields[i].value.Scalar?
    ensures |attrs| == |fields|
    ensures forall i :: 0 <= i < |fields| ==> attrs[i] == (fields[i].key, fields[i].value.text)
  {
    seq(|fields|, i requires 0 <= i < |fields| => (fields[i].key, fields[i].value.text))
  }

  /** The attributes of an element, in insertion order; none when "@attributes" is absent. */
  function AttributesOf(fields: seq<Field>): (attrs: seq<(string, string)>)
    requires WellFormedFields(fields)
    ensures (forall i :: 0 <= i < |fields| ==> fields[i].key != AttributesKey) ==> attrs == []
  {
    match Lookup(fields, AttributesKey)
    case None => []
    case Some(v) =>
      var i :| 0 <= i < |fields| && fields[i] == Field(AttributesKey, v);
      assert FieldsOk(fields);
      assert WellFormedField(fields[i]);
      AttributePairs(v.fields)
  }

  /** `key="value"` after the alignment padding. */
  function AttributeLine(pad: string, attr: (string, string)): string
  {
    pad + attr.0 + "=\"" + attr.1 + "\""
  }

  /** One line per attribute, all with the same padding. */
  function AttributeLines(pad: string, attrs: seq<(string, string)>): (lines: seq<string>)
    ensures |lines| == |attrs|
    ensures forall i :: 0 <= i < |attrs| ==> lines[i] == AttributeLine(pad, attrs[i])
  {
    seq(|attrs|, i requires 0 <= i < |attrs| => AttributeLine(pad, attrs[i]))
  }

  /**
   * The opening tag: `opening + ">"` on one line when there are no attributes;
   * otherwise `opening` alone, then one attribute per line padded by
   * `len(opening)` spaces, with ">" appended to the last attribute line.
   */
  function OpeningLines(opening: string, attrs: seq<(string, string)>): seq<string>
  {
    if |attrs| == 0 then [opening + ">"]
    else
      var lines := [opening] + AttributeLines(Spaces(|opening|), attrs);
      lines[..|lines| - 1] + [lines[|lines| - 1] + ">"]
  }

  /** The lines `_process_element(name, fields, level)` returns (with `indent_size` = size). */
  function ElementLines(name: string, fields: seq<Field>, level: int, size: int): seq<string>
    requires WellFormedFields(fields)
    decreases fields, 2
  {
    var indent := Indent(level);
    OpeningLines(indent + "<" + name, AttributesOf(fields))
      + BodyLines(fields, level, size, |fields|)
      + [indent + "</" + name + ">"]
  }

  /** The body lines contributed by the first n entries, in mapping order. */
  function BodyLines(fields: seq<Field>, level: int, size: int, n: nat): seq<string>
    requires FieldsOk(fields) && n <= |fields|
    decreases fields, 1, n
  {
    if n == 0 then []
    else BodyLines(fields, level, size, n - 1) + FieldLines(fields[n - 1], level, size)
  }

  /** The body lines of one entry of an element at `level`. */
  function FieldLines(f: Field, level: int, size: int): seq<string>
    requires WellFormedField(f)
    decreases f, 0
  {
    if f.key == AttributesKey then []
    else if f.key == CommentKey then [Indent(level) + Spaces(size) + "<!-- " + f.value.text + " -->"]
    else match f.value
      case Arr(items) => ItemsLines(f.key, items, level + size, size, |items|)
      case Obj(fields) => ElementLines(f.key, fields, level + size, size)
      case Scalar(text) => [Indent(level) + Spaces(size) + text]
  }

  /** The first n items of a list, each rendered as an element named `key`. */
  function ItemsLines(key: string, items: seq<Value>, level: int, size: int, n: nat): seq<string>
    requires ItemsOk(items) && n <= |items|
    decreases items, 1, n
  {
    if n == 0 then []
    else ItemsLines(key, items, level, size, n - 1) + ElementLines(key, items[n - 1].fields, level, size)
  }

  /** The result of `write_xml(data, size)`. */
  function Document(data: seq<Field>, size: int): (r: Result<string>)
    requires WellFormedDocument(data)
    ensures r == Err(EmptyDocument) <==> |data| == 0
    ensures r == Err(RootNotMapping) <==> |data| > 0 && !data[0].value.Obj?
  {
    if |data| == 0 then Err(EmptyDocument)
    else if !data[0].value.Obj? then Err(RootNotMapping)
    else Ok(JoinLines([Declaration] + ElementLines(data[0].key, data[0].value.fields, 0, size)))
  }

  // ---------------------------------------------------------------------------
  // The source's procedure

  /** One more item of the loop over a list value. */
  lemma ItemStep(key: string, items: seq<Value>, level: int, size: int, j: nat)
    requires ItemsOk(items) && j < |items|
    ensures items[j].Obj? && WellFormedFields(items[j].fields)
    ensures ItemsLines(key, items, level, size, j + 1)
         == ItemsLines(key, items, level, size, j) + ElementLines(key, items[j].fields, level, size)
  {
  }

  /** A list entry renders as its items' elements, one level deeper. */
  lemma ListEntryLines(key: string, value: Value, level: int, size: int)
    requires WellFormedField(Field(key, value))
    requires key != AttributesKey && key != CommentKey && value.Arr?
    ensures FieldLines(Field(key, value), level, size) == ItemsLines(key, value.items, level + size, size, |value.items|)
  {
  }

  /** A mapping entry renders as a child element, one level deeper. */
  lemma MappingEntryLines(key: string, value: Value, level: int, size: int)
    requires WellFormedField(Field(key, value))
    requires key != AttributesKey && key != CommentKey && value.Obj?
    ensures FieldLines(Field(key, value), level, size) == ElementLines(key, value.fields, level + size, size)
  {
  }

  lemma AppendAssoc<T>(a: seq<T>, b: seq<T>, c: seq<T>)
    ensures (a + b) + c == a + (b + c)
  {
  }

  /**
   * The start-tag block of `_process_element`: the "<name" line, then one line
   * per attribute, then ">" appended in place to the last line.
   */
  method StartTag(opening: string, attributes: seq<(string, string)>) returns (lines: seq<string>)
    ensures lines == OpeningLines(opening, attributes)
  {
    lines := [];
    if |attributes| > 0 {
      lines := lines + [opening];
      var attrIndent := Repeat(" ", |opening|);
      for i := 0 to |attributes|
        invariant |lines| == i + 1 && lines[0] == opening
        invariant forall k :: 0 <= k < i ==> lines[k + 1] == AttributeLine(attrIndent, attributes[k])
      {
        var (key, value) := attributes[i];
        lines := lines + [attrIndent + key + "=\"" + value + "\""];
      }
      assert lines == [opening] + AttributeLines(Spaces(|opening|), attributes);
      lines := lines[..|lines| - 1] + [lines[|lines| - 1] + ">"];
    } else {
      lines := lines + [opening + ">"];
    }
  }

  /** `_process_element`: the start tag, the lines of every entry in mapping order, the end tag. */
  method ProcessElement(name: string, fields: seq<Field>, indentLevel: int, indentSize: int)
    returns (lines: seq<string>)
    requires WellFormedFields(fields)
    ensures lines == ElementLines(name, fields, indentLevel, indentSize)
    decreases fields, 2
  {
    var indent := Repeat("    ", indentLevel);
    var opening := indent + "<" + name;

    var attributes: seq<(string, string)> := [];
    var found := Lookup(fields, AttributesKey);
    if found.Some? {
      ghost var k :| 0 <= k < |fields| && fields[k] == Field(AttributesKey, found.value);
      assert FieldsOk(fields) && WellFormedField(fields[k]);
      attributes := AttributePairs(found.value.fields);
    }
    assert attributes == AttributesOf(fields);

    lines := StartTag(opening, attributes);
    ghost var head := lines;

    for i := 0 to |fields|
      invariant lines == head + BodyLines(fields, indentLevel, indentSize, i)
    {
      assert FieldsOk(fields) && WellFormedField(fields[i]);
      var entryLines := ProcessEntry(fields[i].key, fields[i].value, indentLevel, indentSize);
      AppendAssoc(head, BodyLines(fields, indentLevel, indentSize, i), entryLines);
      lines := lines + entryLines;
    }

    lines := lines + [indent + "</" + name + ">"];
  }

  /**
   * One iteration of the loop over `element_data.items()`: nothing for
   * "@attributes", a comment line for "Comment", one child element per list
   * item, a child element for a mapping, and otherwise a bare text line.
   */
  method ProcessEntry(key: string, value: Value, indentLevel: int, indentSize: int)
    returns (lines: seq<string>)
    requires WellFormedField(Field(key, value))
    ensures lines == FieldLines(Field(key, value), indentLevel, indentSize)
    decreases value, 1
  {
    var indent := Repeat("    ", indentLevel);
    ghost var f := Field(key, value);
    if key == AttributesKey {
      // already rendered in the start tag
      lines := [];
      assert lines == FieldLines(f, indentLevel, indentSize);
    } else if key == CommentKey {
      lines := [indent + Repeat(" ", indentSize) + "<!-- " + value.text + " -->"];
      assert lines == FieldLines(f, indentLevel, indentSize);
    } else if value.Arr? {
      assert ItemsOk(value.items);
      lines := ItemElements(key, value.items, indentLevel + indentSize, indentSize);
      ListEntryLines(key, value, indentLevel, indentSize);
    } else if value.Obj? {
      assert WellFormedFields(value.fields);
      lines := ProcessElement(key, value.fields, indentLevel + indentSize, indentSize);
      MappingEntryLines(key, value, indentLevel, indentSize);
    } else {
      lines := [indent + Repeat(" ", indentSize) + value.text];
      assert lines == FieldLines(f, indentLevel, indentSize);
    }
  }

  /** The loop over a list value: one element named `key` per item, in list order. */
  method ItemElements(key: string, items: seq<Value>, indentLevel: int, indentSize: int)
    returns (lines: seq<string>)
    requires ItemsOk(items)
    ensures lines == ItemsLines(key, items, indentLevel, indentSize, |items|)
    decreases items, 0
  {
    lines := [];
    for j := 0 to |items|
      invariant lines == ItemsLines(key, items, indentLevel, indentSize, j)
    {
      ItemStep(key, items, indentLevel, indentSize, j);
      var childLines := ProcessElement(key, items[j].fields, indentLevel, indentSize);
      lines := lines + childLines;
    }
  }

  /** `write_xml`: the declaration line, then the first top-level entry as the root element. */
  method WriteXml(data: seq<Field>, indentSize: int) returns (r: Result<string>)
    requires WellFormedDocument(data)
    ensures r == Document(data, indentSize)
  {
    var result := [Declaration];
    if |data| == 0 {
      return Err(EmptyDocument);
    }
    var rootName, root := data[0].key, data[0].value;
    if !root.Obj? {
      return Err(RootNotMapping);
    }
    var rootLines := ProcessElement(rootName, root.fields, 0, indentSize);
    result := result + rootLines;
    r := Ok(JoinLines(result));
  }
}
