/**
 * What `write_xml` promises about its output, proved about the specification
 * functions of module XmlNewline (which ProcessElement and WriteXml are proved
 * to compute).
 */
module XmlNewlineProperties {
  import opened XmlNewline

  // ---------------------------------------------------------------------------
  // Indentation arithmetic

  /** `"    " * level` is 4 * level spaces: the nesting step is 4 columns per unit of level. */
  lemma IndentIsSpaces(level: int)
    ensures Indent(level) == Spaces(4 * level)
  {
    var a, b := Indent(level), Spaces(4 * level);
    assert |a| == |b|;
    assert forall i :: 0 <= i < |a| ==> a[i] == b[i];
  }

  /** Two runs of spaces side by side are one run. */
  lemma SpacesConcat(m: int, n: int)
    requires m >= 0 && n >= 0
    ensures Spaces(m) + Spaces(n) == Spaces(m + n)
  {
    var a, b := Spaces(m) + Spaces(n), Spaces(m + n);
    assert |a| == |b|;
    assert forall i :: 0 <= i < |a| ==> a[i] == b[i];
  }

  // ---------------------------------------------------------------------------
  // Attributes

  /** The attributes come from the "@attributes" entry, wherever it sits, in its insertion order. */
  lemma AttributesFromEntry(fields: seq<Field>, i: nat)
    requires WellFormedFields(fields)
    requires i < |fields| && fields[i].key == AttributesKey
    ensures AttributeValueOk(fields[i].value)
    ensures var attrs := AttributesOf(fields);
      && |attrs| == |fields[i].value.fields|
      && forall a :: 0 <= a < |attrs| ==>
           attrs[a] == (fields[i].value.fields[a].key, fields[i].value.fields[a].value.text)
  {
    assert FieldsOk(fields) && WellFormedField(fields[i]);
    var found := Lookup(fields, AttributesKey);
    var j :| 0 <= j < |fields| && fields[j] == Field(AttributesKey, found.value);
    assert j == i;
  }

  /** Without an "@attributes" entry, or with an empty one, the element has no attributes. */
  lemma NoAttributes(fields: seq<Field>)
    requires WellFormedFields(fields)
    requires forall i :: 0 <= i < |fields| && fields[i].key == AttributesKey ==> fields[i].value == Obj([])
    ensures AttributesOf(fields) == []
  {
    if i :| 0 <= i < |fields| && fields[i].key == AttributesKey {
      AttributesFromEntry(fields, i);
    }
  }

  // ---------------------------------------------------------------------------
  // The shape of one element's block

  /**
   * Without attributes the start tag is the single line `indent + "<" + name + ">"`;
   * the block ends with `indent + "</" + name + ">"`, the indent being 4 * level spaces.
   */
  lemma StartTagWithoutAttributes(name: string, fields: seq<Field>, level: int, size: int)
    requires WellFormedFields(fields)
    requires forall i :: 0 <= i < |fields| && fields[i].key == AttributesKey ==> fields[i].value == Obj([])
    ensures var lines := ElementLines(name, fields, level, size);
      && |lines| >= 2
      && lines[0] == Spaces(4 * level) + "<" + name + ">"
      && lines[|lines| - 1] == Spaces(4 * level) + "</" + name + ">"
  {
    NoAttributes(fields);
    IndentIsSpaces(level);
  }

  /**
   * With k >= 1 attributes the block starts with `opening := indent + "<" + name`
   * alone on its line, then exactly k lines, one per attribute in insertion order,
   * each `len(opening)` spaces followed by `key="value"`, and ">" on the k-th only.
   * The key column, `len(opening)`, is 4 * level + 1 + len(name).
   */
  lemma StartTagWithAttributes(name: string, fields: seq<Field>, level: int, size: int, i: nat)
    requires WellFormedFields(fields)
    requires i < |fields| && fields[i].key == AttributesKey
    requires fields[i].value.Obj? && |fields[i].value.fields| >= 1
    ensures var lines := ElementLines(name, fields, level, size);
      var attrs := fields[i].value.fields;
      var k := |attrs|;
      var opening := Indent(level) + "<" + name;
      && |lines| >= k + 2
      && lines[0] == opening
      && (level >= 0 ==> |opening| == 4 * level + 1 + |name|)
      && (forall a :: 0 <= a < k ==>
            attrs[a].value.Scalar? &&
            lines[a + 1] == Spaces(|opening|) + attrs[a].key + "=\"" + attrs[a].value.text + "\""
                            + (if a == k - 1 then ">" else ""))
      && lines[|lines| - 1] == Indent(level) + "</" + name + ">"
  {
    var lines := ElementLines(name, fields, level, size);
    var attrs := fields[i].value.fields;
    var k := |attrs|;
    var opening := Indent(level) + "<" + name;
    var pairs := AttributesOf(fields);
    assert AttributeValueOk(fields[i].value) && |pairs| == k by {
      AttributesFromEntry(fields, i);
    }
    assert forall a :: 0 <= a < k ==> pairs[a] == (attrs[a].key, attrs[a].value.text) by {
      AttributesFromEntry(fields, i);
    }
    var open := OpeningLines(opening, pairs);
    OpeningShape(opening, pairs);
    ElementStartsWithOpening(name, fields, level, size);
    forall a | 0 <= a < k
      ensures lines[a + 1] == Spaces(|opening|) + attrs[a].key + "=\"" + attrs[a].value.text + "\""
                              + (if a == k - 1 then ">" else "")
    {
      assert attrs[a].value.Scalar?;
      assert lines[a + 1] == open[a + 1];
      assert open[a + 1] == AttributeLine(Spaces(|opening|), pairs[a]) + (if a == k - 1 then ">" else "");
    }
    IndentIsSpaces(level);
  }

  /** With attributes, the opening lines are the bare opening, then one padded line per attribute. */
  lemma OpeningShape(opening: string, attrs: seq<(string, string)>)
    requires |attrs| >= 1
    ensures var open := OpeningLines(opening, attrs);
      && |open| == |attrs| + 1
      && open[0] == opening
      && forall a :: 0 <= a < |attrs| ==>
           open[a + 1] == AttributeLine(Spaces(|opening|), attrs[a]) + (if a == |attrs| - 1 then ">" else "")
  {
  }

  /** An element's block is its opening lines, then its body, then its end tag. */
  lemma ElementStartsWithOpening(name: string, fields: seq<Field>, level: int, size: int)
    requires WellFormedFields(fields)
    ensures var lines, open := ElementLines(name, fields, level, size), OpeningLines(Indent(level) + "<" + name, AttributesOf(fields));
      && |lines| >= |open| + 1
      && lines[..|open|] == open
      && lines[|lines| - 1] == Indent(level) + "</" + name + ">"
  {
  }

  // ---------------------------------------------------------------------------
  // Nesting: every line of an element's block is indented at least as far as the element

  /** The first n columns of `line` are spaces. */
  predicate IndentedBy(line: string, n: int)
  {
    n <= |line| && forall c :: 0 <= c < n ==> line[c] == ' '
  }

  predicate AllIndentedBy(lines: seq<string>, n: int)
  {
    forall k :: 0 <= k < |lines| ==> IndentedBy(lines[k], n)
  }

  lemma AllIndentedByConcat(a: seq<string>, b: seq<string>, n: int)
    requires AllIndentedBy(a, n) && AllIndentedBy(b, n)
    ensures AllIndentedBy(a + b, n)
  {
    forall k | 0 <= k < |a + b| ensures IndentedBy((a + b)[k], n) {
      if k < |a| { assert (a + b)[k] == a[k]; } else { assert (a + b)[k] == b[k - |a|]; }
    }
  }

  lemma AllIndentedByWeaken(lines: seq<string>, m: int, n: int)
    requires AllIndentedBy(lines, m) && n <= m
    ensures AllIndentedBy(lines, n)
  {
  }

  /** A line that starts with `prefix` is indented as far as `prefix` is. */
  lemma IndentedByPrefix(prefix: string, rest: string, n: int)
    requires IndentedBy(prefix, n)
    ensures IndentedBy(prefix + rest, n)
  {
    assert forall c :: 0 <= c < n ==> (prefix + rest)[c] == prefix[c];
  }

  lemma OpeningIndented(opening: string, attrs: seq<(string, string)>, n: int)
    requires IndentedBy(opening, n)
    ensures AllIndentedBy(OpeningLines(opening, attrs), n)
  {
    var lines := OpeningLines(opening, attrs);
    IndentedByPrefix(opening, ">", n);
    if |attrs| > 0 {
      var pad := Spaces(|opening|);
      forall k | 0 <= k < |attrs| ensures IndentedBy(AttributeLine(pad, attrs[k]), n) && IndentedBy(AttributeLine(pad, attrs[k]) + ">", n) {
        IndentedByPrefix(pad, attrs[k].0 + "=\"" + attrs[k].1 + "\"", n);
        assert AttributeLine(pad, attrs[k]) == pad + (attrs[k].0 + "=\"" + attrs[k].1 + "\"");
        IndentedByPrefix(AttributeLine(pad, attrs[k]), ">", n);
      }
      forall k | 0 <= k < |lines| ensures IndentedBy(lines[k], n) {
        if k > 0 { assert lines[k] == AttributeLine(pad, attrs[k - 1]) || lines[k] == AttributeLine(pad, attrs[k - 1]) + ">"; }
      }
    }
  }

  /** All lines of an element at level >= 0 start with its own indent, 4 * level spaces. */
  lemma {:induction false} ElementIndented(name: string, fields: seq<Field>, level: int, size: int)
    requires WellFormedFields(fields) && level >= 0 && size >= 0
    ensures AllIndentedBy(ElementLines(name, fields, level, size), 4 * level)
    decreases fields, 2
  {
    var indent := Indent(level);
    IndentedByPrefix(indent, "<" + name, 4 * level);
    assert indent + "<" + name == indent + ("<" + name);
    OpeningIndented(indent + "<" + name, AttributesOf(fields), 4 * level);
    BodyIndented(fields, level, size, |fields|);
    IndentedByPrefix(indent, "</" + name + ">", 4 * level);
    assert indent + "</" + name + ">" == indent + ("</" + name + ">");
    AllIndentedByConcat(OpeningLines(indent + "<" + name, AttributesOf(fields)), BodyLines(fields, level, size, |fields|), 4 * level);
    AllIndentedByConcat(
      OpeningLines(indent + "<" + name, AttributesOf(fields)) + BodyLines(fields, level, size, |fields|),
      [indent + "</" + name + ">"], 4 * level);
  }

  lemma {:induction false} BodyIndented(fields: seq<Field>, level: int, size: int, n: nat)
    requires FieldsOk(fields) && n <= |fields| && level >= 0 && size >= 0
    ensures AllIndentedBy(BodyLines(fields, level, size, n), 4 * level)
    decreases fields, 1, n
  {
    if n > 0 {
      BodyIndented(fields, level, size, n - 1);
      assert WellFormedField(fields[n - 1]);
      FieldIndented(fields[n - 1], level, size);
      AllIndentedByConcat(BodyLines(fields, level, size, n - 1), FieldLines(fields[n - 1], level, size), 4 * level);
    }
  }

  lemma {:induction false} FieldIndented(f: Field, level: int, size: int)
    requires WellFormedField(f) && level >= 0 && size >= 0
    ensures AllIndentedBy(FieldLines(f, level, size), 4 * level)
    decreases f, 0
  {
    var lead := Indent(level) + Spaces(size);
    assert IndentedBy(lead, 4 * level);
    if f.key == AttributesKey {
    } else if f.key == CommentKey {
      IndentedByPrefix(lead, "<!-- " + f.value.text + " -->", 4 * level);
      assert lead + "<!-- " + f.value.text + " -->" == lead + ("<!-- " + f.value.text + " -->");
    } else {
      match f.value
      case Arr(items) =>
        ItemsIndented(f.key, items, level + size, size, |items|);
        AllIndentedByWeaken(FieldLines(f, level, size), 4 * (level + size), 4 * level);
      case Obj(fields) =>
        ElementIndented(f.key, fields, level + size, size);
        AllIndentedByWeaken(FieldLines(f, level, size), 4 * (level + size), 4 * level);
      case Scalar(text) =>
        IndentedByPrefix(lead, text, 4 * level);
    }
  }

  lemma {:induction false} ItemsIndented(key: string, items: seq<Value>, level: int, size: int, n: nat)
    requires ItemsOk(items) && n <= |items| && level >= 0 && size >= 0
    ensures AllIndentedBy(ItemsLines(key, items, level, size, n), 4 * level)
    decreases items, 1, n
  {
    if n > 0 {
      ItemStep(key, items, level, size, n - 1);
      ItemsIndented(key, items, level, size, n - 1);
      ElementIndented(key, items[n - 1].fields, level, size);
      AllIndentedByConcat(ItemsLines(key, items, level, size, n - 1), ElementLines(key, items[n - 1].fields, level, size), 4 * level);
    }
  }

  // ---------------------------------------------------------------------------
  // Entries are rendered one after another, in mapping order

  /** The whole body of an element: the lines of all its entries. */
  function Body(fields: seq<Field>, level: int, size: int): seq<string>
    requires FieldsOk(fields)
  {
    BodyLines(fields, level, size, |fields|)
  }

  /** The lines of the first n entries depend on those entries only. */
  lemma {:induction false} BodyPrefix(fs: seq<Field>, gs: seq<Field>, level: int, size: int, n: nat)
    requires FieldsOk(fs) && FieldsOk(gs) && n <= |fs| && n <= |gs|
    requires fs[..n] == gs[..n]
    ensures BodyLines(fs, level, size, n) == BodyLines(gs, level, size, n)
  {
    if n > 0 {
      assert fs[..n - 1] == fs[..n][..n - 1] && gs[..n - 1] == gs[..n][..n - 1];
      BodyPrefix(fs, gs, level, size, n - 1);
      assert fs[n - 1] == fs[..n][n - 1] && gs[n - 1] == gs[..n][n - 1];
    }
  }

  /** One more entry at the end of a mapping adds its lines at the end of the body. */
  lemma BodySnoc(xs: seq<Field>, f: Field, level: int, size: int)
    requires FieldsOk(xs) && WellFormedField(f)
    ensures FieldsOk(xs + [f])
    ensures Body(xs + [f], level, size) == Body(xs, level, size) + FieldLines(f, level, size)
  {
    var ys := xs + [f];
    assert FieldsOk(ys) by {
      assert forall i :: 0 <= i < |ys| ==> ys[i] == if i < |xs| then xs[i] else f;
    }
    assert ys[|xs|] == f;
    assert Body(ys, level, size) == BodyLines(ys, level, size, |xs|) + FieldLines(f, level, size);
    assert ys[..|xs|] == xs[..|xs|];
    BodyPrefix(ys, xs, level, size, |xs|);
  }

  /** The body of `a + b` is the body of `a` followed by the body of `b`. */
  lemma {:induction false} BodyConcat(a: seq<Field>, b: seq<Field>, level: int, size: int)
    requires FieldsOk(a) && FieldsOk(b)
    ensures FieldsOk(a + b)
    ensures Body(a + b, level, size) == Body(a, level, size) + Body(b, level, size)
    decreases |b|
  {
    if |b| == 0 {
      assert a + b == a;
    } else {
      var b', x := b[..|b| - 1], b[|b| - 1];
      assert FieldsOk(b') && b == b' + [x];
      BodyConcat(a, b', level, size);
      assert a + b == (a + b') + [x];
      BodySnoc(a + b', x, level, size);
      BodySnoc(b', x, level, size);
      AppendAssoc(Body(a, level, size), Body(b', level, size), FieldLines(x, level, size));
    }
  }

  /** A single entry's body lines are exactly that entry's lines. */
  lemma SingleEntryBody(f: Field, level: int, size: int)
    requires WellFormedField(f)
    ensures FieldsOk([f]) && Body([f], level, size) == FieldLines(f, level, size)
  {
    assert BodyLines([f], level, size, 0) == [];
  }

  /** The entries other than "@attributes", in their order. */
  function WithoutAttributes(fields: seq<Field>): (r: seq<Field>)
    ensures forall i :: 0 <= i < |r| ==> r[i].key != AttributesKey && r[i] in fields
    ensures forall i :: 0 <= i < |fields| && fields[i].key != AttributesKey ==> fields[i] in r
  {
    if |fields| == 0 then []
    else (if fields[0].key == AttributesKey then [] else [fields[0]]) + WithoutAttributes(fields[1..])
  }

  /**
   * The "@attributes" entry contributes no line to the body, wherever it sits:
   * the body is that of the other entries, in their order.
   */
  lemma {:induction false} AttributesEntrySilent(fields: seq<Field>, level: int, size: int)
    requires FieldsOk(fields)
    ensures FieldsOk(WithoutAttributes(fields))
    ensures Body(fields, level, size) == Body(WithoutAttributes(fields), level, size)
    decreases |fields|
  {
    if |fields| > 0 {
      var f, rest := fields[0], fields[1..];
      assert fields == [f] + rest;
      assert FieldsOk(rest);
      AttributesEntrySilent(rest, level, size);
      SingleEntryBody(f, level, size);
      BodyConcat([f], rest, level, size);
      if f.key == AttributesKey {
        assert WithoutAttributes(fields) == WithoutAttributes(rest);
      } else {
        assert WithoutAttributes(fields) == [f] + WithoutAttributes(rest);
        BodyConcat([f], WithoutAttributes(rest), level, size);
      }
    } else {
      assert WithoutAttributes(fields) == [];
    }
  }

  /** An element is its start tag, the lines of its other entries in order, and its end tag. */
  lemma ElementLayout(name: string, fields: seq<Field>, level: int, size: int)
    requires WellFormedFields(fields)
    ensures FieldsOk(WithoutAttributes(fields))
    ensures ElementLines(name, fields, level, size)
         == OpeningLines(Indent(level) + "<" + name, AttributesOf(fields))
            + Body(WithoutAttributes(fields), level, size)
            + [Indent(level) + "</" + name + ">"]
  {
    AttributesEntrySilent(fields, level, size);
  }

  /** The items of a list value: one element per item, all named by the key. */
  function Items(key: string, items: seq<Value>, level: int, size: int): seq<string>
    requires ItemsOk(items)
  {
    ItemsLines(key, items, level, size, |items|)
  }

  lemma {:induction false} ItemsPrefix(key: string, xs: seq<Value>, ys: seq<Value>, level: int, size: int, n: nat)
    requires ItemsOk(xs) && ItemsOk(ys) && n <= |xs| && n <= |ys|
    requires xs[..n] == ys[..n]
    ensures ItemsLines(key, xs, level, size, n) == ItemsLines(key, ys, level, size, n)
  {
    if n > 0 {
      assert xs[..n - 1] == xs[..n][..n - 1] && ys[..n - 1] == ys[..n][..n - 1];
      ItemsPrefix(key, xs, ys, level, size, n - 1);
      assert xs[n - 1] == xs[..n][n - 1] && ys[n - 1] == ys[..n][n - 1];
    }
  }

  /** One more item at the end of a list adds its element at the end of the lines. */
  lemma ItemsSnoc(key: string, xs: seq<Value>, x: Value, level: int, size: int)
    requires ItemsOk(xs) && x.Obj? && WellFormedFields(x.fields)
    ensures ItemsOk(xs + [x])
    ensures Items(key, xs + [x], level, size) == Items(key, xs, level, size) + ElementLines(key, x.fields, level, size)
  {
    var ys := xs + [x];
    ItemsAppendOk(xs, x);
    assert ys[|xs|] == x && |ys| == |xs| + 1;
    ItemStep(key, ys, level, size, |xs|);
    assert ItemsLines(key, ys, level, size, |xs|) == Items(key, xs, level, size) by {
      assert ys[..|xs|] == xs[..|xs|];
      ItemsPrefix(key, ys, xs, level, size, |xs|);
    }
  }

  lemma ItemsAppendOk(xs: seq<Value>, x: Value)
    requires ItemsOk(xs) && x.Obj? && WellFormedFields(x.fields)
    ensures ItemsOk(xs + [x])
  {
    var ys := xs + [x];
    assert forall i :: 0 <= i < |ys| ==> ys[i] == if i < |xs| then xs[i] else x;
  }

  /** List items become sibling elements in list order: the items of `a + b` are those of `a`, then those of `b`. */
  lemma {:induction false} ItemsConcat(key: string, a: seq<Value>, b: seq<Value>, level: int, size: int)
    requires ItemsOk(a) && ItemsOk(b)
    ensures ItemsOk(a + b)
    ensures Items(key, a + b, level, size) == Items(key, a, level, size) + Items(key, b, level, size)
    decreases |b|
  {
    if |b| == 0 {
      assert a + b == a;
    } else {
      var b', x := b[..|b| - 1], b[|b| - 1];
      assert ItemsOk(b') && b == b' + [x];
      ItemsConcat(key, a, b', level, size);
      assert a + b == (a + b') + [x];
      ItemsSnoc(key, a + b', x, level, size);
      ItemsSnoc(key, b', x, level, size);
      AppendAssoc(Items(key, a, level, size), Items(key, b', level, size), ElementLines(key, x.fields, level, size));
    }
  }

  /** A one-item list renders exactly as that item's element would. */
  lemma SingleItem(key: string, x: Value, level: int, size: int)
    requires x.Obj? && WellFormedFields(x.fields)
    ensures ItemsOk([x]) && Items(key, [x], level, size) == ElementLines(key, x.fields, level, size)
  {
    assert ItemsLines(key, [x], level, size, 0) == [];
  }

  // ---------------------------------------------------------------------------
  // What each kind of entry becomes, and at which column

  /*
   * For an element at `level` (>= 0) with step `size` (>= 0): a comment or a plain
   * value is written at column 4 * level + size, while a child element or a list
   * item starts at column 4 * (level + size), because the level grows by `size`
   * and each level unit is 4 spaces.
   */

  /** The "@attributes" entry yields no body line. */
  lemma AttributesEntryShape(value: Value, level: int, size: int)
    requires WellFormedField(Field(AttributesKey, value))
    ensures FieldLines(Field(AttributesKey, value), level, size) == []
  {
  }

  /** A "Comment" entry is one `<!-- text -->` line at column 4 * level + size. */
  lemma CommentEntryShape(value: Value, level: int, size: int)
    requires WellFormedField(Field(CommentKey, value)) && level >= 0 && size >= 0
    ensures FieldLines(Field(CommentKey, value), level, size) == [Spaces(4 * level + size) + "<!-- " + value.text + " -->"]
  {
    IndentIsSpaces(level);
    SpacesConcat(4 * level, size);
  }

  /** A plain value is its text alone on a line at column 4 * level + size; its key is not written. */
  lemma ScalarEntryShape(key: string, text: string, level: int, size: int)
    requires key != AttributesKey && key != CommentKey && level >= 0 && size >= 0
    ensures WellFormedField(Field(key, Scalar(text)))
    ensures FieldLines(Field(key, Scalar(text)), level, size) == [Spaces(4 * level + size) + text]
  {
    IndentIsSpaces(level);
    SpacesConcat(4 * level, size);
  }

  /** An element's first line starts with its indent and "<" + name; its last line is its end tag. */
  lemma ElementEnds(name: string, fields: seq<Field>, level: int, size: int)
    requires WellFormedFields(fields) && level >= 0
    ensures var lines := ElementLines(name, fields, level, size);
      && |lines| >= 2
      && StartsWith(lines[0], Spaces(4 * level) + "<" + name)
      && lines[|lines| - 1] == Spaces(4 * level) + "</" + name + ">"
  {
    var lines := ElementLines(name, fields, level, size);
    var opening := Indent(level) + "<" + name;
    var open := OpeningLines(opening, AttributesOf(fields));
    IndentIsSpaces(level);
    OpeningStartsWith(opening, AttributesOf(fields));
    assert lines == open + (BodyLines(fields, level, size, |fields|) + [Indent(level) + "</" + name + ">"]);
    assert lines[0] == open[0];
  }

  predicate StartsWith(line: string, prefix: string)
  {
    |prefix| <= |line| && line[..|prefix|] == prefix
  }

  /** The first line of a start tag starts with the opening text. */
  lemma OpeningStartsWith(opening: string, attrs: seq<(string, string)>)
    ensures StartsWith(OpeningLines(opening, attrs)[0], opening)
  {
    var first := OpeningLines(opening, attrs)[0];
    if |attrs| == 0 { assert first == opening + ">"; } else { assert first == opening; }
  }

  // ---------------------------------------------------------------------------
  // Lines are newline-free when the keys and values are

  predicate NoNewline(s: string)
  {
    forall c :: 0 <= c < |s| ==> s[c] != '\n'
  }

  predicate NoNewlineLines(lines: seq<string>)
  {
    forall k :: 0 <= k < |lines| ==> NoNewline(lines[k])
  }

  /** No key or text anywhere in `fields` holds a newline. */
  predicate NoNewlineFields(fields: seq<Field>)
    decreases fields, 1
  {
    forall i :: 0 <= i < |fields| ==> NoNewlineField(fields[i])
  }

  predicate NoNewlineField(f: Field)
    decreases f, 0
  {
    && NoNewline(f.key)
    && match f.value
       case Obj(fields) => NoNewlineFields(fields)
       case Arr(items) => forall j :: 0 <= j < |items| ==> NoNewlineValue(items[j])
       case Scalar(text) => NoNewline(text)
  }

  predicate NoNewlineValue(v: Value)
    decreases v
  {
    match v
    case Obj(fields) => NoNewlineFields(fields)
    case Arr(items) => forall j :: 0 <= j < |items| ==> NoNewlineValue(items[j])
    case Scalar(text) => NoNewline(text)
  }

  lemma NoNewlineConcat(a: string, b: string)
    ensures NoNewline(a + b) <==> NoNewline(a) && NoNewline(b)
  {
    if NoNewline(a) && NoNewline(b) {
      forall c | 0 <= c < |a + b| ensures (a + b)[c] != '\n' {
        if c < |a| { assert (a + b)[c] == a[c]; } else { assert (a + b)[c] == b[c - |a|]; }
      }
    }
    if NoNewline(a + b) {
      assert forall c :: 0 <= c < |a| ==> a[c] == (a + b)[c];
      assert forall c :: 0 <= c < |b| ==> b[c] == (a + b)[|a| + c];
    }
  }

  lemma NoNewlineLinesConcat(a: seq<string>, b: seq<string>)
    requires NoNewlineLines(a) && NoNewlineLines(b)
    ensures NoNewlineLines(a + b)
  {
    forall k | 0 <= k < |a + b| ensures NoNewline((a + b)[k]) {
      if k < |a| { assert (a + b)[k] == a[k]; } else { assert (a + b)[k] == b[k - |a|]; }
    }
  }

  lemma NoNewlineSpaces(n: int)
    ensures NoNewline(Spaces(n)) && NoNewline(Indent(n))
  {
  }

  lemma OpeningNoNewline(opening: string, attrs: seq<(string, string)>)
    requires NoNewline(opening)
    requires forall k :: 0 <= k < |attrs| ==> NoNewline(attrs[k].0) && NoNewline(attrs[k].1)
    ensures NoNewlineLines(OpeningLines(opening, attrs))
  {
    var lines := OpeningLines(opening, attrs);
    NoNewlineConcat(opening, ">");
    if |attrs| > 0 {
      var pad := Spaces(|opening|);
      NoNewlineSpaces(|opening|);
      forall k | 0 <= k < |attrs|
        ensures NoNewline(AttributeLine(pad, attrs[k])) && NoNewline(AttributeLine(pad, attrs[k]) + ">")
      {
        var line := AttributeLine(pad, attrs[k]);
        NoNewlineConcat(pad, attrs[k].0);
        NoNewlineConcat(pad + attrs[k].0, "=\"");
        NoNewlineConcat(pad + attrs[k].0 + "=\"", attrs[k].1);
        NoNewlineConcat(pad + attrs[k].0 + "=\"" + attrs[k].1, "\"");
        NoNewlineConcat(line, ">");
      }
      forall k | 0 <= k < |lines| ensures NoNewline(lines[k]) {
        if k > 0 { assert lines[k] == AttributeLine(pad, attrs[k - 1]) || lines[k] == AttributeLine(pad, attrs[k - 1]) + ">"; }
      }
    }
  }

  /** The attribute keys and values of newline-free fields are newline-free. */
  lemma AttributesNoNewline(fields: seq<Field>)
    requires WellFormedFields(fields) && NoNewlineFields(fields)
    ensures var attrs := AttributesOf(fields);
      forall k :: 0 <= k < |attrs| ==> NoNewline(attrs[k].0) && NoNewline(attrs[k].1)
  {
    if i :| 0 <= i < |fields| && fields[i].key == AttributesKey {
      AttributesFromEntry(fields, i);
      assert NoNewlineField(fields[i]);
      var attrs := AttributesOf(fields);
      forall k | 0 <= k < |attrs| ensures NoNewline(attrs[k].0) && NoNewline(attrs[k].1) {
        assert NoNewlineField(fields[i].value.fields[k]);
      }
    }
  }

  /** Every output line of an element is a single line: no key or text holds a newline, so no line does. */
  lemma {:induction false} ElementNoNewline(name: string, fields: seq<Field>, level: int, size: int)
    requires WellFormedFields(fields) && NoNewline(name) && NoNewlineFields(fields)
    ensures NoNewlineLines(ElementLines(name, fields, level, size))
    decreases fields, 2
  {
    var indent := Indent(level);
    NoNewlineSpaces(level);
    NoNewlineConcat(indent, "<");
    NoNewlineConcat(indent + "<", name);
    AttributesNoNewline(fields);
    OpeningNoNewline(indent + "<" + name, AttributesOf(fields));
    BodyNoNewline(fields, level, size, |fields|);
    NoNewlineConcat(indent, "</");
    NoNewlineConcat(indent + "</", name);
    NoNewlineConcat(indent + "</" + name, ">");
    NoNewlineLinesConcat(OpeningLines(indent + "<" + name, AttributesOf(fields)), BodyLines(fields, level, size, |fields|));
    NoNewlineLinesConcat(
      OpeningLines(indent + "<" + name, AttributesOf(fields)) + BodyLines(fields, level, size, |fields|),
      [indent + "</" + name + ">"]);
  }

  lemma {:induction false} BodyNoNewline(fields: seq<Field>, level: int, size: int, n: nat)
    requires FieldsOk(fields) && NoNewlineFields(fields) && n <= |fields|
    ensures NoNewlineLines(BodyLines(fields, level, size, n))
    decreases fields, 1, n
  {
    if n > 0 {
      BodyNoNewline(fields, level, size, n - 1);
      assert WellFormedField(fields[n - 1]) && NoNewlineField(fields[n - 1]);
      FieldNoNewline(fields[n - 1], level, size);
      NoNewlineLinesConcat(BodyLines(fields, level, size, n - 1), FieldLines(fields[n - 1], level, size));
    }
  }

  lemma {:induction false} FieldNoNewline(f: Field, level: int, size: int)
    requires WellFormedField(f) && NoNewlineField(f)
    ensures NoNewlineLines(FieldLines(f, level, size))
    decreases f, 1
  {
    if f.key == AttributesKey {
      assert FieldLines(f, level, size) == [];
    } else if f.key == CommentKey || f.value.Scalar? {
      LineEntryNoNewline(f, level, size);
    } else {
      NestedEntryNoNewline(f, level, size);
    }
  }

  /** A mapping or list value renders as newline-free element lines. */
  lemma {:induction false} NestedEntryNoNewline(f: Field, level: int, size: int)
    requires WellFormedField(f) && NoNewlineField(f)
    requires f.key != AttributesKey && f.key != CommentKey && !f.value.Scalar?
    ensures NoNewlineLines(FieldLines(f, level, size))
    decreases f, 0
  {
    if f.value.Arr? {
      var items := f.value.items;
      assert ItemsOk(items) && NoNewline(f.key);
      assert forall j :: 0 <= j < |items| ==> NoNewlineValue(items[j]);
      ItemsNoNewline(f.key, items, level + size, size, |items|);
      ListEntryLines(f.key, f.value, level, size);
    } else {
      var fields := f.value.fields;
      assert WellFormedFields(fields) && NoNewline(f.key) && NoNewlineFields(fields);
      ElementNoNewline(f.key, fields, level + size, size);
      MappingEntryLines(f.key, f.value, level, size);
    }
  }

  /** A comment or a plain value is one newline-free line. */
  lemma LineEntryNoNewline(f: Field, level: int, size: int)
    requires WellFormedField(f) && NoNewlineField(f)
    requires f.key != AttributesKey && (f.key == CommentKey || f.value.Scalar?)
    ensures NoNewlineLines(FieldLines(f, level, size))
  {
    var lead := Indent(level) + Spaces(size);
    NoNewlineSpaces(level);
    NoNewlineSpaces(size);
    NoNewlineConcat(Indent(level), Spaces(size));
    if f.key == CommentKey {
      NoNewlineConcat(lead, "<!-- ");
      NoNewlineConcat(lead + "<!-- ", f.value.text);
      NoNewlineConcat(lead + "<!-- " + f.value.text, " -->");
      assert FieldLines(f, level, size) == [lead + "<!-- " + f.value.text + " -->"];
    } else {
      NoNewlineConcat(lead, f.value.text);
      assert FieldLines(f, level, size) == [lead + f.value.text];
    }
  }

  lemma {:induction false} ItemsNoNewline(key: string, items: seq<Value>, level: int, size: int, n: nat)
    requires ItemsOk(items) && NoNewline(key) && n <= |items|
    requires forall j :: 0 <= j < |items| ==> NoNewlineValue(items[j])
    ensures NoNewlineLines(ItemsLines(key, items, level, size, n))
    decreases items, 1, n
  {
    if n > 0 {
      ItemsNoNewline(key, items, level, size, n - 1);
      assert NoNewlineValue(items[n - 1]);
      ElementNoNewline(key, items[n - 1].fields, level, size);
      NoNewlineLinesConcat(ItemsLines(key, items, level, size, n - 1), ElementLines(key, items[n - 1].fields, level, size));
    }
  }

  // ---------------------------------------------------------------------------
  // Joining lines, and splitting them back

  /** Python's `s.split("\n")`: the pieces between newlines, always at least one. */
  function SplitLines(s: string): (r: seq<string>)
    ensures |r| >= 1
    decreases |s|
  {
    if |s| == 0 then [""]
    else if s[0] == '\n' then [""] + SplitLines(s[1..])
    else
      var rest := SplitLines(s[1..]);
      [[s[0]] + rest[0]] + rest[1..]
  }

  lemma JoinCons(x: string, rest: seq<string>)
    ensures JoinLines([x] + rest) == if |rest| == 0 then x else x + "\n" + JoinLines(rest)
  {
    assert ([x] + rest)[1..] == rest;
  }

  /** Splitting text that begins with a newline-free run glues that run to the first piece. */
  lemma {:induction false} SplitAfterRun(a: string, rest: string)
    requires NoNewline(a)
    ensures var r := SplitLines(rest);
      SplitLines(a + rest) == [a + r[0]] + r[1..]
    decreases |a|
  {
    if |a| > 0 {
      assert (a + rest)[0] == a[0] && (a + rest)[1..] == a[1..] + rest;
      SplitAfterRun(a[1..], rest);
      assert [a[0]] + (a[1..] + SplitLines(rest)[0]) == a + SplitLines(rest)[0];
    } else {
      var r := SplitLines(rest);
      assert a + rest == rest && a + r[0] == r[0];
      assert [r[0]] + r[1..] == r;
    }
  }

  /** Splitting the joined output gives back the lines, when none of them holds a newline. */
  lemma {:induction false} SplitJoin(lines: seq<string>)
    requires |lines| >= 1 && NoNewlineLines(lines)
    ensures SplitLines(JoinLines(lines)) == lines
    decreases |lines|
  {
    var first := lines[0];
    assert NoNewline(first);
    if |lines| == 1 {
      SplitAfterRun(first, "");
      assert first + "" == first;
    } else {
      var tail := JoinLines(lines[1..]);
      assert SplitLines("\n" + tail) == [""] + lines[1..] by {
        SplitJoin(lines[1..]);
        assert ("\n" + tail)[0] == '\n' && ("\n" + tail)[1..] == tail;
      }
      assert JoinLines(lines) == first + ("\n" + tail) by {
        AppendAssoc(first, "\n", tail);
      }
      SplitAfterRun(first, "\n" + tail);
      assert first + "" == first;
    }
  }

  /** Gluing a character to the front of the first line glues it to the front of the joined text. */
  lemma JoinGlue(c: char, r: seq<string>)
    requires |r| >= 1
    ensures JoinLines([[c] + r[0]] + r[1..]) == [c] + JoinLines(r)
  {
    var head, tail := [c] + r[0], r[1..];
    if |tail| == 0 {
      assert [head] + tail == [head];
    } else {
      var j := JoinLines(tail);
      assert ([head] + tail)[1..] == tail;
      AppendAssoc([c], r[0], "\n");
      AppendAssoc([c], r[0] + "\n", j);
    }
  }

  /** Joining the pieces of a split gives back the text. */
  lemma {:induction false} JoinSplit(s: string)
    ensures JoinLines(SplitLines(s)) == s
    decreases |s|
  {
    if |s| > 0 {
      var rest := SplitLines(s[1..]);
      JoinSplit(s[1..]);
      assert [s[0]] + s[1..] == s;
      if s[0] == '\n' {
        JoinCons("", rest);
      } else {
        JoinGlue(s[0], rest);
      }
    }
  }

  predicate EndsWith(text: string, suffix: string)
  {
    |suffix| <= |text| && text[|text| - |suffix|..] == suffix
  }

  /** The joined text ends with the last line. */
  lemma {:induction false} JoinEndsWithLast(lines: seq<string>)
    requires |lines| >= 1
    ensures EndsWith(JoinLines(lines), lines[|lines| - 1])
    decreases |lines|
  {
    if |lines| > 1 {
      var t := JoinLines(lines[1..]);
      JoinEndsWithLast(lines[1..]);
      assert lines[1..][|lines[1..]| - 1] == lines[|lines| - 1];
      EndsWithAfter(lines[0] + "\n", t, lines[|lines| - 1]);
    }
  }

  lemma EndsWithAfter(p: string, t: string, suffix: string)
    requires EndsWith(t, suffix)
    ensures EndsWith(p + t, suffix)
  {
    assert (p + t)[|p + t| - |suffix|..] == t[|t| - |suffix|..];
  }

  /** With two lines or more, the joined text starts with the first line and a newline. */
  lemma JoinStartsWithFirst(lines: seq<string>)
    requires |lines| >= 2
    ensures StartsWith(JoinLines(lines), lines[0] + "\n")
  {
    var p, t := lines[0] + "\n", JoinLines(lines[1..]);
    assert JoinLines(lines) == p + t;
    assert (p + t)[..|p|] == p;
  }

  // ---------------------------------------------------------------------------
  // The whole document

  /** Only the first top-level entry is rendered: the rest of the top-level mapping is ignored. */
  lemma OnlyFirstEntryRendered(data: seq<Field>, size: int)
    requires WellFormedDocument(data) && |data| > 0
    ensures WellFormedDocument(data[..1])
    ensures Document(data, size) == Document(data[..1], size)
  {
    assert data[..1][0] == data[0];
  }

  /**
   * A rendered document starts with the XML declaration and a newline, and ends,
   * with no trailing newline, with the root's end tag `</root>` (the root at level 0).
   */
  lemma DocumentFrame(data: seq<Field>, size: int)
    requires WellFormedDocument(data) && Document(data, size).Ok?
    ensures StartsWith(Document(data, size).value, Declaration + "\n")
    ensures EndsWith(Document(data, size).value, "</" + data[0].key + ">")
  {
    var root := data[0];
    var block := ElementLines(root.key, root.value.fields, 0, size);
    var lines := [Declaration] + block;
    assert Document(data, size).value == JoinLines(lines);
    ElementEnds(root.key, root.value.fields, 0, size);
    assert |lines| >= 3 && lines[0] == Declaration;
    JoinStartsWithFirst(lines);
    assert lines[|lines| - 1] == "</" + root.key + ">" by {
      assert lines[|lines| - 1] == block[|block| - 1];
      assert Spaces(0) == "";
    }
    JoinEndsWithLast(lines);
  }

  /**
   * When no key or text holds a newline, the document's lines are exactly the
   * declaration followed by the root element's block at level 0.
   */
  lemma DocumentLines(data: seq<Field>, size: int)
    requires WellFormedDocument(data) && Document(data, size).Ok?
    requires NoNewline(data[0].key) && NoNewlineFields(data[0].value.fields)
    ensures SplitLines(Document(data, size).value)
         == [Declaration] + ElementLines(data[0].key, data[0].value.fields, 0, size)
  {
    var root := data[0];
    var block := ElementLines(root.key, root.value.fields, 0, size);
    assert Document(data, size).value == JoinLines([Declaration] + block);
    assert NoNewlineLines(block) by {
      ElementNoNewline(root.key, root.value.fields, 0, size);
    }
    DeclarationOneLine();
    SplitAfterHead(Declaration, block);
  }

  lemma DeclarationOneLine()
    ensures NoNewline(Declaration)
  {
  }

  lemma SplitAfterHead(head: string, block: seq<string>)
    requires NoNewline(head) && NoNewlineLines(block)
    ensures SplitLines(JoinLines([head] + block)) == [head] + block
  {
    NoNewlineLinesConcat([head], block);
    SplitJoin([head] + block);
  }

  // ---------------------------------------------------------------------------
  // A worked document

  /** `{"@attributes": {"version": "1.0"}, "Comment": "c", "name": "x", "item": [{}, {}]}` */
  function WorkedRoot(): seq<Field>
  {
    [ Field(AttributesKey, Obj([Field("version", Scalar("1.0"))])),
      Field(CommentKey, Scalar("c")),
      Field("name", Scalar("x")),
      Field("item", Arr([Obj([]), Obj([])])) ]
  }

  /** Two empty list items at level 2: each is an empty start/end tag pair 8 columns in. */
  lemma WorkedItems()
    ensures ItemsOk([Obj([]), Obj([])])
    ensures Items("item", [Obj([]), Obj([])], 2, 2)
         == ["        <item>", "        </item>", "        <item>", "        </item>"]
  {
    var pair := ["        <item>", "        </item>"];
    EmptyItem();
    assert Items("item", [Obj([])], 2, 2) == pair by {
      SingleItem("item", Obj([]), 2, 2);
    }
    ItemsConcat("item", [Obj([])], [Obj([])], 2, 2);
    assert [Obj([])] + [Obj([])] == [Obj([]), Obj([])];
    assert pair + pair == ["        <item>", "        </item>", "        <item>", "        </item>"];
  }

  /** An empty item at level 2 is a start/end tag pair 8 columns in. */
  lemma EmptyItem()
    ensures WellFormedFields([])
    ensures ElementLines("item", [], 2, 2) == ["        <item>", "        </item>"]
  {
    NoAttributes([]);
    assert Indent(2) + "<" + "item" == "        <item" && Indent(2) + "</" + "item" + ">" == "        </item>";
    assert "        <item" + ">" == "        <item>";
    assert OpeningLines("        <item", []) == ["        <item>"];
  }

  lemma WorkedRootOk()
    ensures WellFormedFields(WorkedRoot())
  {
    var root := WorkedRoot();
    assert WellFormedField(root[0]) && WellFormedField(root[1]);
    assert WellFormedField(root[2]) && WellFormedField(root[3]);
    assert FieldsOk(root);
  }

  /** The start tag of the worked root: the attribute lines up under the column after "<root". */
  lemma WorkedRootStart()
    ensures WellFormedFields(WorkedRoot())
    ensures OpeningLines(Indent(0) + "<" + "root", AttributesOf(WorkedRoot())) == ["<root", "     version=\"1.0\">"]
  {
    WorkedRootOk();
    AttributesFromEntry(WorkedRoot(), 0);
    assert AttributesOf(WorkedRoot()) == [("version", "1.0")];
    assert Spaces(5) == "     ";
    assert AttributeLine("     ", ("version", "1.0")) == "     version=\"1.0\"";
    var open := ["<root"] + AttributeLines(Spaces(5), [("version", "1.0")]);
    assert open == ["<root", "     version=\"1.0\""];
    assert "     version=\"1.0\"" + ">" == "     version=\"1.0\">";
    assert open[..1] + [open[1] + ">"] == ["<root", "     version=\"1.0\">"];
    assert |"<root"| == 5 && Indent(0) + "<" + "root" == "<root";
  }

  /** The body of the worked root: comment and text 2 columns in, the items 8 columns in. */
  lemma WorkedRootBody()
    ensures FieldsOk(WorkedRoot())
    ensures Body(WorkedRoot(), 0, 2)
         == ["  <!-- c -->", "  x", "        <item>", "        </item>", "        <item>", "        </item>"]
  {
    WorkedRootOk();
    var root := WorkedRoot();
    var comment := ["  <!-- c -->"];
    var text := ["  x"];
    var items := ["        <item>", "        </item>", "        <item>", "        </item>"];
    assert BodyLines(root, 0, 2, 1) == [] by {
      AttributesEntryShape(root[0].value, 0, 2);
    }
    assert FieldLines(root[1], 0, 2) == comment by {
      CommentEntryShape(Scalar("c"), 0, 2);
      assert Spaces(2) + "<!-- " + "c" + " -->" == "  <!-- c -->";
    }
    assert FieldLines(root[2], 0, 2) == text by {
      ScalarEntryShape("name", "x", 0, 2);
      assert Spaces(2) + "x" == "  x";
    }
    assert FieldLines(root[3], 0, 2) == items by {
      ListEntryLines("item", Arr([Obj([]), Obj([])]), 0, 2);
      WorkedItems();
    }
    assert BodyLines(root, 0, 2, 2) == comment;
    assert BodyLines(root, 0, 2, 3) == comment + text;
    assert BodyLines(root, 0, 2, 4) == (comment + text) + items;
    assert (comment + text) + items
        == ["  <!-- c -->", "  x", "        <item>", "        </item>", "        <item>", "        </item>"];
    assert Body(root, 0, 2) == BodyLines(root, 0, 2, 4);
  }

  /** The lines of the worked root block. */
  function WorkedLines(): seq<string>
  {
    [ "<root",
      "     version=\"1.0\">",
      "  <!-- c -->",
      "  x",
      "        <item>",
      "        </item>",
      "        <item>",
      "        </item>",
      "</root>" ]
  }

  /** The root block of the worked document with indent size 2. */
  lemma WorkedRootBlock()
    ensures WellFormedFields(WorkedRoot())
    ensures ElementLines("root", WorkedRoot(), 0, 2) == WorkedLines()
  {
    var start := ["<root", "     version=\"1.0\">"];
    var body := ["  <!-- c -->", "  x", "        <item>", "        </item>", "        <item>", "        </item>"];
    assert OpeningLines(Indent(0) + "<" + "root", AttributesOf(WorkedRoot())) == start by {
      WorkedRootStart();
    }
    assert BodyLines(WorkedRoot(), 0, 2, |WorkedRoot()|) == body by {
      WorkedRootBody();
    }
    assert Indent(0) + "</" + "root" + ">" == "</root>";
    assert WorkedLines() == start + body + ["</root>"];
  }

  /**
   * `{"root": {...}}` written with the default indent size 2: the attribute is
   * aligned under the column after "<root", the comment and the text sit 2
   * columns in, and the list items start 8 columns in (level 2, 4 spaces per level).
   */
  lemma WorkedDocument()
    ensures WellFormedDocument([Field("root", Obj(WorkedRoot()))])
    ensures Document([Field("root", Obj(WorkedRoot()))], DefaultIndentSize)
         == Ok(JoinLines([Declaration] + WorkedLines()))
  {
    WorkedRootBlock();
  }
}
