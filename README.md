# Attribute-per-line XML writer and skill-map editor, modelled in Dafny

Two pieces of the repository are modelled here.

1. `write_xml` in `xml_newline.py`. It turns a JSON-like nested mapping into XML text.
   - The first line is the XML declaration `<?xml version="1.0" encoding="UTF-8"?>`.
   - Only the first top-level key is rendered, as the root element at level 0.
   - In each element mapping, the `"@attributes"` entry supplies the attributes.
   - A `"Comment"` entry becomes a `<!-- ... -->` line.
   - A nested mapping becomes a child element.
   - A list becomes one sibling element per item, each named after the key.
   - Any other value becomes a bare text line; its key is not written.
   - When an element has attributes, its opening line is `indent + "<" + name` with no `>`.
     Each attribute then sits on its own line, padded by `len(indent + "<" + name)` spaces.
     The `>` is appended to the last attribute line.

2. The data state of `SkillDefinitionsEditor` in `skill_def_editor.py`. This is an
   insertion-ordered map from skill id to a `{display, description}` record, plus the id
   of the skill open in the editor. The model covers the operations that change it:
   - `load_default_data`
   - `load_skill_to_editor`
   - `apply_changes`
   - `create_new_skill`, with its search for a fresh `new_skill`, `new_skill_1`, ... id
   - `delete_current_skill`

The project has four files:

- `xml_newline.dfy` (module `XmlNewline`). The input datatype and the specification functions
  for the rendered lines (`ElementLines`, `Document`). It also holds the methods that follow the
  source's loops (`ProcessElement`, `ProcessEntry`, `ItemElements`, `StartTag`, `WriteXml`).
  Each method is proved to produce exactly the specified lines.
- `xml_newline_properties.dfy` (module `XmlNewlineProperties`). What the output promises:
  - line shapes, columns and nesting indentation;
  - mapping and list order, and the silent `"@attributes"` entry;
  - the document frame and its line structure;
  - a worked example rendered in full.
- `skill_def_editor.dfy` (module `SkillDefEditor`). The state as a value (`EditorState`), the
  specification function of each operation, and the class `SkillDefinitionsEditor`. The class has
  the source's fields, and its methods are proved to compute those functions and to keep the state
  consistent.
- `skill_def_editor_properties.dfy` (module `SkillDefEditorProperties`). What each editor operation
  does to the map, and how operations combine: inverses, idempotence, fresh ids.

The source is followed where it differs from a conventional XML writer. The model keeps these behaviours on purpose:

- Indentation is `"    " * indent_level`, and the level grows by `indent_size` per nesting step.
  So a child is indented by `4 * indent_size` more columns.
- Comment and text lines use `indent + indent_size` spaces.
- Nothing is escaped.
- Text lines and comments come in mapping order, between the children.
- Errors are only the ones Python raises: an empty mapping, or a root value that is not a mapping.

## Model

| member | source | states |
|---|---|---|
| XmlNewline.Repeat | xml_newline.py:16 | Python `s * n`: `n * len(s)` characters drawn from `s`; empty for `n <= 0` |
| XmlNewline.Spaces | xml_newline.py:28 | `" " * n` has `n` characters (none for `n <= 0`), all spaces |
| XmlNewline.Indent | xml_newline.py:16 | `"    " * level` is `4 * level` spaces, and empty for a level `<= 0` |
| XmlNewline.Lookup | xml_newline.py:23-24 | the lookup fails exactly when no entry has the key; on success it returns the value of an entry with that key |
| XmlNewline.AttributePairs | xml_newline.py:31 | `list(attributes.items())`: one `(key, value)` pair per attribute, in insertion order |
| XmlNewline.AttributesOf | xml_newline.py:22-24 | without an `"@attributes"` entry the element has no attributes |
| XmlNewline.AttributeLines | xml_newline.py:32-33 | exactly one line per attribute, in order, each the padding then `key="value"` |
| XmlNewline.JoinLines | xml_newline.py:73 | reference definition of `"\n".join(lines)`: the lines separated by single newlines, none after the last |
| XmlNewline.AttributeLine | xml_newline.py:33 | reference definition of one attribute line: the padding, then `key="value"` verbatim |
| XmlNewline.OpeningLines | xml_newline.py:26-38 | reference definition of the start tag: `opening + ">"` alone without attributes; otherwise `opening`, then one padded line per attribute, with `">"` appended to the last |
| XmlNewline.ElementLines | xml_newline.py:14-67 | reference definition of the list `_process_element(name, data, level)` returns: start tag, body, end tag `indent + "</" + name + ">"` |
| XmlNewline.BodyLines | xml_newline.py:41-63 | reference definition of the lines the loop over `element_data.items()` appends for the first `n` entries, in mapping order |
| XmlNewline.FieldLines | xml_newline.py:43-63 | reference definition of the branch chain for one entry: nothing, a comment line, list items, a child element, or a text line, in the source's test order |
| XmlNewline.ItemsLines | xml_newline.py:52-54 | reference definition of the elements of the first `n` list items, each at `level + indent_size` |
| XmlNewline.Document | xml_newline.py:69-73 | the result is an error exactly for an empty mapping (`next(iter(data))`) or a root value that is not a mapping |
| XmlNewline.ItemStep | xml_newline.py:52-54 | one more list item appends exactly that item's element block |
| XmlNewline.ListEntryLines | xml_newline.py:51-54 | a list entry renders as its items' elements, named by the key, at `level + indent_size` |
| XmlNewline.MappingEntryLines | xml_newline.py:57-59 | a mapping entry renders as a child element named by the key, at `level + indent_size` |
| XmlNewline.StartTag | xml_newline.py:26-38 | the appended lines, including the in-place `lines[-1] += ">"`, equal the specified opening lines |
| XmlNewline.ProcessElement | xml_newline.py:14-67 | `_process_element` returns exactly the start tag, the lines of every entry in mapping order, and the end tag |
| XmlNewline.ProcessEntry | xml_newline.py:41-63 | one loop iteration: nothing for `"@attributes"`, a comment line, the list items' elements, a child element, or a text line |
| XmlNewline.ItemElements | xml_newline.py:52-54 | the loop over a list appends one element per item, in list order |
| XmlNewline.WriteXml | xml_newline.py:1-73 | `write_xml` returns the specified document: the declaration and the first entry's block joined by `"\n"`, or the error Python raises |
| XmlNewlineProperties.IndentIsSpaces | xml_newline.py:16 | the indent of level `l` is `4 * l` spaces |
| XmlNewlineProperties.SpacesConcat | xml_newline.py:48 | `indent + " " * indent_size` is a single run of `4 * level + indent_size` spaces |
| XmlNewlineProperties.AttributesFromEntry | xml_newline.py:22-31 | wherever the `"@attributes"` entry sits, the attributes are its entries, all strings, in insertion order |
| XmlNewlineProperties.NoAttributes | xml_newline.py:26 | with no or an empty `"@attributes"` mapping, there are no attributes |
| XmlNewlineProperties.StartTagWithoutAttributes | xml_newline.py:37-38 | without attributes the block starts with the single line `4*level spaces + "<" + name + ">"` and ends with the end tag |
| XmlNewlineProperties.StartTagWithAttributes | xml_newline.py:26-36 | with `k >= 1` attributes: line 0 is `indent + "<" + name`; lines 1..k are the attributes in order, padded by `len(opening) = 4*level + 1 + len(name)` spaces; `">"` is on the k-th only; the block ends with the end tag |
| XmlNewlineProperties.OpeningShape | xml_newline.py:27-36 | with attributes, the opening is the bare `<name` line, then one padded line per attribute, with `>` on the last |
| XmlNewlineProperties.ElementStartsWithOpening | xml_newline.py:19-38 | an element block begins with its opening lines and ends with `indent + "</" + name + ">"` |
| XmlNewlineProperties.ElementIndented | xml_newline.py:16 | every line of an element at level `l` starts with at least `4 * l` spaces: nesting never dedents |
| XmlNewlineProperties.BodyIndented | xml_newline.py:41-63 | every body line of an element at level `l` starts with at least `4 * l` spaces |
| XmlNewlineProperties.FieldIndented | xml_newline.py:47-63 | the lines of every kind of entry start with at least the element's indent |
| XmlNewlineProperties.ItemsIndented | xml_newline.py:52-54 | the list items' elements start with at least their own level's indent |
| XmlNewlineProperties.OpeningIndented | xml_newline.py:26-38 | the attribute lines are indented at least as far as the opening line |
| XmlNewlineProperties.BodyPrefix | xml_newline.py:41 | the lines of the first `n` entries depend only on those entries |
| XmlNewlineProperties.BodySnoc | xml_newline.py:41 | an extra last entry adds its lines at the end of the body |
| XmlNewlineProperties.BodyConcat | xml_newline.py:41 | entries are rendered in mapping order: the body of `a + b` is the body of `a`, then the body of `b` |
| XmlNewlineProperties.SingleEntryBody | xml_newline.py:41-63 | a one-entry mapping's body is exactly that entry's lines |
| XmlNewlineProperties.WithoutAttributes | xml_newline.py:43-44 | the kept entries are exactly the entries not keyed `"@attributes"` |
| XmlNewlineProperties.AttributesEntrySilent | xml_newline.py:41-44 | the `"@attributes"` entry yields no body line wherever it sits; the body is that of the other entries, in order |
| XmlNewlineProperties.ElementLayout | xml_newline.py:19-66 | an element is its start tag, the lines of its non-attribute entries in order, and its end tag |
| XmlNewlineProperties.ItemsPrefix | xml_newline.py:52 | the elements of the first `n` items depend only on those items |
| XmlNewlineProperties.ItemsSnoc | xml_newline.py:52-54 | an extra last item adds its element at the end |
| XmlNewlineProperties.ItemsConcat | xml_newline.py:52-54 | list items become sibling elements in list order: items of `a + b` are those of `a`, then those of `b` |
| XmlNewlineProperties.SingleItem | xml_newline.py:52-54 | a one-item list renders exactly as that item's element |
| XmlNewlineProperties.AttributesEntryShape | xml_newline.py:43-44 | the `"@attributes"` entry yields no body line |
| XmlNewlineProperties.CommentEntryShape | xml_newline.py:47-48 | a `"Comment"` entry is the single line `<!-- text -->` at column `4*level + indent_size`, text verbatim |
| XmlNewlineProperties.ScalarEntryShape | xml_newline.py:62-63 | a plain value is its text alone, verbatim, at column `4*level + indent_size`; the key is not written |
| XmlNewlineProperties.ElementEnds | xml_newline.py:19-66 | an element block has at least two lines; the first starts with `4*level spaces + "<" + name`; the last is `4*level spaces + "</" + name + ">"` |
| XmlNewlineProperties.OpeningStartsWith | xml_newline.py:26-38 | the first line of a start tag starts with `indent + "<" + name` |
| XmlNewlineProperties.NoNewlineConcat | xml_newline.py:73 | a concatenation has no newline exactly when neither part has one |
| XmlNewlineProperties.OpeningNoNewline | xml_newline.py:26-38 | newline-free names and attributes give newline-free start-tag lines |
| XmlNewlineProperties.AttributesNoNewline | xml_newline.py:22-31 | the attributes of newline-free fields are newline-free |
| XmlNewlineProperties.ElementNoNewline | xml_newline.py:14-67 | when no key or text holds a newline, no output line of an element does |
| XmlNewlineProperties.BodyNoNewline | xml_newline.py:41-63 | newline-free entries give newline-free body lines |
| XmlNewlineProperties.FieldNoNewline | xml_newline.py:41-63 | a newline-free entry of any kind gives newline-free lines |
| XmlNewlineProperties.NestedEntryNoNewline | xml_newline.py:51-59 | a newline-free mapping or list entry gives newline-free element lines |
| XmlNewlineProperties.LineEntryNoNewline | xml_newline.py:47-48 | a newline-free comment or plain value is one newline-free line |
| XmlNewlineProperties.ItemsNoNewline | xml_newline.py:52-54 | newline-free list items give newline-free element lines |
| XmlNewlineProperties.SplitLines | xml_newline.py:73 | splitting at `"\n"` always gives at least one piece |
| XmlNewlineProperties.SplitJoin | xml_newline.py:73 | `"\n".join` is undone by splitting at `"\n"` when no line holds a newline |
| XmlNewlineProperties.JoinSplit | xml_newline.py:73 | joining the pieces of a split at `"\n"` gives back the text |
| XmlNewlineProperties.JoinEndsWithLast | xml_newline.py:73 | the joined text ends with the last line, so nothing follows it: no trailing newline |
| XmlNewlineProperties.JoinStartsWithFirst | xml_newline.py:73 | with two lines or more, the joined text starts with the first line and a single newline |
| XmlNewlineProperties.OnlyFirstEntryRendered | xml_newline.py:70-71 | only the first top-level entry matters: dropping the others leaves the result unchanged |
| XmlNewlineProperties.DocumentFrame | xml_newline.py:11-73 | a rendered document starts with the declaration and `"\n"`, and ends with the root's `</root>` with no trailing newline |
| XmlNewlineProperties.DocumentLines | xml_newline.py:11-73 | with newline-free keys and texts, the document's lines are exactly the declaration, then the root block at level 0 |
| XmlNewlineProperties.DeclarationOneLine | xml_newline.py:12 | the declaration is a single line |
| XmlNewlineProperties.WorkedItems | xml_newline.py:51-66 | two empty list items at level 2 are two `<item>`/`</item>` pairs, 8 columns in |
| XmlNewlineProperties.WorkedRootStart | xml_newline.py:26-36 | `<root` with one attribute gives `<root`, then `version="1.0">` padded by 5 spaces |
| XmlNewlineProperties.WorkedRootBody | xml_newline.py:41-63 | the body of the worked root: comment and text 2 columns in, list items 8 columns in, in mapping order |
| XmlNewlineProperties.WorkedRootBlock | xml_newline.py:14-67 | the whole block of the worked root, line by line |
| XmlNewlineProperties.WorkedDocument | xml_newline.py:1-73 | the complete text `write_xml` returns for the worked input with the default `indent_size` 2 |
| SkillDefEditor.Consistent | skill_def_editor.py:19-20 | the state invariant: the key order lists each key of `skill_data` exactly once, and `current_skill_id`, when set, is a key |
| SkillDefEditor.HasSelection | skill_def_editor.py:262 | Python truthiness of `current_skill_id` in the guards at lines 262 and 344: neither `None` nor `""` |
| SkillDefEditor.ApplyCheck | skill_def_editor.py:262-273 | reference definition of the guards of `apply_changes`, in their order: no open skill, empty id, id taken by another skill, otherwise applied |
| SkillDefEditor.AfterApply | skill_def_editor.py:276-287 | reference definition of the state after `apply_changes`: unchanged unless applied; a rename deletes the old key and inserts `new_id` at the end, an unchanged id is updated in place; `new_id` becomes open |
| SkillDefEditor.AfterCreate | skill_def_editor.py:317-333 | reference definition of the state after `create_new_skill`: the first free candidate added at the end with empty texts, then opened through `load_skill_to_editor` |
| SkillDefEditor.AfterDelete | skill_def_editor.py:344-355 | reference definition of the state after `delete_current_skill`: unchanged without an open skill or a yes; otherwise the open key is deleted and no skill is open |
| SkillDefEditor.RemoveConcat | skill_def_editor.py:283 | `del` keeps the other keys in order: removing an id from `a + b` removes it from `a` and from `b` separately |
| SkillDefEditor.RemoveMiddle | skill_def_editor.py:283 | deleting a key that occurs once closes the gap: the keys before and after it keep their order |
| SkillDefEditor.DigitsValue | skill_def_editor.py:322 | reference definition of the number a digit string spells in base 10, read left to right |
| SkillDefEditor.DecimalValue | skill_def_editor.py:322 | `Decimal(n)` is `str(n)`: its digits spell `n` in base 10, with no leading zero |
| SkillDefEditor.Remove | skill_def_editor.py:283 | `del` on the key order keeps exactly the other ids |
| SkillDefEditor.Digit | skill_def_editor.py:322 | the digit `d` below 10 is the character `'0' + d`, as `str` writes it |
| SkillDefEditor.Decimal | skill_def_editor.py:322 | `str(n)` is a non-empty string of digits, with two digits or more exactly when `n >= 10` |
| SkillDefEditor.DecimalInjective | skill_def_editor.py:322 | different counters give different decimal strings |
| SkillDefEditor.Candidate | skill_def_editor.py:317-322 | the k-th id tried is `new_skill` exactly when `k = 0`, and always starts with `new_skill` |
| SkillDefEditor.CandidateInjective | skill_def_editor.py:317-322 | different counters give different candidate ids |
| SkillDefEditor.TriedCard | skill_def_editor.py:321-323 | the first `n` candidates are `n` distinct ids |
| SkillDefEditor.TriedBound | skill_def_editor.py:321-323 | if the first `n` candidates are all keys, the map has at least `n` keys, so the search loop ends |
| SkillDefEditor.FirstFreeFrom | skill_def_editor.py:321-323 | from candidate `k` on, the search stops at the first unused candidate, at an index `<= len(skill_data)` |
| SkillDefEditor.FirstFree | skill_def_editor.py:321-323 | the chosen index is `<= len(skill_data)`; its candidate is unused and every earlier candidate is a key |
| SkillDefEditor.Select | skill_def_editor.py:219-220 | opening a skill changes only the current id, and only when the id is a key |
| SkillDefEditor.RemoveDistinct | skill_def_editor.py:283 | deleting a key from a repeat-free order keeps it repeat-free and one shorter |
| SkillDefEditor.RemoveAbsent | skill_def_editor.py:283 | deleting an id that is not in the order changes nothing |
| SkillDefEditor.AppendFresh | skill_def_editor.py:286 | adding a new key at the end keeps the order repeat-free |
| SkillDefEditor.ValidCard | skill_def_editor.py:19 | in a consistent state the key order has exactly one entry per key |
| SkillDefEditor.SkillDefinitionsEditor.constructor | skill_def_editor.py:18-20 | `__init__` ends with the default map, no open skill, and a consistent state |
| SkillDefEditor.SkillDefinitionsEditor.LoadDefaultData | skill_def_editor.py:189-199 | the map becomes exactly `{"skill_id": {"display": "", "description": ""}}`; the open skill is untouched |
| SkillDefEditor.SkillDefinitionsEditor.LoadSkillToEditor | skill_def_editor.py:217-226 | the new state is `Select` of the old one, consistency is kept, and the returned record is the one the form shows |
| SkillDefEditor.SkillDefinitionsEditor.ApplyChanges | skill_def_editor.py:260-287 | the outcome is the path the guards take; the new state is `AfterApply` of the old; consistency is kept |
| SkillDefEditor.SkillDefinitionsEditor.UnusedSkillId | skill_def_editor.py:317-323 | the search loop ends, and returns the first candidate that is not a key |
| SkillDefEditor.SkillDefinitionsEditor.CreateNewSkill | skill_def_editor.py:314-333 | the added id is the first free candidate; the new state is `AfterCreate` of the old; consistency is kept |
| SkillDefEditor.SkillDefinitionsEditor.DeleteCurrentSkill | skill_def_editor.py:342-355 | deletion happens exactly with an open skill and a yes; the new state is `AfterDelete` of the old; consistency is kept |
| SkillDefEditorProperties.DefaultStateConsistent | skill_def_editor.py:191-198 | the default state is consistent and holds the single key `"skill_id"` with empty texts |
| SkillDefEditorProperties.SelectEffect | skill_def_editor.py:219-220 | opening keeps consistency; an unknown id changes nothing; afterwards the id is open exactly when it is a key or was already open |
| SkillDefEditorProperties.ApplyRejected | skill_def_editor.py:262-273 | each rejection happens exactly under its condition: no open skill; an empty id; a different id already taken. A rejection changes nothing |
| SkillDefEditorProperties.RemoveAppended | skill_def_editor.py:283-286 | deleting a just-appended fresh id gives the order back |
| SkillDefEditorProperties.ApplyEffect | skill_def_editor.py:276-287 | on success: consistency is kept; `new_id` maps to the new record and is open; a renamed old id is gone and `new_id` moves to the end of the key order, while an unchanged id keeps the order; every other entry is unchanged; the number of skills is the same |
| SkillDefEditorProperties.ApplyIdempotent | skill_def_editor.py:260-287 | applying the same values twice is the same as applying them once |
| SkillDefEditorProperties.RenameBack | skill_def_editor.py:282-287 | renaming a skill and then renaming it back restores the map (with the new record) and the open id |
| SkillDefEditorProperties.CreateEffect | skill_def_editor.py:314-333 | exactly one key is added: the first free candidate, which was not a key, with empty texts, at the end of the order. It becomes the open skill |
| SkillDefEditorProperties.CandidateNames | skill_def_editor.py:317-322 | the ids tried are `new_skill`, `new_skill_1`, `new_skill_2`, ..., `new_skill_10` |
| SkillDefEditorProperties.CreateTwiceFromDefault | skill_def_editor.py:314-333 | from the default data, two new skills are `new_skill`, then `new_skill_1` |
| SkillDefEditorProperties.DeleteEffect | skill_def_editor.py:344-355 | without an open skill or a yes, nothing changes. Otherwise exactly the open key is removed, from the map and from the key order with the other keys in order, and no skill is open; consistency is kept |
| SkillDefEditorProperties.CreateThenDelete | skill_def_editor.py:314-355 | deleting a freshly created skill gives back the map and its order, with no skill open |

## Left out

- The Qt user interface of `skill_def_editor.py` has no data effect and is not modelled. This covers:
  - widget construction, layout and styling;
  - signal wiring;
  - `set_editor_enabled`;
  - the title handlers `on_skill_id_changed` and `on_field_changed`;
  - `on_skill_selected`;
  - the widget filling in `refresh_skills_list`;
  - the loops that select an item in the list after apply and create.
- The skills list shows the keys in insertion order. The model keeps that order as the `skillIds` field.
- The editor's widgets are not modelled. The values the methods read from them become parameters:
  - the stripped id text;
  - the display and description texts;
  - the answer to the delete confirmation dialog.
  `str.strip()` itself is not modelled: the id arrives already stripped.
- The warning and information dialogs are not modelled. `ApplyChanges` reports which of them `apply_changes` shows as an `ApplyOutcome`.
- `revert_changes` is left out: it only reads the open skill back into the widgets.
- `save_json`, `load_json`, `preview_json` and `main` are left out. They are file dialogs, file I/O and JSON encoding, i.e. foreign library calls.
  - The class methods require `Valid()`: ids and keys agree, and the open skill, if any, is a key. `Valid()` holds in every reachable state, including after a `load_json`: that method replaces the map (skill_def_editor.py:395) and clears the open skill on the next line (skill_def_editor.py:396), and a map with no open skill is consistent.
- `Skill` records always hold both texts. The `.get(..., "")` defaults of `load_skill_to_editor` apply only to records loaded from a file.
- Python's dynamic typing in `write_xml` is excluded by `WellFormedFields`. These inputs are outside the model:
  - a non-mapping list item;
  - a non-mapping or nested `"@attributes"` value;
  - a non-string attribute value;
  - a non-string `"Comment"` value.
- Scalars are strings, so `str()` of numbers, booleans and `None` is not modelled.
- Duplicate keys cannot occur in a Python dict, so the model requires distinct keys.
- `write_xml`'s nested `_process_element` is written as `ProcessElement` plus the helper methods `StartTag`, `ProcessEntry` and `ItemElements`. Each helper is one of its loops. `ProcessEntry` is the body of the entries loop, and `ItemElements` is the loop over a list.
- XmlNewlineProperties.CommentEntryShape, ScalarEntryShape, ElementEnds, ElementIndented, BodyIndented, FieldIndented and ItemsIndented: these column lemmas require `level >= 0` (and `indent_size >= 0` where it is added).
  - Python's `" " * n` with a negative `n` is empty, so the column arithmetic `4*level + indent_size` does not hold for negative values.
  - The line functions themselves model negative values exactly.
- XmlNewlineProperties.DocumentLines: this is stated only for keys and texts without a newline. No escaping is done, so a newline inside a text splits an output line.
- Nothing in the code escapes XML. None of these exist in the source, so none is modelled:
  - character escaping;
  - a separate explicit-tree input form;
  - named errors for bad tags;
  - a "width times depth" indentation convention.
  The model follows the code's `"    " * indent_level` with `indent_level` stepping by `indent_size`.
