# JsonToPython core in Dafny

This project models the schema-inference and code-emission engine of the
DevToys JSON-to-Python extension, together with the PascalCase normaliser that
it uses for class names.

The converter walks a parsed JSON object. Every object it meets becomes a Python
class in one of three styles: `TypedDict`, `@dataclass` or pydantic `BaseModel`.
Each property becomes a `name: type` line. Scalars are typed `str`, `bool`,
`Any`, or the number type of the chosen mode (`int | float`, `int`, `float`, or
a `Number` alias). An array is typed by its first item only.

Two objects with the same fingerprint share one class. The fingerprint is the
exclusive-or, over the properties, of a hash mix of the property name with the
fingerprint of its type. Name collisions get numeric suffixes. The document is:

1. the import lines;
2. two empty lines;
3. the `type Number = int | float` alias and an empty line, when the alias was
   used;
4. the classes, in the order they were listed (children before their parents).

Modules:

- `Json`: the parsed tree, with objects as ordered sequences of (name, value)
  pairs. The tree may hold duplicate names, as the runtime's parser allows.
- `Fingerprint`: the structural fingerprints, and the proof that they do not
  depend on property order.
- `CaseConverter`: `ToPascalCase` as the source's single loop. It comes with a
  stateless reference rule (how each character is rendered from its
  neighbours), a proof that the two agree, and the per-character rules derived
  from that agreement.
- `Converter`:
  - the converter, as pure functions over an explicit state (the class list and
    the `Any` and `Number` flags);
  - root and class naming;
  - the header;
  - `Convert`.
- `ConverterProperties`: facts that relate several calls:
  - every shape gets a class;
  - nothing else is added;
  - shapes already listed are reused;
  - reordered objects are merged;
  - the list grows with children first.
- `Rendering`: the class code.
  - A state-free reference gives each property's type name, read off a class
    list.
  - Every member line carries the type the walk computed.
  - Every class renders an object of the tree with its fingerprint.
- `NumberModes`: the numeric mode changes how numbers are typed and nothing
  else the walk decides. Fingerprints and list order agree across all four
  modes. Class names agree between modes that reserve `Number` alike.
- `Text`, `Multisets`, `Optional`: helpers (digits, substring search, joining
  lines, multiset bookkeeping).

The runtime's hash mixers, `HashCode.Combine(string, int)` and
`HashCode.Combine(JsonValueKind, int)`, are seeded per process. They are fields
of a `Hasher` value in the configuration, and nothing is assumed about them.
Every property here therefore holds for every seed. Only "same shape, hence
same fingerprint, hence merged" is claimed, never the converse.

`JsonValueKind.GetHashCode()` is the enum's underlying value, from `Object` = 1
to `Null` = 7.

Some consequences of the code, stated as lemmas:

- `true` and `false` are both typed `bool` but contribute different type
  hashes (5 and 6). So `{"a": true}` and `{"a": false}` enter the mixer with
  different inputs, and a mixer that keeps them apart gives them two classes
  that render identically. A mixer that maps both to the same value merges them.
- Exclusive-or cancels a property repeated with the same value. So an object
  such as `{"x": 1, "x": 1}` has the empty object's fingerprint, for every seed.

`PythonDataType` (src/Converters/JsonToPythonConverter.cs:7-12) has three
styles, and all three are modelled.

The root name chosen from the raw text is only the candidate for the root
class. Like any class name, it is PascalCased and goes through the collision
loop. A nested class created earlier can take the name first: a property
`json_root_element` holding an object is classed `JsonRootElement`.

## Model

| member | source | states |
|---|---|---|
| CaseConverter.ToPascalCase | src/Converters/CaseConveter.cs:8-40 | the output holds only letters and digits, and its length is the number of letters and digits in the input (so all-symbol input gives "") |
| CaseConverter.PascalFromMatchesRendered | src/Converters/CaseConveter.cs:13-37 | from every position, the loop with its carried flag produces exactly the stateless per-position rendering of the remaining letters and digits |
| CaseConverter.PascalCaseIsRendered | src/Converters/CaseConveter.cs:8-40 | the whole output equals the per-position rendering of the input's letters and digits, in order |
| CaseConverter.PascalCaseAt | src/Converters/CaseConveter.cs:13-31 | the letter or digit at input position i lands at output position Rank(i), the count of letters and digits before it, rendered by the reference rule |
| CaseConverter.FirstCharacterUpper | src/Converters/CaseConveter.cs:12-22 | the first letter or digit of the input is upper-cased and is the first output character |
| CaseConverter.UpperAfterSeparator | src/Converters/CaseConveter.cs:18-31 | a letter or digit right after a non-alphanumeric character is upper-cased |
| CaseConverter.UpperAfterCaseBoundary | src/Converters/CaseConveter.cs:33-36 | an upper-case letter right after a lower-case letter stays upper case |
| CaseConverter.InsideWord | src/Converters/CaseConveter.cs:23-26 | inside a word, a character is kept if it is upper case and followed by a lower-case letter, and lower-cased otherwise |
| CaseConverter.NotIdempotent | src/Converters/CaseConveter.cs:25 | "a_b" normalises to "AB", and "AB" to "Ab" |
| Text.NatToStringRoundTrip | src/Converters/JsonToPythonConverter.cs:230 | the decimal suffix of a candidate name reads back as its index, so distinct indices give distinct suffixes |
| Text.ContainsAt | src/Converters/JsonToPythonConverter.cs:57 | the substring test holds exactly when the name occurs as a contiguous slice at some position of the raw text |
| Text.JoinAppend | src/Converters/JsonToPythonConverter.cs:106-108 | joining two non-empty blocks of lines gives the first block, the separator, then the second block |
| Fingerprint.KindCode | src/Converters/JsonToPythonConverter.cs:195 | a value kind's hash is its enum value, between 1 and 7 |
| Fingerprint.KindCodesDistinct | src/Converters/JsonToPythonConverter.cs:195 | two kinds have the same hash exactly when they are the same kind |
| Fingerprint.CombineHashes | src/Converters/JsonToPythonConverter.cs:140-150 | folding two hashes from 0 gives their exclusive-or, and xor-ing the term again recovers the running hash |
| Fingerprint.ObjectHashRemove | src/Converters/JsonToPythonConverter.cs:140-150 | any one property's term can be taken out of an object's exclusive-or fingerprint |
| Fingerprint.ObjectHashPermutation | src/Converters/JsonToPythonConverter.cs:140-150 | objects whose properties are permutations of each other have the same fingerprint, for every hash seed |
| Fingerprint.RepeatedPropertyCancels | src/Converters/JsonToPythonConverter.cs:140-150 | a property repeated with the same value cancels out of the fingerprint |
| Converter.FirstWithHash | src/Converters/JsonToPythonConverter.cs:217 | the result is the first list entry with the fingerprint, and there is none exactly when no entry has it |
| Converter.AppendKeepsValid | src/Converters/JsonToPythonConverter.cs:249 | appending a class with a fresh name and a fresh fingerprint keeps names and fingerprints distinct, and keeps `Number` unused in DefineNumber mode |
| Converter.RootIndex | src/Converters/JsonToPythonConverter.cs:54-61 | the search ends at the least index k >= 1 whose candidate root name does not occur in the raw text |
| Converter.ClassName | src/Converters/JsonToPythonConverter.cs:222-231 | the chosen name is no existing class's name and, in DefineNumber mode, not `Number`; it is the base name itself when that is free, and otherwise the base followed by the least decimal suffix k >= 2 whose name is free |
| Converter.ToPythonType | src/Converters/JsonToPythonConverter.cs:115-138 | `Any` exactly for null and object kinds, `Number` exactly for numbers in DefineNumber mode; the Any flag is raised exactly when `Any` is written, the Number flag exactly in that case; the class list is untouched |
| Converter.PropertyType | src/Converters/JsonToPythonConverter.cs:170-209 | the type's fingerprint is the value's structural fingerprint; the class list only grows and stays valid; the flags rise exactly when the value contains null or, in DefineNumber mode, a number |
| Converter.MembersFrom | src/Converters/JsonToPythonConverter.cs:165-214 | the property loop's fingerprint is the running one xor the object's fingerprint; the list only grows and stays valid; the flags follow the kinds the properties contain |
| Converter.DeclarationHeader | src/Converters/JsonToPythonConverter.cs:233-245 | the declaration lines end with the line separator, and the header starts with `@` exactly for the dataclass style |
| Converter.DeclarationHeaderLines | src/Converters/JsonToPythonConverter.cs:233-245 | the header is, in full: `@dataclass` and a line separator for the dataclass style only, then `class ` and the name, then `(TypedDict):`, `:` or `(BaseModel):` by style, then one line separator |
| Converter.NewClass | src/Converters/JsonToPythonConverter.cs:219-251 | a new shape gets a fresh name (the PascalCased candidate when free, never `Number` in DefineNumber mode), its rendered code is appended last, and it is the first entry with its fingerprint |
| Converter.ClassDef | src/Converters/JsonToPythonConverter.cs:152-257 | the returned fingerprint is the object's; earlier entries are an unchanged prefix; the returned name is that of the first entry with the fingerprint; names and fingerprints stay distinct; flags as for the members |
| Converter.Header | src/Converters/JsonToPythonConverter.cs:67-104 | the header has exactly 3 lines, plus one for a separate `from typing import Any` line (dataclass and pydantic styles with the Any flag), plus two for the alias; the style's import comes first, then `from typing import Any` when that line is separate, then two empty lines, then the alias and one empty line, present exactly when the Number flag is set |
| Converter.HeaderImportsAny | src/Converters/JsonToPythonConverter.cs:72-92 | `Any` is imported exactly when the Any flag is set |
| Converter.Conversion | src/Converters/JsonToPythonConverter.cs:43-64 | starting from cleared flags and an empty list, the result lists at least one class, names the root class, has valid names and fingerprints, and the flags say exactly whether null or (DefineNumber) numbers occur |
| Converter.Convert | src/Converters/JsonToPythonConverter.cs:39-113 | the result is an error exactly when parsing failed or the root is not an object; otherwise it is a whole document |
| ConverterProperties.RootNameChoice | src/Converters/JsonToPythonConverter.cs:53-61 | the root candidate name passed to the walk is `JsonRootElement` exactly when the raw text does not contain it; otherwise it is `JsonRootElement<k>` for the least k >= 2 absent from the text |
| CaseConverter.PascalFixedUnchanged | src/Converters/CaseConveter.cs:8-40 | text of letters and digits with no lower-case first letter, and every later upper-case letter right after a lower-case one, comes back unchanged |
| ConverterProperties.RootCandidateUnchanged | src/Converters/JsonToPythonConverter.cs:53-61 | every root candidate `JsonRootElement` or `JsonRootElement<k>` is unchanged by PascalCase normalisation |
| ConverterProperties.NewShapeNamedByCandidate | src/Converters/JsonToPythonConverter.cs:219-249 | an object whose fingerprint is new after its members, and whose normalised candidate is free, gets exactly that candidate as its class name |
| ConverterProperties.RootClassNamedByCandidate | src/Converters/JsonToPythonConverter.cs:53-64 | the root class is named by the root candidate whenever the walk over its properties listed neither that name nor the root's fingerprint, and so is `JsonRootElement` when the raw text does not contain that string |
| ConverterProperties.ClassDefListsShapes | src/Converters/JsonToPythonConverter.cs:152-257 | after a call, every object visited inside it has a class with its fingerprint |
| ConverterProperties.ClassDefAddsOnlyVisited | src/Converters/JsonToPythonConverter.cs:165-251 | every class a call adds has the fingerprint of an object it visited |
| ConverterProperties.ConversionHasOneClassPerShape | src/Converters/JsonToPythonConverter.cs:51-64 | the document's classes carry exactly the distinct fingerprints of the objects in the tree, one class each |
| ConverterProperties.ClassDefReusesListed | src/Converters/JsonToPythonConverter.cs:216-255 | when all shapes of an object are already listed, the call leaves the list unchanged and returns the name of the first class with its fingerprint |
| ConverterProperties.FirstWithHashPrefix | src/Converters/JsonToPythonConverter.cs:217 | classes appended after the first class with a fingerprint do not change which class the lookup finds |
| ConverterProperties.ShapesSeenBeforeAreReused | src/Converters/JsonToPythonConverter.cs:216-255 | an object whose shapes all occurred in an earlier object adds nothing, in any later state that extends the list the earlier call left; with the same fingerprint it gets the earlier class |
| ConverterProperties.PropsVisitedPermutation | src/Converters/JsonToPythonConverter.cs:165-214 | the shapes visited inside an object do not depend on the order of its properties |
| ConverterProperties.ReorderedObjectIsMerged | src/Converters/JsonToPythonConverter.cs:211-255 | an object that reorders an earlier object's properties gets the earlier class and adds nothing, however many calls ran in between |
| ConverterProperties.ReorderedArrayItemIsMerged | src/Converters/JsonToPythonConverter.cs:184-200 | an array whose first item reorders an earlier object is typed `list[<that class>]` and adds nothing, in any later state that extends the list the earlier call left |
| Rendering.ClassDefAppendsAfterChildren | src/Converters/JsonToPythonConverter.cs:165-251 | children first: the classes added while the properties are typed all carry fingerprints of nested objects; the object's own class comes after them, appended only if its fingerprint is new, with the object's fingerprint, and its code is the style's declaration header followed by the object's body typed by the reference rule against the list |
| Rendering.PropertyTypeNamed | src/Converters/JsonToPythonConverter.cs:170-209 | the type name the walk computes for a property value is the state-free reference name (scalar table, `list`, `list[...]`, or the class listed first with the object's fingerprint) in every list that extends the list after the call |
| Rendering.MembersRendered | src/Converters/JsonToPythonConverter.cs:165-213 | the property loop appends exactly one `    name: type` line per property, in document order, each typed by the reference rule, so each line carries the type the walk computed for that property |
| Rendering.ClassBodyStable | src/Converters/JsonToPythonConverter.cs:217 | once an object's nested shapes are listed, later classes do not change the body read off the list |
| Rendering.ConversionRendersClasses | src/Converters/JsonToPythonConverter.cs:212-249 | every class in the document renders an object of the tree that has the class's fingerprint: its style's declaration header with its name, then one member line per property of that object, typed against the final list; its code ends with the line separator |
| ConverterProperties.ScalarPropertyType | src/Converters/JsonToPythonConverter.cs:204-207 | strings are `str`, booleans `bool`, null `Any` (raising the Any flag), numbers the mode's type; the fingerprint is the kind's code and no class is added |
| ConverterProperties.ArrayPropertyType | src/Converters/JsonToPythonConverter.cs:176-203 | an empty array is `list` with the Array fingerprint and no state change; otherwise `list[...]` of the first item's type, an object item classed as `<PascalCase(prop)>Item`, an array item as plain `list` |
| ConverterProperties.ArrayTypeUsesFirstItemOnly | src/Converters/JsonToPythonConverter.cs:184 | two non-empty arrays with the same first item are typed identically |
| ConverterProperties.BooleansTypedAlikeFingerprintedApart | src/Converters/JsonToPythonConverter.cs:204-207 | `true` and `false` are both `bool` but contribute different type hashes (5 and 6) to the object fingerprint |
| ConverterProperties.ChildClassNameNormalisedTwice | src/Converters/JsonToPythonConverter.cs:222-223 | a child class name is PascalCased twice: property `a_b` gives class `Ab` |
| NumberModes.ClassDefModes | src/Converters/JsonToPythonConverter.cs:121-135 | two walks over the same object under different numeric modes, started from lists with the same fingerprints in order, end with lists whose fingerprints agree in order; with the same rule for reserving `Number` and equal names before, names and the returned class name agree too |
| NumberModes.ConversionModes | src/Converters/JsonToPythonConverter.cs:22-29 | whatever the numeric modes, two conversions of a document list the same fingerprints in the same order, give the root the same fingerprint and agree on the Any flag; with the same rule for reserving `Number` (any two of Union, Int, Float) every class name agrees; with neither mode DefineNumber and the same style the header lines are identical |
| NumberModes.ClassNameAlike | src/Converters/JsonToPythonConverter.cs:222-231 | the collision loop's result depends only on the existing names and on whether `Number` is reserved |
| NumberModes.NumberClassRenamedUnderAlias | src/Converters/JsonToPythonConverter.cs:227-231 | a property `number` holding an object is classed `Number2` in DefineNumber mode and `Number` in the other modes |
| ConverterProperties.DocumentLayout | src/Converters/JsonToPythonConverter.cs:67-108 | for an object root, the document is the header block (fixed by style and by which kinds occur), a line break, then the class codes in list order |

## Left out

- JSON parsing (`JsonDocument.Parse` with trailing commas and comments) is a
  foreign library. `Convert` takes the parser's result as `Option<Json>`, where
  `None` stands for a parse failure, and it takes the raw text separately for
  the root-name search.
- `HashCode.Combine` is randomised per process, so it is a `Hasher` parameter.
  No claim is made that different shapes get different fingerprints.
- The exception message returned on failure is modelled as `Error`, without its
  text.
- `Environment.NewLine` is the `newLine` configuration field. `AppendLine` uses
  it too.
- CaseConverter.ToPascalCase: only ASCII is classified. The culture-dependent
  `TextInfo.ToUpper` and the Unicode `char.IsLetterOrDigit`, `IsUpper` and
  `IsLower` are replaced by their ASCII forms, and other characters count as
  separators.
- The `NotImplementedException` branch of the number switch cannot be reached
  with the four modes, so it has no counterpart.
- `JsonValueKind.Undefined` cannot occur in a parsed tree and has no
  counterpart.
- `InvalidOperationException` for a non-object is only reachable at the root,
  since children are passed only when they are objects. It is modelled as
  `Convert`'s `Error`.
- The GUI (src/JsonToPythonGui.cs) and the plugin metadata
  (src/JsonToPythonAssemblyIdentifier.cs) are presentation glue, not part of
  this model.
- The unit tests are not modelled. Their expected outputs (for example, a
  reordered `span2` reusing `Span1`) are instances of
  ConverterProperties.ReorderedObjectIsMerged.
- NumberModes.ConversionModes: class names are claimed equal only between
  modes that reserve `Number` alike. DefineNumber keeps that name for its alias
  (src/Converters/JsonToPythonConverter.cs:227), so there a property `number`
  holding an object is classed `Number2` instead of `Number`
  (NumberModes.NumberClassRenamedUnderAlias). The class code is not compared
  across modes, because its member lines carry the mode's number type.
- Integers: fingerprints are 32-bit vectors, so the wrap-around of the
  runtime's `int` is exact. The name suffix is an unbounded natural, whereas
  the source's `int` index would overflow only after 2^31 collisions.
