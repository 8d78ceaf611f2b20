# IVOA to W3C provenance converter, modelled in Dafny

The converter reads a PROV-JSON document written with the IVOA Provenance
Data Model vocabulary (`voprov:` names) and writes a document in the W3C
PROV-DM vocabulary (`prov:` names). A document is a three-level dictionary:
class, then instance id, then attribute name, then value. Two tables drive
the conversion. The class table renames some classes and names the
annotations injected into their instances. The attribute table says, per
destination class, how attribute names are renamed.

Two revisions of the converter's main loop are modelled:

- `IvoaProvW3c` models `convert-ivoaprov-w3c.py`, the earlier revision. It
  has a three-entry class table and bare `votype`/`type` annotation keys.
  Every class without an attribute table is copied through with a warning,
  including `parameter` and `parameterDescription`.
- `ToW3c` models `convert-to-w3c.py`, the later revision. It adds a
  `parameter` class rule and namespaced annotation keys. Each parameter
  entity is merged with the `parameterDescription` instance it references.
  Each parameter also gets one synthesised `used` link whose id is `_:p<n>`,
  where `n` is a counter over the whole run. The description class is never
  written out. A parameter whose lookups fail ends the run, as the source's
  `KeyError` does.
- `ToW3cProperties` states what a whole run of the later revision
  guarantees.

Shared modules:

- `Prov` holds values, ordered dictionaries, destination graphs and
  diagnostics.
- `Mapping` holds attribute renaming, annotation and the description merge,
  including the loops that perform them.
- `Decimal` renders the counter as digits, as `'%s' % n` does.

**Representation.**

- A source dictionary is `Dict(keys, items)`: the document order of its keys
  plus the map, with distinct keys. Class order decides which class wins a
  shared bucket. Instance order decides which counter value each parameter
  gets. Attribute order decides which source name wins when two are renamed
  onto one name.
- The destination document is a plain nested map, because it is written with
  sorted keys.
- Values are `Text(s)` for strings and `Other(token)` for numbers, booleans,
  null and nested JSON. The converter inspects strings only, to follow a
  description reference and to inject annotations.
- Each `main()` loop is an imperative `method` with `for` loops over a state.
  - In `ToW3c` the state is the document being built, the counter and the
    printed lines.
  - Each method is proved equal to a left fold (`RunClasses`, `ClassStep`,
    `RunInstances`, `InstanceStep`, `ParameterStep`).
  - The properties are proved as lemmas about those folds.
  - The folds, with `Put`, `Verbatim`, `Annotated` and `MergedParameter`, are
    the definitions that model the source lines. They carry no contract of
    their own, so they have no row in the table below. Each method row's
    `ensures` equates the method with one of these folds, and the lemma rows
    state what the folds compute.
- The later revision's properties are proved for any pair of tables that
  satisfies `ToW3c.Coherent`. `ToW3c.MappingsCoherent` shows that the
  converter's own tables satisfy it.

## Model

| member | source | states |
|---|---|---|
| Prov.PutFacts | convert-to-w3c.py:156-167 | storing an instance, creating its class bucket when missing, adds exactly that class and that entry and leaves every other entry as it was |
| Prov.PutTwice | convert-to-w3c.py:167-193 | writing the same instance id twice keeps only the second write, so re-writing the merged parameter over the annotated one is one write |
| Decimal.NatToDecimalShape | convert-to-w3c.py:200 | the counter renders as a non-empty string of decimal digits that starts with `0` only for zero |
| Decimal.DecimalRoundTrip | convert-to-w3c.py:200 | reading the rendered digits back gives the counter value |
| Decimal.NatToDecimalInjective | convert-to-w3c.py:200 | different counter values render differently |
| Mapping.Except | convert-to-w3c.py:186-187 | the description attributes copied are those of the description except `voprov:id`, and no others |
| Mapping.ExceptDistinct | convert-to-w3c.py:186-187 | skipping `voprov:id` keeps the remaining attribute names distinct |
| Mapping.AnnotateOverwrites | convert-to-w3c.py:176-180 | the injected annotations add their keys, win over a renamed attribute with the same key, and leave every other attribute alone |
| Mapping.RenameIntoKeys | convert-to-w3c.py:168-174 | renaming writes exactly the renamed names beside what was already there: nothing is dropped and nothing invented |
| Mapping.RenameIntoKeeps | convert-to-w3c.py:186-193 | an attribute that no renamed name lands on keeps its value |
| Mapping.RenameIntoLastWins | convert-to-w3c.py:168-174 | under a destination name stands the value of the last source attribute renamed onto it, unchanged |
| Mapping.RenamedKeys | convert-to-w3c.py:165-174 | every source attribute appears under its table name when listed and under its own name otherwise, and nothing else appears |
| Mapping.RenamedValue | convert-to-w3c.py:168-174 | an attribute that no other attribute of the instance shares a destination name with arrives with its value unchanged |
| Mapping.RenamedIdentity | convert-ivoaprov-w3c.py:154-160 | an instance none of whose names is listed in the table is copied unchanged |
| Mapping.RenameAttributes | convert-to-w3c.py:167-174 | the attribute loop builds exactly the renamed instance |
| Mapping.ConvertAttributes | convert-to-w3c.py:167-180 | the instance body builds the renamed instance with the rule's annotations applied after renaming |
| Mapping.MergeAttributes | convert-to-w3c.py:186-193 | the description loop writes every description attribute but the skipped one, renamed, over the instance, in document order |
| IvoaProvW3c.UnmappedKeepsName | convert-ivoaprov-w3c.py:97-112 | every renamed class lands in a class with an attribute table, so a class without a table kept its name |
| IvoaProvW3c.Convert | convert-ivoaprov-w3c.py:127-171 | the nested loops of the earlier revision compute exactly the document and the warnings of the class fold |
| IvoaProvW3c.OutputClasses | convert-ivoaprov-w3c.py:143-148 | the output classes are exactly the images of the input classes under class renaming |
| IvoaProvW3c.UnmappedCopiedVerbatim | convert-ivoaprov-w3c.py:168-171 | a class without an attribute table is copied unchanged under its own name |
| IvoaProvW3c.Warnings | convert-ivoaprov-w3c.py:168-171 | a warning names a class exactly when the class has no attribute table, and nothing else is printed |
| IvoaProvW3c.ParameterClassesCopied | convert-ivoaprov-w3c.py:168-171 | `parameter` and `parameterDescription` get no special case: each is copied verbatim with a warning |
| IvoaProvW3c.RunInstancesSets | convert-ivoaprov-w3c.py:152-166 | after a class's instance loop, each of its instances stands converted in the destination bucket |
| IvoaProvW3c.RunClassesKeepsEntry | convert-ivoaprov-w3c.py:145-153 | an entry survives later classes unless one of them writes the same id into the same bucket; buckets are reused, never cleared |
| IvoaProvW3c.MappedInstanceConverted | convert-ivoaprov-w3c.py:145-166 | an instance of a mapped class ends up renamed and annotated in its destination bucket unless a later class sharing that bucket has the same id: the later class wins |
| IvoaProvW3c.InstancesFromSource | convert-ivoaprov-w3c.py:152-171 | nothing is synthesised: every output entry is an instance of a source class that maps to its bucket |
| ToW3c.MappingsCoherent | convert-to-w3c.py:39-121 | the two tables agree: renamed classes and `used` have attribute tables, `parameterDescription` has none and is not renamed, and parameters land in `entity`, which has a table and is not `used` |
| ToW3c.CoherentFacts | convert-to-w3c.py:145-153 | under coherent tables, a class without an attribute table kept its own name, and only the description class lands in the description class |
| ToW3c.SynthIdsDistinct | convert-to-w3c.py:200 | every synthesised id has the `_:p` prefix, and different counter values give different ids |
| ToW3c.Convert | convert-to-w3c.py:136-215 | the class loop of the later revision computes exactly the result of the class fold, error included |
| ToW3c.ConvertClass | convert-to-w3c.py:138-215 | one pass of the class loop: bucket creation (none for the description class), then the instance loop, the skip notice or the verbatim copy with a warning |
| ToW3c.ConvertInstances | convert-to-w3c.py:166-206 | the instance loop computes the instance fold and stops at the first parameter that fails |
| ToW3c.ConvertInstance | convert-to-w3c.py:166-184 | one instance is renamed and annotated into its destination bucket, and parameters go on to the merge |
| ToW3c.ConvertParameter | convert-to-w3c.py:184-206 | a parameter is merged with its description and linked, or fails on the first lookup that raises |
| ToW3c.ParameterFailureKinds | convert-to-w3c.py:185-196 | a failing parameter reports exactly the first of its four lookups that fails: the description reference, the description class, the description instance, or the activity |
| ToW3c.AddUsedLink | convert-to-w3c.py:196-204 | the link `_:p<n>` holds `prov:activity`, `prov:entity` and `prov:role` as the source writes them, and `used` is created when missing |
| ToW3c.FirstFailureSome | convert-to-w3c.py:184-196 | there is a failure exactly when some parameter's lookups do not all succeed |
| ToW3c.FirstFailureAt | convert-to-w3c.py:184-196 | the failure reported is that of the first such parameter in document order |
| ToW3c.RunClassesCounter | convert-to-w3c.py:136-206 | the counter advances by one per parameter and is never reset between classes |
| ToW3c.RunClassesGrows | convert-to-w3c.py:206 | the counter never decreases over any run of classes |
| ToW3c.RunInstancesLinks | convert-to-w3c.py:195-206 | the `j`-th parameter of the loop is linked under the counter value the loop started from, plus `j` |
| ToW3c.RunClassesKeepsEntry | convert-to-w3c.py:156-167 | an entry survives later classes unless one writes the same id into its bucket or a parameter's synthesised link takes its id |
| ToW3cProperties.ConversionFails | convert-to-w3c.py:184-196 | the run fails if and only if some parameter cannot be resolved, and then with the failure of the first one |
| ToW3cProperties.ConversionBuckets | convert-to-w3c.py:156-162 | the output classes are the destinations of all input classes but `parameterDescription`, plus `used` when there are parameters; `parameterDescription` never appears |
| ToW3cProperties.ConversionCounts | convert-to-w3c.py:136-206 | the counter ends at the number of parameters |
| ToW3cProperties.ConversionDiagnostics | convert-to-w3c.py:207-215 | at most one line per class, in document order, and none for a class with an attribute table: a warning exactly for a class without an attribute table other than the description class, and the skip notice exactly when the description class is present |
| ToW3cProperties.UnmappedCopiedVerbatim | convert-to-w3c.py:213-215 | a class without an attribute table, other than the description class, is copied unchanged under its own name |
| ToW3cProperties.MappedInstanceConverted | convert-to-w3c.py:165-193 | An instance of a mapped class ends up converted in its destination bucket, merged with its description if it is a parameter. It stays there unless a later class writes the same id into that bucket. |
| ToW3cProperties.UsedLinks | convert-to-w3c.py:195-206 | the `k`-th parameter in document order is linked to the activity it names under `_:p<k>` |
| ToW3cProperties.InstancesFromSource | convert-to-w3c.py:158-215 | every output entry is a source instance in its class's destination bucket or one of the synthesised links `_:p0` to `_:p(n-1)` |
| ToW3cProperties.MergedParameterKeys | convert-to-w3c.py:184-193 | a merged parameter has the annotated parameter's keys and the renamed names of every description attribute but `voprov:id` |
| ToW3cProperties.MergedDescriptionWins | convert-to-w3c.py:186-193 | a description attribute overrides the parameter's own attribute of the same W3C name |
| ToW3cProperties.MergedKeepsOwn | convert-to-w3c.py:186-193 | a parameter attribute that no description attribute is renamed to keeps its value |

## Left out

- Command-line parsing, reading and writing files, JSON parsing, indentation and sorted-key output are not modelled. The model starts from the loaded document and ends with the built one. `sort-keys.py` is pure I/O and is not part of this model.
- The output file name derivation is not modelled. Neither is the "Reading file" message, which prints the output name rather than the input name.
- Printed lines: the per-class progress line and the final message are left out. Warnings and the description skip notice become a returned sequence of `Diagnostic` values.
- There is no value conversion, because the source has none. Values other than strings are opaque tokens.
- A non-string description reference is modelled as unresolved. In the source, a number raises `KeyError` and a list or object raises `TypeError`. Either way the run aborts, and the model gives both the same failure.
- Python truthiness of the injected annotation values: every table value is a non-empty string, so `if class_votype:` is modelled as "the rule has a value".
- Aliasing: an unmapped class's bucket is the source's own dictionary object, not a copy. No later write can reach that bucket, because a class without an attribute table kept its own name. The model therefore copies values.
- When a parameter fails, the source has already written part of the document in memory, but it aborts before writing the file. The model returns only the failure.
- ToW3cProperties.MappedInstanceConverted: it also requires that an id landing in `used` does not look like `_:p<n>`. Without that, a parameter's synthesised link could take the same id, and the contract says nothing about that collision.
- ToW3cProperties.UsedLinks: it requires that no class landing in `used` brings an id that looks like `_:p<n>`. The source would let such an instance overwrite a synthesised link or be overwritten by one.
- The properties over arbitrary tables (`ToW3c.Tables`) are a proof device only. The converter runs with the one pair of tables `ToW3c.Mappings`.
